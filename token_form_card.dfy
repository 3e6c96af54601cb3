/** The ERC-20 requirement card: the chain, token address and minimum
    amount of one requirement, the search text typed into the token picker,
    and the rules the address and amount fields are registered with. The
    token lookup (`useTokenData`) is a parameter: its name and symbol and
    whether it is still in flight. */
module TokenFormCard {
  import opened Wrappers
  import opened Js
  import opened Ascii
  import opened FormRules

  /** What the card's events read and write: the requirement, whether its
      address field was touched, which of its fields carry an error, and
      the picker's search text. */
  datatype CardState = CardState(req: Requirement, addressTouched: bool, errors: set<string>,
                                 addressInput: string)

  /** `resetForm`, run on a chain change: only a touched address is reset,
      together with the amount and both fields' errors. */
  function AfterChainChange(s: CardState): (t: CardState)
    ensures t.addressTouched == s.addressTouched && t.addressInput == s.addressInput
    ensures t.req.chain == s.req.chain && t.req.kind == s.req.kind && t.req.data == s.req.data
    ensures t.errors <= s.errors
    ensures s.addressTouched ==> t.req.address == Null && "address" !in t.errors && "value" !in t.errors
  {
    if !s.addressTouched then s
    else s.(req := s.req.(address := Null, value := Num(0)), errors := s.errors - {"address", "value"})
  }

  /** The effect on an address change: the all-zero address means the
      chain's native coin. */
  function AfterAddressChange(s: CardState): (t: CardState)
    ensures t.req.address == s.req.address && t.req.chain == s.req.chain && t.req.value == s.req.value
    ensures t.req.kind != s.req.kind ==> t.req.kind == Str("COIN")
  {
    if s.req.address == Str(ZeroAddress) then s.(req := s.req.(kind := Str("COIN"))) else s
  }

  /** `onInputChange`: pasted text that is an address becomes the field
      value; anything else is kept as search text. */
  function AfterInput(s: CardState, text: string): (t: CardState)
    ensures t.req.address == s.req.address || (t.req.address == Str(text) && IsAddress(text))
    ensures t.req.chain == s.req.chain && t.req.kind == s.req.kind && t.req.value == s.req.value
    ensures t.addressTouched == s.addressTouched && t.errors == s.errors
  {
    if IsAddress(text) then s.(req := s.req.(address := Str(text))) else s.(addressInput := text)
  }

  /** `onChange` of the picker: the picked option's address, or undefined
      when the picker is cleared. */
  function AfterPick(s: CardState, picked: Option<string>): (t: CardState)
    ensures t.req.address.Str? <==> picked.Some?
    ensures picked.Some? ==> t.req.address.s == picked.value
    ensures t.req.chain == s.req.chain && t.addressInput == s.addressInput
  {
    s.(req := s.req.(address := if picked.Some? then Str(picked.value) else Undefined))
  }

  class TokenCard {
    var req: Requirement
    var addressTouched: bool
    var errors: set<string>
    var addressInput: string

    function State(): CardState
      reads this
    {
      CardState(req, addressTouched, errors, addressInput)
    }

    /** A card opened on a requirement: nothing touched, no errors, no
        search text. */
    constructor (field: Requirement)
      ensures State() == CardState(field, false, {}, "")
    {
      req := field;
      addressTouched := false;
      errors := {};
      addressInput := "";
    }

    /** The address field's onBlur. */
    method Touch()
      modifies this
      ensures State() == old(State()).(addressTouched := true)
    {
      addressTouched := true;
    }

    method ChainChanged()
      modifies this
      ensures State() == AfterChainChange(old(State()))
    {
      if !addressTouched {
        return;
      }
      req := req.(address := Null);
      req := req.(value := Num(0));
      errors := errors - {"address", "value"};
    }

    method AddressChanged()
      modifies this
      ensures State() == AfterAddressChange(old(State()))
    {
      if req.address != Str(ZeroAddress) {
        return;
      }
      req := req.(kind := Str("COIN"));
    }

    method InputChanged(text: string)
      modifies this
      ensures State() == AfterInput(old(State()), text)
    {
      if IsAddress(text) {
        req := req.(address := Str(text));
      } else {
        addressInput := text;
      }
    }

    method Picked(picked: Option<string>)
      modifies this
      ensures State() == AfterPick(old(State()), picked)
    {
      req := req.(address := if picked.Some? then Str(picked.value) else Undefined);
    }
  }

  /** `tokenDataFetched`: the lookup gave a name and a symbol, neither of
      them the placeholder "-". */
  predicate TokenDataFetched(name: Value, symbol: Value) {
    name.Str? && name.s != "-" && symbol.Str? && symbol.s != "-"
  }

  const FetchFailedMessage: string := "Failed to fetch token data"

  /** The address field's `validate` callback on the current address:
      `!address || isValidating || tokenDataFetched || message`. */
  function AddressValidate(address: Value, isValidating: bool, fetched: bool): (r: Value)
    ensures r == Bool(true) || r == Str(FetchFailedMessage)
    ensures !Truthy(address) ==> r == Bool(true)
  {
    Or(Bool(!Truthy(address)), Or(Bool(isValidating), Or(Bool(fetched), Str(FetchFailedMessage))))
  }

  function AddressRules(isValidating: bool, fetched: bool): (r: Rules)
    ensures r.required == Some(RequiredMessage) && r.max.None? && r.min.None?
    ensures r.pattern.Some? && r.pattern.value.message == AddressMessage
    ensures forall s :: r.pattern.value.test(s) <==> IsAddress(s)
  {
    Rules(Some(RequiredMessage), None, None, Some(PatternRule(IsAddress, AddressMessage)),
          Some((v: Value) => AddressValidate(v, isValidating, fetched)))
  }

  const AmountMessage: string := "Amount must be positive"

  /** The amount field: required, and at least 0. */
  function AmountRules(): (r: Rules)
    ensures r.required == Some(RequiredMessage) && r.min == Some(Bound(0, AmountMessage))
    ensures r.max.None? && r.pattern.None? && r.validate.None?
  {
    Rules(Some(RequiredMessage), None, Some(Bound(0, AmountMessage)), None, None)
  }

  /** `menuIsOpen`: forced only for a list of more than 80 tokens, and then
      open only once more than two characters are typed; otherwise left to
      the picker (None). */
  function MenuIsOpen(tokenCount: Option<nat>, addressInput: string): (open: Option<bool>)
    ensures open.Some? <==> tokenCount.Some? && tokenCount.value > 80
    ensures open.Some? ==> (open.value <==> |addressInput| > 2)
  {
    if tokenCount.Some? && tokenCount.value > 80 then Some(|addressInput| > 2) else None
  }

  // -----------------------------------------------------------------------
  // Properties

  /** A chain change resets exactly a touched address and amount, and
      their errors; an untouched card is left alone. Resetting twice is
      resetting once. */
  lemma ChainChangeResets(s: CardState)
    ensures var t := AfterChainChange(s);
      && (s.addressTouched ==>
            t.req == s.req.(address := Null, value := Num(0)) &&
            t.errors == s.errors - {"address", "value"} &&
            t.addressTouched && t.addressInput == s.addressInput)
      && (!s.addressTouched ==> t == s)
      && AfterChainChange(t) == t
  {
  }

  /** After a reset the amount satisfies its rules. */
  lemma ResetAmountIsValid(s: CardState)
    requires s.addressTouched
    ensures Check(AmountRules(), AfterChainChange(s).req.value).None?
  {
  }

  /** Only the all-zero address switches the type to COIN, and nothing
      else changes. */
  lemma CoinOnlyForZeroAddress(s: CardState)
    ensures s.req.address == Str(ZeroAddress) ==>
      AfterAddressChange(s) == s.(req := s.req.(kind := Str("COIN")))
    ensures s.req.address != Str(ZeroAddress) ==> AfterAddressChange(s) == s
  {
  }

  /** Text that becomes the field value always passes the required and
      pattern rules; other text leaves the requirement untouched. */
  lemma InputBecomesValidAddress(s: CardState, text: string, isValidating: bool, fetched: bool)
    ensures IsAddress(text) ==>
      var v := AfterInput(s, text).req.address;
      !RequiredFails(AddressRules(isValidating, fetched), v) &&
      !PatternFails(AddressRules(isValidating, fetched), v)
    ensures !IsAddress(text) ==>
      AfterInput(s, text).req == s.req && AfterInput(s, text).addressInput == text
  {
  }

  /** The fetch check fails, with its message, exactly when an address is
      set, no lookup is in flight and the data was not fetched. */
  lemma FetchCheckFailsIff(address: Value, isValidating: bool, fetched: bool)
    ensures ValidateError(AddressValidate(address, isValidating, fetched)).Some? <==>
      Truthy(address) && !isValidating && !fetched
    ensures ValidateError(AddressValidate(address, isValidating, fetched)).Some? ==>
      ValidateError(AddressValidate(address, isValidating, fetched)).value == FetchFailedMessage
  {
  }

  /** With the lookup's own answer: the check fails exactly when an address
      is set, no lookup is in flight, and the name or the symbol is missing
      or the placeholder "-". */
  lemma FetchCheckWithLookup(address: Value, isValidating: bool, name: Value, symbol: Value)
    ensures ValidateError(AddressValidate(address, isValidating, TokenDataFetched(name, symbol))).Some?
      <==> Truthy(address) && !isValidating &&
           (!name.Str? || name == Str("-") || !symbol.Str? || symbol == Str("-"))
  {
    FetchCheckFailsIff(address, isValidating, TokenDataFetched(name, symbol));
  }

  /** A typed address is accepted iff it is a well-formed address and the
      lookup is in flight or succeeded; the empty text fails as required. */
  lemma AddressAcceptedIff(s: string, isValidating: bool, fetched: bool)
    ensures Check(AddressRules(isValidating, fetched), Str(s)).None? <==>
      IsAddress(s) && (isValidating || fetched)
    ensures s == "" ==>
      Check(AddressRules(isValidating, fetched), Str(s)) == Some(FieldError(Required, RequiredMessage))
    ensures s != "" && !IsAddress(s) ==>
      Check(AddressRules(isValidating, fetched), Str(s)) == Some(FieldError(Pattern, AddressMessage))
  {
    FetchCheckFailsIff(Str(s), isValidating, fetched);
  }

  /** An amount is accepted iff it is a number of at least 0. */
  lemma AmountAcceptedIff(n: int)
    ensures Check(AmountRules(), Num(n)).None? <==> n >= 0
    ensures n < 0 ==> Check(AmountRules(), Num(n)) == Some(FieldError(Min, AmountMessage))
    ensures Check(AmountRules(), Undefined) == Some(FieldError(Required, RequiredMessage))
  {
  }
}
