/** The NFT requirement card: picking a listed collection or adding a
    custom contract address, the effect that settles a custom address on
    an OpenSea collection or a plain NFT contract, the attribute pickers
    and the amount field. The OpenSea, metadata and token lookups are
    parameters: their results and whether they are still loading. */
module NftFormCard {
  import opened Wrappers
  import opened Js
  import opened Ascii
  import opened FormRules

  /** The requirement, the slug of the picked collection and whether the
      address was typed in as a custom NFT. */
  datatype CardState = CardState(req: Requirement, pickedNftSlug: Value, isCustomNft: bool)

  /** An option of the collection picker. */
  datatype NftOption = NftOption(img: string, caption: string, value: string, slug: Value)

  /** The result of the OpenSea lookup for a custom address, when one was
      found. */
  datatype OpenseaNft = OpenseaNft(slug: Value)

  /** `onChange` of the picker: a listed collection, looked up on OpenSea
      by its slug, with no attribute and no value chosen yet. */
  function AfterPickListed(s: CardState, picked: NftOption): (t: CardState)
    ensures t.req.chain == s.req.chain
    ensures t.req.address == Str(picked.value) && !t.isCustomNft
  {
    CardState(s.req.(address := Str(picked.value), kind := Str("OPENSEA"), data := Null, value := Null),
              picked.slug, false)
  }

  /** `onCreateOption`: a custom address, first tried as OpenSea. */
  function AfterCreateOption(s: CardState, created: string): (t: CardState)
    ensures t.isCustomNft && t.req.address == Str(created) && t.req.kind == Str("OPENSEA")
    ensures t.req.chain == s.req.chain && t.req.value == s.req.value && t.req.data == s.req.data
    ensures t.pickedNftSlug == s.pickedNftSlug
  {
    s.(isCustomNft := true, req := s.req.(address := Str(created), kind := Str("OPENSEA")))
  }

  /** The effect on a custom NFT: a finished OpenSea lookup that found the
      collection keeps type OPENSEA without a value; otherwise the card
      falls back to a plain NFT with amount 1. Either way the attribute is
      cleared. */
  function AfterCustomNftLookup(s: CardState, openseaLoading: bool, found: Option<OpenseaNft>)
    : (t: CardState)
    ensures !s.isCustomNft ==> t == s
    ensures s.isCustomNft ==>
      && t.isCustomNft && t.req.data == Null
      && t.req.chain == s.req.chain && t.req.address == s.req.address
      && (t.req.kind == Str("OPENSEA") || t.req.kind == Str("NFT"))
      && (t.req.kind == Str("OPENSEA") <==> !openseaLoading && found.Some?)
  {
    if !s.isCustomNft then s
    else if !openseaLoading && found.Some? then
      s.(pickedNftSlug := found.value.slug,
         req := s.req.(kind := Str("OPENSEA"), value := Null, data := Null))
    else s.(req := s.req.(kind := Str("NFT"), value := Num(1), data := Null))
  }

  class NftCard {
    var req: Requirement
    var pickedNftSlug: Value
    var isCustomNft: bool

    function State(): CardState
      reads this
    {
      CardState(req, pickedNftSlug, isCustomNft)
    }

    /** A card starts with no collection picked and no custom address. */
    constructor (field: Requirement)
      ensures State() == CardState(field, Null, false)
    {
      req := field;
      pickedNftSlug := Null;
      isCustomNft := false;
    }

    method PickListed(picked: NftOption)
      modifies this
      ensures State() == AfterPickListed(old(State()), picked)
    {
      req := req.(address := Str(picked.value));
      pickedNftSlug := picked.slug;
      isCustomNft := false;
      req := req.(kind := Str("OPENSEA"));
      req := req.(data := Null);
      req := req.(value := Null);
    }

    method CreateOption(created: string)
      modifies this
      ensures State() == AfterCreateOption(old(State()), created)
    {
      isCustomNft := true;
      req := req.(address := Str(created));
      req := req.(kind := Str("OPENSEA"));
    }

    method CustomNftLookupSettled(openseaLoading: bool, found: Option<OpenseaNft>)
      modifies this
      ensures State() == AfterCustomNftLookup(old(State()), openseaLoading, found)
    {
      if !isCustomNft {
        return;
      }
      if !openseaLoading && found.Some? {
        pickedNftSlug := found.value.slug;
        req := req.(kind := Str("OPENSEA"));
        req := req.(value := Null);
      } else {
        req := req.(kind := Str("NFT"));
        req := req.(value := Num(1));
      }
      req := req.(data := Null);
    }
  }

  /** `nftDataFetched`: the lookup gave a non-empty name and symbol. */
  predicate NftDataFetched(name: Value, symbol: Value) {
    name.Str? && |name.s| > 0 && symbol.Str? && |symbol.s| > 0
  }

  /** `wrongChain`: the lookup answered null for both. */
  predicate WrongChain(name: Value, symbol: Value) {
    name == Null && symbol == Null
  }

  const FetchFailedMessage: string := "Couldn't fetch NFT data"

  /** The address field's `validate` callback, as written. */
  function AddressValidate(openseaLoading: bool, found: bool, tokenLoading: bool,
                           name: Value, symbol: Value): (r: Value)
    ensures r == Bool(true) || r == Str(FetchFailedMessage)
    ensures !openseaLoading && found ==> r == Bool(true)
  {
    Or(Bool(!openseaLoading && found),
       Or(Bool(!tokenLoading),
          Or(Bool(!WrongChain(name, symbol)),
             Or(Bool(NftDataFetched(name, symbol)), Str(FetchFailedMessage)))))
  }

  function AddressRules(openseaLoading: bool, found: bool, tokenLoading: bool,
                        name: Value, symbol: Value): (r: Rules)
    ensures r.required == Some(RequiredMessage) && r.max.None? && r.min.None?
    ensures r.pattern.Some? && r.pattern.value.message == AddressMessage
    ensures forall s :: r.pattern.value.test(s) <==> IsAddress(s)
    ensures r.validate.Some?
  {
    Rules(Some(RequiredMessage), None, None, Some(PatternRule(IsAddress, AddressMessage)),
          Some((_: Value) => AddressValidate(openseaLoading, found, tokenLoading, name, symbol)))
  }

  /** `filterOption`: the lower-cased label contains the lower-cased
      input, or the lower-cased address equals it. */
  predicate FilterOption(caption: string, value: string, input: string) {
    Includes(ToLower(caption), ToLower(input)) || ToLower(value) == ToLower(input)
  }

  /** `charAt(0).toUpperCase() + slice(1)`. */
  function Capitalise(s: string): (c: string)
    ensures |c| == |s| && SameIgnoringCase(c, s)
    ensures |s| > 0 ==> c[0] == UpperChar(s[0]) && c[1..] == s[1..]
  {
    if |s| == 0 then "" else [UpperChar(s[0])] + s[1..]
  }

  const AnyAttribute: string := "Any attribute"
  const AnyAttributeValue: string := "Any attribute values"

  datatype AttributeOption = AttributeOption(caption: string, value: string)

  /** The attribute picker's options: none without attribute names,
      otherwise "" (labelled "Any attribute") followed by every name,
      capitalised. */
  function AttributeOptions(names: seq<string>): (opts: seq<AttributeOption>)
    ensures |opts| == if |names| == 0 then 0 else |names| + 1
    ensures forall i :: 0 <= i < |opts| ==> opts[i].caption != ""
  {
    if |names| == 0 then []
    else
      var all := [""] + names;
      seq(|all|, i requires 0 <= i < |all| =>
        AttributeOption(if Capitalise(all[i]) == "" then AnyAttribute else Capitalise(all[i]), all[i]))
  }

  datatype ValueOption = ValueOption(caption: string, value: Value)

  /** The label of an attribute value: its text, capitalised, or the
      placeholder for a value with no text. */
  function ValueLabel(v: Value): (l: string)
    ensures |l| > 0
    ensures Nullish(v) || v == Str("") ==> l == AnyAttributeValue
    ensures v.Str? && v.s != "" ==> l == Capitalise(v.s)
  {
    if Nullish(v) || Capitalise(ToText(v)) == "" then AnyAttributeValue else Capitalise(ToText(v))
  }

  /** The value picker's options: none without values, otherwise "" then
      every value. */
  function ValueOptions(values: seq<Value>): (opts: seq<ValueOption>)
    ensures |opts| == if |values| == 0 then 0 else |values| + 1
    ensures |values| > 0 ==> opts[0].value == Str("") && forall i :: 1 <= i < |opts| ==> opts[i].value == values[i - 1]
  {
    if |values| == 0 then []
    else
      var all := [Str("")] + values;
      seq(|all|, i requires 0 <= i < |all| => ValueOption(ValueLabel(all[i]), all[i]))
  }

  /** Whether the attribute pickers are shown. */
  predicate ShowAttributes(address: Value, kind: Value, metadataLoading: bool, nameCount: nat) {
    !Truthy(address) || (kind != Str("NFT") && !metadataLoading && nameCount > 0)
  }

  /** The two number inputs replace the value picker when the attribute
      has exactly two values and both are numbers. */
  predicate ShowRange(values: seq<Value>) {
    |values| == 2 && values[0].Num? && values[1].Num?
  }

  /** The lower input's onChange: an emptied input stands for the lower
      bound. `toNumber` is the unary `+` on the typed text. */
  function RangeLow(values: seq<Value>, text: string, toNumber: string -> int): (n: int)
    requires ShowRange(values)
    ensures text == "" && values[0].n <= values[1].n ==> Check(RangeRules(values), Num(n)).None?
    ensures text != "" ==> n == toNumber(text)
  {
    if text == "" then values[0].n else toNumber(text)
  }

  /** The upper input's onChange: an emptied input stands for the upper
      bound. */
  function RangeHigh(values: seq<Value>, text: string, toNumber: string -> int): (n: int)
    requires ShowRange(values)
    ensures text == "" && values[0].n <= values[1].n ==> Check(RangeRules(values), Num(n)).None?
    ensures text != "" ==> n == toNumber(text)
  {
    if text == "" then values[1].n else toNumber(text)
  }

  /** Both range inputs carry the attribute's bounds as `min` and `max`. */
  function RangeRules(values: seq<Value>): (r: Rules)
    requires ShowRange(values)
    ensures r.required.None? && r.pattern.None? && r.validate.None?
    ensures r.min == Some(Bound(values[0].n, "Minimum: " + IntToDecimal(values[0].n)))
    ensures r.max == Some(Bound(values[1].n, "Maximum: " + IntToDecimal(values[1].n)))
  {
    Rules(None, Some(Bound(values[1].n, "Maximum: " + IntToDecimal(values[1].n))),
          Some(Bound(values[0].n, "Minimum: " + IntToDecimal(values[0].n))), None, None)
  }

  /** The amount field is shown for an address without attributes. */
  predicate ShowAmount(address: Value, metadataLoading: bool, nameCount: nat) {
    Truthy(address) && !metadataLoading && nameCount == 0
  }

  const AmountMessage: string := "Amount must be positive"

  /** The amount's rules: required only for a custom plain NFT, and at
      least 1. */
  function AmountRules(isCustomNft: bool, kind: Value): (r: Rules)
    ensures r.min == Some(Bound(1, AmountMessage)) && r.max.None? && r.pattern.None?
    ensures r.validate.None?
  {
    Rules(if isCustomNft && kind == Str("NFT") then Some(RequiredMessage) else None,
          None, Some(Bound(1, AmountMessage)), None, None)
  }

  // -----------------------------------------------------------------------
  // Properties

  /** Picking a listed collection makes an OpenSea requirement for its
      address with no attribute and no value, and ends custom mode; the
      chain is kept. */
  lemma PickListedResets(s: CardState, picked: NftOption)
    ensures var t := AfterPickListed(s, picked);
      && t.req.address == Str(picked.value) && t.req.kind == Str("OPENSEA")
      && t.req.data == Null && t.req.value == Null && t.req.chain == s.req.chain
      && t.pickedNftSlug == picked.slug && !t.isCustomNft
  {
  }

  /** The lookup effect does nothing after a listed pick. */
  lemma ListedPickIgnoresLookup(s: CardState, picked: NftOption, openseaLoading: bool,
                                found: Option<OpenseaNft>)
    ensures AfterCustomNftLookup(AfterPickListed(s, picked), openseaLoading, found) ==
      AfterPickListed(s, picked)
  {
  }

  /** Adding a custom address and letting the lookup settle keeps the
      address and clears the attribute; a found collection gives an
      OpenSea requirement without value, anything else a plain NFT with
      amount 1, whose amount then passes its rules. */
  lemma CustomNftSettles(s: CardState, created: string, openseaLoading: bool,
                         found: Option<OpenseaNft>)
    ensures var t := AfterCustomNftLookup(AfterCreateOption(s, created), openseaLoading, found);
      && t.isCustomNft && t.req.address == Str(created) && t.req.data == Null
      && t.req.chain == s.req.chain
      && (!openseaLoading && found.Some? ==>
            t.req.kind == Str("OPENSEA") && t.req.value == Null && t.pickedNftSlug == found.value.slug)
      && (!(!openseaLoading && found.Some?) ==>
            t.req.kind == Str("NFT") && t.req.value == Num(1) && t.pickedNftSlug == s.pickedNftSlug
            && Check(AmountRules(t.isCustomNft, t.req.kind), t.req.value).None?)
  {
  }

  /** Once an address is set and its metadata has loaded, the amount
      field and the attribute pickers are never shown together: an
      address without attribute names gets the amount field, one with
      names gets the pickers unless its type is NFT, and then neither. */
  lemma AmountOrAttributes(address: Value, kind: Value, nameCount: nat)
    requires Truthy(address)
    ensures !(ShowAmount(address, false, nameCount) && ShowAttributes(address, kind, false, nameCount))
    ensures ShowAmount(address, false, nameCount) <==> nameCount == 0
    ensures ShowAttributes(address, kind, false, nameCount) <==> kind != Str("NFT") && nameCount > 0
    ensures ShowAmount(address, true, nameCount) == false
  {
  }

  /** Without an address the pickers are shown and the amount is not. */
  lemma NoAddressShowsPickers(address: Value, kind: Value, metadataLoading: bool, nameCount: nat)
    requires !Truthy(address)
    ensures ShowAttributes(address, kind, metadataLoading, nameCount)
    ensures !ShowAmount(address, metadataLoading, nameCount)
  {
  }

  /** A wrong chain is never fetched data. */
  lemma WrongChainNotFetched(name: Value, symbol: Value)
    ensures WrongChain(name, symbol) ==> !NftDataFetched(name, symbol)
    ensures NftDataFetched(name, symbol) ==> !WrongChain(name, symbol)
  {
  }

  /** As written, the check reports its message only while the token
      lookup is still in flight, on a wrong chain, and without a finished
      OpenSea match: once the lookup has finished it always passes. */
  lemma FetchCheckFailsIff(openseaLoading: bool, found: bool, tokenLoading: bool,
                           name: Value, symbol: Value)
    ensures ValidateError(AddressValidate(openseaLoading, found, tokenLoading, name, symbol)).Some?
      <==> !(!openseaLoading && found) && tokenLoading && WrongChain(name, symbol)
    ensures !tokenLoading ==>
      ValidateError(AddressValidate(openseaLoading, found, tokenLoading, name, symbol)).None?
  {
    WrongChainNotFetched(name, symbol);
  }

  /** A non-empty address fails the pattern unless it is a well-formed
      address, in either case of the prefix. */
  lemma AddressPatternIff(s: string, openseaLoading: bool, found: bool, tokenLoading: bool,
                          name: Value, symbol: Value)
    requires s != ""
    ensures PatternFails(AddressRules(openseaLoading, found, tokenLoading, name, symbol), Str(s))
      <==> !IsAddress(s)
    ensures IsAddress(s) ==> IsAddress("0X" + s[2..]) && IsAddress("0x" + s[2..])
  {
    if IsAddress(s) {
      assert ("0X" + s[2..])[2..] == s[2..];
      assert ("0x" + s[2..])[2..] == s[2..];
    }
  }

  /** The filter ignores letter case on every side, an empty input matches
      every option, and an option's own address finds it. */
  lemma FilterProperties(caption: string, value: string, input: string)
    ensures FilterOption(caption, value, ToUpper(input)) == FilterOption(caption, value, input)
    ensures FilterOption(ToUpper(caption), ToUpper(value), input) == FilterOption(caption, value, input)
    ensures FilterOption(caption, value, "")
    ensures FilterOption(caption, value, value)
  {
    LowerForgetsCase(input);
    LowerForgetsCase(caption);
    LowerForgetsCase(value);
    assert OccursAt(ToLower(caption), ToLower(""), 0);
  }

  /** With attribute names there is a leading "Any attribute" option for
      "", then one option per name, in order, labelled with the name
      capitalised; without names there are no options. */
  lemma AttributeOptionsShape(names: seq<string>)
    ensures |names| == 0 ==> AttributeOptions(names) == []
    ensures |names| > 0 ==>
      var opts := AttributeOptions(names);
      && |opts| == |names| + 1
      && opts[0] == AttributeOption(AnyAttribute, "")
      && forall i :: 0 <= i < |names| ==>
           (opts[i + 1].value == names[i] &&
            (names[i] != "" ==> opts[i + 1].caption == Capitalise(names[i]) &&
                                SameIgnoringCase(opts[i + 1].caption, names[i])))
  {
    if |names| > 0 {
      var all := [""] + names;
      forall i | 0 <= i < |names| ensures all[i + 1] == names[i] { }
    }
  }

  /** Every value option carries its value and a non-empty label. */
  lemma ValueOptionsShape(values: seq<Value>)
    ensures |values| == 0 ==> ValueOptions(values) == []
    ensures |values| > 0 ==>
      var opts := ValueOptions(values);
      && |opts| == |values| + 1
      && opts[0] == ValueOption(AnyAttributeValue, Str(""))
      && forall i :: 0 <= i < |values| ==> opts[i + 1].value == values[i] && opts[i + 1].caption != ""
  {
    if |values| > 0 {
      var all := [Str("")] + values;
      forall i | 0 <= i < |values| ensures all[i + 1] == values[i] { }
    }
  }

  /** An emptied range input falls back to its own bound, and a number in
      range passes both inputs' rules. */
  lemma RangeFallbacks(values: seq<Value>, text: string, toNumber: string -> int, n: int)
    requires ShowRange(values)
    ensures RangeLow(values, "", toNumber) == values[0].n
    ensures RangeHigh(values, "", toNumber) == values[1].n
    ensures text != "" ==> RangeLow(values, text, toNumber) == toNumber(text) == RangeHigh(values, text, toNumber)
    ensures Check(RangeRules(values), Num(n)).None? <==> values[0].n <= n <= values[1].n
  {
  }

  /** The amount is required only for a custom plain NFT, and any amount
      given must be at least 1. */
  lemma AmountRulesIff(isCustomNft: bool, kind: Value, n: int)
    ensures Check(AmountRules(isCustomNft, kind), Undefined).Some? <==> isCustomNft && kind == Str("NFT")
    ensures Check(AmountRules(isCustomNft, kind), Num(n)).None? <==> n >= 1
  {
  }
}
