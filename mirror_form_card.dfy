/** The Mirror edition requirement card: the options built from the
    edition list, the lookup of the chosen edition, the picker's search text,
    filter and menu, and the event that writes the chosen edition into the
    requirement. The edition list is a parameter (None while not loaded). */
module MirrorFormCard {
  import opened Wrappers
  import opened Js
  import opened Ascii
  import opened FormRules

  datatype Edition = Edition(editionId: int, title: string, image: string, contractAddress: string)

  datatype EditionOption = EditionOption(img: string, caption: string, value: int, details: string,
                                         address: string)

  /** The option text next to an edition: `#<editionId>`. */
  function Details(editionId: int): string {
    "#" + IntToDecimal(editionId)
  }

  /** `mappedEditions`. */
  function MapEditions(editions: Option<seq<Edition>>): (r: Option<seq<EditionOption>>)
    ensures r.Some? <==> editions.Some?
    ensures r.Some? ==> |r.value| == |editions.value|
    ensures r.Some? ==> forall i :: 0 <= i < |r.value| ==>
      r.value[i] == EditionOption(editions.value[i].image, editions.value[i].title,
                                  editions.value[i].editionId, Details(editions.value[i].editionId),
                                  editions.value[i].contractAddress)
  {
    match editions
    case None => None
    case Some(es) =>
      Some(seq(|es|, i requires 0 <= i < |es| =>
        EditionOption(es[i].image, es[i].title, es[i].editionId, Details(es[i].editionId),
                      es[i].contractAddress)))
  }

  /** Whether an edition is the one the requirement names. */
  predicate Names(e: Edition, value: Value, address: Value) {
    Num(e.editionId) == value && Str(e.contractAddress) == address
  }

  function FindEdition(es: seq<Edition>, value: Value, address: Value): (r: Option<nat>)
    ensures r.Some? ==> r.value < |es| && Names(es[r.value], value, address)
    ensures r.Some? ==> forall j :: 0 <= j < r.value ==> !Names(es[j], value, address)
    ensures r.None? ==> forall j :: 0 <= j < |es| ==> !Names(es[j], value, address)
    decreases |es|
  {
    if |es| == 0 then None
    else if Names(es[0], value, address) then Some(0)
    else
      match FindEdition(es[1..], value, address)
      case None => None
      case Some(k) => Some(k + 1)
  }

  /** `editionById`: the first edition with the chosen id and contract
      address, or null. */
  function EditionById(editions: Option<seq<Edition>>, value: Value, address: Value): (r: Option<Edition>)
    ensures r.Some? ==> editions.Some? && Names(r.value, value, address)
    ensures r.Some? ==> exists i :: 0 <= i < |editions.value| && editions.value[i] == r.value &&
                                    forall j :: 0 <= j < i ==> !Names(editions.value[j], value, address)
    ensures r.None? <==>
      editions.None? || forall j :: 0 <= j < |editions.value| ==> !Names(editions.value[j], value, address)
  {
    if editions.None? then None
    else
      match FindEdition(editions.value, value, address)
      case None => None
      case Some(i) => Some(editions.value[i])
  }

  /** `filterOption`: the lower-cased title contains the lower-cased input. */
  predicate Filter(caption: string, input: string) {
    Includes(ToLower(caption), ToLower(input))
  }

  /** The value field: required. */
  const ValueRules: Rules := RequiredOnly(RequiredMessage)

  /** The requirement and the picker's search text. */
  datatype CardState = CardState(req: Requirement, valueInput: string)

  /** `onChange`: the chosen option's id into the value and its contract
      into the address; clearing the picker makes both undefined. */
  function AfterChoose(s: CardState, chosen: Option<EditionOption>): (t: CardState)
    ensures t.valueInput == s.valueInput && t.req.chain == s.req.chain && t.req.kind == s.req.kind
    ensures chosen.None? ==> IsEmptyValue(t.req.value) && IsEmptyValue(t.req.address)
    ensures chosen.Some? ==>
      t.req.value == Num(chosen.value.value) && t.req.address == Str(chosen.value.address)
  {
    match chosen
    case None => s.(req := s.req.(value := Undefined, address := Undefined))
    case Some(o) => s.(req := s.req.(value := Num(o.value), address := Str(o.address)))
  }

  class MirrorCard {
    var req: Requirement
    var valueInput: string

    function State(): CardState
      reads this
    {
      CardState(req, valueInput)
    }

    constructor (field: Requirement)
      ensures State() == CardState(field, "")
    {
      req := field;
      valueInput := "";
    }

    method Choose(chosen: Option<EditionOption>)
      modifies this
      ensures State() == AfterChoose(old(State()), chosen)
    {
      req := req.(value := if chosen.Some? then Num(chosen.value.value) else Undefined);
      req := req.(address := if chosen.Some? then Str(chosen.value.address) else Undefined);
    }

    /** `onInputChange`; the menu then opens exactly for a search text of
        more than two characters. */
    method InputChanged(text: string)
      modifies this
      ensures State() == old(State()).(valueInput := text)
      ensures MenuIsOpen() <==> |text| > 2
    {
      valueInput := text;
    }

    /** `menuIsOpen`: only once more than two characters are typed. */
    predicate MenuIsOpen()
      reads this
    {
      |valueInput| > 2
    }
  }

  // -----------------------------------------------------------------------
  // Properties

  /** Each option shows the edition's details text, which reads back as
      the edition id after the '#'. */
  lemma OptionDetails(editions: seq<Edition>, i: nat)
    requires i < |editions|
    ensures var o := MapEditions(Some(editions)).value[i];
      && o.value == editions[i].editionId && o.address == editions[i].contractAddress
      && o.details[0] == '#' && ParseDecimal(o.details[1..]) == Some(editions[i].editionId)
  {
    var d := Details(editions[i].editionId);
    assert d[1..] == IntToDecimal(editions[i].editionId);
    IntToDecimalRoundTrip(editions[i].editionId);
  }

  /** Choosing an option writes the id and the contract together, so the
      lookup then finds an edition with both; the chain and type are kept. */
  lemma ChosenEditionFound(s: CardState, editions: seq<Edition>, i: nat)
    requires i < |editions|
    ensures var t := AfterChoose(s, Some(MapEditions(Some(editions)).value[i]));
      && t.req.chain == s.req.chain && t.req.kind == s.req.kind
      && EditionById(Some(editions), t.req.value, t.req.address).Some?
      && EditionById(Some(editions), t.req.value, t.req.address).value.editionId == editions[i].editionId
      && EditionById(Some(editions), t.req.value, t.req.address).value.contractAddress ==
           editions[i].contractAddress
  {
    var t := AfterChoose(s, Some(MapEditions(Some(editions)).value[i]));
    assert Names(editions[i], t.req.value, t.req.address);
  }

  /** Clearing the picker leaves the required value empty. */
  lemma ClearingFailsRequired(s: CardState)
    ensures Check(ValueRules, AfterChoose(s, None).req.value) == Some(FieldError(Required, RequiredMessage))
  {
  }

  /** The filter ignores letter case, and an empty input matches every
      option. */
  lemma FilterProperties(caption: string, input: string)
    ensures Filter(ToUpper(caption), input) == Filter(caption, input)
    ensures Filter(caption, ToUpper(input)) == Filter(caption, input)
    ensures Filter(caption, "")
  {
    LowerForgetsCase(caption);
    LowerForgetsCase(input);
    assert OccursAt(ToLower(caption), ToLower(""), 0);
  }
}
