/** The POAP requirement card: the options built from the POAP list, the
    search filter on their names, the lookup of the chosen POAP and the
    rule on the value field. The POAP list itself is fetched elsewhere and
    is a parameter (None while it is not loaded). */
module PoapFormCard {
  import opened Wrappers
  import opened Js
  import opened Ascii
  import opened FormRules

  datatype Poap = Poap(fancyId: string, name: string, imageUrl: string)

  /** An option of the picker: image, shown text, and the value stored in
      the form. */
  datatype PoapOption = PoapOption(img: string, caption: string, value: string)

  /** `mappedPoaps`. */
  function MapPoaps(poaps: Option<seq<Poap>>): (r: Option<seq<PoapOption>>)
    ensures r.Some? <==> poaps.Some?
    ensures r.Some? ==> |r.value| == |poaps.value|
    ensures r.Some? ==> forall i :: 0 <= i < |r.value| ==>
      r.value[i] == PoapOption(poaps.value[i].imageUrl, poaps.value[i].name, poaps.value[i].fancyId)
  {
    match poaps
    case None => None
    case Some(ps) =>
      Some(seq(|ps|, i requires 0 <= i < |ps| => PoapOption(ps[i].imageUrl, ps[i].name, ps[i].fancyId)))
  }

  /** `customFilterOption`: the lower-cased name starts with the
      lower-cased input, or one of its space-separated words equals it. */
  predicate CustomFilter(caption: string, input: string) {
    StartsWith(ToLower(caption), ToLower(input)) || ToLower(input) in Split(ToLower(caption), ' ')
  }

  /** The first POAP in `ps` whose fancy id is `value`. */
  function FindPoap(ps: seq<Poap>, value: Value): (r: Option<nat>)
    ensures r.Some? ==> r.value < |ps| && Str(ps[r.value].fancyId) == value
    ensures r.Some? ==> forall j :: 0 <= j < r.value ==> Str(ps[j].fancyId) != value
    ensures r.None? ==> forall j :: 0 <= j < |ps| ==> Str(ps[j].fancyId) != value
    decreases |ps|
  {
    if |ps| == 0 then None
    else if Str(ps[0].fancyId) == value then Some(0)
    else
      match FindPoap(ps[1..], value)
      case None => None
      case Some(k) => Some(k + 1)
  }

  /** `poapByFancyId`: the first POAP with the chosen fancy id, or null. */
  function PoapByFancyId(poaps: Option<seq<Poap>>, value: Value): (r: Option<Poap>)
    ensures r.Some? ==> poaps.Some? && Str(r.value.fancyId) == value
    ensures r.Some? ==> exists i :: 0 <= i < |poaps.value| && poaps.value[i] == r.value &&
                                   forall j :: 0 <= j < i ==> Str(poaps.value[j].fancyId) != value
    ensures r.None? <==>
      poaps.None? || forall j :: 0 <= j < |poaps.value| ==> Str(poaps.value[j].fancyId) != value
  {
    if poaps.None? then None
    else
      match FindPoap(poaps.value, value)
      case None => None
      case Some(i) => Some(poaps.value[i])
  }

  /** The value field: required. */
  const ValueRules: Rules := RequiredOnly(RequiredMessage)

  // -----------------------------------------------------------------------
  // Properties

  /** Choosing any option finds its POAP again (the first with that fancy
      id). */
  lemma OptionFindsPoap(poaps: seq<Poap>, i: nat)
    requires i < |poaps|
    ensures var v := Str(MapPoaps(Some(poaps)).value[i].value);
      PoapByFancyId(Some(poaps), v).Some? &&
      PoapByFancyId(Some(poaps), v).value.fancyId == poaps[i].fancyId
  {
  }

  /** The filter ignores letter case in the name and in the input. */
  lemma FilterIgnoresCase(caption: string, input: string)
    ensures CustomFilter(ToUpper(caption), input) == CustomFilter(caption, input)
    ensures CustomFilter(caption, ToUpper(input)) == CustomFilter(caption, input)
  {
    LowerForgetsCase(caption);
    LowerForgetsCase(input);
  }

  /** A name written as space-separated words matches any one of its
      words, typed in any case. */
  lemma WordMatches(words: seq<string>, k: nat, input: string)
    requires |words| > 0 && k < |words|
    requires forall w :: w in words ==> ' ' !in w
    requires ToLower(input) == ToLower(words[k])
    ensures CustomFilter(Join(words, ' '), input)
  {
    var lowered := seq(|words|, i requires 0 <= i < |words| => ToLower(words[i]));
    LowerJoin(words, ' ');
    forall w | w in lowered ensures ' ' !in w {
      var i :| 0 <= i < |lowered| && lowered[i] == w;
      assert words[i] in words;
    }
    JoinSplit(lowered, ' ');
    assert lowered[k] == ToLower(input);
  }

  /** There are only the two ways to match: a prefix of the lower-cased
      name, or a maximal run of non-space characters of it. */
  lemma OnlyTwoWays(caption: string, input: string)
    requires CustomFilter(caption, input)
    ensures var words := Split(ToLower(caption), ' ');
      StartsWith(ToLower(caption), ToLower(input)) ||
      (ToLower(input) in words && ' ' !in ToLower(input) && Join(words, ' ') == ToLower(caption))
  {
    SplitJoin(ToLower(caption), ' ');
  }

  /** The value is valid iff a POAP was chosen. */
  lemma ValueRequired(v: Value)
    ensures Check(ValueRules, v).None? <==> !IsEmptyValue(v)
  {
    RequiredOnlyIff(RequiredMessage, v);
  }
}
