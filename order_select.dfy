/** The guild list's "Order by" select: three comparators over guilds, the
    default order, and the effect that sorts a copy of the list whenever the
    list or the order changes. */
module OrderSelect {
  import opened Wrappers
  import opened Ascii

  /** The two fields of a guild the comparators read. */
  datatype Guild = Guild(id: int, name: string)

  datatype Order = Name | Oldest | Newest

  /** The keys of the `ordering` object in declaration order: the options the
      select offers. */
  const OrderKeys: seq<string> := ["name", "oldest", "newest"]

  /** The order the component starts with. */
  const DefaultOrder: Order := Newest

  function KeyOf(o: Order): (k: string)
    ensures k in OrderKeys
  {
    match o
    case Name => "name"
    case Oldest => "oldest"
    case Newest => "newest"
  }

  /** `ordering[key]`: the comparator an option of the select stands for. */
  function OrderOfKey(k: string): (o: Option<Order>)
    ensures o.Some? <==> k in OrderKeys
    ensures o.Some? ==> KeyOf(o.value) == k
  {
    if k == "name" then Some(Name)
    else if k == "oldest" then Some(Oldest)
    else if k == "newest" then Some(Newest)
    else None
  }

  /** The `name` comparator: -1, 1 or 0 from comparing the upper-cased names
      with `<` and `>`. */
  function CompareNames(a: Guild, b: Guild): (r: int)
    ensures r == -1 || r == 0 || r == 1
    ensures r == -1 <==> LexLess(ToUpper(a.name), ToUpper(b.name))
    ensures r == 1 <==> LexLess(ToUpper(b.name), ToUpper(a.name))
    ensures r == 0 <==> ToUpper(a.name) == ToUpper(b.name)
  {
    var nameA := ToUpper(a.name);
    var nameB := ToUpper(b.name);
    LexLessTrichotomy(nameA, nameB);
    if LexLess(nameA, nameB) then -1
    else if LexLess(nameB, nameA) then 1
    else 0
  }

  /** The comparator an order selects; a negative result puts `a` first. */
  function Compare(o: Order, a: Guild, b: Guild): (r: int)
    ensures o == Name ==> (r < 0 <==> LexLess(ToUpper(a.name), ToUpper(b.name)))
    ensures o == Name ==> (r == 0 <==> ToUpper(a.name) == ToUpper(b.name))
    ensures o == Oldest ==> (r < 0 <==> a.id < b.id) && (r == 0 <==> a.id == b.id)
    ensures o == Newest ==> (r < 0 <==> b.id < a.id) && (r == 0 <==> a.id == b.id)
  {
    match o
    case Name => CompareNames(a, b)
    case Oldest => a.id - b.id
    case Newest => b.id - a.id
  }

  /** `name` is antisymmetric: swapping the guilds negates the result. */
  lemma NameAntisymmetric(a: Guild, b: Guild)
    ensures CompareNames(a, b) == -CompareNames(b, a)
  {
  }

  /** Names that differ only in letter case compare equal. */
  lemma NameIgnoresCase(a: Guild, b: Guild)
    requires SameIgnoringCase(a.name, b.name)
    ensures CompareNames(a, b) == 0
  {
    assert ToUpper(a.name) == ToUpper(b.name);
  }

  /** `oldest` puts the smaller id first and `newest` is its exact negation. */
  lemma OldestNewest(a: Guild, b: Guild)
    ensures Compare(Oldest, a, b) < 0 <==> a.id < b.id
    ensures Compare(Newest, a, b) == -Compare(Oldest, a, b)
  {
  }

  /** Every comparator is total: when `a` does not go before `b`, `b` may go
      before `a`. */
  lemma CompareTotal(o: Order, a: Guild, b: Guild)
    requires Compare(o, a, b) > 0
    ensures Compare(o, b, a) < 0
  {
    if o == Name { NameAntisymmetric(a, b); }
  }

  /** Every comparator is transitive. */
  lemma CompareTransitive(o: Order, a: Guild, b: Guild, c: Guild)
    requires Compare(o, a, b) <= 0 && Compare(o, b, c) <= 0
    ensures Compare(o, a, c) <= 0
  {
    if o == Name {
      var na, nb, nc := ToUpper(a.name), ToUpper(b.name), ToUpper(c.name);
      if na != nb && nb != nc { LexLessTransitive(na, nb, nc); }
    }
  }

  /** `ordering[order]` as a function value, the argument `sort` receives. */
  function Comparator(o: Order): (Guild, Guild) -> int {
    (a: Guild, b: Guild) => Compare(o, a, b)
  }

  /** A comparator that never insists on both orders of two elements. */
  ghost predicate Total(cmp: (Guild, Guild) -> int) {
    forall x, y :: cmp(x, y) > 0 ==> cmp(y, x) < 0
  }

  ghost predicate Transitive(cmp: (Guild, Guild) -> int) {
    forall x, y, z :: cmp(x, y) <= 0 && cmp(y, z) <= 0 ==> cmp(x, z) <= 0
  }

  /** The three comparators are consistent, so sorting with them is
      meaningful. */
  lemma ComparatorConsistent(o: Order)
    ensures Total(Comparator(o)) && Transitive(Comparator(o))
  {
    forall x, y | Compare(o, x, y) > 0 ensures Compare(o, y, x) < 0 {
      CompareTotal(o, x, y);
    }
    forall x, y, z | Compare(o, x, y) <= 0 && Compare(o, y, z) <= 0
      ensures Compare(o, x, z) <= 0
    {
      CompareTransitive(o, x, y, z);
    }
  }

  /** Ordered under cmp: no later guild has to go before an earlier one. */
  ghost predicate SortedBy(cmp: (Guild, Guild) -> int, s: seq<Guild>) {
    forall i, j :: 0 <= i < j < |s| ==> cmp(s[i], s[j]) <= 0
  }

  ghost predicate NeighboursSorted(cmp: (Guild, Guild) -> int, s: seq<Guild>) {
    forall k :: 0 <= k < |s| - 1 ==> cmp(s[k], s[k + 1]) <= 0
  }

  /** Ordered neighbours make an ordered list when the comparator is
      transitive. */
  lemma {:induction false} NeighboursSortedIsSorted(cmp: (Guild, Guild) -> int, s: seq<Guild>)
    requires Transitive(cmp)
    requires NeighboursSorted(cmp, s)
    ensures SortedBy(cmp, s)
    decreases |s|
  {
    if |s| > 1 {
      NeighboursSortedIsSorted(cmp, s[1..]);
      forall j | 1 < j < |s| ensures cmp(s[0], s[j]) <= 0 {
        assert cmp(s[1], s[j]) <= 0 by { assert s[1..][0] == s[1] && s[1..][j - 1] == s[j]; }
      }
      forall i, j | 0 <= i < j < |s| ensures cmp(s[i], s[j]) <= 0 {
        if i > 0 { assert s[1..][i - 1] == s[i] && s[1..][j - 1] == s[j]; }
      }
    }
  }

  /** Exchanges a[j - 1] and a[j]. */
  method SwapDown(a: array<Guild>, j: int)
    requires 0 < j < a.Length
    modifies a
    ensures a[j - 1] == old(a[j]) && a[j] == old(a[j - 1])
    ensures forall k :: 0 <= k < a.Length && k != j - 1 && k != j ==> a[k] == old(a[k])
    ensures multiset(a[..]) == multiset(old(a[..]))
  {
    a[j - 1], a[j] := a[j], a[j - 1];
  }

  /** Moves a[i] down past every neighbour that must go after it, so that the
      ordered prefix a[..i] becomes the ordered prefix a[..i + 1]. */
  method InsertDown(a: array<Guild>, i: int, cmp: (Guild, Guild) -> int)
    requires Total(cmp)
    requires 0 <= i < a.Length
    requires forall k :: 0 <= k < i - 1 ==> cmp(a[k], a[k + 1]) <= 0
    modifies a
    ensures forall k :: 0 <= k < i ==> cmp(a[k], a[k + 1]) <= 0
    ensures multiset(a[..]) == multiset(old(a[..]))
  {
    var j := i;
    while j > 0 && cmp(a[j - 1], a[j]) > 0
      invariant 0 <= j <= i
      invariant forall k :: 0 <= k < j - 1 ==> cmp(a[k], a[k + 1]) <= 0
      invariant forall k :: j <= k < i ==> cmp(a[k], a[k + 1]) <= 0
      invariant 0 < j < i ==> cmp(a[j - 1], a[j + 1]) <= 0
      invariant multiset(a[..]) == multiset(old(a[..]))
    {
      SwapDown(a, j);
      j := j - 1;
    }
  }

  /** `Array.prototype.sort(cmp)`: sorts the array itself. */
  method SortInPlace(a: array<Guild>, cmp: (Guild, Guild) -> int)
    requires Total(cmp) && Transitive(cmp)
    modifies a
    ensures SortedBy(cmp, a[..])
    ensures multiset(a[..]) == multiset(old(a[..]))
  {
    var i := 0;
    while i < a.Length
      invariant 0 <= i <= a.Length
      invariant forall k :: 0 <= k < i - 1 ==> cmp(a[k], a[k + 1]) <= 0
      invariant multiset(a[..]) == multiset(old(a[..]))
    {
      InsertDown(a, i, cmp);
      i := i + 1;
    }
    NeighboursSortedIsSorted(cmp, a[..]);
  }

  /** The component's state: the chosen order and the list last handed to
      `setOrderedGuilds`. */
  class OrderSelect {
    var order: Order
    var orderedGuilds: seq<Guild>

    constructor ()
      ensures order == DefaultOrder && orderedGuilds == []
    {
      order := DefaultOrder;
      orderedGuilds := [];
    }

    /** The select's onChange: picking an option sets the order. */
    method SelectOption(key: string)
      requires key in OrderKeys
      modifies this
      ensures Some(order) == OrderOfKey(key)
      ensures orderedGuilds == old(orderedGuilds)
    {
      order := OrderOfKey(key).value;
    }

    /** The effect: sort a fresh copy of `guilds` and hand it on. The input
        array is not written to. */
    method Refresh(guilds: array<Guild>)
      modifies this
      ensures order == old(order)
      ensures guilds[..] == old(guilds[..])
      ensures SortedBy(Comparator(order), orderedGuilds)
      ensures multiset(orderedGuilds) == multiset(guilds[..])
    {
      var copy := new Guild[guilds.Length];
      forall i | 0 <= i < guilds.Length {
        copy[i] := guilds[i];
      }
      assert copy[..] == guilds[..];
      ComparatorConsistent(order);
      SortInPlace(copy, Comparator(order));
      orderedGuilds := copy[..];
    }
  }
}
