/** What the create hooks do once the backend accepts a submission, as a
    list of effects in the order they are started: confetti, a toast, SWR
    cache keys revalidated one by one or by pattern, and navigation. */
module SubmitEffects {
  import opened Js
  import opened Ascii

  /** The two families of cache keys revalidated by regular expression:
      `/^\/guild\/address\//` and `/^\/guild\?order/`. */
  datatype KeyFamily = GuildsByAddress | GuildOrder

  predicate InFamily(f: KeyFamily, key: string) {
    match f
    case GuildsByAddress => StartsWith(key, "/guild/address/")
    case GuildOrder => StartsWith(key, "/guild?order")
  }

  datatype Effect =
    | Confetti
    | Toast(title: string)
    | Revalidate(key: Value)
    | RevalidateMatching(family: KeyFamily)
    | Navigate(path: string)

  /** The invalidations both hooks end with. */
  const ListInvalidations: seq<Effect> := [RevalidateMatching(GuildsByAddress), RevalidateMatching(GuildOrder)]

  /** No key belongs to both families, so the two invalidations touch
      different entries. */
  lemma FamiliesDisjoint(key: string)
    ensures !(InFamily(GuildsByAddress, key) && InFamily(GuildOrder, key))
  {
    if InFamily(GuildsByAddress, key) {
      assert key[..12][6] == "/guild/address/"[6] == '/';
      assert "/guild?order"[6] == '?';
    }
  }
}
