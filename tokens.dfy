/** The token list behind the token picker: every token list registered for
    a chain is fetched, the lists are concatenated in the order of their URLs
    with only the chain's own tokens kept, and the chain's native currency is
    put in front when the chain has RPC data. */
module Tokens {
  import opened Wrappers

  /** A token as the token lists describe it (the fields the picker reads). */
  datatype Token = Token(chainId: int, address: string, name: string, symbol: string,
                         logoUri: string)

  /** A chain's native currency, from its RPC data. */
  datatype Currency = Currency(name: string, symbol: string, decimals: nat)

  /** One element of the merged array. `concat(undefined)` appends the value
      `undefined` itself, which is what a list without a `tokens` array adds. */
  datatype Entry = Listed(token: Token) | Native(currency: Currency) | Missing

  /** A parsed token list: a bare array, or an object that may carry the
      array under `tokens`, or null. */
  datatype Source = TokenArray(tokens: seq<Token>) | TokenObject(list: Option<seq<Token>>) | NullList

  /** `TokenApiURLs`: the token lists fetched for each chain. */
  const TokenApiUrls: map<string, seq<string>> := map[
    "ETHEREUM" := ["https://tokens.coingecko.com/uniswap/all.json"],
    "BSC" := ["https://tokens.pancakeswap.finance/pancakeswap-extended.json"],
    "GNOSIS" := ["https://unpkg.com/@1hive/default-token-list@5.17.1/build/honeyswap-default.tokenlist.json"],
    "POLYGON" := ["https://unpkg.com/quickswap-default-token-list@1.0.91/build/quickswap-default.tokenlist.json"],
    "AVALANCHE" := ["https://raw.githubusercontent.com/traderjoe-xyz/joe-tokenlists/main/joe.tokenlist.json"],
    "FANTOM" := ["https://raw.githubusercontent.com/Crocoswap/tokenlists/main/aeb.tokenlist.json"],
    "ARBITRUM" := ["https://bridge.arbitrum.io/token-list-42161.json"],
    "CELO" := ["https://raw.githubusercontent.com/Ubeswap/default-token-list/master/ubeswap.token-list.json"],
    "HARMONY" := [
      "https://raw.githubusercontent.com/DefiKingdoms/community-token-list/main/src/defikingdoms-default.tokenlist.json",
      "https://raw.githubusercontent.com/DefiKingdoms/community-token-list/main/build/defikingdoms-community.tokenlist.json"],
    "GOERLI" := ["https://raw.githubusercontent.com/Uniswap/default-token-list/main/src/tokens/goerli.json"],
    "OPTIMISM" := ["https://static.optimism.io/optimism.tokenlist.json"],
    "MOONBEAM" := ["https://tokens.coingecko.com/moonbeam/all.json"],
    "MOONRIVER" := ["https://tokens.coingecko.com/moonriver/all.json"],
    "RINKEBY" := ["https://raw.githubusercontent.com/Uniswap/default-token-list/main/src/tokens/rinkeby.json"],
    "METIS" := ["https://tokens.coingecko.com/metis-andromeda/all.json"],
    "CRONOS" := ["https://tokens.coingecko.com/cronos/all.json"],
    "BOBA" := ["https://tokens.coingecko.com/boba/all.json"],
    "PALM" := []
  ]

  /** `chainId === Chains[chain]`; a chain with no id matches no token. */
  predicate OnChain(t: Token, chainId: Option<int>) {
    chainId.Some? && t.chainId == chainId.value
  }

  function KeepOnChain(ts: seq<Token>, chainId: Option<int>): (r: seq<Entry>)
    ensures |r| <= |ts|
    ensures forall e :: e in r ==> e.Listed? && e.token in ts && OnChain(e.token, chainId)
    ensures forall t :: t in ts && OnChain(t, chainId) ==> Listed(t) in r
    decreases |ts|
  {
    if |ts| == 0 then []
    else (if OnChain(ts[0], chainId) then [Listed(ts[0])] else []) + KeepOnChain(ts[1..], chainId)
  }

  /** `.filter` keeps order and multiplicity: filtering a concatenation
      is concatenating the filtered parts, and a single token is kept
      exactly when it is on the chain. */
  lemma {:induction false} KeepOnChainAppend(a: seq<Token>, b: seq<Token>, chainId: Option<int>)
    ensures KeepOnChain(a + b, chainId) == KeepOnChain(a, chainId) + KeepOnChain(b, chainId)
    ensures KeepOnChain([], chainId) == []
    decreases |a|
  {
    if |a| == 0 {
      assert a + b == b;
    } else {
      assert (a + b)[0] == a[0];
      assert (a + b)[1..] == a[1..] + b;
      KeepOnChainAppend(a[1..], b, chainId);
    }
  }

  lemma KeepOnChainSingle(t: Token, chainId: Option<int>)
    ensures KeepOnChain([t], chainId) == (if OnChain(t, chainId) then [Listed(t)] else [])
  {
    assert [t][1..] == [];
  }

  /** The token array a parsed list holds, if any. */
  function TokensOf(s: Source): Option<seq<Token>> {
    match s
    case TokenArray(ts) => Some(ts)
    case TokenObject(l) => l
    case NullList => None
  }

  predicate Carries(s: Source, t: Token) {
    TokensOf(s).Some? && t in TokensOf(s).value
  }

  /** What one list adds to the accumulator:
      `(Array.isArray(curr) ? curr : curr?.tokens)?.filter(...)`. */
  function Contribution(s: Source, chainId: Option<int>): (r: seq<Entry>)
    ensures TokensOf(s).None? ==> r == [Missing]
    ensures forall e :: e in r ==>
      (e.Listed? && Carries(s, e.token) && OnChain(e.token, chainId)) || (e.Missing? && TokensOf(s).None?)
    ensures forall t :: Carries(s, t) && OnChain(t, chainId) ==> Listed(t) in r
  {
    match TokensOf(s)
    case Some(ts) => KeepOnChain(ts, chainId)
    case None => [Missing]
  }

  /** The `reduce` over the fetched lists, starting from `[]`. */
  function Merge(sources: seq<Source>, chainId: Option<int>): (r: seq<Entry>)
    ensures |sources| == 0 ==> r == []
    ensures forall e :: e in r ==> (e.Listed? && OnChain(e.token, chainId)) || e.Missing?
    decreases |sources|
  {
    if |sources| == 0 then []
    else Merge(sources[..|sources| - 1], chainId) + Contribution(sources[|sources| - 1], chainId)
  }

  /** The lists fetched for a chain, in the order of their URLs. */
  function Fetched(urls: seq<string>, fetch: string -> Source): (r: seq<Source>)
    ensures |r| == |urls| && forall i :: 0 <= i < |urls| ==> r[i] == fetch(urls[i])
  {
    seq(|urls|, i requires 0 <= i < |urls| => fetch(urls[i]))
  }

  /** `fetchTokens(_, chain)`. `chains` stands for `Chains`, `rpc` for the
      native currencies in `RPC`, `fetch` for the fetched and parsed lists;
      a chain without registered lists makes the call fail (None). */
  function FetchTokens(chain: string, chains: map<string, int>, rpc: map<string, Currency>,
                       fetch: string -> Source): (r: Option<seq<Entry>>)
    ensures r.Some? <==> chain in TokenApiUrls
  {
    if chain !in TokenApiUrls then None
    else
      var chainId := if chain in chains then Some(chains[chain]) else None;
      var merged := Merge(Fetched(TokenApiUrls[chain], fetch), chainId);
      Some(if chain in rpc then [Native(rpc[chain])] + merged else merged)
  }

  /** The SWR key: no fetch happens while the chain is empty. */
  function TokensKey(chain: string): (key: Option<seq<string>>)
    ensures key.None? <==> chain == ""
    ensures key.Some? ==> key.value == ["tokens", chain]
  {
    if chain == "" then None else Some(["tokens", chain])
  }

  // -----------------------------------------------------------------------
  // Properties

  /** The merge is the concatenation of the lists' contributions in order:
      merging two runs of lists is merging each and concatenating. */
  lemma {:induction false} MergeAppend(a: seq<Source>, b: seq<Source>, chainId: Option<int>)
    ensures Merge(a + b, chainId) == Merge(a, chainId) + Merge(b, chainId)
    decreases |b|
  {
    if |b| > 0 {
      var b' := b[..|b| - 1];
      assert (a + b)[..|a + b| - 1] == a + b';
      assert (a + b)[|a + b| - 1] == b[|b| - 1];
      MergeAppend(a, b', chainId);
    } else {
      assert a + b == a;
    }
  }

  /** Every merged element is a token of the chain taken from one of the
      lists, or the `undefined` of a list without a `tokens` array. */
  lemma {:induction false} MergeSound(sources: seq<Source>, chainId: Option<int>, e: Entry)
    requires e in Merge(sources, chainId)
    ensures e.Listed? || e.Missing?
    ensures e.Listed? ==>
      OnChain(e.token, chainId) && exists i :: 0 <= i < |sources| && Carries(sources[i], e.token)
    ensures e.Missing? ==> exists i :: 0 <= i < |sources| && TokensOf(sources[i]).None?
    decreases |sources|
  {
    var n := |sources|;
    var init := sources[..n - 1];
    if e in Merge(init, chainId) {
      MergeSound(init, chainId, e);
      if e.Listed? {
        var i :| 0 <= i < |init| && Carries(init[i], e.token);
        assert init[i] == sources[i];
      } else {
        var i :| 0 <= i < |init| && TokensOf(init[i]).None?;
        assert init[i] == sources[i];
      }
    } else {
      assert e in Contribution(sources[n - 1], chainId);
    }
  }

  /** Every token of the chain that some list carries is in the merge. */
  lemma {:induction false} MergeComplete(sources: seq<Source>, chainId: Option<int>, i: nat, t: Token)
    requires i < |sources| && OnChain(t, chainId)
    requires Carries(sources[i], t)
    ensures Listed(t) in Merge(sources, chainId)
    decreases |sources|
  {
    var n := |sources|;
    var init, last := sources[..n - 1], sources[n - 1];
    assert Merge(sources, chainId) == Merge(init, chainId) + Contribution(last, chainId);
    if i < n - 1 {
      assert init[i] == sources[i];
      MergeComplete(init, chainId, i, t);
    } else {
      assert Listed(t) in Contribution(last, chainId);
    }
  }

  /** With RPC data the native currency comes first, followed by the merged
      lists; without it the result is exactly the merge. */
  lemma NativeCurrencyFirst(chain: string, chains: map<string, int>, rpc: map<string, Currency>,
                            fetch: string -> Source)
    requires chain in TokenApiUrls
    ensures var r := FetchTokens(chain, chains, rpc, fetch).value;
      var merged := Merge(Fetched(TokenApiUrls[chain], fetch),
                          if chain in chains then Some(chains[chain]) else None);
      && (chain in rpc ==> r[0] == Native(rpc[chain]) && r[1..] == merged)
      && (chain !in rpc ==> r == merged)
  {
  }

  /** A chain without token lists yields only its native currency, or
      nothing. */
  lemma PalmHasNoLists(chains: map<string, int>, rpc: map<string, Currency>, fetch: string -> Source)
    ensures FetchTokens("PALM", chains, rpc, fetch) ==
      Some(if "PALM" in rpc then [Native(rpc["PALM"])] else [])
  {
    var urls := TokenApiUrls["PALM"];
    assert urls == [];
    var lists := Fetched(urls, fetch);
    assert |lists| == 0;
    var chainId := if "PALM" in chains then Some(chains["PALM"]) else None;
    assert Merge(lists, chainId) == [];
    if "PALM" in rpc {
      var native: seq<Entry> := [Native(rpc["PALM"])];
      assert native + Merge(lists, chainId) == native;
    }
  }
}
