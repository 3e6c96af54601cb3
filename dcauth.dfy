/** The Discord OAuth redirect page. Discord sends the browser back with the
    implicit-grant response of section 4.2.2 of RFC 6749 (`access_token`,
    `token_type`, `state`) or the error response of section 4.2.2.1
    (`error`, `error_description`, `state`) in the URL fragment; the page
    relays it to the window that opened it with `postMessage`. */
module DcAuth {
  import opened Wrappers
  import opened Ascii

  /** The name-value pairs of a query string, in order. */
  type Params = seq<(string, string)>

  /** `name=value` split at the first '='; a piece without '=' has the
      empty value. */
  function ParsePair(piece: string): (r: (string, string))
    ensures '=' !in r.0
    ensures forall c :: c !in piece ==> c !in r.0 && c !in r.1
  {
    match IndexOf(piece, '=')
    case None => (piece, "")
    case Some(i) => (piece[..i], piece[i + 1..])
  }

  /** The non-empty pieces between '&', each read as a pair. */
  function ParsePieces(pieces: seq<string>): (p: Params)
    ensures forall i :: 0 <= i < |p| ==> '=' !in p[i].0
    ensures (forall w :: w in pieces ==> '&' !in w) ==>
      forall i :: 0 <= i < |p| ==> '&' !in p[i].0 && '&' !in p[i].1
    decreases |pieces|
  {
    if |pieces| == 0 then []
    else (if pieces[0] == "" then [] else [ParsePair(pieces[0])]) + ParsePieces(pieces[1..])
  }

  /** `new URLSearchParams(q)`: a leading '?' is ignored. */
  function ParseQuery(q: string): (p: Params)
    ensures forall i :: 0 <= i < |p| ==> '&' !in p[i].0 && '&' !in p[i].1 && '=' !in p[i].0
    ensures q == "" || q == "?" ==> p == []
  {
    var body := if |q| > 0 && q[0] == '?' then q[1..] else q;
    SplitJoin(body, '&');
    assert [""][1..] == [] && ParsePieces([""]) == [];
    assert body == "" ==> Split(body, '&') == [""];
    ParsePieces(Split(body, '&'))
  }

  /** `window.location.hash.slice(1)`. */
  function FragmentOf(hash: string): string {
    if |hash| > 0 then hash[1..] else ""
  }

  predicate Has(p: Params, name: string) {
    exists i :: 0 <= i < |p| && p[i].0 == name
  }

  /** `params.get(name)`: the first value, or null (None). */
  function GetParam(p: Params, name: string): (r: Option<string>)
    ensures r.Some? <==> Has(p, name)
    ensures r.Some? ==> exists i :: 0 <= i < |p| && p[i] == (name, r.value) &&
                                   forall j :: 0 <= j < i ==> p[j].0 != name
    decreases |p|
  {
    if |p| == 0 then None
    else if p[0].0 == name then Some(p[0].1)
    else
      var r := GetParam(p[1..], name);
      if r.Some? then
        var i :| 0 <= i < |p[1..]| && p[1..][i] == (name, r.value) &&
                 forall j :: 0 <= j < i ==> p[1..][j].0 != name;
        assert p[i + 1] == (name, r.value);
        forall j | 0 <= j < i + 1 ensures p[j].0 != name {
          if j > 0 { assert p[j] == p[1..][j - 1]; }
        }
        r
      else r
  }

  /** The page's test for a fragment it cannot use, as written. */
  predicate Malformed(p: Params) {
    !Has(p, "state") ||
    ((!Has(p, "access_token") || !Has(p, "token_type")) &&
     (!Has(p, "error") || !Has(p, "error_description")))
  }

  /** A null read from the parameters prints as "null" in a template. */
  function TextOf(v: Option<string>): string {
    match v
    case None => "null"
    case Some(s) => s
  }

  datatype Message =
    | AuthError(error: string, errorDescription: Option<string>)
    | AuthSuccess(data: string)

  datatype Action = Navigate(path: string) | PostMessage(message: Message, targetOrigin: string)

  /** `${window.location.origin}/${state}`. */
  function Target(origin: string, p: Params): string {
    origin + "/" + TextOf(GetParam(p, "state"))
  }

  /** An error message when `error` is a non-empty string, a success
      message carrying `${token_type} ${access_token}` otherwise. */
  function MessageFor(p: Params): (m: Message)
    ensures m.AuthError? <==> GetParam(p, "error").Some? && GetParam(p, "error").value != ""
    ensures m.AuthError? ==>
      m.error == GetParam(p, "error").value && m.errorDescription == GetParam(p, "error_description")
    ensures m.AuthSuccess? ==>
      m.data == TextOf(GetParam(p, "token_type")) + " " + TextOf(GetParam(p, "access_token"))
  {
    var error := GetParam(p, "error");
    if error.Some? && error.value != "" then AuthError(error.value, GetParam(p, "error_description"))
    else AuthSuccess(TextOf(GetParam(p, "token_type")) + " " + TextOf(GetParam(p, "access_token")))
  }

  /** What the effect does, as a list of actions in the order it takes
      them. Navigating does not stop it: the message is posted regardless. */
  function Effect(isReady: bool, hasOpener: bool, hash: string, origin: string): (a: seq<Action>)
    ensures !isReady || !hasOpener ==> a == []
    ensures isReady && hasOpener ==>
      var p := ParseQuery(FragmentOf(hash));
      && |a| == 1 + (if hash == "" then 1 else 0) + (if Malformed(p) then 1 else 0)
      && a[|a| - 1] == PostMessage(MessageFor(p), Target(origin, p))
      && forall i :: 0 <= i < |a| - 1 ==> a[i] == Navigate("/")
  {
    if !isReady || !hasOpener then []
    else
      var p := ParseQuery(FragmentOf(hash));
      var post := PostMessage(MessageFor(p), Target(origin, p));
      NavigationsThenPost(hash == "", Malformed(p), post);
      (if hash == "" then [Navigate("/")] else [])
        + (if Malformed(p) then [Navigate("/")] else [])
        + [post]
  }

  /** Up to two navigations home, then one message. */
  lemma NavigationsThenPost(first: bool, second: bool, post: Action)
    ensures var a := (if first then [Navigate("/")] else []) + (if second then [Navigate("/")] else []) + [post];
      && |a| == 1 + (if first then 1 else 0) + (if second then 1 else 0)
      && a[|a| - 1] == post
      && forall i :: 0 <= i < |a| - 1 ==> a[i] == Navigate("/")
  {
  }

  /** The effect body, one call after another. */
  method HandleRedirect(isReady: bool, hasOpener: bool, hash: string, origin: string)
    returns (actions: seq<Action>)
    ensures actions == Effect(isReady, hasOpener, hash, origin)
    ensures !isReady || !hasOpener ==> actions == []
    ensures isReady && hasOpener ==>
      |actions| > 0 && actions[|actions| - 1].PostMessage? &&
      forall i :: 0 <= i < |actions| - 1 ==> actions[i] == Navigate("/")
  {
    actions := [];
    if !isReady || !hasOpener {
      return;
    }
    if hash == "" {
      actions := actions + [Navigate("/")];
    }
    var fragment := ParseQuery(FragmentOf(hash));
    if Malformed(fragment) {
      actions := actions + [Navigate("/")];
    }
    var error := GetParam(fragment, "error");
    var target := origin + "/" + TextOf(GetParam(fragment, "state"));
    if error.Some? && error.value != "" {
      actions := actions + [PostMessage(AuthError(error.value, GetParam(fragment, "error_description")), target)];
    } else {
      var tokenType := GetParam(fragment, "token_type");
      var accessToken := GetParam(fragment, "access_token");
      actions := actions + [PostMessage(AuthSuccess(TextOf(tokenType) + " " + TextOf(accessToken)), target)];
    }
  }

  // -----------------------------------------------------------------------
  // Properties

  /** The fragment is usable iff it has a state and either both token
      fields or both error fields. */
  lemma MalformedIff(p: Params)
    ensures !Malformed(p) <==>
      Has(p, "state") &&
      ((Has(p, "access_token") && Has(p, "token_type")) ||
       (Has(p, "error") && Has(p, "error_description")))
  {
  }

  /** Opening the page without a fragment navigates home twice, then still
      posts a success message built from nulls to `<origin>/null`. */
  lemma EmptyHashNavigatesTwice(origin: string)
    ensures Effect(true, true, "", origin) ==
      [Navigate("/"), Navigate("/"), PostMessage(AuthSuccess("null null"), origin + "/null")]
  {
    var pieces := Split("", '&');
    assert pieces == [""] && pieces[1..] == [];
    var p := ParseQuery(FragmentOf(""));
    assert p == [];
    assert !Has(p, "state");
    assert GetParam(p, "error") == None && GetParam(p, "state") == None;
    assert MessageFor(p) == AuthSuccess("null" + " " + "null");
    assert "null" + " " + "null" == "null null";
    assert Target(origin, p) == origin + "/null" by {
      assert TextOf(GetParam(p, "state")) == "null";
      assert "/" + "null" == "/null";
    }
  }

  /** The query text a server writes for a list of pairs. */
  function Encode(p: Params): string
    requires |p| > 0
  {
    Join(seq(|p|, i requires 0 <= i < |p| => p[i].0 + "=" + p[i].1), '&')
  }

  /** Pairs that survive encoding: no name holds '=' or '&', no value '&'. */
  predicate Encodable(p: Params) {
    forall i :: 0 <= i < |p| ==> '=' !in p[i].0 && '&' !in p[i].0 && '&' !in p[i].1
  }

  lemma ParsePairOf(name: string, value: string)
    requires '=' !in name
    ensures ParsePair(name + "=" + value) == (name, value)
  {
    var piece := name + "=" + value;
    assert piece[..|name|] == name;
    assert piece[|name|] == '=';
    assert piece[|name| + 1..] == value;
    assert '=' !in piece[..|name|];
  }

  lemma {:induction false} ParsePiecesOf(p: Params)
    requires Encodable(p)
    ensures ParsePieces(seq(|p|, i requires 0 <= i < |p| => p[i].0 + "=" + p[i].1)) == p
    decreases |p|
  {
    var pieces := seq(|p|, i requires 0 <= i < |p| => p[i].0 + "=" + p[i].1);
    if |p| > 0 {
      ParsePairOf(p[0].0, p[0].1);
      assert pieces[0] != "";
      assert pieces[1..] == seq(|p[1..]|, i requires 0 <= i < |p[1..]| => p[1..][i].0 + "=" + p[1..][i].1);
      ParsePiecesOf(p[1..]);
      assert [p[0]] + p[1..] == p;
    }
  }

  /** Reading back an encoded query gives the pairs it was written from. */
  lemma ParseEncoded(p: Params)
    requires |p| > 0 && Encodable(p)
    requires |p[0].0| > 0 ==> p[0].0[0] != '?'
    ensures ParseQuery(Encode(p)) == p
  {
    var pieces := seq(|p|, i requires 0 <= i < |p| => p[i].0 + "=" + p[i].1);
    forall w | w in pieces ensures '&' !in w {
      var i :| 0 <= i < |p| && pieces[i] == w;
      assert w == p[i].0 + "=" + p[i].1;
    }
    JoinSplit(pieces, '&');
    var q := Encode(p);
    assert q[0] != '?' by {
      if |pieces| == 1 { assert q == pieces[0]; } else { assert q[..|pieces[0]|] == pieces[0]; }
      assert pieces[0] == p[0].0 + "=" + p[0].1;
    }
    ParsePiecesOf(p);
  }

  /** A successful implicit-grant response (section 4.2.2 of RFC 6749)
      without an `error` field gets exactly one action: the token, as
      `${token_type} ${access_token}`, posted to `<origin>/<state>`. */
  lemma SuccessResponsePostsToken(p: Params, origin: string, accessToken: string,
                                  tokenType: string, state: string)
    requires |p| > 0 && Encodable(p) && (|p[0].0| > 0 ==> p[0].0[0] != '?')
    requires GetParam(p, "access_token") == Some(accessToken)
    requires GetParam(p, "token_type") == Some(tokenType)
    requires GetParam(p, "state") == Some(state)
    requires !Has(p, "error")
    ensures Effect(true, true, "#" + Encode(p), origin) ==
      [PostMessage(AuthSuccess(tokenType + " " + accessToken), origin + "/" + state)]
  {
    ParseEncoded(p);
    assert FragmentOf("#" + Encode(p)) == Encode(p);
  }

  /** An error response (section 4.2.2.1 of RFC 6749) with a non-empty
      `error` gets exactly one action: the error posted to `<origin>/<state>`. */
  lemma ErrorResponsePostsError(p: Params, origin: string, error: string,
                                description: string, state: string)
    requires |p| > 0 && Encodable(p) && (|p[0].0| > 0 ==> p[0].0[0] != '?')
    requires GetParam(p, "error") == Some(error) && error != ""
    requires GetParam(p, "error_description") == Some(description)
    requires GetParam(p, "state") == Some(state)
    ensures Effect(true, true, "#" + Encode(p), origin) ==
      [PostMessage(AuthError(error, Some(description)), origin + "/" + state)]
  {
    ParseEncoded(p);
    assert FragmentOf("#" + Encode(p)) == Encode(p);
  }
}
