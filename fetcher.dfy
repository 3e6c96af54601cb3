/** The request builder behind every call to the backend: which URL is
    fetched, which options are passed to `fetch`, how the response settles,
    and how the signing variant assembles its arguments. `JSON.stringify`,
    `sign` and `fetch` itself are parameters. */
module Fetcher {
  import opened Js
  import opened Ascii

  const ContentTypeJson: string := "application/json"

  /** A resource is a guild API call unless it is an absolute URL or a route
      of the app's own API. */
  predicate IsGuildApiCall(resource: string) {
    !StartsWith(resource, "http") && !StartsWith(resource, "/api")
  }

  /** `${api}${resource}`: the API base is prepended to guild API calls only. */
  function Url(apiBase: string, resource: string): (url: string)
    ensures IsGuildApiCall(resource) ==> url == apiBase + resource
    ensures !IsGuildApiCall(resource) ==> url == resource
  {
    (if IsGuildApiCall(resource) then apiBase else "") + resource
  }

  /** The value handed to `JSON.stringify` when there is a body: the body
      itself, or `{payload, ...validation}` when a validation is given. */
  function SignedBody(body: Value, validation: Value): (v: Value)
    ensures !Truthy(validation) ==> v == body
    ensures Truthy(validation) ==> v.Obj? && v.fields.Keys == {"payload"} + SpreadFields(validation).Keys
    ensures Truthy(validation) && "payload" !in SpreadFields(validation) ==>
      v.fields["payload"] == Coalesce(body, Obj(map[]))
    ensures Truthy(validation) ==> forall k :: k in SpreadFields(validation) ==>
      v.fields[k] == SpreadFields(validation)[k]
  {
    var payload := Coalesce(body, Obj(map[]));
    if Truthy(validation) then Obj(map["payload" := payload] + SpreadFields(validation))
    else body
  }

  /** The headers: a JSON content type when there is a body, then the
      caller's headers over it. */
  function Headers(body: Value, init: map<string, Value>): (h: map<string, Value>)
    ensures h.Keys == SpreadFields(Field(init, "headers")).Keys +
                      (if Truthy(body) then {"Content-Type"} else {})
    ensures forall k :: k in SpreadFields(Field(init, "headers")) ==>
      h[k] == SpreadFields(Field(init, "headers"))[k]
    ensures Truthy(body) && "Content-Type" !in SpreadFields(Field(init, "headers")) ==>
      h["Content-Type"] == Str(ContentTypeJson)
  {
    (if Truthy(body) then map["Content-Type" := Str(ContentTypeJson)] else map[])
      + SpreadFields(Field(init, "headers"))
  }

  /** The options object passed to `fetch`; `init` is the caller's second
      argument without `body` and `validation`. */
  function Options(stringify: Value -> string, body: Value, validation: Value,
                   init: map<string, Value>): (o: map<string, Value>)
    ensures o.Keys == init.Keys + {"headers"} + (if Truthy(body) then {"method", "body"} else {})
    ensures o["headers"] == Obj(Headers(body, init))
    ensures forall k :: k in init && k != "headers" ==> o[k] == init[k]
    ensures Truthy(body) && "method" !in init ==> o["method"] == Str("POST")
    ensures Truthy(body) && "body" !in init ==>
      o["body"] == Str(stringify(SignedBody(body, validation)))
  {
    (if Truthy(body)
     then map["method" := Str("POST"), "body" := Str(stringify(SignedBody(body, validation)))]
     else map[])
      + init
      + map["headers" := Obj(Headers(body, init))]
  }

  datatype Request = Request(url: string, options: map<string, Value>)

  /** `fetcher(resource, arg)`: splits `{body, validation, ...init}` off the
      second argument (an absent argument is `{}`) and builds the request. */
  function Fetch(apiBase: string, stringify: Value -> string, resource: string,
                 arg: map<string, Value>): (req: Request)
    ensures req.url == Url(apiBase, resource)
    ensures "body" in req.options <==> Truthy(Field(arg, "body"))
    ensures "validation" !in req.options
    ensures forall k :: k in arg && k !in {"body", "validation", "headers"} ==>
      k in req.options && req.options[k] == arg[k]
  {
    var init := arg - {"body", "validation"};
    Request(Url(apiBase, resource),
            Options(stringify, Field(arg, "body"), Field(arg, "validation"), init))
  }

  /** How the returned promise settles on the parsed response body
      (`undefined` when the response has no `json` method). Reading
      `res.ok` for the error report throws on a null or undefined body,
      whatever the status, and the promise then rejects with that
      TypeError. */
  datatype Settled = Resolved(value: Value) | Rejected(reason: Value) | RejectedWithTypeError

  function Settle(ok: bool, json: Value): (s: Settled)
    ensures s.RejectedWithTypeError? <==> Nullish(json)
    ensures !Nullish(json) ==> (ok <==> s.Resolved?)
    ensures s.Resolved? ==> s.value == json
    ensures s.Rejected? ==> s.reason == json
  {
    if Nullish(json) then RejectedWithTypeError
    else if ok then Resolved(json) else Rejected(json)
  }

  /** The object `sign` receives: `forcePrompt` false unless the caller's
      sign properties say otherwise, and the body as the payload. */
  function SignArgument(signProps: map<string, Value>, body: Value): map<string, Value> {
    map["forcePrompt" := Bool(false)] + signProps + map["payload" := body]
  }

  /** `{body, validation, ...rest}`: the argument `fetcherWithSign` passes on. */
  function ForwardedArgument(arg: map<string, Value>, validation: Value): map<string, Value> {
    map["body" := Field(arg, "body"), "validation" := validation] + (arg - {"body"})
  }

  /** `fetcherWithSign(signProps, resource, arg)`: sign the body, then fetch
      with the resulting validation. */
  function FetchWithSign(apiBase: string, stringify: Value -> string,
                         sign: map<string, Value> -> Value,
                         signProps: map<string, Value>, resource: string,
                         arg: map<string, Value>): (req: Request)
    ensures req.url == Url(apiBase, resource)
    ensures "body" in req.options <==> Truthy(Field(arg, "body"))
    ensures Truthy(Field(arg, "body")) && "validation" !in arg ==>
      req.options["body"] ==
        Str(stringify(SignedBody(Field(arg, "body"), sign(SignArgument(signProps, Field(arg, "body"))))))
  {
    var validation := sign(SignArgument(signProps, Field(arg, "body")));
    Fetch(apiBase, stringify, resource, ForwardedArgument(arg, validation))
  }

  // -----------------------------------------------------------------------
  // Properties

  /** Only guild API calls get the API base. */
  lemma GuildApiCallUrl(apiBase: string, resource: string)
    ensures IsGuildApiCall(resource) ==> StartsWith(Url(apiBase, resource), apiBase)
    ensures !IsGuildApiCall(resource) ==> Url(apiBase, resource) == resource
  {
    if IsGuildApiCall(resource) {
      assert Url(apiBase, resource)[..|apiBase|] == apiBase;
    }
  }

  /** With a truthy body the request is a JSON POST of the (possibly
      signed) body, unless the caller overrides the method or the header. */
  lemma BodyMakesJsonPost(apiBase: string, stringify: Value -> string, resource: string,
                          arg: map<string, Value>)
    requires Truthy(Field(arg, "body"))
    ensures var opts := Fetch(apiBase, stringify, resource, arg).options;
      && opts["body"] == Str(stringify(SignedBody(Field(arg, "body"), Field(arg, "validation"))))
      && ("method" !in arg ==> opts["method"] == Str("POST"))
      && opts["headers"].Obj?
      && ("Content-Type" !in SpreadFields(Field(arg, "headers")) ==>
            opts["headers"].fields["Content-Type"] == Str(ContentTypeJson))
  {
  }

  /** A guild API call with a body and a validation, and nothing else, is
      a POST of the signed body to the resource under the API base. */
  lemma SignedPost(apiBase: string, stringify: Value -> string, resource: string,
                   validation: Value, body: Value)
    requires Truthy(body) && IsGuildApiCall(resource)
    ensures var r := Fetch(apiBase, stringify, resource, map["validation" := validation, "body" := body]);
      && r.url == apiBase + resource
      && r.options["method"] == Str("POST")
      && r.options["body"] == Str(stringify(SignedBody(body, validation)))
  {
    var arg := map["validation" := validation, "body" := body];
    assert Field(arg, "body") == body && Field(arg, "validation") == validation && "method" !in arg;
    BodyMakesJsonPost(apiBase, stringify, resource, arg);
  }

  /** Without a truthy body no method, body or content type is added: each
      is present only when the caller supplied it. */
  lemma NoBodyNoPost(apiBase: string, stringify: Value -> string, resource: string,
                     arg: map<string, Value>)
    requires !Truthy(Field(arg, "body"))
    ensures var opts := Fetch(apiBase, stringify, resource, arg).options;
      && "body" !in opts
      && ("method" in opts <==> "method" in arg)
      && ("method" in arg ==> opts["method"] == arg["method"])
      && opts["headers"] == Obj(SpreadFields(Field(arg, "headers")))
  {
  }

  /** The serialised body is `{payload: body, ...validation}` with a
      validation and the body itself without one. */
  lemma SignedBodyShape(body: Value, validation: Value)
    requires Truthy(body)
    ensures Truthy(validation) && "payload" !in SpreadFields(validation) ==>
      SignedBody(body, validation).fields["payload"] == body
    ensures Truthy(validation) ==>
      SignedBody(body, validation).Obj? &&
      SignedBody(body, validation).fields.Keys == {"payload"} + SpreadFields(validation).Keys
    ensures !Truthy(validation) ==> SignedBody(body, validation) == body
  {
  }

  /** Every field the caller passes, other than body, validation and
      headers, reaches `fetch` unchanged, over the computed method; and every
      header the caller passes overrides the computed content type. */
  lemma CallerOverrides(apiBase: string, stringify: Value -> string, resource: string,
                        arg: map<string, Value>, k: string)
    ensures var opts := Fetch(apiBase, stringify, resource, arg).options;
      && (k in arg && k != "body" && k != "validation" && k != "headers" ==> opts[k] == arg[k])
      && (k in SpreadFields(Field(arg, "headers")) ==>
            opts["headers"].fields[k] == SpreadFields(Field(arg, "headers"))[k])
  {
  }

  /** The signing variant signs exactly the body, with `forcePrompt` false
      unless overridden, and forwards the same body with the signature. */
  lemma SignedFetchForwards(signProps: map<string, Value>, arg: map<string, Value>,
                            validation: Value)
    ensures SignArgument(signProps, Field(arg, "body"))["payload"] == Field(arg, "body")
    ensures "forcePrompt" !in signProps ==>
      SignArgument(signProps, Field(arg, "body"))["forcePrompt"] == Bool(false)
    ensures "forcePrompt" in signProps ==>
      SignArgument(signProps, Field(arg, "body"))["forcePrompt"] == signProps["forcePrompt"]
    ensures Field(ForwardedArgument(arg, validation), "body") == Field(arg, "body")
    ensures "validation" !in arg ==>
      Field(ForwardedArgument(arg, validation), "validation") == validation
    ensures ForwardedArgument(arg, validation) - {"body", "validation"} ==
      arg - {"body", "validation"}
  {
  }
}
