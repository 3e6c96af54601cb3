/** `useCreate`: the hook behind the create-guild and add-role forms. With a
    guild in the route it adds a role to that guild, otherwise it creates
    a guild whose single role is "Member". `preprocessRequirements` is a
    parameter; the JSON round trip through `guildJsonReplacer` before the
    submission is not modelled. */
module CreateGuild {
  import opened Js
  import opened Fetcher
  import opened SubmitEffects
  import opened Ascii

  /** `router.query.guild ? "/role" : "/guild"`. */
  function Endpoint(routeGuild: Value): (path: string)
    ensures Truthy(routeGuild) ==> path == "/role"
    ensures !Truthy(routeGuild) ==> path == "/guild"
  {
    if Truthy(routeGuild) then "/role" else "/guild"
  }

  /** The fields a new guild is submitted with. */
  const GuildFields: set<string> :=
    {"imageUrl", "name", "urlName", "description", "platform", "platformId", "channelId", "roles"}

  /** `data_[data_.platform]?.platformId`: the id typed into the form
      section of the chosen platform. */
  function PlatformId(data: map<string, Value>): (id: Value)
    ensures var section := Field(data, ToText(Field(data, "platform")));
      && (section.Obj? ==> id == Field(section.fields, "platformId"))
      && (!section.Obj? ==> id == Undefined)
  {
    OptGet(Field(data, ToText(Field(data, "platform"))), "platformId")
  }

  /** The role a new guild starts with. */
  function MemberRole(data: map<string, Value>, preprocess: Value -> Value): Value {
    Obj(map["imageUrl" := Field(data, "imageUrl"), "name" := Str("Member"),
            "requirements" := preprocess(Field(data, "requirements"))])
  }

  /** `onSubmit`'s payload. */
  function Payload(routeGuild: Value, data: map<string, Value>, preprocess: Value -> Value)
    : (p: map<string, Value>)
    ensures Truthy(routeGuild) ==> "requirements" in p && data.Keys <= p.Keys
    ensures !Truthy(routeGuild) ==> p.Keys == GuildFields && p["platformId"] == PlatformId(data)
    ensures !Truthy(routeGuild) ==> p["roles"].Arr? && |p["roles"].items| == 1
  {
    if Truthy(routeGuild) then
      data["requirements" := preprocess(Or(Field(data, "requirements"), Arr([])))]
    else
      map["imageUrl" := Field(data, "imageUrl"),
          "name" := Field(data, "name"),
          "urlName" := Field(data, "urlName"),
          "description" := Field(data, "description"),
          "platform" := Field(data, "platform"),
          "platformId" := PlatformId(data),
          "channelId" := Field(data, "channelId"),
          "roles" := Arr([MemberRole(data, preprocess)])]
  }

  /** The request `fetchData` sends: the payload as the body, with the
      signature as validation. */
  function SubmitRequest(apiBase: string, stringify: Value -> string, routeGuild: Value,
                         validation: Value, payload: map<string, Value>): Request
  {
    Fetch(apiBase, stringify, Endpoint(routeGuild), map["validation" := validation, "body" := Obj(payload)])
  }

  const RoleAddedTitle: string := "Congratulations, your new role is successfully added to your guild!"
  const GuildCreatedTitle: string := "Guild successfully created!"

  /** `onSuccess`, without the telemetry. */
  function OnSuccess(routeGuild: Value, response: Value): (e: seq<Effect>)
    ensures |e| == 5 && e[0] == Confetti
    ensures e[1] == Toast(if Truthy(routeGuild) then RoleAddedTitle else GuildCreatedTitle)
  {
    [Confetti]
      + (if Truthy(routeGuild)
         then [Toast(RoleAddedTitle), Revalidate(Str("/guild/" + ToText(routeGuild)))]
         else [Toast(GuildCreatedTitle), Navigate("/" + ToText(Get(response, "urlName")))])
      + ListInvalidations
  }

  // -----------------------------------------------------------------------
  // Properties

  /** Role mode sends the form data with only the requirements replaced,
      by the preprocessed requirements or the preprocessed empty list. */
  lemma RoleModePayload(routeGuild: Value, data: map<string, Value>, preprocess: Value -> Value)
    requires Truthy(routeGuild)
    ensures var p := Payload(routeGuild, data, preprocess);
      && p.Keys == data.Keys + {"requirements"}
      && (forall k :: k in data && k != "requirements" ==> p[k] == data[k])
      && (Truthy(Field(data, "requirements")) ==> p["requirements"] == preprocess(data["requirements"]))
      && (!Truthy(Field(data, "requirements")) ==> p["requirements"] == preprocess(Arr([])))
  {
  }

  /** Guild mode sends exactly the guild fields, with the platform id read
      from the chosen platform's section and one "Member" role holding the
      guild's image and the preprocessed requirements. */
  lemma GuildModePayload(routeGuild: Value, data: map<string, Value>, preprocess: Value -> Value,
                         platform: string)
    requires !Truthy(routeGuild)
    ensures var p := Payload(routeGuild, data, preprocess);
      && p.Keys == GuildFields
      && (forall k :: k in GuildFields && k != "platformId" && k != "roles" ==> p[k] == Field(data, k))
      && p["roles"] == Arr([Obj(map["imageUrl" := Field(data, "imageUrl"), "name" := Str("Member"),
                                    "requirements" := preprocess(Field(data, "requirements"))])])
      && (Field(data, "platform") == Str(platform) && platform in data && data[platform].Obj? ==>
            p["platformId"] == Field(data[platform].fields, "platformId"))
  {
    var p := Payload(routeGuild, data, preprocess);
    assert p["roles"] == Arr([MemberRole(data, preprocess)]);
    assert p["platformId"] == PlatformId(data);
  }

  /** A role is posted to the role endpoint and a guild to the guild
      endpoint under the API base, both as a signed JSON POST. */
  lemma SubmitIsSignedPost(apiBase: string, stringify: Value -> string, routeGuild: Value,
                           validation: Value, payload: map<string, Value>)
    ensures var r := SubmitRequest(apiBase, stringify, routeGuild, validation, payload);
      && r.url == apiBase + Endpoint(routeGuild)
      && r.options["method"] == Str("POST")
      && r.options["body"] == Str(stringify(SignedBody(Obj(payload), validation)))
  {
    var path := Endpoint(routeGuild);
    // Either endpoint starts with neither "http" nor "/api": a guild API call.
    assert path[..4] == "/rol" || path[..4] == "/gui";
    SignedPost(apiBase, stringify, path, validation, Obj(payload));
  }

  /** Both modes fire confetti first and end by revalidating the guild
      lists; a role revalidates its guild and stays, a guild navigates to
      its new page. */
  lemma SuccessEffects(routeGuild: Value, response: Value)
    ensures var e := OnSuccess(routeGuild, response);
      && |e| == 5 && e[0] == Confetti && e[3..] == ListInvalidations
      && (Truthy(routeGuild) ==>
            e[2] == Revalidate(Str("/guild/" + ToText(routeGuild))) &&
            forall i :: 0 <= i < |e| ==> !e[i].Navigate?)
      && (!Truthy(routeGuild) ==>
            e[2] == Navigate("/" + ToText(Get(response, "urlName"))) &&
            forall i :: 0 <= i < |e| ==> !e[i].Revalidate?)
  {
  }
}
