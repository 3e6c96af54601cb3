/** `useCreateRole`: the hook behind the role forms. Its `onSubmit`
    normalises the submitted data object in place before signing it;
    `preprocessRequirements` and `preprocessGatedChannels` are parameters.
    Nested objects are values here, so an update of the first role
    platform is an update of the `rolePlatforms` entry of the data. */
module CreateRole {
  import opened Wrappers
  import opened Js
  import opened Ascii
  import opened Fetcher
  import opened SubmitEffects

  type Data = map<string, Value>

  const Endpoint: string := "/role"

  /** The fields a "NEW" role loses besides the platform's own id. */
  const NewRoleDrops: set<string> := {"activationInterval", "includeUnauthenticated"}

  /** `data.rolePlatforms[0].platformRoleData.gatedChannels = …` can be
      carried out: the first role platform exists and holds a
      `platformRoleData` object. Anything else throws a TypeError. */
  predicate Assignable(data: Data) {
    var platforms := Field(data, "rolePlatforms");
    platforms.Arr? && |platforms.items| > 0 && platforms.items[0].Obj?
      && "platformRoleData" in platforms.items[0].fields
      && platforms.items[0].fields["platformRoleData"].Obj?
  }

  /** `data?.requirements || []`, preprocessed. */
  function NewRequirements(data: Data, preprocess: Value -> Value): Value {
    preprocess(Or(Field(data, "requirements"), Arr([])))
  }

  /** The first role platform after the gated channels are replaced and,
      for a new role, its `rolePlatformId` is deleted. */
  function NewFirstPlatform(first: map<string, Value>, isNew: bool,
                            preprocessGated: Value -> Value): map<string, Value>
    requires "platformRoleData" in first && first["platformRoleData"].Obj?
  {
    var roleData := first["platformRoleData"].fields;
    var roleData' := roleData["gatedChannels" := preprocessGated(Field(roleData, "gatedChannels"))];
    first["platformRoleData" := Obj(roleData')] - (if isNew then {"rolePlatformId"} else {})
  }

  /** The data after `onSubmit`, and whether it got as far as the
      signature (false: a TypeError was thrown after the requirements
      were already replaced). */
  function Normalised(data: Data, preprocess: Value -> Value, preprocessGated: Value -> Value)
    : (r: (Data, bool))
    ensures "requirements" in r.0 && r.0["requirements"] == NewRequirements(data, preprocess)
    ensures r.1 ==> "roleType" !in r.0 && "rolePlatforms" in r.0
    ensures !r.1 ==> r.0 == data["requirements" := NewRequirements(data, preprocess)]
  {
    var withRequirements := data["requirements" := NewRequirements(data, preprocess)];
    if !Assignable(withRequirements) then (withRequirements, false)
    else
      var platforms := withRequirements["rolePlatforms"].items;
      var isNew := Field(withRequirements, "roleType") == Str("NEW");
      var first := NewFirstPlatform(platforms[0].fields, isNew, preprocessGated);
      var updated := withRequirements["rolePlatforms" := Arr([Obj(first)] + platforms[1..])];
      ((if isNew then updated - NewRoleDrops else updated) - {"roleType"}, true)
  }

  /** The submitted object, which `onSubmit` changes in place. */
  class RoleSubmission {
    var data: Data

    constructor (submitted: Data)
      ensures data == submitted
    {
      data := submitted;
    }

    /** `onSubmit` up to the call that signs the data; `ok` is false when
        the assignment to the gated channels throws. */
    method Normalise(preprocess: Value -> Value, preprocessGated: Value -> Value)
      returns (ok: bool)
      modifies this
      ensures (data, ok) == Normalised(old(data), preprocess, preprocessGated)
    {
      data := data["requirements" := preprocess(Or(Field(data, "requirements"), Arr([])))];
      ghost var withRequirements := data;
      var platforms := Field(data, "rolePlatforms");
      if !(platforms.Arr? && |platforms.items| > 0 && platforms.items[0].Obj?) {
        assert !Assignable(withRequirements);
        return false;
      }
      var first := platforms.items[0].fields;
      if !("platformRoleData" in first && first["platformRoleData"].Obj?) {
        assert !Assignable(withRequirements);
        return false;
      }
      assert Assignable(withRequirements);
      var isNew := Field(data, "roleType") == Str("NEW");
      var roleData := first["platformRoleData"].fields;
      roleData := roleData["gatedChannels" := preprocessGated(Field(roleData, "gatedChannels"))];
      first := first["platformRoleData" := Obj(roleData)];
      if isNew {
        first := first - {"rolePlatformId"};
      }
      assert first == NewFirstPlatform(platforms.items[0].fields, isNew, preprocessGated);
      data := data["rolePlatforms" := Arr([Obj(first)] + platforms.items[1..])];
      ghost var updated := data;
      if isNew {
        data := data - {"activationInterval"};
        data := data - {"includeUnauthenticated"};
        assert data == updated - NewRoleDrops;
      }
      data := data - {"roleType"};
      return true;
    }
  }

  /** The request `fetchData` sends. */
  function SubmitRequest(apiBase: string, stringify: Value -> string, validation: Value,
                         data: Data): Request
  {
    Fetch(apiBase, stringify, Endpoint, map["validation" := validation, "body" := Obj(data)])
  }

  datatype Mode = Simple | ConfettiMode

  const RoleCreatedTitle: string := "Role successfully created"

  /** The guild details key: `[`/guild/details/${guild ?? guildId}`, {method: "POST", body: {}}]`. */
  function DetailsKey(routeGuild: Value, response: Value): Value {
    Arr([Str("/guild/details/" + ToText(Coalesce(routeGuild, Get(response, "guildId")))),
         Obj(map["method" := Str("POST"), "body" := Obj(map[])])])
  }

  function AccessKey(response: Value, account: Value): Value {
    Str("/guild/access/" + ToText(Get(response, "guildId")) + "/" + ToText(account))
  }

  /** `onSuccess`, without the telemetry. */
  function OnSuccess(mode: Mode, routeGuild: Value, response: Value, account: Value): (e: seq<Effect>)
    ensures |e| >= 4
    ensures e[|e| - 2] == RevalidateMatching(GuildsByAddress) && e[|e| - 1] == RevalidateMatching(GuildOrder)
    ensures !Truthy(routeGuild) ==> |e| == 4
  {
    (if Truthy(routeGuild)
     then (if mode == ConfettiMode then [Confetti] else []) + [Toast(RoleCreatedTitle)]
     else [])
      + [Revalidate(DetailsKey(routeGuild, response)), Revalidate(AccessKey(response, account))]
      + ListInvalidations
  }

  // -----------------------------------------------------------------------
  // Properties

  /** The requirements are replaced by their preprocessed form, with a
      missing list read as [], whether or not the rest succeeds. */
  lemma RequirementsReplaced(data: Data, preprocess: Value -> Value, preprocessGated: Value -> Value)
    ensures var r := Normalised(data, preprocess, preprocessGated).0;
      && "requirements" in r
      && r["requirements"] == preprocess(Or(Field(data, "requirements"), Arr([])))
      && ("requirements" !in data ==> r["requirements"] == preprocess(Arr([])))
  {
  }

  /** The assignment to the gated channels throws exactly when the data
      has no first role platform with a `platformRoleData` object; the
      data is then left with only its requirements replaced. */
  lemma TypeErrorIff(data: Data, preprocess: Value -> Value, preprocessGated: Value -> Value)
    ensures !Normalised(data, preprocess, preprocessGated).1 <==> !Assignable(data)
    ensures !Assignable(data) ==>
      Normalised(data, preprocess, preprocessGated).0 ==
        data["requirements" := NewRequirements(data, preprocess)]
  {
    var w := data["requirements" := NewRequirements(data, preprocess)];
    assert Field(w, "rolePlatforms") == Field(data, "rolePlatforms");
  }

  /** On success `roleType` is gone, every field the normalisation does
      not name is unchanged, and `activationInterval` and
      `includeUnauthenticated` are removed exactly for a "NEW" role. */
  lemma FieldsAfterNormalise(data: Data, preprocess: Value -> Value, preprocessGated: Value -> Value,
                             k: string)
    requires Assignable(data)
    ensures var r := Normalised(data, preprocess, preprocessGated).0;
      && "roleType" !in r
      && (k !in {"requirements", "rolePlatforms", "roleType"} + NewRoleDrops ==>
            (k in r <==> k in data) && (k in data ==> r[k] == data[k]))
      && (Field(data, "roleType") == Str("NEW") ==> forall d :: d in NewRoleDrops ==> d !in r)
      && (Field(data, "roleType") != Str("NEW") ==>
            forall d :: d in NewRoleDrops ==> (d in r <==> d in data) && (d in data ==> r[d] == data[d]))
  {
    var w := data["requirements" := NewRequirements(data, preprocess)];
    assert Field(w, "rolePlatforms") == Field(data, "rolePlatforms");
    assert Field(w, "roleType") == Field(data, "roleType");
  }

  /** On success the first role platform's gated channels are the
      preprocessed old ones, its `rolePlatformId` is removed exactly for a
      "NEW" role, every other field of it and of its `platformRoleData`
      is unchanged, and the other role platforms are untouched. */
  lemma FirstPlatformAfterNormalise(data: Data, preprocess: Value -> Value,
                                    preprocessGated: Value -> Value, k: string)
    requires Assignable(data)
    ensures var r := Normalised(data, preprocess, preprocessGated).0;
      var old_ := data["rolePlatforms"].items;
      && "rolePlatforms" in r && r["rolePlatforms"].Arr?
      && |r["rolePlatforms"].items| == |old_|
      && r["rolePlatforms"].items[1..] == old_[1..]
      && r["rolePlatforms"].items[0].Obj?
      && var first := r["rolePlatforms"].items[0].fields;
         && "platformRoleData" in first && first["platformRoleData"].Obj?
         && first["platformRoleData"].fields["gatedChannels"] ==
              preprocessGated(Field(old_[0].fields["platformRoleData"].fields, "gatedChannels"))
         && ("rolePlatformId" in first <==>
               "rolePlatformId" in old_[0].fields && Field(data, "roleType") != Str("NEW"))
         && ("rolePlatformId" in first ==> first["rolePlatformId"] == old_[0].fields["rolePlatformId"])
         && (k != "platformRoleData" && k != "rolePlatformId" ==>
               (k in first <==> k in old_[0].fields) && (k in old_[0].fields ==> first[k] == old_[0].fields[k]))
         && var od := old_[0].fields["platformRoleData"].fields;
            var fd := first["platformRoleData"].fields;
            k != "gatedChannels" ==> (k in fd <==> k in od) && (k in od ==> fd[k] == od[k])
  {
    var w := data["requirements" := NewRequirements(data, preprocess)];
    assert Field(w, "rolePlatforms") == Field(data, "rolePlatforms");
    assert Field(w, "roleType") == Field(data, "roleType");
  }

  /** Roles always go to the role endpoint under the API base as a signed
      JSON POST. */
  lemma SubmitIsSignedPost(apiBase: string, stringify: Value -> string, validation: Value, data: Data)
    ensures var r := SubmitRequest(apiBase, stringify, validation, data);
      && r.url == apiBase + "/role"
      && r.options["method"] == Str("POST")
      && r.options["body"] == Str(stringify(SignedBody(Obj(data), validation)))
  {
    assert Endpoint[..4] == "/rol";  // so "/role" starts with neither "http" nor "/api"
    SignedPost(apiBase, stringify, Endpoint, validation, Obj(data));
  }

  /** Confetti only in confetti mode with a guild in the route, the
      "Role successfully created" toast exactly with a guild in the route;
      the details, access and guild-list keys are always revalidated, last. */
  lemma SuccessEffects(mode: Mode, routeGuild: Value, response: Value, account: Value)
    ensures var e := OnSuccess(mode, routeGuild, response, account);
      && (Confetti in e <==> mode == ConfettiMode && Truthy(routeGuild))
      && (Toast(RoleCreatedTitle) in e <==> Truthy(routeGuild))
      && |e| >= 4
      && e[|e| - 4..] == [Revalidate(DetailsKey(routeGuild, response)),
                          Revalidate(AccessKey(response, account))] + ListInvalidations
  {
    var head: seq<Effect> := if Truthy(routeGuild)
      then (if mode == ConfettiMode then [Confetti] else []) + [Toast(RoleCreatedTitle)]
      else [];
    assert Confetti in head <==> mode == ConfettiMode && Truthy(routeGuild);
    assert Toast(RoleCreatedTitle) in head <==> Truthy(routeGuild);
    TailAfter(head, DetailsKey(routeGuild, response), AccessKey(response, account));
  }

  /** The last four effects are the two revalidated keys and the list
      invalidations, and confetti or the toast among them comes from the
      head. */
  lemma TailAfter(head: seq<Effect>, details: Value, access: Value)
    ensures var e := head + [Revalidate(details), Revalidate(access)] + ListInvalidations;
      && |e| >= 4
      && e[|e| - 4..] == [Revalidate(details), Revalidate(access)] + ListInvalidations
      && (Confetti in e <==> Confetti in head)
      && (Toast(RoleCreatedTitle) in e <==> Toast(RoleCreatedTitle) in head)
  {
    var tail := [Revalidate(details), Revalidate(access)] + ListInvalidations;
    assert Confetti !in tail && Toast(RoleCreatedTitle) !in tail;
    assert head + [Revalidate(details), Revalidate(access)] + ListInvalidations == head + tail;
    assert (head + tail)[|head|..] == tail;
  }
}
