/**
 * The `Devices` resource (`devices.py`): listing handsets by filter,
 * inspecting, updating and releasing one handset.  Unlike the other
 * resources, `listDevices` and `updateDevice` raise their argument errors
 * inside the try block, so those come back wrapped (`Fail`).  The
 * try/except around the client call is `Api.APIBase.Call` with the label
 * constants below.
 * The methods ending in `Call`, at the end of the module, run each
 * operation end to end.
 */
module Devices {
  import opened Py
  import opened Query
  import opened Params
  import opened Api

  const ListLabel := "listDevices API call"
  const InfoLabel := "deviceInfo API call"
  const UpdateLabel := "updateDevice"
  const ReleaseLabel := "relase device API call"

  const UnknownFilters := "One or more unknown filter types given."
  const UpdateNeedsField := "One or more of description or roles required in function call."
  const UpdateNeedsId := "Device ID is required."

  const ListPath := "/handsets?operation=list"

  /** The filter names the handset list accepts. */
  const ListFilters: set<string> :=
    {"admin", "deviceId", "manufacturer", "model", "distributor", "firmware", "operator.name",
     "operator.country", "operator.code", "description", "location", "language", "status",
     "allocatedTo", "reservedTo", "availableTo", "owner", "inUse", "cradleId", "os", "osVersion",
     "resolution", "phoneNumber", "link.type"}

  /** `/handsets/<deviceID>?operation=<op>`. */
  function DevicePath(deviceID: Val, op: string): (r: string)
    ensures StartsWith(r, "/handsets/")
  {
    "/handsets/" + Str(deviceID) + "?operation=" + op
  }

  /** `str()` of every value, the text urlencode writes. */
  function Texts(f: map<string, Val>): (p: Params)
    ensures p.Keys == f.Keys && forall k :: k in f ==> p[k] == Str(f[k])
  {
    map k | k in f :: Str(f[k])
  }

  /** `val = f[from]; del f[from]; f[to] = val` when `from` is a key. */
  function Move(f: map<string, Val>, from: string, to: string): map<string, Val>
  {
    if from in f then (f - {from})[to := f[from]] else f
  }

  /** The short names `listDevices` accepts in place of four filter names. */
  predicate Alias(k: string)
  {
    k == "name" || k == "country" || k == "code" || k == "type"
  }

  /**
   * The filters after the four renamings, in source order: `name`, `country`,
   * `code` (to `codeKey`) and `type`.
   */
  function Aliased(f: map<string, Val>, codeKey: string): map<string, Val>
  {
    Move(Move(Move(Move(f, "name", "operator.name"), "country", "operator.country"), "code", codeKey),
         "type", "link.type")
  }

  /** Moving a key keeps every other key, and the target holds the moved value. */
  lemma MoveKeys(f: map<string, Val>, from: string, to: string)
    requires from != to
    ensures var r := Move(f, from, to);
            && (forall k :: k in r <==> (k in f && k != from) || (k == to && from in f))
            && (from in f ==> r[to] == f[from])
            && (forall k :: k in f && k != from && k != to ==> r[k] == f[k])
  {
  }

  /**
   * Which names survive the renamings: every non-alias filter, and each
   * alias's target when the alias was given.
   */
  lemma AliasedKeys(f: map<string, Val>, codeKey: string)
    requires !Alias(codeKey)
    ensures forall k :: k in Aliased(f, codeKey) <==>
                          || (k in f && !Alias(k))
                          || (k == "operator.name" && "name" in f)
                          || (k == "operator.country" && "country" in f)
                          || (k == codeKey && "code" in f)
                          || (k == "link.type" && "type" in f)
  {
    var f1 := Move(f, "name", "operator.name");
    var f2 := Move(f1, "country", "operator.country");
    var f3 := Move(f2, "code", codeKey);
    MoveKeys(f, "name", "operator.name");
    MoveKeys(f1, "country", "operator.country");
    MoveKeys(f2, "code", codeKey);
    MoveKeys(f3, "type", "link.type");
  }

  /** The renamings leave the filters empty exactly when they were empty. */
  lemma AliasedEmpty(f: map<string, Val>, codeKey: string)
    requires !Alias(codeKey)
    ensures Aliased(f, codeKey) == map[] <==> f == map[]
  {
    AliasedKeys(f, codeKey);
    if f != map[] {
      var k :| k in f;
      if k == "name" {
        assert "operator.name" in Aliased(f, codeKey);
      } else if k == "country" {
        assert "operator.country" in Aliased(f, codeKey);
      } else if k == "code" {
        assert codeKey in Aliased(f, codeKey);
      } else if k == "type" {
        assert "link.type" in Aliased(f, codeKey);
      } else {
        assert k in Aliased(f, codeKey);
      }
    }
  }

  /** A name the filter check against `names` lets through, given where `code` is renamed to. */
  predicate KnownIn(k: string, codeKey: string, names: set<string>)
  {
    || (k in names && !Alias(k))
    || k == "name" || k == "country" || k == "type"
    || (k == "code" && codeKey in names)
  }

  /** A name the handset list's filter check lets through. */
  predicate Known(k: string, codeKey: string)
  {
    KnownIn(k, codeKey, ListFilters)
  }

  /** The renamings' fixed targets are all filter names. */
  lemma TargetsListed()
    ensures "operator.name" in ListFilters && "operator.country" in ListFilters && "link.type" in ListFilters
  {
  }

  /** The check against `names` passes exactly when every name given is known to it. */
  lemma FilterCheckIn(f: map<string, Val>, codeKey: string, names: set<string>)
    requires !Alias(codeKey)
    requires "operator.name" in names && "operator.country" in names && "link.type" in names
    ensures Aliased(f, codeKey).Keys <= names <==> forall k :: k in f ==> KnownIn(k, codeKey, names)
  {
    AliasedKeys(f, codeKey);
    var r := Aliased(f, codeKey);
    if r.Keys <= names {
      forall k | k in f ensures KnownIn(k, codeKey, names) {
        if k == "code" {
          assert codeKey in r;
        } else if !Alias(k) {
          assert k in r;
        }
      }
    }
    if forall k :: k in f ==> KnownIn(k, codeKey, names) {
      forall k | k in r ensures k in names {
        assert k in Aliased(f, codeKey);
        if k == codeKey && "code" in f {
          assert KnownIn("code", codeKey, names);
        } else if k in f && !Alias(k) {
          assert KnownIn(k, codeKey, names);
        }
      }
    }
  }

  /** The handset list's filter check passes exactly when every name given is `Known`. */
  lemma FilterCheck(f: map<string, Val>, codeKey: string)
    requires !Alias(codeKey)
    ensures Aliased(f, codeKey).Keys <= ListFilters <==> forall k :: k in f ==> Known(k, codeKey)
  {
    TargetsListed();
    FilterCheckIn(f, codeKey, ListFilters);
  }

  /**
   * The body of `listDevices` with `code` renamed to `codeKey`: the
   * renamings change the filter dictionary in place, then the check and
   * the request.
   */
  method ListWith(filters: map<string, Val>, codeKey: string) returns (b: Built)
    requires !Alias(codeKey)
    ensures !b.Halt?
    ensures b.Fail? <==> filters != map[] && !(Aliased(filters, codeKey).Keys <= ListFilters)
    ensures b.Fail? ==> b.exc == Error(UnknownFilters)
    ensures b.Send? && filters == map[] ==> b.req == Request(GET, ListPath, map[], None)
    ensures b.Send? && filters != map[] ==>
              GetOf(b, ListPath + "&") && b.req.params == Texts(Aliased(filters, codeKey)) && WellFormed(b.req)
  {
    var f := filters;
    if f != map[] {
      if "name" in f {
        var val := f["name"];
        f := f - {"name"};
        f := f["operator.name" := val];
      }
      if "country" in f {
        var val := f["country"];
        f := f - {"country"};
        f := f["operator.country" := val];
      }
      if "code" in f {
        var val := f["code"];
        f := f - {"code"};
        f := f[codeKey := val];
      }
      if "type" in f {
        var val := f["type"];
        f := f - {"type"};
        f := f["link.type" := val];
      }
    }
    assert f == Aliased(filters, codeKey);
    AliasedEmpty(filters, codeKey);
    if f != map[] && !(f.Keys <= ListFilters) {
      return Fail(Error(UnknownFilters));
    }
    if f == map[] {
      return Send(Request(GET, ListPath, map[], None));
    }
    b := GetProper(ListPath, Texts(f));
  }

  /**
   * `listDevices` as written: `code` is renamed to `country.code`, which is
   * not a filter name, so any call using it fails the check.
   */
  method ListDevices(filters: map<string, Val>) returns (b: Built)
    ensures !b.Halt?
    ensures b.Fail? <==> exists k :: k in filters && !Known(k, "country.code")
    ensures "code" in filters ==> b == Fail(Error(UnknownFilters))
    ensures b.Fail? ==> b.exc == Error(UnknownFilters)
    ensures b.Send? && filters == map[] ==> b.req == Request(GET, ListPath, map[], None)
    ensures b.Send? && filters != map[] ==>
              GetOf(b, ListPath + "&") && b.req.params == Texts(Aliased(filters, "country.code")) &&
              WellFormed(b.req)
  {
    FilterCheck(filters, "country.code");
    assert !Known("code", "country.code");
    b := ListWith(filters, "country.code");
  }

  /** `listDevices` as evidently intended: `code` is the operator code filter. */
  method ListDevicesIntended(filters: map<string, Val>) returns (b: Built)
    ensures !b.Halt?
    ensures b.Fail? <==> exists k :: k in filters && !Known(k, "operator.code")
    ensures b.Fail? ==> b.exc == Error(UnknownFilters)
    ensures b.Send? && filters == map[] ==> b.req == Request(GET, ListPath, map[], None)
    ensures b.Send? && filters != map[] ==>
              GetOf(b, ListPath + "&") && b.req.params == Texts(Aliased(filters, "operator.code")) &&
              WellFormed(b.req)
  {
    FilterCheck(filters, "operator.code");
    b := ListWith(filters, "operator.code");
  }

  /** Every documented short name is accepted once `code` goes to `operator.code`. */
  lemma AliasesKnown(k: string)
    requires Alias(k)
    ensures Known(k, "operator.code")
    ensures Known(k, "country.code") <==> k != "code"
  {
  }

  /** A renamed filter carries the value given under its short name. */
  lemma AliasedValues(f: map<string, Val>, codeKey: string)
    requires !Alias(codeKey) && codeKey != "operator.name" && codeKey != "operator.country" && codeKey != "link.type"
    ensures "name" in f ==> Aliased(f, codeKey)["operator.name"] == f["name"]
    ensures "country" in f ==> Aliased(f, codeKey)["operator.country"] == f["country"]
    ensures "code" in f ==> Aliased(f, codeKey)[codeKey] == f["code"]
    ensures "type" in f ==> Aliased(f, codeKey)["link.type"] == f["type"]
  {
    var f1 := Move(f, "name", "operator.name");
    var f2 := Move(f1, "country", "operator.country");
    var f3 := Move(f2, "code", codeKey);
    MoveKeys(f, "name", "operator.name");
    MoveKeys(f1, "country", "operator.country");
    MoveKeys(f2, "code", codeKey);
    MoveKeys(f3, "type", "link.type");
  }

  /**
   * `deviceInfo` and `releaseDevice`: the path alone, or, when `admin` is
   * set, the path, `&` and `admin=<str(admin)>`.
   */
  method AdminQuery(path: string, admin: Val) returns (b: Built)
    ensures !Truthy(admin) ==> b == Send(Request(GET, path, map[], None))
    ensures Truthy(admin) ==>
              && b.Send? && b.req.verb == GET && b.req.body == None
              && b.req.params == map["admin" := Str(admin)]
              && b.req.uri == path + "&" + Pair("admin", Str(admin))
  {
    if !Truthy(admin) {
      return Send(Request(GET, path, map[], None));
    }
    b := GetProper(path, map["admin" := Str(admin)]);
    SingleEncoding(b.req.uri[|path + "&"|..], "admin", Str(admin));
    assert b.req.uri == b.req.uri[..|path + "&"|] + b.req.uri[|path + "&"|..];
  }

  /** `deviceInfo`: the id is not checked; it goes into the path as `%s` writes it. */
  method DeviceInfo(deviceID: Val, admin: Val) returns (b: Built)
    ensures !Truthy(admin) ==> b == Send(Request(GET, DevicePath(deviceID, "info"), map[], None))
    ensures Truthy(admin) ==>
              && b.Send? && b.req.verb == GET && b.req.body == None
              && b.req.params == map["admin" := Str(admin)]
              && b.req.uri == DevicePath(deviceID, "info") + "&" + Pair("admin", Str(admin))
  {
    b := AdminQuery(DevicePath(deviceID, "info"), admin);
  }

  /** `releaseDevice`: as `deviceInfo`, with operation `release`. */
  method ReleaseDevice(deviceID: Val, admin: Val) returns (b: Built)
    ensures !Truthy(admin) ==> b == Send(Request(GET, DevicePath(deviceID, "release"), map[], None))
    ensures Truthy(admin) ==>
              && b.Send? && b.req.verb == GET && b.req.body == None
              && b.req.params == map["admin" := Str(admin)]
              && b.req.uri == DevicePath(deviceID, "release") + "&" + Pair("admin", Str(admin))
  {
    b := AdminQuery(DevicePath(deviceID, "release"), admin);
  }

  /** The assignments `updateDevice` makes, in order; the roles are joined by commas. */
  function UpdateEntries(description: Val, roles: seq<string>, admin: Val): seq<Entry>
  {
    [IfSet("description", description), Entry("roles", |roles| > 0, StrVal(Join(roles, ','))),
     IfSet("admin", admin)]
  }

  /**
   * `updateDevice`: a description or some roles are required, then the
   * device id; both checks raise inside the try block.
   */
  method UpdateDevice(deviceID: Val, description: Val, roles: seq<string>, admin: Val) returns (b: Built)
    ensures !Truthy(description) && |roles| == 0 ==> b == Fail(Error(UpdateNeedsField))
    ensures (Truthy(description) || |roles| > 0) && !Truthy(deviceID) ==> b == Fail(Error(UpdateNeedsId))
    ensures b.Send? <==> (Truthy(description) || |roles| > 0) && Truthy(deviceID)
    ensures b.Send? ==>
              && GetOf(b, DevicePath(deviceID, "update") + "&") && WellFormed(b.req)
              && Reflects(b.req.params, UpdateEntries(description, roles, admin))
  {
    if !Truthy(description) && |roles| == 0 {
      return Fail(Error(UpdateNeedsField));
    }
    if !Truthy(deviceID) {
      return Fail(Error(UpdateNeedsId));
    }
    var es := UpdateEntries(description, roles, admin);
    var args := Assign(map[], es);
    FillReflects(es);
    b := GetProper(DevicePath(deviceID, "update"), args);
  }

  /** The roles sent split back into the roles given, when none holds a comma. */
  lemma RolesSplit(p: Params, description: Val, roles: seq<string>, admin: Val)
    requires Reflects(p, UpdateEntries(description, roles, admin))
    requires |roles| > 0 && forall i :: 0 <= i < |roles| ==> ',' !in roles[i]
    ensures "roles" in p && Split(p["roles"], ',') == roles
  {
    ReflectsAt(p, UpdateEntries(description, roles, admin), 1);
    SplitJoin(roles, ',');
  }

  /*
   * The operations end to end on a resource object `api`: the builder above,
   * then the try/except with the operation's own label.
   */

  /** `listDevices` as written: an unknown filter is raised inside the try and so comes out wrapped. */
  method ListDevicesCall(api: APIBase, filters: map<string, Val>, env: Env)
    returns (b: Built, sent: Option<HttpRequest>, r: Outcome)
    ensures Completes(api, ListLabel, "", b, env, sent, r)
    ensures sent.None? <==> exists k :: k in filters && !Known(k, "country.code")
    ensures sent.None? ==> r == Raise(Wrapped(ListLabel, "", Error(UnknownFilters)))
    ensures "code" in filters ==> sent.None?
    ensures sent.Some? ==> r == WrapOutcome(ListLabel, "", Respond(env))
  {
    b := ListDevices(filters);
    sent, r := api.Call(ListLabel, "", b, env);
  }

  /** `deviceInfo`: always sent, a failure labelled "deviceInfo API call". */
  method DeviceInfoCall(api: APIBase, deviceID: Val, admin: Val, env: Env)
    returns (b: Built, sent: Option<HttpRequest>, r: Outcome)
    ensures Completes(api, InfoLabel, "", b, env, sent, r)
    ensures sent.Some? && StartsWith(b.req.uri, DevicePath(deviceID, "info"))
    ensures r == WrapOutcome(InfoLabel, "", Respond(env))
  {
    b := DeviceInfo(deviceID, admin);
    sent, r := api.Call(InfoLabel, "", b, env);
  }

  /** `updateDevice`: both missing-argument checks come out wrapped with the label "updateDevice". */
  method UpdateDeviceCall(api: APIBase, deviceID: Val, description: Val, roles: seq<string>, admin: Val, env: Env)
    returns (b: Built, sent: Option<HttpRequest>, r: Outcome)
    ensures Completes(api, UpdateLabel, "", b, env, sent, r)
    ensures !Truthy(description) && |roles| == 0 ==>
              sent == None && r == Raise(Wrapped(UpdateLabel, "", Error(UpdateNeedsField)))
    ensures (Truthy(description) || |roles| > 0) && !Truthy(deviceID) ==>
              sent == None && r == Raise(Wrapped(UpdateLabel, "", Error(UpdateNeedsId)))
    ensures sent.Some? <==> (Truthy(description) || |roles| > 0) && Truthy(deviceID)
    ensures sent.Some? ==> GetOf(b, DevicePath(deviceID, "update") + "&")
  {
    b := UpdateDevice(deviceID, description, roles, admin);
    sent, r := api.Call(UpdateLabel, "", b, env);
  }

  /** `releaseDevice`: always sent, a failure labelled "relase device API call". */
  method ReleaseDeviceCall(api: APIBase, deviceID: Val, admin: Val, env: Env)
    returns (b: Built, sent: Option<HttpRequest>, r: Outcome)
    ensures Completes(api, ReleaseLabel, "", b, env, sent, r)
    ensures sent.Some? && StartsWith(b.req.uri, DevicePath(deviceID, "release"))
    ensures r == WrapOutcome(ReleaseLabel, "", Respond(env))
  {
    b := ReleaseDevice(deviceID, admin);
    sent, r := api.Call(ReleaseLabel, "", b, env);
  }
}
