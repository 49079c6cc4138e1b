/**
 * The `Scheduler` resource (`scheduler.py`): each operation checks its
 * required arguments, fills a parameter dictionary by guarded insertions,
 * and appends the urlencoded dictionary to the operation's URI with no `&`
 * in between.  The methods here return what the operation hands to the
 * client (`Api.Built`); the shared try/except around the client call is
 * `Api.APIBase.Call` with the label constants below.
 * The methods ending in `Call`, at the end of the module, run each
 * operation end to end.
 */
module Scheduler {
  import opened Py
  import opened Query
  import opened Params
  import opened Api

  const CreateLabel := "create schedule API call"
  const ListLabel := "list scheduled executions API call"
  const InfoLabel := "Excecution info API call"
  const DeleteLabel := "delete scheduled execution"
  const UpdateLabel := "update scheduled execution API call"

  const CreateRequired := "scheduleKey, recurrence, and scriptKey are required parameters and the values are wrong."
  const KeyRequired := "scheduleKey is a required parameter and the data is invalid."
  const UpdateKeyRequired := "schedule key is required and is invalid."

  const CreatePath := "/schedules?operation=create"
  const ListPath := "/schedules?operation=list"

  /** `/schedules/<key>?operation=<op>`. */
  function KeyPath(scheduleKey: Val, op: string): (r: string)
    ensures StartsWith(r, "/schedules/")
  {
    "/schedules/" + Str(scheduleKey) + "?operation=" + op
  }

  /** A key the `param.` and `securedParam.` prefixes cannot produce. */
  predicate Plain(key: string)
  {
    |key| < 2 || (!(key[0] == 'p' && key[1] == 'a') && !(key[0] == 's' && key[1] == 'e'))
  }

  /**
   * The two updates both `createSchedule` and `updateScheduledExecution`
   * apply: the positional pairs under `param.` and the keyword-argument keys,
   * unpacked into two characters each, under `securedParam.`.  A key that
   * does not unpack raises ValueError before anything is sent.
   */
  method AddExtras(params: Params, parameters: seq<(string, string)>, securedParams: map<string, Val>)
    returns (r: Result<Params, Exc>)
    ensures r.Failure? <==> exists k :: k in securedParams && |k| != 2
    ensures r.Failure? ==> r.error.ValueError?
    ensures r.Success? ==>
              && r.value.Keys == params.Keys + Extras(parameters, securedParams)
              && Includes(r.value, Prefixed("param.", parameters))
              && Includes(r.value, KeyPairs("securedParam.", securedParams.Keys))
              && forall k :: k in params && k !in Extras(parameters, securedParams) ==> r.value[k] == params[k]
  {
    var positional := Prefixed("param.", parameters);
    var secured := KeyPairs("securedParam.", securedParams.Keys);
    ExtrasNotPlain(parameters, securedParams);
    var result := params;
    if |parameters| > 0 {
      result := Update(result, positional);
    } else {
      NothingAdded(params, positional);
    }
    var middle := result;
    if |securedParams| > 0 {
      var unpacked := UnpackKeys("securedParam.", securedParams);
      if unpacked.Failure? {
        return Failure(unpacked.error);
      }
      result := Update(result, unpacked.value);
      assert forall k :: k in Firsts(positional) ==> k !in Firsts(secured);
      IncludesAfterUpdate(middle, result, positional, secured);
    } else {
      NothingAdded(middle, secured);
    }
    KeysAdded(params, middle, result, Firsts(positional), Firsts(secured));
    KeptOutside(params, middle, result, Firsts(positional), Firsts(secured));
    return Success(result);
  }

  /** The keys the `param.` and `securedParam.` updates add. */
  function Extras(parameters: seq<(string, string)>, securedParams: map<string, Val>): set<string>
  {
    Firsts(Prefixed("param.", parameters)) + Firsts(KeyPairs("securedParam.", securedParams.Keys))
  }

  /** The `param.` keys start with "pa" and the `securedParam.` keys with "se". */
  lemma ExtrasNotPlain(parameters: seq<(string, string)>, securedParams: map<string, Val>)
    ensures forall k :: k in Firsts(Prefixed("param.", parameters)) ==> |k| >= 2 && k[0] == 'p' && k[1] == 'a'
    ensures forall k :: k in Firsts(KeyPairs("securedParam.", securedParams.Keys)) ==>
              |k| >= 2 && k[0] == 's' && k[1] == 'e'
  {
    forall k | k in Firsts(Prefixed("param.", parameters)) ensures |k| >= 2 && k[0] == 'p' && k[1] == 'a' {
      var e :| e in Prefixed("param.", parameters) && e.0 == k;
      assert k[..6] == "param.";
    }
    forall k | k in Firsts(KeyPairs("securedParam.", securedParams.Keys)) ensures |k| >= 2 && k[0] == 's' && k[1] == 'e' {
      var e :| e in KeyPairs("securedParam.", securedParams.Keys) && e.0 == k;
      assert k[..13] == "securedParam.";
    }
  }

  /**
   * The dictionary a scheduler operation sends: it reflects every assignment
   * in `es`, holds the `param.` and `securedParam.` pairs, and nothing else.
   */
  ghost predicate Extended(p: Params, es: seq<Entry>, parameters: seq<(string, string)>, securedParams: map<string, Val>)
  {
    && (forall e :: e in es ==> Carries(p, e))
    && Includes(p, Prefixed("param.", parameters))
    && Includes(p, KeyPairs("securedParam.", securedParams.Keys))
    && p.Keys == SentKeys(es) + Extras(parameters, securedParams)
  }

  /** No assignment in `es` names a key the extra updates could produce. */
  predicate PlainKeys(es: seq<Entry>)
  {
    forall i :: 0 <= i < |es| ==> Plain(es[i].key)
  }

  /** Assignments to plain keys followed by the extra updates give an `Extended` dictionary. */
  lemma FilledThenExtended(es: seq<Entry>, r: Params, parameters: seq<(string, string)>, securedParams: map<string, Val>)
    requires Distinct(es) && PlainKeys(es)
    requires r.Keys == Fill(map[], es).Keys + Extras(parameters, securedParams)
    requires Includes(r, Prefixed("param.", parameters))
    requires Includes(r, KeyPairs("securedParam.", securedParams.Keys))
    requires forall k :: k in Fill(map[], es) && k !in Extras(parameters, securedParams) ==> r[k] == Fill(map[], es)[k]
    ensures Extended(r, es, parameters, securedParams)
  {
    FillCarries(map[], es);
    forall e | e in es ensures Carries(r, e) {
      var i :| 0 <= i < |es| && es[i] == e;
      PlainNotExtra(e.key, parameters, securedParams);
    }
  }

  /** A plain key is none of the keys the extra updates add. */
  lemma PlainNotExtra(k: string, parameters: seq<(string, string)>, securedParams: map<string, Val>)
    requires Plain(k)
    ensures k !in Extras(parameters, securedParams)
  {
    ExtrasNotPlain(parameters, securedParams);
  }

  /** The extra updates followed by assignments to plain keys give an `Extended` dictionary. */
  lemma ExtendedThenFilled(es: seq<Entry>, x: Params, parameters: seq<(string, string)>, securedParams: map<string, Val>)
    requires Distinct(es) && PlainKeys(es)
    requires x.Keys == Extras(parameters, securedParams)
    requires Includes(x, Prefixed("param.", parameters))
    requires Includes(x, KeyPairs("securedParam.", securedParams.Keys))
    ensures Extended(Fill(x, es), es, parameters, securedParams)
  {
    ExtrasNotPlain(parameters, securedParams);
    forall e | e in es ensures e.key !in x {
      var i :| 0 <= i < |es| && es[i] == e;
      assert Plain(es[i].key);
    }
    FillCarries(x, es);
    var r := Fill(x, es);
    KeptIncludes(x, r, Prefixed("param.", parameters));
    KeptIncludes(x, r, KeyPairs("securedParam.", securedParams.Keys));
    UnionSwap(x.Keys, SentKeys(es));
  }

  /** Pairs a dictionary includes stay included when its existing keys keep their values. */
  lemma KeptIncludes(p: Params, r: Params, s: set<(string, string)>)
    requires Includes(p, s)
    requires forall k :: k in p ==> k in r && r[k] == p[k]
    ensures Includes(r, s)
  {
    forall e | e in s ensures e.0 in r && (e.0, r[e.0]) in s {
      assert e.0 in p;
    }
  }

  lemma UnionSwap(a: set<string>, b: set<string>)
    ensures a + b == b + a
  {
  }

  /** The assignments `createSchedule` makes, in order; `description` is not among them. */
  function CreateEntries(scheduleKey: Val, recurrence: Val, scriptKey: Val,
                         status: Val, owner: Val, startTime: Val, endTime: Val,
                         repeatCount: Val, responseFormat: Val, admin: Val): seq<Entry>
  {
    [IfSet("status", status), IfSet("owner", owner), IfSet("startTime", startTime),
     IfSet("endTime", endTime), IfSet("repeatCount", repeatCount), IfSet("admin", admin),
     Always("responseFormat", responseFormat), Always("scheduleKey", scheduleKey),
     Always("recurrence", recurrence), Always("scriptKey", scriptKey)]
  }

  /** A plain key no assignment names is absent from an `Extended` dictionary. */
  lemma NotSent(r: Params, es: seq<Entry>, parameters: seq<(string, string)>, securedParams: map<string, Val>, k: string)
    requires Extended(r, es, parameters, securedParams)
    requires Plain(k) && forall i :: 0 <= i < |es| ==> es[i].key != k
    ensures k !in r
  {
    Unassigned(es, k);
    ExtrasNotPlain(parameters, securedParams);
  }

  /** An assignment that is made puts its key in an `Extended` dictionary. */
  lemma Sent(r: Params, es: seq<Entry>, parameters: seq<(string, string)>, securedParams: map<string, Val>, i: int)
    requires Extended(r, es, parameters, securedParams)
    requires 0 <= i < |es| && es[i].sent
    ensures es[i].key in r
  {
    assert es[i] in es;
  }

  lemma CreateEntriesKeys(scheduleKey: Val, recurrence: Val, scriptKey: Val,
                          status: Val, owner: Val, startTime: Val, endTime: Val,
                          repeatCount: Val, responseFormat: Val, admin: Val)
    ensures Distinct(CreateEntries(scheduleKey, recurrence, scriptKey, status, owner, startTime,
                                   endTime, repeatCount, responseFormat, admin))
  {
  }

  lemma CreateEntriesPlain(scheduleKey: Val, recurrence: Val, scriptKey: Val,
                           status: Val, owner: Val, startTime: Val, endTime: Val,
                           repeatCount: Val, responseFormat: Val, admin: Val)
    ensures var es := CreateEntries(scheduleKey, recurrence, scriptKey, status, owner, startTime,
                                    endTime, repeatCount, responseFormat, admin);
            PlainKeys(es) && (forall i :: 0 <= i < |es| ==> es[i].key != "description") && es[6].sent
  {
  }

  /**
   * `createSchedule`: the three required arguments are checked before
   * anything else; then the assignments of `CreateEntries`, the `param.` and
   * `securedParam.` updates, and the encoded dictionary appended to the path
   * with no `&` in between.  `description` is accepted and never sent.
   */
  method CreateSchedule(scheduleKey: Val, recurrence: Val, scriptKey: Val,
                        status: Val, owner: Val, startTime: Val, endTime: Val,
                        repeatCount: Val, description: Val, responseFormat: Val, admin: Val,
                        parameters: seq<(string, string)>, securedParams: map<string, Val>)
    returns (b: Built)
    ensures !Truthy(scheduleKey) || !Truthy(recurrence) || !Truthy(scriptKey) ==>
              b == Halt(Error(CreateRequired))
    ensures b.Send? <==>
              Truthy(scheduleKey) && Truthy(recurrence) && Truthy(scriptKey) &&
              forall k :: k in securedParams ==> |k| == 2
    ensures !b.Send? && Truthy(scheduleKey) && Truthy(recurrence) && Truthy(scriptKey) ==>
              b.Halt? && b.exc.ValueError?
    ensures b.Send? ==>
              && GetOf(b, CreatePath)
              && Extended(b.req.params,
                          CreateEntries(scheduleKey, recurrence, scriptKey, status, owner, startTime,
                                        endTime, repeatCount, responseFormat, admin),
                          parameters, securedParams)
              && "description" !in b.req.params
              && |b.req.uri| > |CreatePath| && b.req.uri[|CreatePath|] != '&'
  {
    if !Truthy(scheduleKey) || !Truthy(recurrence) || !Truthy(scriptKey) {
      return Halt(Error(CreateRequired));
    }
    var uriStr := CreatePath;
    var es := CreateEntries(scheduleKey, recurrence, scriptKey, status, owner, startTime,
                            endTime, repeatCount, responseFormat, admin);
    var params := Assign(map[], es);
    var extended := AddExtras(params, parameters, securedParams);
    if extended.Failure? {
      return Halt(extended.error);
    }
    params := extended.value;
    CreateEntriesKeys(scheduleKey, recurrence, scriptKey, status, owner, startTime,
                      endTime, repeatCount, responseFormat, admin);
    CreateEntriesPlain(scheduleKey, recurrence, scriptKey, status, owner, startTime,
                       endTime, repeatCount, responseFormat, admin);
    FilledThenExtended(es, params, parameters, securedParams);
    NotSent(params, es, parameters, securedParams, "description");
    Sent(params, es, parameters, securedParams, 6);
    b := GetAppended(uriStr, params);
  }

  /**
   * The assignments `getScheduledExcutions` makes, in order: `owner` and
   * `admin` when set, `responseFormat` always.
   */
  function OwnerEntries(owner: Val, responseFormat: Val, admin: Val): seq<Entry>
  {
    [IfSet("owner", owner), IfSet("admin", admin), Always("responseFormat", responseFormat)]
  }

  /** `getScheduledExcutions`: nothing is required, and the dictionary is never empty. */
  method GetScheduledExcutions(owner: Val, responseFormat: Val, admin: Val) returns (b: Built)
    ensures GetOf(b, ListPath) && WellFormed(b.req)
    ensures Reflects(b.req.params, OwnerEntries(owner, responseFormat, admin))
    ensures |b.req.uri| > |ListPath| && b.req.uri[|ListPath|] != '&'
  {
    var es := OwnerEntries(owner, responseFormat, admin);
    var params := Assign(map[], es);
    FillReflects(es);
    assert es[2] in es;
    b := GetAppended(ListPath, params);
  }

  /** The assignments `getExecutionInfo` makes, in order. */
  function InfoEntries(owner: Val, responseFormat: Val, admin: Val): seq<Entry>
  {
    [IfSet("owner", owner), Always("responseFormat", responseFormat), IfSet("admin", admin)]
  }

  /** `getExecutionInfo`: the schedule key is required and is placed in the path. */
  method GetExecutionInfo(scheduleKey: Val, owner: Val, responseFormat: Val, admin: Val) returns (b: Built)
    ensures !Truthy(scheduleKey) <==> b == Halt(Error(KeyRequired))
    ensures Truthy(scheduleKey) ==>
              && GetOf(b, KeyPath(scheduleKey, "info")) && WellFormed(b.req)
              && Reflects(b.req.params, InfoEntries(owner, responseFormat, admin))
              && |b.req.uri| > |KeyPath(scheduleKey, "info")|
              && b.req.uri[|KeyPath(scheduleKey, "info")|] != '&'
  {
    if !Truthy(scheduleKey) {
      return Halt(Error(KeyRequired));
    }
    var es := InfoEntries(owner, responseFormat, admin);
    var params := Assign(map[], es);
    FillReflects(es);
    assert es[1] in es;
    b := GetAppended(KeyPath(scheduleKey, "info"), params);
  }

  /**
   * `deleteScheduledExecution` as written: the `owner` branch reads
   * `params["owner"]` from the still empty dictionary instead of assigning
   * it, so a set owner raises KeyError before the try block.  With no owner
   * the request is the intended one.
   */
  method DeleteScheduledExecution(scheduleKey: Val, owner: Val, responseFormat: Val, admin: Val) returns (b: Built)
    ensures !Truthy(scheduleKey) <==> b == Halt(Error(KeyRequired))
    ensures Truthy(scheduleKey) && Truthy(owner) ==> b == Halt(KeyError("owner"))
    ensures Truthy(scheduleKey) && !Truthy(owner) ==>
              && GetOf(b, KeyPath(scheduleKey, "delete")) && WellFormed(b.req)
              && Reflects(b.req.params, OwnerEntries(owner, responseFormat, admin))
              && "owner" !in b.req.params
  {
    if !Truthy(scheduleKey) {
      return Halt(Error(KeyRequired));
    }
    var params: Params := map[];
    if Truthy(owner) {
      if "owner" !in params {
        return Halt(KeyError("owner"));
      }
    }
    var es := [IfSet("admin", admin), Always("responseFormat", responseFormat)];
    params := Assign(params, es);
    FillReflects(es);
    OwnerUnset(owner, responseFormat, admin, params);
    b := GetAppended(KeyPath(scheduleKey, "delete"), params);
  }

  /** With no owner, the two assignments left reflect all three of `OwnerEntries`. */
  lemma OwnerUnset(owner: Val, responseFormat: Val, admin: Val, p: Params)
    requires !Truthy(owner)
    requires Reflects(p, [IfSet("admin", admin), Always("responseFormat", responseFormat)])
    ensures Reflects(p, OwnerEntries(owner, responseFormat, admin)) && "owner" !in p
  {
    var es := OwnerEntries(owner, responseFormat, admin);
    assert SentKeys(es) == SentKeys(es[1..]) by {
      assert !es[0].sent;
      forall k | k in SentKeys(es) ensures k in SentKeys(es[1..]) {
        var e :| e in es && e.sent && e.key == k;
        assert e in es[1..];
      }
    }
    assert es[1..] == [IfSet("admin", admin), Always("responseFormat", responseFormat)];
    assert es[0] in es;
  }

  /** `deleteScheduledExecution` as evidently intended: a set owner is sent. */
  method DeleteScheduledExecutionIntended(scheduleKey: Val, owner: Val, responseFormat: Val, admin: Val)
    returns (b: Built)
    ensures !Truthy(scheduleKey) <==> b == Halt(Error(KeyRequired))
    ensures Truthy(scheduleKey) ==>
              && GetOf(b, KeyPath(scheduleKey, "delete")) && WellFormed(b.req)
              && Reflects(b.req.params, OwnerEntries(owner, responseFormat, admin))
              && (Truthy(owner) ==> b.req.params["owner"] == Str(owner))
  {
    if !Truthy(scheduleKey) {
      return Halt(Error(KeyRequired));
    }
    var es := OwnerEntries(owner, responseFormat, admin);
    var params := Assign(map[], es);
    FillReflects(es);
    assert es[0] in es;
    b := GetAppended(KeyPath(scheduleKey, "delete"), params);
  }

  /**
   * The assignments `updateScheduledExecution` makes after its extra
   * updates, in order; every one but `responseFormat` only when set.
   */
  function UpdateEntries(owner: Val, recurrence: Val, startTime: Val, endTime: Val, repeateCount: Val,
                         scriptKey: Val, description: Val, responseFormat: Val, admin: Val): seq<Entry>
  {
    [IfSet("owner", owner), IfSet("recurrence", recurrence), IfSet("startTime", startTime),
     IfSet("endTime", endTime), IfSet("repeateCount", repeateCount), IfSet("scriptKey", scriptKey),
     IfSet("description", description), IfSet("admin", admin), Always("responseFormat", responseFormat)]
  }

  lemma UpdateEntriesKeys(owner: Val, recurrence: Val, startTime: Val, endTime: Val, repeateCount: Val,
                          scriptKey: Val, description: Val, responseFormat: Val, admin: Val)
    ensures var es := UpdateEntries(owner, recurrence, startTime, endTime, repeateCount,
                                    scriptKey, description, responseFormat, admin);
            Distinct(es)
  {
  }

  lemma UpdateEntriesPlain(owner: Val, recurrence: Val, startTime: Val, endTime: Val, repeateCount: Val,
                           scriptKey: Val, description: Val, responseFormat: Val, admin: Val)
    ensures var es := UpdateEntries(owner, recurrence, startTime, endTime, repeateCount,
                                    scriptKey, description, responseFormat, admin);
            PlainKeys(es) && es[8].sent
  {
  }

  /**
   * `updateScheduledExecution`: the schedule key is required; the `param.`
   * and `securedParam.` updates come first and the assignments of
   * `UpdateEntries` after them, then the encoded dictionary is appended to
   * the path with no `&` in between.
   */
  method UpdateScheduledExecution(scheduleKey: Val, owner: Val, recurrence: Val, startTime: Val, endTime: Val,
                                  repeateCount: Val, scriptKey: Val, description: Val, responseFormat: Val,
                                  admin: Val, parameters: seq<(string, string)>, securedParams: map<string, Val>)
    returns (b: Built)
    ensures !Truthy(scheduleKey) ==> b == Halt(Error(UpdateKeyRequired))
    ensures b.Send? <==> Truthy(scheduleKey) && forall k :: k in securedParams ==> |k| == 2
    ensures !b.Send? && Truthy(scheduleKey) ==> b.Halt? && b.exc.ValueError?
    ensures b.Send? ==>
              && GetOf(b, KeyPath(scheduleKey, "update")) && WellFormed(b.req)
              && Extended(b.req.params,
                          UpdateEntries(owner, recurrence, startTime, endTime, repeateCount,
                                        scriptKey, description, responseFormat, admin),
                          parameters, securedParams)
              && |b.req.uri| > |KeyPath(scheduleKey, "update")|
              && b.req.uri[|KeyPath(scheduleKey, "update")|] != '&'
  {
    if !Truthy(scheduleKey) {
      return Halt(Error(UpdateKeyRequired));
    }
    var extended := AddExtras(map[], parameters, securedParams);
    if extended.Failure? {
      return Halt(extended.error);
    }
    var x := extended.value;
    assert x.Keys == Extras(parameters, securedParams);
    var es := UpdateEntries(owner, recurrence, startTime, endTime, repeateCount,
                            scriptKey, description, responseFormat, admin);
    UpdateEntriesKeys(owner, recurrence, startTime, endTime, repeateCount,
                      scriptKey, description, responseFormat, admin);
    UpdateEntriesPlain(owner, recurrence, startTime, endTime, repeateCount,
                       scriptKey, description, responseFormat, admin);
    var params := Assign(x, es);
    ExtendedThenFilled(es, x, parameters, securedParams);
    Sent(params, es, parameters, securedParams, 8);
    b := GetAppended(KeyPath(scheduleKey, "update"), params);
  }

  /*
   * The operations end to end on a resource object `api`: the builder above,
   * then the try/except with the operation's own label.
   */

  /** `createSchedule`: a client failure surfaces as "create schedule API call failed because '<message>'". */
  method CreateScheduleCall(api: APIBase, scheduleKey: Val, recurrence: Val, scriptKey: Val,
                            status: Val, owner: Val, startTime: Val, endTime: Val,
                            repeatCount: Val, description: Val, responseFormat: Val, admin: Val,
                            parameters: seq<(string, string)>, securedParams: map<string, Val>, env: Env)
    returns (b: Built, sent: Option<HttpRequest>, r: Outcome)
    ensures Completes(api, CreateLabel, "", b, env, sent, r)
    ensures !Truthy(scheduleKey) || !Truthy(recurrence) || !Truthy(scriptKey) ==>
              sent == None && r == Raise(Error(CreateRequired))
    ensures sent.Some? <==>
              Truthy(scheduleKey) && Truthy(recurrence) && Truthy(scriptKey) &&
              forall k :: k in securedParams ==> |k| == 2
    ensures sent.Some? ==> GetOf(b, CreatePath)
  {
    b := CreateSchedule(scheduleKey, recurrence, scriptKey, status, owner, startTime, endTime,
                        repeatCount, description, responseFormat, admin, parameters, securedParams);
    sent, r := api.Call(CreateLabel, "", b, env);
  }

  /** `getScheduledExcutions`: always sent, a failure labelled "list scheduled executions API call". */
  method GetScheduledExcutionsCall(api: APIBase, owner: Val, responseFormat: Val, admin: Val, env: Env)
    returns (b: Built, sent: Option<HttpRequest>, r: Outcome)
    ensures Completes(api, ListLabel, "", b, env, sent, r)
    ensures sent.Some? && GetOf(b, ListPath)
    ensures r == WrapOutcome(ListLabel, "", Respond(env))
  {
    b := GetScheduledExcutions(owner, responseFormat, admin);
    sent, r := api.Call(ListLabel, "", b, env);
  }

  /** `getExecutionInfo`: a failure labelled "Excecution info API call". */
  method GetExecutionInfoCall(api: APIBase, scheduleKey: Val, owner: Val, responseFormat: Val, admin: Val, env: Env)
    returns (b: Built, sent: Option<HttpRequest>, r: Outcome)
    ensures Completes(api, InfoLabel, "", b, env, sent, r)
    ensures !Truthy(scheduleKey) ==> sent == None && r == Raise(Error(KeyRequired))
    ensures Truthy(scheduleKey) ==>
              sent.Some? && GetOf(b, KeyPath(scheduleKey, "info")) && r == WrapOutcome(InfoLabel, "", Respond(env))
  {
    b := GetExecutionInfo(scheduleKey, owner, responseFormat, admin);
    sent, r := api.Call(InfoLabel, "", b, env);
  }

  /** `deleteScheduledExecution` as written: a set owner ends in the unwrapped KeyError, nothing sent. */
  method DeleteScheduledExecutionCall(api: APIBase, scheduleKey: Val, owner: Val, responseFormat: Val, admin: Val,
                                      env: Env)
    returns (b: Built, sent: Option<HttpRequest>, r: Outcome)
    ensures Completes(api, DeleteLabel, "", b, env, sent, r)
    ensures !Truthy(scheduleKey) ==> sent == None && r == Raise(Error(KeyRequired))
    ensures Truthy(scheduleKey) && Truthy(owner) ==> sent == None && r == Raise(KeyError("owner"))
    ensures Truthy(scheduleKey) && !Truthy(owner) ==>
              sent.Some? && GetOf(b, KeyPath(scheduleKey, "delete")) &&
              r == WrapOutcome(DeleteLabel, "", Respond(env))
  {
    b := DeleteScheduledExecution(scheduleKey, owner, responseFormat, admin);
    sent, r := api.Call(DeleteLabel, "", b, env);
  }

  /** `updateScheduledExecution`: a failure labelled "update scheduled execution API call". */
  method UpdateScheduledExecutionCall(api: APIBase, scheduleKey: Val, owner: Val, recurrence: Val, startTime: Val,
                                      endTime: Val, repeateCount: Val, scriptKey: Val, description: Val,
                                      responseFormat: Val, admin: Val, parameters: seq<(string, string)>,
                                      securedParams: map<string, Val>, env: Env)
    returns (b: Built, sent: Option<HttpRequest>, r: Outcome)
    ensures Completes(api, UpdateLabel, "", b, env, sent, r)
    ensures !Truthy(scheduleKey) ==> sent == None && r == Raise(Error(UpdateKeyRequired))
    ensures sent.Some? <==> Truthy(scheduleKey) && forall k :: k in securedParams ==> |k| == 2
    ensures sent.Some? ==> GetOf(b, KeyPath(scheduleKey, "update"))
  {
    b := UpdateScheduledExecution(scheduleKey, owner, recurrence, startTime, endTime, repeateCount, scriptKey,
                                  description, responseFormat, admin, parameters, securedParams);
    sent, r := api.Call(UpdateLabel, "", b, env);
  }
}
