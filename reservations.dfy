/**
 * The `Reservations` resource (`reservations.py`): listing, inspecting,
 * creating, deleting and updating device reservations.  Every value is
 * passed through `str()` before it is stored, `admin` is sent as the text
 * "true" whenever it is set, and path and encoded dictionary are joined
 * with `properParams`.  The try/except around the client call is
 * `Api.APIBase.Call` with the label constants below (`UpdateSuffix` closes
 * the update message).
 * The methods ending in `Call`, at the end of the module, run each
 * operation end to end.
 */
module Reservations {
  import opened Py
  import opened Query
  import opened Params
  import opened Api

  const ListLabel := "reservation list API call"
  const InfoLabel := "reservation info API call"
  const CreateLabel := "create reservation API call"
  const DeleteLabel := "delete reservation API call"
  const UpdateLabel := "update reservation API call"
  const UpdateSuffix := "."

  const CreateRequired := "Missing one or more required parameters."
  const DeleteRequired := "reservationID is a required parameter."
  const UpdateRequired := "ReservationID is a required parameter and is not valid."
  const UpdateOptional := "One or more optional parameters are required."

  const ListPath := "reservations?operation=list"
  const CreatePath := "reservations?operation=create"

  /** `reservations/<reservationID>?operation=<op>`. */
  function IdPath(reservationID: Val, op: string): (r: string)
    ensures StartsWith(r, "reservations/")
  {
    "reservations/" + Str(reservationID) + "?operation=" + op
  }

  /** `str(x)` of every resource id. */
  function IdTexts(ids: seq<Val>): (r: seq<string>)
    ensures |r| == |ids| && forall i :: 0 <= i < |ids| ==> r[i] == Str(ids[i])
  {
    seq(|ids|, i requires 0 <= i < |ids| => Str(ids[i]))
  }

  /** `",".join([str(x) for x in ids])`. */
  function IdList(ids: seq<Val>): string
  {
    Join(IdTexts(ids), ',')
  }

  /** The id list splits back into the ids' texts when none of them holds a comma. */
  lemma IdListSplits(ids: seq<Val>)
    requires |ids| >= 1
    requires forall i :: 0 <= i < |ids| ==> ',' !in Str(ids[i])
    ensures Split(IdList(ids), ',') == IdTexts(ids)
  {
    SplitJoin(IdTexts(ids), ',');
  }

  /** `params["admin"] = "true" if admin else "false"` inside `if admin:`. */
  function AdminEntry(admin: Val): (e: Entry)
    ensures e.key == "admin" && e.sent == Truthy(admin) && Str(e.value) == "true"
  {
    Entry("admin", Truthy(admin), StrVal("true"))
  }

  /**
   * The assignments `reservationList` makes, in order.  The response format
   * is sent only when it differs from "json"; the id list only when there
   * are ids.
   */
  function ListEntries(resourceIds: seq<Val>, startTime: Val, endTime: Val, reservedTo: Val, admin: Val,
                       responseFormat: Val): seq<Entry>
  {
    [AdminEntry(admin), Entry("responseFormat", responseFormat != StrVal("json"), responseFormat),
     IfSet("reservedTo", reservedTo), Entry("resourceIds", |resourceIds| > 0, StrVal(IdList(resourceIds))),
     IfSet("startTime", startTime), IfSet("endTime", endTime)]
  }

  /** `reservationList`: nothing is required; a GET of the path, `&` and the encoded dictionary. */
  method ReservationList(resourceIds: seq<Val>, startTime: Val, endTime: Val, reservedTo: Val, admin: Val,
                         responseFormat: Val)
    returns (b: Built)
    ensures GetOf(b, ListPath + "&") && WellFormed(b.req)
    ensures Reflects(b.req.params, ListEntries(resourceIds, startTime, endTime, reservedTo, admin, responseFormat))
  {
    var es := ListEntries(resourceIds, startTime, endTime, reservedTo, admin, responseFormat);
    var params := Assign(map[], es);
    FillReflects(es);
    b := GetProper(ListPath, params);
  }

  /**
   * What a listing sends: "true" for a set `admin`, the response format only
   * when it is not "json", and the ids joined by commas.
   */
  lemma ListSends(p: Params, resourceIds: seq<Val>, startTime: Val, endTime: Val, reservedTo: Val, admin: Val,
                  responseFormat: Val)
    requires Reflects(p, ListEntries(resourceIds, startTime, endTime, reservedTo, admin, responseFormat))
    ensures "admin" in p <==> Truthy(admin)
    ensures Truthy(admin) ==> p["admin"] == "true"
    ensures "responseFormat" in p <==> responseFormat != StrVal("json")
    ensures "resourceIds" in p <==> |resourceIds| > 0
    ensures |resourceIds| > 0 ==> p["resourceIds"] == IdList(resourceIds)
  {
    var es := ListEntries(resourceIds, startTime, endTime, reservedTo, admin, responseFormat);
    ReflectsAt(p, es, 0);
    ReflectsAt(p, es, 1);
    ReflectsAt(p, es, 3);
  }

  /** The assignments `reservationInfo` makes, in order. */
  function InfoEntries(admin: Val, responseFormat: Val): seq<Entry>
  {
    [AdminEntry(admin), Always("responseFormat", responseFormat)]
  }

  /** `reservationInfo`: the id is not checked; it goes into the path as `str()` writes it. */
  method ReservationInfo(reservationID: Val, admin: Val, responseFormat: Val) returns (b: Built)
    ensures GetOf(b, IdPath(reservationID, "info") + "&") && WellFormed(b.req)
    ensures Reflects(b.req.params, InfoEntries(admin, responseFormat))
  {
    var es := InfoEntries(admin, responseFormat);
    var params := Assign(map[], es);
    FillReflects(es);
    b := GetProper(IdPath(reservationID, "info"), params);
  }

  /**
   * The assignments `createReservation` makes, in order.  Its `admin`
   * argument is accepted and never assigned.
   */
  function CreateEntries(resourceIDs: seq<Val>, startTime: Val, endTime: Val, reserveTo: Val, description: Val,
                         responseFormat: Val): seq<Entry>
  {
    [Always("resourceIds", StrVal(IdList(resourceIDs))), Always("startTime", startTime),
     Always("endTime", endTime), IfSet("reserveTo", reserveTo), IfSet("description", description),
     Always("responseFormat", responseFormat)]
  }

  /**
   * `createReservation`: ids, start and end time are required; the rest is
   * a GET of the path, `&` and the encoded dictionary.
   */
  method CreateReservation(resourceIDs: seq<Val>, startTime: Val, endTime: Val, reserveTo: Val, description: Val,
                           responseFormat: Val, admin: Val)
    returns (b: Built)
    ensures !b.Fail?
    ensures b.Halt? <==> |resourceIDs| == 0 || !Truthy(startTime) || !Truthy(endTime)
    ensures b.Halt? ==> b.exc == Error(CreateRequired)
    ensures b.Send? ==>
              && GetOf(b, CreatePath + "&") && WellFormed(b.req)
              && Reflects(b.req.params, CreateEntries(resourceIDs, startTime, endTime, reserveTo, description,
                                                      responseFormat))
  {
    if |resourceIDs| == 0 || !Truthy(startTime) || !Truthy(endTime) {
      return Halt(Error(CreateRequired));
    }
    var es := CreateEntries(resourceIDs, startTime, endTime, reserveTo, description, responseFormat);
    var params := Assign(map[], es);
    FillReflects(es);
    b := GetProper(CreatePath, params);
  }

  lemma CreateEntriesKeys(resourceIDs: seq<Val>, startTime: Val, endTime: Val, reserveTo: Val, description: Val,
                          responseFormat: Val)
    ensures var es := CreateEntries(resourceIDs, startTime, endTime, reserveTo, description, responseFormat);
            Distinct(es) && forall i :: 0 <= i < |es| ==> es[i].key != "admin"
  {
  }

  /** A creation always sends the id list, start and end time, and never `admin`. */
  lemma CreateSends(p: Params, resourceIDs: seq<Val>, startTime: Val, endTime: Val, reserveTo: Val,
                    description: Val, responseFormat: Val)
    requires Reflects(p, CreateEntries(resourceIDs, startTime, endTime, reserveTo, description, responseFormat))
    ensures "admin" !in p
    ensures "resourceIds" in p && p["resourceIds"] == IdList(resourceIDs)
    ensures "startTime" in p && p["startTime"] == Str(startTime)
    ensures "endTime" in p && p["endTime"] == Str(endTime)
  {
    var es := CreateEntries(resourceIDs, startTime, endTime, reserveTo, description, responseFormat);
    ReflectsAt(p, es, 0);
    ReflectsAt(p, es, 1);
    ReflectsAt(p, es, 2);
    CreateEntriesKeys(resourceIDs, startTime, endTime, reserveTo, description, responseFormat);
    Unassigned(es, "admin");
  }

  /** The assignments `deleteReservation` makes, in order. */
  function DeleteEntries(scope: Val, responseFormat: Val, admin: Val): seq<Entry>
  {
    [Always("scope", scope), Always("responseFormat", responseFormat), AdminEntry(admin)]
  }

  /** `deleteReservation`: the id is required. */
  method DeleteReservation(reservationID: Val, scope: Val, responseFormat: Val, admin: Val) returns (b: Built)
    ensures !b.Fail?
    ensures b.Halt? <==> !Truthy(reservationID)
    ensures b.Halt? ==> b.exc == Error(DeleteRequired)
    ensures b.Send? ==>
              && GetOf(b, IdPath(reservationID, "delete") + "&") && WellFormed(b.req)
              && Reflects(b.req.params, DeleteEntries(scope, responseFormat, admin))
  {
    if !Truthy(reservationID) {
      return Halt(Error(DeleteRequired));
    }
    var es := DeleteEntries(scope, responseFormat, admin);
    var params := Assign(map[], es);
    FillReflects(es);
    b := GetProper(IdPath(reservationID, "delete"), params);
  }

  /** The assignments `updateReservation` makes, in order. */
  function UpdateEntries(startTime: Val, endTime: Val, reserveTo: Val, description: Val, responseFormat: Val,
                         admin: Val): seq<Entry>
  {
    [IfSet("startTime", startTime), IfSet("endTime", endTime), IfSet("reserveTo", reserveTo),
     IfSet("description", description), AdminEntry(admin), Always("responseFormat", responseFormat)]
  }

  lemma UpdateEntriesKeys(startTime: Val, endTime: Val, reserveTo: Val, description: Val, responseFormat: Val,
                          admin: Val)
    ensures Distinct(UpdateEntries(startTime, endTime, reserveTo, description, responseFormat, admin))
  {
  }

  /**
   * `updateReservation`: the id is required, and so is at least one of
   * start time, end time, reservee and description.
   */
  method UpdateReservation(reservationID: Val, startTime: Val, endTime: Val, reserveTo: Val, description: Val,
                           responseFormat: Val, admin: Val)
    returns (b: Built)
    ensures !Truthy(reservationID) ==> b == Halt(Error(UpdateRequired))
    ensures (Truthy(reservationID) && !Truthy(startTime) && !Truthy(endTime) && !Truthy(reserveTo) &&
             !Truthy(description)) ==> b == Halt(Error(UpdateOptional))
    ensures b.Send? <==>
              Truthy(reservationID) &&
              (Truthy(startTime) || Truthy(endTime) || Truthy(reserveTo) || Truthy(description))
    ensures b.Send? ==>
              && GetOf(b, IdPath(reservationID, "update") + "&") && WellFormed(b.req)
              && Reflects(b.req.params, UpdateEntries(startTime, endTime, reserveTo, description, responseFormat,
                                                      admin))
  {
    if !Truthy(reservationID) {
      return Halt(Error(UpdateRequired));
    }
    if !Truthy(startTime) && !Truthy(endTime) && !Truthy(reserveTo) && !Truthy(description) {
      return Halt(Error(UpdateOptional));
    }
    var es := UpdateEntries(startTime, endTime, reserveTo, description, responseFormat, admin);
    UpdateEntriesKeys(startTime, endTime, reserveTo, description, responseFormat, admin);
    var params := Assign(map[], es);
    FillReflects(es);
    b := GetProper(IdPath(reservationID, "update"), params);
  }

  /** An update that is sent changes at least one of the four reservation fields. */
  lemma UpdateChangesSomething(p: Params, startTime: Val, endTime: Val, reserveTo: Val, description: Val,
                               responseFormat: Val, admin: Val)
    requires Reflects(p, UpdateEntries(startTime, endTime, reserveTo, description, responseFormat, admin))
    requires Truthy(startTime) || Truthy(endTime) || Truthy(reserveTo) || Truthy(description)
    ensures "startTime" in p || "endTime" in p || "reserveTo" in p || "description" in p
  {
    var es := UpdateEntries(startTime, endTime, reserveTo, description, responseFormat, admin);
    ReflectsAt(p, es, 0);
    ReflectsAt(p, es, 1);
    ReflectsAt(p, es, 2);
    ReflectsAt(p, es, 3);
  }

  /*
   * The operations end to end on a resource object `api`: the builder above,
   * then the try/except with the operation's own label.
   */

  /** `reservationList`: always sent, a failure labelled "reservation list API call". */
  method ReservationListCall(api: APIBase, resourceIds: seq<Val>, startTime: Val, endTime: Val, reservedTo: Val,
                             admin: Val, responseFormat: Val, env: Env)
    returns (b: Built, sent: Option<HttpRequest>, r: Outcome)
    ensures Completes(api, ListLabel, "", b, env, sent, r)
    ensures sent.Some? && GetOf(b, ListPath + "&")
    ensures r == WrapOutcome(ListLabel, "", Respond(env))
  {
    b := ReservationList(resourceIds, startTime, endTime, reservedTo, admin, responseFormat);
    sent, r := api.Call(ListLabel, "", b, env);
  }

  /** `reservationInfo`: the id is not checked; always sent. */
  method ReservationInfoCall(api: APIBase, reservationID: Val, admin: Val, responseFormat: Val, env: Env)
    returns (b: Built, sent: Option<HttpRequest>, r: Outcome)
    ensures Completes(api, InfoLabel, "", b, env, sent, r)
    ensures sent.Some? && GetOf(b, IdPath(reservationID, "info") + "&")
    ensures r == WrapOutcome(InfoLabel, "", Respond(env))
  {
    b := ReservationInfo(reservationID, admin, responseFormat);
    sent, r := api.Call(InfoLabel, "", b, env);
  }

  /** `createReservation`: a failure labelled "create reservation API call". */
  method CreateReservationCall(api: APIBase, resourceIDs: seq<Val>, startTime: Val, endTime: Val, reserveTo: Val,
                               description: Val, responseFormat: Val, admin: Val, env: Env)
    returns (b: Built, sent: Option<HttpRequest>, r: Outcome)
    ensures Completes(api, CreateLabel, "", b, env, sent, r)
    ensures |resourceIDs| == 0 || !Truthy(startTime) || !Truthy(endTime) ==>
              sent == None && r == Raise(Error(CreateRequired))
    ensures |resourceIDs| > 0 && Truthy(startTime) && Truthy(endTime) ==>
              sent.Some? && GetOf(b, CreatePath + "&") && r == WrapOutcome(CreateLabel, "", Respond(env))
  {
    b := CreateReservation(resourceIDs, startTime, endTime, reserveTo, description, responseFormat, admin);
    sent, r := api.Call(CreateLabel, "", b, env);
  }

  /** `deleteReservation`: a failure labelled "delete reservation API call". */
  method DeleteReservationCall(api: APIBase, reservationID: Val, scope: Val, responseFormat: Val, admin: Val,
                               env: Env)
    returns (b: Built, sent: Option<HttpRequest>, r: Outcome)
    ensures Completes(api, DeleteLabel, "", b, env, sent, r)
    ensures !Truthy(reservationID) ==> sent == None && r == Raise(Error(DeleteRequired))
    ensures Truthy(reservationID) ==>
              sent.Some? && GetOf(b, IdPath(reservationID, "delete") + "&") &&
              r == WrapOutcome(DeleteLabel, "", Respond(env))
  {
    b := DeleteReservation(reservationID, scope, responseFormat, admin);
    sent, r := api.Call(DeleteLabel, "", b, env);
  }

  /** `updateReservation`: its failure message closes with `'.` rather than `'`. */
  method UpdateReservationCall(api: APIBase, reservationID: Val, startTime: Val, endTime: Val, reserveTo: Val,
                               description: Val, responseFormat: Val, admin: Val, env: Env)
    returns (b: Built, sent: Option<HttpRequest>, r: Outcome)
    ensures Completes(api, UpdateLabel, UpdateSuffix, b, env, sent, r)
    ensures !Truthy(reservationID) ==> sent == None && r == Raise(Error(UpdateRequired))
    ensures (Truthy(reservationID) && !Truthy(startTime) && !Truthy(endTime) && !Truthy(reserveTo) &&
             !Truthy(description)) ==> sent == None && r == Raise(Error(UpdateOptional))
    ensures sent.Some? <==>
              Truthy(reservationID) && (Truthy(startTime) || Truthy(endTime) || Truthy(reserveTo) || Truthy(description))
    ensures sent.Some? ==> GetOf(b, IdPath(reservationID, "update") + "&")
  {
    b := UpdateReservation(reservationID, startTime, endTime, reserveTo, description, responseFormat, admin);
    sent, r := api.Call(UpdateLabel, UpdateSuffix, b, env);
  }
}
