/**
 * The `Reporting` resource (`reporting.py`): downloading an execution
 * report, listing its attachments and downloading one attachment.  As in
 * the scheduler, the encoded dictionary is appended to the path with no
 * `&` in between.  The try/except around the client call is
 * `Api.APIBase.Call` with the label constants below.
 * The methods ending in `Call`, at the end of the module, run each
 * operation end to end.
 */
module Reporting {
  import opened Py
  import opened Query
  import opened Params
  import opened Api

  const ReportLabel := "get execution report API call"
  const AttachmentListLabel := "report log attachment list API call"
  const AttachmentLabel := "download execution report API call"

  const ReportRequired := "reportKey is required and value is invalid."
  const AttachmentListRequired := "reportKey is required and the value is invalid."
  const AttachmentRequired := "reportKey, attachment, and reportType are required parameters and their values are invalid."

  /** What Python says when a logger is asked for its missing `degug` method. */
  const DegugMissing := "'CustomLogging' object has no attribute 'degug'"

  /** `/reports/<reportKey>?operation=<op>`. */
  function ReportPath(reportKey: Val, op: string): (r: string)
    ensures StartsWith(r, "/reports/")
  {
    "/reports/" + Str(reportKey) + "?operation=" + op
  }

  /** The assignments `getExecutionReport` makes, in order. */
  function ReportEntries(owner: Val, format: Val, responseFormat: Val): seq<Entry>
  {
    [IfSet("owner", owner), Always("format", format), Always("responseFormat", responseFormat)]
  }

  /**
   * `getExecutionReport`: the report key is required; `format` and
   * `responseFormat` are always sent, so the dictionary is never empty and
   * its first key runs straight into the operation name.
   */
  method GetExecutionReport(reportKey: Val, owner: Val, format: Val, responseFormat: Val) returns (b: Built)
    ensures !b.Fail?
    ensures b.Halt? <==> !Truthy(reportKey)
    ensures b.Halt? ==> b.exc == Error(ReportRequired)
    ensures b.Send? ==>
              && GetOf(b, ReportPath(reportKey, "download")) && WellFormed(b.req)
              && Reflects(b.req.params, ReportEntries(owner, format, responseFormat))
              && |b.req.uri| > |ReportPath(reportKey, "download")|
              && b.req.uri[|ReportPath(reportKey, "download")|] != '&'
  {
    if !Truthy(reportKey) {
      return Halt(Error(ReportRequired));
    }
    var es := ReportEntries(owner, format, responseFormat);
    var params := Assign(map[], es);
    FillReflects(es);
    assert es[1] in es;
    b := GetAppended(ReportPath(reportKey, "download"), params);
  }

  /** The assignments `getReportAttachmentList` makes, in order; all of them guarded. */
  function AttachmentListEntries(kind: Val, owner: Val, admin: Val): seq<Entry>
  {
    [IfSet("type", kind), IfSet("owner", owner), IfSet("admin", admin)]
  }

  /**
   * `getReportAttachmentList`: the report key is required; with no type,
   * owner or admin the request is the bare path.
   */
  method GetReportAttachmentList(reportKey: Val, kind: Val, owner: Val, admin: Val) returns (b: Built)
    ensures !b.Fail?
    ensures b.Halt? <==> !Truthy(reportKey)
    ensures b.Halt? ==> b.exc == Error(AttachmentListRequired)
    ensures b.Send? ==>
              && GetOf(b, ReportPath(reportKey, "attachments")) && WellFormed(b.req)
              && Reflects(b.req.params, AttachmentListEntries(kind, owner, admin))
    ensures b.Send? && !Truthy(kind) && !Truthy(owner) && !Truthy(admin) ==>
              b.req.uri == ReportPath(reportKey, "attachments")
  {
    if !Truthy(reportKey) {
      return Halt(Error(AttachmentListRequired));
    }
    var es := AttachmentListEntries(kind, owner, admin);
    var params := Assign(map[], es);
    FillReflects(es);
    b := GetAppended(ReportPath(reportKey, "attachments"), params);
    if !Truthy(kind) && !Truthy(owner) && !Truthy(admin) {
      NothingSent(es, params);
      var path := ReportPath(reportKey, "attachments");
      EmptyEncoding(b.req.uri[|path|..]);
      assert b.req.uri == b.req.uri[..|path|] + b.req.uri[|path|..];
    }
  }

  /**
   * `getExecutionReportAttachment` as written: after the required-argument
   * check, the misspelled logging call `log.degug` raises AttributeError
   * before the try block, so no request is ever sent.  (The dictionary and
   * URI built before that call are never used.)
   */
  method GetExecutionReportAttachment(reportType: Val, reportKey: Val, attachment: Val, owner: Val, admin: Val)
    returns (b: Built)
    ensures b.Halt?
    ensures !Truthy(reportKey) || !Truthy(attachment) || !Truthy(reportType) ==> b.exc == Error(AttachmentRequired)
    ensures Truthy(reportKey) && Truthy(attachment) && Truthy(reportType) ==> b.exc == AttributeError(DegugMissing)
  {
    if !Truthy(reportKey) || !Truthy(attachment) || !Truthy(reportType) {
      return Halt(Error(AttachmentRequired));
    }
    return Halt(AttributeError(DegugMissing));
  }

  /** The assignments `getExecutionReportAttachment` makes, in order. */
  function AttachmentEntries(attachment: Val, owner: Val, admin: Val): seq<Entry>
  {
    [Always("attachment", attachment), IfSet("owner", owner), IfSet("admin", admin)]
  }

  /**
   * `getExecutionReportAttachment` as evidently intended (`log.debug`): the
   * report type is the operation name and the attachment is always sent.
   */
  method GetExecutionReportAttachmentIntended(reportType: Val, reportKey: Val, attachment: Val, owner: Val,
                                              admin: Val)
    returns (b: Built)
    ensures !b.Fail?
    ensures b.Halt? <==> !Truthy(reportKey) || !Truthy(attachment) || !Truthy(reportType)
    ensures b.Halt? ==> b.exc == Error(AttachmentRequired)
    ensures b.Send? ==>
              && GetOf(b, ReportPath(reportKey, Str(reportType))) && WellFormed(b.req)
              && Reflects(b.req.params, AttachmentEntries(attachment, owner, admin))
              && b.req.params["attachment"] == Str(attachment)
  {
    if !Truthy(reportKey) || !Truthy(attachment) || !Truthy(reportType) {
      return Halt(Error(AttachmentRequired));
    }
    var es := AttachmentEntries(attachment, owner, admin);
    var params := Assign(map[], es);
    FillReflects(es);
    ReflectsAt(params, es, 0);
    b := GetAppended(ReportPath(reportKey, Str(reportType)), params);
  }

  /*
   * The operations end to end on a resource object `api`: the builder above,
   * then the try/except with the operation's own label.
   */

  /** `getExecutionReport`: a failure labelled "get execution report API call". */
  method GetExecutionReportCall(api: APIBase, reportKey: Val, owner: Val, format: Val, responseFormat: Val, env: Env)
    returns (b: Built, sent: Option<HttpRequest>, r: Outcome)
    ensures Completes(api, ReportLabel, "", b, env, sent, r)
    ensures !Truthy(reportKey) ==> sent == None && r == Raise(Error(ReportRequired))
    ensures Truthy(reportKey) ==>
              sent.Some? && GetOf(b, ReportPath(reportKey, "download")) &&
              r == WrapOutcome(ReportLabel, "", Respond(env))
  {
    b := GetExecutionReport(reportKey, owner, format, responseFormat);
    sent, r := api.Call(ReportLabel, "", b, env);
  }

  /** `getReportAttachmentList`: a failure labelled "report log attachment list API call". */
  method GetReportAttachmentListCall(api: APIBase, reportKey: Val, kind: Val, owner: Val, admin: Val, env: Env)
    returns (b: Built, sent: Option<HttpRequest>, r: Outcome)
    ensures Completes(api, AttachmentListLabel, "", b, env, sent, r)
    ensures !Truthy(reportKey) ==> sent == None && r == Raise(Error(AttachmentListRequired))
    ensures Truthy(reportKey) ==>
              sent.Some? && GetOf(b, ReportPath(reportKey, "attachments")) &&
              r == WrapOutcome(AttachmentListLabel, "", Respond(env))
  {
    b := GetReportAttachmentList(reportKey, kind, owner, admin);
    sent, r := api.Call(AttachmentListLabel, "", b, env);
  }

  /** `getExecutionReportAttachment` as written: nothing is ever sent, so its label never appears. */
  method GetExecutionReportAttachmentCall(api: APIBase, reportType: Val, reportKey: Val, attachment: Val,
                                          owner: Val, admin: Val, env: Env)
    returns (b: Built, sent: Option<HttpRequest>, r: Outcome)
    ensures Completes(api, AttachmentLabel, "", b, env, sent, r)
    ensures sent == None
    ensures !Truthy(reportKey) || !Truthy(attachment) || !Truthy(reportType) ==>
              r == Raise(Error(AttachmentRequired))
    ensures Truthy(reportKey) && Truthy(attachment) && Truthy(reportType) ==>
              r == Raise(AttributeError(DegugMissing))
  {
    b := GetExecutionReportAttachment(reportType, reportKey, attachment, owner, admin);
    sent, r := api.Call(AttachmentLabel, "", b, env);
  }

  /** `getExecutionReportAttachment` as evidently intended: the download is sent and labelled. */
  method GetExecutionReportAttachmentIntendedCall(api: APIBase, reportType: Val, reportKey: Val, attachment: Val,
                                                  owner: Val, admin: Val, env: Env)
    returns (b: Built, sent: Option<HttpRequest>, r: Outcome)
    ensures Completes(api, AttachmentLabel, "", b, env, sent, r)
    ensures !Truthy(reportKey) || !Truthy(attachment) || !Truthy(reportType) ==>
              sent == None && r == Raise(Error(AttachmentRequired))
    ensures Truthy(reportKey) && Truthy(attachment) && Truthy(reportType) ==>
              sent.Some? && r == WrapOutcome(AttachmentLabel, "", Respond(env))
  {
    b := GetExecutionReportAttachmentIntended(reportType, reportKey, attachment, owner, admin);
    sent, r := api.Call(AttachmentLabel, "", b, env);
  }
}
