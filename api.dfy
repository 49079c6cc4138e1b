/**
 * The transport core of the client (`APIClient` in the package's
 * `__init__.py`): the final URL with the security token appended last and
 * non-ASCII characters dropped, the POST headers, the decoding of the
 * response body (empty, then JSON, then XML, then failure) and the
 * classification of the result into data or an APIError; plus the
 * try/except wrapping every resource method applies around its client call.
 *
 * The network and the two decoders are inputs (`Env`): the model says what
 * request is sent and what follows from each possible answer.
 */
module Api {
  import opened Py
  import opened Query
  import opened Params

  /** The base URL every resource class uses unless told otherwise. */
  const DefaultBaseURL := "https://mobilecloud.perfectomobile.com/services/"

  const ParseFailureMessage := "Unable to parse response as either json or xml."
  const NoMessage := "No additional error message received"

  datatype Verb = GET | POST

  /** What a resource method hands to the client: method, URI, the encoded dictionary, payload. */
  datatype Request = Request(verb: Verb, uri: string, params: Params, body: Option<Bytes>)

  /** A POST carries a payload and a GET does not. */
  predicate WellFormed(req: Request)
  {
    (req.verb == POST) == req.body.Some?
  }

  /**
   * How a resource method ends before the client answers: an exception raised
   * outside its try block (`Halt`, it escapes as it is), one raised inside the
   * try block (`Fail`, it is wrapped like a client failure), or the request
   * it sends (`Send`).
   */
  datatype Built = Halt(exc: Exc) | Fail(exc: Exc) | Send(req: Request)

  /** `b` sends a GET of `prefix` immediately followed by an urlencoding of its parameter dictionary. */
  ghost predicate GetOf(b: Built, prefix: string)
  {
    b.Send? && b.req.verb == GET && b.req.body == None && Encodes(b.req.uri, prefix, b.req.params)
  }

  /** `b` sends a POST of `data` to `prefix` immediately followed by an urlencoding of its parameter dictionary. */
  ghost predicate PostOf(b: Built, prefix: string, data: Bytes)
  {
    b.Send? && b.req.verb == POST && b.req.body == Some(data) && Encodes(b.req.uri, prefix, b.req.params)
  }

  /** `uriStr += urlencode(params)` followed by a GET of `uriStr`: no `&` separates the two. */
  method GetAppended(path: string, params: Params) returns (b: Built)
    ensures GetOf(b, path) && b.req.params == params && WellFormed(b.req)
    ensures params != map[] ==> |b.req.uri| > |path| && b.req.uri[|path|] != '&'
  {
    var q := Urlencode(params);
    var uriStr := path + q;
    assert uriStr[..|path|] == path && uriStr[|path|..] == q;
    if params != map[] {
      NoSeparator(uriStr, path, params);
    }
    return Send(Request(GET, uriStr, params, None));
  }

  /** `properParams(path, urlencode(params))` followed by a GET. */
  method GetProper(path: string, params: Params) returns (b: Built)
    ensures GetOf(b, path + "&") && b.req.params == params && WellFormed(b.req)
  {
    var q := Urlencode(params);
    var uriStr := ProperParams(path, q);
    assert uriStr[..|path + "&"|] == path + "&" && uriStr[|path + "&"|..] == q;
    return Send(Request(GET, uriStr, params, None));
  }

  /** `properParams(path, urlencode(params))` followed by a POST of `data`. */
  method PostProper(path: string, params: Params, data: Bytes) returns (b: Built)
    ensures PostOf(b, path + "&", data) && b.req.params == params && WellFormed(b.req)
  {
    var q := Urlencode(params);
    var uriStr := ProperParams(path, q);
    assert uriStr[..|path + "&"|] == path + "&" && uriStr[|path + "&"|..] == q;
    return Send(Request(POST, uriStr, params, Some(data)));
  }

  /** The request urllib2 puts on the wire. */
  datatype HttpRequest = HttpRequest(verb: Verb, url: string, headers: map<string, string>, data: Option<Bytes>)

  /** The network's answer: a failure before any HTTP status, or a status (None for success) and a body. */
  datatype Net = Unreachable(exc: Exc) | Answered(status: Option<int>, body: Bytes)

  /**
   * Everything outside the core: the network's answer, `json.loads`,
   * `xmltodict.parse`, and Python's str() of a decoded list or dictionary
   * (whose key order Python 2 leaves unspecified).
   */
  datatype Env = Env(net: Net, json: Bytes -> Option<PyData>, xml: Bytes -> Option<PyData>, show: PyData -> string)

  /** What a call ends in: data returned, or an exception raised. */
  datatype Outcome = Return(data: PyData) | Raise(exc: Exc)

  predicate IsAscii(s: string)
  {
    forall i :: 0 <= i < |s| ==> s[i] as int < 128
  }

  /** `s.encode('ascii', 'ignore')`: every character above 127 is dropped. */
  function AsciiIgnore(s: string): (r: string)
    ensures IsAscii(r)
    ensures |r| <= |s|
    ensures IsAscii(s) ==> r == s
  {
    if s == [] then []
    else
      (if s[0] as int < 128 then [s[0]] else []) + AsciiIgnore(s[1..])
  }

  /** Every ASCII character survives, as often as it occurs. */
  lemma {:induction false} AsciiIgnoreKeeps(s: string, c: char)
    requires c as int < 128
    ensures multiset(AsciiIgnore(s))[c] == multiset(s)[c]
  {
    if s != [] {
      assert s == [s[0]] + s[1..];
      AsciiIgnoreKeeps(s[1..], c);
    }
  }

  /** Dropping characters works piece by piece. */
  lemma {:induction false} AsciiIgnoreAppend(a: string, b: string)
    ensures AsciiIgnore(a + b) == AsciiIgnore(a) + AsciiIgnore(b)
  {
    if a == [] {
      assert a + b == b;
    } else {
      assert (a + b)[0] == a[0] && (a + b)[1..] == a[1..] + b;
      AsciiIgnoreAppend(a[1..], b);
    }
  }

  lemma {:induction false} QuotePlusSafe(s: string)
    requires forall i :: 0 <= i < |s| ==> AlwaysSafe(s[i])
    ensures QuotePlus(s) == s
  {
    if s != [] {
      QuotePlusSafe(s[1..]);
      assert [s[0]] + s[1..] == s;
    }
  }

  /** `properParams(base, params)`: the base URI, `&`, then the encoded parameters. */
  function ProperParams(base: string, params: string): (r: string)
    ensures |r| == |base| + 1 + |params|
    ensures r[..|base|] == base && r[|base|] == '&' && r[|base| + 1..] == params
  {
    base + "&" + params
  }

  /** The text of an APIError: `REST API returned HTTP <code> (<detail>)`. */
  function ApiErrorMessage(code: int, detail: string): string
  {
    "REST API returned HTTP " + IntToDecimal(code) + " (" + detail + ")"
  }

  /** Python's `'%s' % d` for a decoded value. */
  function Render(d: PyData, show: PyData -> string): string
  {
    match d
    case Null => "None"
    case Boolean(b) => if b then "True" else "False"
    case Number(n) => IntToDecimal(n)
    case Text(s) => s
    case List(_) => show(d)
    case Dict(_) => show(d)
  }

  /** Python's `part in s` on strings. */
  predicate Contains(s: string, part: string)
    decreases |s|
  {
    |part| <= |s| && (s[..|part|] == part || Contains(s[1..], part))
  }

  /**
   * The parenthesised detail of an APIError, computed from the decoded body
   * as `__send_request` does, or the TypeError that computation raises when
   * the body is not a dictionary of strings.
   */
  function ErrorDetail(result: PyData, show: PyData -> string): (r: Result<string, Exc>)
    ensures !DataTruthy(result) ==> r == Success(NoMessage)
    ensures result.Dict? && "error" in result.entries && result.entries["error"].Text? ==>
              r == Success("\"" + result.entries["error"].s + "\"")
    ensures result.Dict? && DataTruthy(result) && "error" !in result.entries ==>
              r == Success("\"" + show(result) + "\"")
    ensures result.Dict? && "error" in result.entries && !result.entries["error"].Text? ==> r.Failure?
    ensures result.List? && DataTruthy(result) ==>
              && (r.Failure? <==> Text("error") in result.items)
              && (r.Success? ==> r.value == "\"" + show(result) + "\"")
    ensures result.Text? && DataTruthy(result) ==>
              && (r.Failure? <==> Contains(result.s, "error"))
              && (r.Success? ==> r.value == "\"" + result.s + "\"")
    ensures (result.Number? || result.Boolean?) && DataTruthy(result) ==> r.Failure?
    ensures r.Failure? ==> r.error.TypeError?
  {
    if !DataTruthy(result) then Success(NoMessage)
    else
      match result
      case Dict(entries) =>
        if "error" in entries then
          match entries["error"]
          case Text(s) => Success("\"" + s + "\"")
          case other => Failure(TypeError("coercing to Unicode: need string or buffer, " + TypeName(other) + " found"))
        else Success("\"" + Render(result, show) + "\"")
      case List(items) =>
        if Text("error") in items then Failure(TypeError("list indices must be integers, not unicode"))
        else Success("\"" + Render(result, show) + "\"")
      case Text(s) =>
        if Contains(s, "error") then Failure(TypeError("string indices must be integers"))
        else Success("\"" + s + "\"")
      case _ => Failure(TypeError("argument of type '" + TypeName(result) + "' is not iterable"))
  }

  datatype Decoded = Parsed(value: PyData) | Unparseable

  /** The body decoding of `__send_request`: empty body, then JSON, then XML. */
  function Decode(body: Bytes, json: Bytes -> Option<PyData>, xml: Bytes -> Option<PyData>): (r: Decoded)
    ensures |body| == 0 ==> r == Parsed(Dict(map[]))
    ensures r.Unparseable? <==> |body| > 0 && json(body).None? && xml(body).None?
    ensures r.Parsed? && |body| > 0 ==>
              json(body) == Some(r.value) || (json(body).None? && xml(body) == Some(r.value))
  {
    if |body| == 0 then Parsed(Dict(map[]))
    else if json(body).Some? then Parsed(json(body).value)
    else if xml(body).Some? then Parsed(xml(body).value)
    else Unparseable
  }

  /** When JSON decoding succeeds the XML decoder is never consulted. */
  lemma JsonFirst(body: Bytes, json: Bytes -> Option<PyData>, xml1: Bytes -> Option<PyData>, xml2: Bytes -> Option<PyData>)
    requires json(body).Some?
    ensures Decode(body, json, xml1) == Decode(body, json, xml2)
  {
  }

  /** The classification of a decoded body: data when there was no HTTP error, an exception otherwise. */
  function Classify(status: Option<int>, result: PyData, show: PyData -> string): (r: Outcome)
    ensures status.None? ==> r == Return(result)
    ensures status.Some? ==> r.Raise?
    ensures status.Some? && ErrorDetail(result, show).Success? ==>
              r == Raise(APIError(ApiErrorMessage(status.value, ErrorDetail(result, show).value)))
    ensures status.Some? && ErrorDetail(result, show).Failure? ==> r.exc.TypeError?
  {
    if status.None? then Return(result)
    else
      match ErrorDetail(result, show)
      case Success(detail) => Raise(APIError(ApiErrorMessage(status.value, detail)))
      case Failure(e) => Raise(e)
  }

  /** What `__send_request` returns or raises for a given network answer. */
  function Respond(env: Env): (r: Outcome)
  {
    match env.net
    case Unreachable(x) => Raise(x)
    case Answered(status, body) =>
      match Decode(body, env.json, env.xml)
      case Unparseable => Raise(Error(ParseFailureMessage))
      case Parsed(d) => Classify(status, d, env.show)
  }

  /**
   * A non-empty body neither decoder accepts raises the parse failure, even
   * when the server answered with an HTTP error: the APIError is never built.
   */
  lemma ParseFailureHidesApiError(env: Env)
    requires env.net.Answered? && |env.net.body| > 0
    requires env.json(env.net.body).None? && env.xml(env.net.body).None?
    ensures Respond(env) == Raise(Error(ParseFailureMessage))
  {
  }

  /** An HTTP error whose body decodes to `{"error": s}` raises an APIError quoting s. */
  lemma ApiErrorQuotesError(env: Env, s: string)
    requires env.net.Answered? && env.net.status.Some?
    requires Decode(env.net.body, env.json, env.xml) == Parsed(Dict(map["error" := Text(s)]))
    ensures Respond(env) == Raise(APIError(ApiErrorMessage(env.net.status.value, "\"" + s + "\"")))
  {
  }

  /** An HTTP error with an empty body raises the APIError with the fallback detail. */
  lemma ApiErrorEmptyBody(env: Env)
    requires env.net.Answered? && env.net.status.Some? && |env.net.body| == 0
    ensures Respond(env) == Raise(APIError(ApiErrorMessage(env.net.status.value, NoMessage)))
  {
  }

  /** Without an HTTP error the decoded body is returned unchanged. */
  lemma SuccessReturnsDecoded(env: Env)
    requires env.net.Answered? && env.net.status.None?
    requires Decode(env.net.body, env.json, env.xml).Parsed?
    ensures Respond(env) == Return(Decode(env.net.body, env.json, env.xml).value)
  {
  }

  predicate IsDecimal(s: string)
  {
    forall i :: 0 <= i < |s| ==> IsDigit(s[i])
  }

  /** Python's TypeError for calling a function with the wrong number of arguments. */
  function CallArity(name: string, declared: nat, given: nat): (r: Option<Exc>)
    ensures r.None? <==> declared == given
    ensures r.Some? ==> r.value.TypeError?
  {
    if declared == given then None
    else Some(TypeError(name + "() takes exactly " + NatToDecimal(declared) + " arguments (" + NatToDecimal(given) + " given)"))
  }

  /** The parameter name of the token is left alone by quote_plus. */
  lemma SecurityKeySafe()
    ensures QuotePlus("securityToken") == "securityToken"
    ensures IsAscii("securityToken")
  {
    var key := "securityToken";
    assert forall i :: 0 <= i < |key| ==> AlwaysSafe(key[i]);
    QuotePlusSafe(key);
    SafeIsAscii(key);
  }

  lemma SafeIsAscii(s: string)
    requires forall i :: 0 <= i < |s| ==> AlwaysSafe(s[i])
    ensures IsAscii(s)
  {
  }

  /** An ASCII prefix passes through unchanged. */
  lemma AsciiIgnoreAsciiPrefix(a: string, b: string)
    requires IsAscii(a)
    ensures AsciiIgnore(a + b) == a + AsciiIgnore(b)
  {
    AsciiIgnoreAppend(a, b);
  }

  /** Appending `&key=` and the quoted token is appending `&` and the encoded pair. */
  lemma PairAppended(base: string, key: string, token: string)
    requires QuotePlus(key) == key
    ensures base + (("&" + key + "=") + QuotePlus(token)) == base + "&" + Pair(key, token)
  {
  }

  lemma AsciiParamHead(key: string)
    requires IsAscii(key)
    ensures IsAscii("&" + key + "=")
  {
  }

  /** Dropping the non-ASCII characters leaves an ASCII parameter head in place, after the base. */
  lemma TokenLast(base: string, key: string, quoted: string)
    requires IsAscii(key)
    ensures AsciiIgnore(base + (("&" + key + "=") + quoted))
         == AsciiIgnore(base) + ("&" + key + "=") + AsciiIgnore(quoted)
  {
    var head := "&" + key + "=";
    calc {
      AsciiIgnore(base + (head + quoted));
      == { AsciiIgnoreAppend(base, head + quoted); }
      AsciiIgnore(base) + AsciiIgnore(head + quoted);
      == { AsciiParamHead(key); AsciiIgnoreAsciiPrefix(head, quoted); }
      AsciiIgnore(base) + (head + AsciiIgnore(quoted));
      == { AppendAssoc(AsciiIgnore(base), head, AsciiIgnore(quoted)); }
      AsciiIgnore(base) + head + AsciiIgnore(quoted);
    }
  }

  lemma AppendAssoc(a: string, b: string, c: string)
    ensures a + (b + c) == a + b + c
  {
  }

  /** The two headers `__send_request` adds for a POST of n bytes. */
  function PostHeaders(n: nat): (h: map<string, string>)
    ensures h.Keys == {"Content-Type", "Content-Length"}
    ensures h["Content-Type"] == "application/octet-stream"
    ensures IsDecimal(h["Content-Length"]) && ParseNat(h["Content-Length"]) == n
  {
    ParseNatDecimal(n);
    map["Content-Type" := "application/octet-stream", "Content-Length" := NatToDecimal(n)]
  }

  /** The decoding step of `__send_request`: `{}` for an empty body, else JSON, else XML. */
  method DecodeBody(response: Bytes, json: Bytes -> Option<PyData>, xml: Bytes -> Option<PyData>) returns (d: Decoded)
    ensures d == Decode(response, json, xml)
  {
    if |response| > 0 {
      var j := json(response);
      if j.Some? {
        d := Parsed(j.value);
      } else {
        var x := xml(response);
        if x.Some? {
          d := Parsed(x.value);
        } else {
          d := Unparseable;
        }
      }
    } else {
      d := Parsed(Dict(map[]));
    }
  }

  /** The last step of `__send_request`: an APIError on an HTTP error, the result otherwise. */
  method ClassifyResult(status: Option<int>, result: PyData, show: PyData -> string) returns (r: Outcome)
    ensures r == Classify(status, result, show)
  {
    if status.Some? {
      var detail := ErrorDetail(result, show);
      if detail.Failure? {
        r := Raise(detail.error);
      } else {
        r := Raise(APIError(ApiErrorMessage(status.value, detail.value)));
      }
    } else {
      r := Return(result);
    }
  }

  /** The REST client: a base URL and a security token, fixed at construction. */
  class APIClient {
    const url: string
    const securityToken: string
    const securityKeyStr: string := "securityToken"

    constructor (securityToken: string, baseURL: string)
      ensures url == baseURL && this.securityToken == securityToken
    {
      url := baseURL;
      this.securityToken := securityToken;
    }

    /**
     * The request URL: base + uri + "&" + urlencode({"securityToken": token})
     * with every non-ASCII character dropped.  The encoded pair is written
     * as the name, "=" and the quoted token: the name needs no quoting
     * (`SecurityKeySafe`).  The token parameter is always last, whatever the
     * URI already carries.
     */
    function Compose(uri: string): (u: string)
      ensures u == AsciiIgnore(url + uri) + ("&" + securityKeyStr + "=") + AsciiIgnore(QuotePlus(securityToken))
    {
      SecurityKeySafe();
      TokenLast(url + uri, securityKeyStr, QuotePlus(securityToken));
      AsciiIgnore(url + uri + (("&" + securityKeyStr + "=") + QuotePlus(securityToken)))
    }

    /**
     * The composed URL is pure ASCII and never longer than the unfiltered
     * one; when that was ASCII already it is exactly
     * base + uri + "&" + urlencode({"securityToken": token}).
     */
    lemma ComposeAscii(uri: string)
      ensures IsAscii(Compose(uri))
      ensures |Compose(uri)| <= |url| + |uri| + 1 + |Pair(securityKeyStr, securityToken)|
      ensures IsAscii(url + uri + "&" + Pair(securityKeyStr, securityToken)) ==>
                Compose(uri) == url + uri + "&" + Pair(securityKeyStr, securityToken)
    {
      SecurityKeySafe();
      PairAppended(url + uri, securityKeyStr, securityToken);
    }

    /**
     * The urllib2 request for `__send_request(method, uri, data)`.  urllib2
     * sends a POST only when there is a non-empty payload; the two headers
     * follow the `method` argument alone.
     */
    function Prepare(verb: Verb, uri: string, data: Option<Bytes>): (r: HttpRequest)
      requires verb == POST ==> data.Some?
      ensures r.url == Compose(uri)
      ensures verb == GET ==> r.headers == map[]
      ensures verb == POST ==>
                && r.headers.Keys == {"Content-Type", "Content-Length"}
                && r.headers["Content-Type"] == "application/octet-stream"
                && IsDecimal(r.headers["Content-Length"])
                && ParseNat(r.headers["Content-Length"]) == |data.value|
      ensures r.verb == POST <==> data.Some? && |data.value| > 0
      ensures r.verb == POST ==> r.data == data
      ensures r.verb == GET ==> r.data == None
    {
      var payload := if data.Some? && |data.value| > 0 then data else None;
      var headers := if verb == POST then PostHeaders(|data.value|) else map[];
      HttpRequest(if payload.Some? then POST else GET, Compose(uri), headers, payload)
    }

    /** `__send_request`: build and send the request, decode the answer, classify it. */
    method SendRequest(verb: Verb, uri: string, data: Option<Bytes>, env: Env) returns (sent: HttpRequest, r: Outcome)
      requires verb == POST ==> data.Some?
      ensures sent == Prepare(verb, uri, data)
      ensures r == Respond(env)
    {
      sent := BuildRequest(verb, uri, data);
      match env.net {
        case Unreachable(x) =>
          r := Raise(x);
        case Answered(status, response) =>
          var decoded := DecodeBody(response, env.json, env.xml);
          if decoded.Unparseable? {
            r := Raise(Error(ParseFailureMessage));
          } else {
            r := ClassifyResult(status, decoded.value, env.show);
          }
      }
    }

    /** The first half of `__send_request`: the URL, the payload and the headers. */
    method BuildRequest(verb: Verb, uri: string, data: Option<Bytes>) returns (sent: HttpRequest)
      requires verb == POST ==> data.Some?
      ensures sent == Prepare(verb, uri, data)
    {
      var u := Compose(uri);
      var payload: Option<Bytes> := None;
      if data.Some? && |data.value| > 0 {
        payload := data;
      }
      var headers: map<string, string> := map[];
      if verb == POST {
        headers := headers["Content-Type" := "application/octet-stream"];
        headers := headers["Content-Length" := NatToDecimal(|data.value|)];
        assert headers == PostHeaders(|data.value|);
      }
      sent := HttpRequest(if payload.Some? then POST else GET, u, headers, payload);
    }
    /**
     * `send_get` as written: it passes four arguments besides `self` to the
     * three-parameter `__send_request`, so every call raises TypeError and
     * nothing is sent.
     */
    method SendGetAsWritten(uri: string) returns (sent: Option<HttpRequest>, r: Outcome)
      ensures sent == None
      ensures r.Raise? && r.exc.TypeError?
    {
      var arity := CallArity("__send_request", 4, 5);
      sent := None;
      r := Raise(arity.value);
    }

    /** `send_get` as evidently intended: `__send_request('GET', uri, None)`. */
    method SendGet(uri: string, env: Env) returns (sent: Option<HttpRequest>, r: Outcome)
      ensures sent == Some(Prepare(GET, uri, None))
      ensures sent.value.verb == GET && sent.value.headers == map[] && sent.value.data == None
      ensures r == Respond(env)
    {
      var req;
      req, r := SendRequest(GET, uri, None, env);
      sent := Some(req);
    }

    /** `send_post`: `__send_request('POST', uri, data)`. */
    method SendPost(uri: string, data: Bytes, env: Env) returns (sent: Option<HttpRequest>, r: Outcome)
      ensures sent == Some(Prepare(POST, uri, Some(data)))
      ensures ParseNat(sent.value.headers["Content-Length"]) == |data|
      ensures |data| > 0 ==> sent.value.verb == POST && sent.value.data == Some(data)
      ensures r == Respond(env)
    {
      var req;
      req, r := SendRequest(POST, uri, Some(data), env);
      sent := Some(req);
    }
  }

  /** `raise Exception("<opName> failed because '<message>'<suffix>")`. */
  function Wrapped(opName: string, suffix: string, e: Exc): (w: Exc)
    ensures w.Error?
    ensures |w.msg| == |opName| + 17 + |e.msg| + 1 + |suffix|
    ensures w.msg[..|opName|] == opName
    ensures w.msg[|opName|..|opName| + 17] == " failed because '"
    ensures w.msg[|opName| + 17..|opName| + 17 + |e.msg|] == e.msg
    ensures w.msg[|opName| + 17 + |e.msg|..] == "'" + suffix
  {
    Error(opName + " failed because '" + e.msg + "'" + suffix)
  }

  function WrapOutcome(opName: string, suffix: string, o: Outcome): (r: Outcome)
    ensures o.Return? ==> r == o
    ensures o.Raise? ==> r == Raise(Wrapped(opName, suffix, o.exc))
  {
    if o.Raise? then Raise(Wrapped(opName, suffix, o.exc)) else o
  }

  /** The common base of the resource classes: it owns the client. */
  class APIBase {
    var client: APIClient

    /** `initClient(securityToken, baseURL)`, which every resource constructor calls. */
    constructor InitClient(securityToken: string, baseURL: string)
      ensures fresh(client) && client.url == baseURL && client.securityToken == securityToken
    {
      client := new APIClient(securityToken, baseURL);
    }

    /**
     * The tail every resource method shares: an exception raised before the
     * try block escapes as it is; one raised inside it, or by the client, is
     * re-raised as an Exception naming the operation; data is returned as the
     * client returned it.  GETs go through the intended `send_get`.
     */
    method Call(opName: string, suffix: string, b: Built, env: Env) returns (sent: Option<HttpRequest>, r: Outcome)
      requires b.Send? ==> WellFormed(b.req)
      ensures b.Halt? ==> sent == None && r == Raise(b.exc)
      ensures b.Fail? ==> sent == None && r == Raise(Wrapped(opName, suffix, b.exc))
      ensures b.Send? ==> sent == Some(client.Prepare(b.req.verb, b.req.uri, b.req.body))
      ensures b.Send? ==> r == WrapOutcome(opName, suffix, Respond(env))
    {
      match b {
        case Halt(e) =>
          sent, r := None, Raise(e);
        case Fail(e) =>
          sent, r := None, Raise(Wrapped(opName, suffix, e));
        case Send(req) =>
          var o;
          if req.verb == GET {
            sent, o := client.SendGet(req.uri, env);
          } else {
            sent, o := client.SendPost(req.uri, req.body.value, env);
          }
          r := WrapOutcome(opName, suffix, o);
      }
    }

    /** The same tail with `send_get` as written: every GET ends in the wrapped TypeError. */
    method CallAsWritten(opName: string, suffix: string, b: Built, env: Env) returns (sent: Option<HttpRequest>, r: Outcome)
      requires b.Send? ==> WellFormed(b.req)
      ensures b.Send? && b.req.verb == GET ==> sent == None
      ensures b.Send? && b.req.verb == GET ==> r.Raise? && r.exc.Error?
      ensures b.Send? && b.req.verb == GET ==>
                exists m :: r == Raise(Wrapped(opName, suffix, TypeError(m)))
      ensures b.Halt? ==> sent == None && r == Raise(b.exc)
      ensures b.Fail? ==> sent == None && r == Raise(Wrapped(opName, suffix, b.exc))
      ensures b.Send? && b.req.verb == POST ==> sent == Some(client.Prepare(POST, b.req.uri, b.req.body))
      ensures b.Send? && b.req.verb == POST ==> r == WrapOutcome(opName, suffix, Respond(env))
    {
      if b.Send? && b.req.verb == GET {
        var o;
        sent, o := client.SendGetAsWritten(b.req.uri);
        r := WrapOutcome(opName, suffix, o);
      } else {
        sent, r := Call(opName, suffix, b, env);
      }
    }
  }

  /**
   * How a resource operation with try/except label `opName` (and closing
   * `suffix`) ends once its request `b` is built: an exception raised before
   * the try escapes as it is, one raised inside it is wrapped, and a request
   * is sent as `Prepare` says, its outcome wrapped (through the intended
   * `send_get`; as written, `APIBase.CallAsWritten` applies instead).
   */
  ghost predicate Completes(api: APIBase, opName: string, suffix: string, b: Built, env: Env,
                            sent: Option<HttpRequest>, r: Outcome)
    reads api
  {
    && (b.Halt? ==> sent == None && r == Raise(b.exc))
    && (b.Fail? ==> sent == None && r == Raise(Wrapped(opName, suffix, b.exc)))
    && (b.Send? ==> WellFormed(b.req)
                    && sent == Some(api.client.Prepare(b.req.verb, b.req.uri, b.req.body))
                    && r == WrapOutcome(opName, suffix, Respond(env)))
  }
}
