/** The HTTP boundary of both clients: URL construction, the per-request
    timeout, and the mapping of transport outcomes onto the client error
    taxonomy (brobot_client/client.py and async_client.py, `_make_request`).
    The transport itself (`requests`, `aiohttp`) is an oracle that turns a
    request into an outcome. */
module Http {
  import opened Basics
  import opened Exceptions

  datatype Method = Get | Post

  /** The endpoints the clients call. */
  datatype Endpoint = StateStructurePath | ObservationPath | ExecutePath | HealthPath {
    function Path(): string {
      match this
      case StateStructurePath => "/state_structure"
      case ObservationPath => "/observation"
      case ExecutePath => "/execute"
      case HealthPath => "/health"
    }
  }

  datatype Request = Request(verb: Method, url: string, body: Option<Json>, timeout: real, verifySsl: bool)

  /** An exception raised by the transport, described by the classes it
      belongs to (an exception may belong to several, e.g. a connect
      timeout is both a connection error and a timeout), its `str(e)` and,
      for an HTTP error status, the "detail" entry of the error body when
      that body is a readable JSON object holding one. */
  datatype Fault = Fault(isConnection: bool, isTimeout: bool, isHttpError: bool, text: string, errorDetail: Option<Json>)

  /** What sending a request does: a decoded JSON body, or an exception
      (including a body that is not valid JSON). */
  datatype Outcome = Delivered(body: Json) | Raised(fault: Fault)

  type Network = Request -> Outcome

  /** `s.rstrip('/')`. */
  function RStripSlash(s: string): (r: string)
    ensures |r| <= |s| && r == s[..|r|]
    ensures r == [] || r[|r| - 1] != '/'
    ensures forall i :: |r| <= i < |s| ==> s[i] == '/'
  {
    if s != [] && s[|s| - 1] == '/' then RStripSlash(s[..|s| - 1]) else s
  }

  /** `s.lstrip('/')`. */
  function LStripSlash(s: string): (r: string)
    ensures |r| <= |s| && r == s[|s| - |r|..]
    ensures r == [] || r[0] != '/'
    ensures forall i :: 0 <= i < |s| - |r| ==> s[i] == '/'
  {
    if s != [] && s[0] == '/' then LStripSlash(s[1..]) else s
  }

  /** The client's `base_url` and `api_base`. */
  function BaseUrl(baseUrl: string): string {
    RStripSlash(baseUrl)
  }

  function ApiBase(baseUrl: string): string {
    BaseUrl(baseUrl) + "/api/v1"
  }

  /** Index of the last '/' in s. */
  function LastSlash(s: string): (r: Option<nat>)
    ensures r.Some? ==> r.value < |s| && s[r.value] == '/' && '/' !in s[r.value + 1..]
    ensures r.None? ==> '/' !in s
  {
    if s == [] then None
    else if s[|s| - 1] == '/' then Some(|s| - 1)
    else
      var r := LastSlash(s[..|s| - 1]);
      assert s == s[..|s| - 1] + [s[|s| - 1]];
      r
  }

  /** `urljoin(api_base, reference)` for a relative-path reference: the
      merge of section 5.2.3 of RFC 3986 keeps the base up to its last '/'
      and appends the reference; an empty reference yields the base. */
  function Merge(base: string, reference: string): string {
    if reference == "" then base
    else match LastSlash(base)
      case Some(i) => base[..i + 1] + reference
      case None => reference
  }

  /** `urljoin(self.api_base, endpoint.lstrip('/'))`. */
  function RequestUrl(apiBase: string, endpoint: Endpoint): string {
    Merge(apiBase, LStripSlash(endpoint.Path()))
  }

  lemma LastSlashOfApiBase(b: string)
    ensures LastSlash(b + "/api/v1") == Some(|b| + 4)
  {
    var a := b + "/api/v1";
    var a1 := a[..|a| - 1];
    var a2 := a1[..|a1| - 1];
    assert a1 == b + "/api/v" && a2 == b + "/api/";
    assert LastSlash(a2) == Some(|b| + 4);
  }

  /** Because `api_base` has no trailing '/', the merge drops its last
      segment "v1": every endpoint resolves to `<base_url>/api/<name>`. */
  lemma RequestUrlReplacesVersion(baseUrl: string, endpoint: Endpoint)
    ensures RequestUrl(baseUrl + "/api/v1", endpoint) == baseUrl + "/api/" + endpoint.Path()[1..]
  {
    var a := baseUrl + "/api/v1";
    LastSlashOfApiBase(baseUrl);
    assert a[..|baseUrl| + 5] == baseUrl + "/api/";
    var p := endpoint.Path();
    assert p[0] == '/' && p[1] != '/';
    assert LStripSlash(p[1..]) == p[1..];
  }

  /** `timeout or self.timeout`: a missing or zero timeout falls back to
      the client default; any other value, negative ones included, is used. */
  function RequestTimeout(timeout: Option<real>, clientDefault: real): (t: real)
    ensures timeout.Some? && timeout.value != 0.0 ==> t == timeout.value
    ensures timeout.None? || timeout.value == 0.0 ==> t == clientDefault
  {
    RealOr(timeout, clientDefault)
  }

  /** The detail an HTTP error reports: the body's "detail" entry when
      readable, else `str(e)`. */
  function HttpDetail(f: Fault): Text {
    if f.errorDetail.Some? then [Shown(f.errorDetail.value)] else Say(f.text)
  }

  /** The `except` chain of `_make_request`, in clause order: connection
      errors, then timeouts, then HTTP errors, then anything else.
      `timedOut` is the client's timeout message and `detail` the detail it
      reports for an HTTP error. */
  function MapFault(f: Fault, url: string, timedOut: Text, detail: Text): (e: Error)
    ensures e.BrobotConnectionError? <==> f.isConnection
    ensures e.BrobotTimeoutError? <==> !f.isConnection && f.isTimeout
    ensures e.BrobotClientError? <==> !f.isConnection && !f.isTimeout
    ensures e.BrobotConnectionError? ==> e.message == [Lit("Failed to connect to server at "), Lit(url), Lit(": "), Lit(f.text)]
    ensures e.BrobotTimeoutError? ==> e.message == timedOut
    ensures e.BrobotClientError? && f.isHttpError ==> e.message == [Lit("HTTP error: ")] + detail
    ensures e.BrobotClientError? && !f.isHttpError ==> e.message == [Lit("Unexpected error: "), Lit(f.text)]
  {
    if f.isConnection then BrobotConnectionError([Lit("Failed to connect to server at "), Lit(url), Lit(": "), Lit(f.text)])
    else if f.isTimeout then BrobotTimeoutError(timedOut)
    else if f.isHttpError then BrobotClientError([Lit("HTTP error: ")] + detail)
    else BrobotClientError([Lit("Unexpected error: "), Lit(f.text)])
  }

  /** The errors `_make_request` raises: a connection error, a timeout, or
      a plain BrobotClientError. */
  predicate TransportError(e: Error) {
    e.BrobotConnectionError? || e.BrobotTimeoutError? || e.BrobotClientError?
  }

  /** The blocking client's result of one request. */
  function MapSync(o: Outcome, url: string, timeout: real): (r: Result<Json, Error>)
    ensures r.Success? <==> o.Delivered?
    ensures o.Delivered? ==> r.value == o.body
    ensures o.Raised? ==> r.error == MapFault(o.fault, url, [Lit("Request timed out after "), Num(timeout), Lit("s: "), Lit(o.fault.text)], HttpDetail(o.fault))
    ensures r.Failure? ==> TransportError(r.error)
  {
    match o
    case Delivered(body) => Success(body)
    case Raised(f) => Failure(MapFault(f, url, [Lit("Request timed out after "), Num(timeout), Lit("s: "), Lit(f.text)], HttpDetail(f)))
  }

  /** The asynchronous client's result of one request. Its HTTP error
      handler reads `e.response`, an attribute aiohttp's ClientResponseError
      does not have; the bare `except` then falls back to `str(e)`, so the
      reported detail is always the exception's text. */
  function MapAsync(o: Outcome, url: string): (r: Result<Json, Error>)
    ensures r.Success? <==> o.Delivered?
    ensures o.Delivered? ==> r.value == o.body
    ensures o.Raised? ==> r.error == MapFault(o.fault, url, [Lit("Request timed out: "), Lit(o.fault.text)], Say(o.fault.text))
    ensures r.Failure? ==> TransportError(r.error)
  {
    match o
    case Delivered(body) => Success(body)
    case Raised(f) => Failure(MapFault(f, url, [Lit("Request timed out: "), Lit(f.text)], Say(f.text)))
  }

  /** The request `_make_request` of a client with the given `api_base`,
      default timeout and SSL flag sends. */
  function Prepare(baseUrl: string, verb: Method, endpoint: Endpoint, body: Option<Json>, timeout: Option<real>,
                   clientTimeout: real, verifySsl: bool): (req: Request)
    ensures req.url == RequestUrl(baseUrl + "/api/v1", endpoint) == baseUrl + "/api/" + endpoint.Path()[1..]
    ensures req.verb == verb && req.body == body && req.verifySsl == verifySsl
    ensures timeout.Some? && timeout.value != 0.0 ==> req.timeout == timeout.value
    ensures timeout.None? || timeout.value == 0.0 ==> req.timeout == clientTimeout
  {
    RequestUrlReplacesVersion(baseUrl, endpoint);
    Request(verb, RequestUrl(baseUrl + "/api/v1", endpoint), body, RequestTimeout(timeout, clientTimeout), verifySsl)
  }
}
