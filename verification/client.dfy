/** The blocking client (brobot_client/client.py). The HTTP session is an
    open/closed flag; the transport is a Network oracle passed to each
    call. Every operation is one request, so the results are functions of
    the client's configuration and the oracle, except for
    `get_state_structure`, whose conversion loop is a method. */
module Client {
  import opened Basics
  import opened Exceptions
  import opened Http
  import opened ClientModels
  import opened Conversions
  import opened Builders
  import opened Retry

  const DefaultBaseUrl: string := "http://localhost:8000"
  const DefaultTimeout: real := 30.0
  const DefaultConfidence: real := 0.9
  const DefaultDragDuration: real := 1.0
  const DefaultWaitTimeout: real := 30.0

  /** Pass a response on to a conversion, or propagate its error. */
  function Convert<T>(data: Result<Json, Error>, convert: Json -> Result<T, Error>): (r: Result<T, Error>)
    ensures data.Failure? ==> r == Failure(data.error)
    ensures data.Success? ==> r == convert(data.value)
  {
    match data
    case Failure(e) => Failure(e)
    case Success(d) => convert(d)
  }

  /** A transport failure the client reports is one the retry wrapper's
      default condition retries exactly when the transport failed to
      connect or timed out; HTTP errors and anything else are final. */
  lemma RetryableTransportFaults(o: Outcome, url: string, timeout: real)
    requires o.Raised?
    ensures var r := MapSync(o, url, timeout);
            r.Failure? && (ShouldRetry(r.error) <==> o.fault.isConnection || o.fault.isTimeout)
    ensures var r := MapAsync(o, url);
            r.Failure? && (ShouldRetry(r.error) <==> o.fault.isConnection || o.fault.isTimeout)
  {
  }

  class BrobotClient {
    const baseUrl: string
    const apiBase: string := baseUrl + "/api/v1"
    const timeout: real
    const verifySsl: bool
    var sessionOpen: bool

    /** `BrobotClient(base_url, timeout, verify_ssl)`: trailing slashes of
        the base URL are dropped and a session is opened. */
    constructor(baseUrl: string, timeout: real, verifySsl: bool)
      ensures this.baseUrl == RStripSlash(baseUrl) && this.apiBase == this.baseUrl + "/api/v1"
      ensures this.baseUrl == [] || this.baseUrl[|this.baseUrl| - 1] != '/'
      ensures this.timeout == timeout && this.verifySsl == verifySsl && sessionOpen
    {
      this.baseUrl := RStripSlash(baseUrl);
      this.timeout := timeout;
      this.verifySsl := verifySsl;
      sessionOpen := true;
    }

    /** `close`, also what leaving a `with` block does. */
    method Close()
      modifies this
      ensures !sessionOpen
    {
      sessionOpen := false;
    }

    /** The request `_make_request` sends. */
    function Sent(verb: Method, endpoint: Endpoint, body: Option<Json>, timeout: Option<real>): (req: Request)
      ensures req.url == baseUrl + "/api/" + endpoint.Path()[1..]
      ensures req.verb == verb && req.body == body && req.verifySsl == verifySsl
      ensures timeout.Some? && timeout.value != 0.0 ==> req.timeout == timeout.value
      ensures timeout.None? || timeout.value == 0.0 ==> req.timeout == this.timeout
    {
      Prepare(baseUrl, verb, endpoint, body, timeout, this.timeout, verifySsl)
    }

    /** `_make_request`: the decoded body, or the transport's exception
        mapped onto the client's errors. */
    function MakeRequest(verb: Method, endpoint: Endpoint, body: Option<Json>, timeout: Option<real>, net: Network): (r: Result<Json, Error>)
      ensures var o := net(Sent(verb, endpoint, body, timeout));
              r.Success? <==> o.Delivered?
      ensures var o := net(Sent(verb, endpoint, body, timeout));
              o.Delivered? ==> r.value == o.body
      ensures var req := Sent(verb, endpoint, body, timeout); var o := net(req);
              o.Raised? ==> r.error == MapFault(o.fault, req.url, [Lit("Request timed out after "), Num(req.timeout), Lit("s: "), Lit(o.fault.text)], HttpDetail(o.fault))
      ensures var o := net(Sent(verb, endpoint, body, timeout));
              o.Raised? ==> (ShouldRetry(r.error) <==> o.fault.isConnection || o.fault.isTimeout)
    ensures r.Failure? ==> TransportError(r.error)
    {
      var req := Sent(verb, endpoint, body, timeout);
      MapSync(net(req), req.url, req.timeout)
    }

    /** `get_state_structure`. */
    method GetStateStructure(net: Network) returns (r: Result<StateStructure, Error>)
      ensures r == Convert(MakeRequest(Get, StateStructurePath, None, None, net), StructureFromJson)
    {
      var data := MakeRequest(Get, StateStructurePath, None, None, net);
      if data.Failure? {
        return Failure(data.error);
      }
      r := ConvertStateStructure(data.value);
    }

    /** `get_observation`; `isIso` says which texts `datetime.fromisoformat`
        accepts. */
    function GetObservation(net: Network, isIso: string -> bool): (r: Result<Observation, Error>)
      ensures r == Convert(MakeRequest(Get, ObservationPath, None, None, net), d => ObservationFromJson(d, isIso))
      ensures r.Success? ==> isIso(r.value.timestamp) && 'Z' !in r.value.timestamp
    {
      Convert(MakeRequest(Get, ObservationPath, None, None, net), d => ObservationFromJson(d, isIso))
    }

    /** The body `execute_action` posts: the action's own timeout falls
        back to the client's. */
    function ActionBody(actionType: string, parameters: Option<map<string, Json>>, targetState: Option<string>, timeout: Option<real>): (body: Json)
      ensures body.JObj? && body.fields.Keys == {"action_type", "parameters", "target_state", "timeout"}
      ensures body.fields["action_type"] == JStr(actionType)
      ensures body.fields["parameters"] == JObj(if parameters.Some? then parameters.value else map[])
      ensures body.fields["timeout"] == JReal(RealOr(timeout, this.timeout))
    {
      JObj(ActionRequestFor(actionType, parameters, targetState, timeout, this.timeout).ToDict())
    }

    /** `execute_action`: the request itself uses the client's default
        timeout; a result whose `success` is falsy raises
        BrobotActionError. */
    function ExecuteAction(actionType: string, parameters: Option<map<string, Json>>, targetState: Option<string>,
                           timeout: Option<real>, net: Network): (r: Result<ActionResult, Error>)
      ensures r == ActionOutcome(MakeRequest(Post, ExecutePath, Some(ActionBody(actionType, parameters, targetState, timeout)), None, net), actionType)
      ensures Sent(Post, ExecutePath, Some(ActionBody(actionType, parameters, targetState, timeout)), None).timeout == this.timeout
      ensures r.Success? ==> Truthy(r.value.success)
      ensures r.Failure? ==> TransportError(r.error) || r.error.Foreign? || r.error.BrobotActionError?
      ensures r.Failure? && r.error.BrobotActionError? ==> r.error.actionType == Some(actionType)
    {
      var data := MakeRequest(Post, ExecutePath, Some(ActionBody(actionType, parameters, targetState, timeout)), None, net);
      var out := ActionOutcome(data, actionType);
      assert out.Success? ==> Truthy(out.value.success);
      assert out.Failure? && out.error.BrobotActionError? ==> out.error.actionType == Some(actionType);
      out
    }

    /** `click`: without a target it raises ValueError and sends nothing. */
    function Click(imagePattern: Option<string>, location: Option<Location>, confidence: real, timeout: Option<real>, net: Network): (r: Result<ActionResult, Error>)
      ensures ClickParameters(imagePattern, location, confidence).Failure? ==> r == Failure(ClickTargetMissing)
      ensures ClickParameters(imagePattern, location, confidence).Success? ==>
                r == ExecuteAction("click", Some(ClickParameters(imagePattern, location, confidence).value), None, timeout, net)
      ensures r.Failure? && r.error.BrobotActionError? ==> r.error.actionType == Some("click")
    {
      match ClickParameters(imagePattern, location, confidence)
      case Failure(e) => Failure(e)
      case Success(parameters) => ExecuteAction("click", Some(parameters), None, timeout, net)
    }

    /** `type_text`. */
    function TypeText(text: string, typingSpeed: Option<int>, timeout: Option<real>, net: Network): (r: Result<ActionResult, Error>)
      ensures r == ExecuteAction("type", Some(TypeTextParameters(text, typingSpeed)), None, timeout, net)
      ensures r.Success? ==> Truthy(r.value.success)
      ensures r.Failure? && r.error.BrobotActionError? ==> r.error.actionType == Some("type")
    {
      ExecuteAction("type", Some(TypeTextParameters(text, typingSpeed)), None, timeout, net)
    }

    /** `drag`. */
    function Drag(start: DragPoint, end: DragPoint, duration: real, timeout: Option<real>, net: Network): (r: Result<ActionResult, Error>)
      ensures r == ExecuteAction("drag", Some(DragParameters(start, end, duration)), None, timeout, net)
      ensures r.Success? ==> Truthy(r.value.success)
      ensures r.Failure? && r.error.BrobotActionError? ==> r.error.actionType == Some("drag")
    {
      ExecuteAction("drag", Some(DragParameters(start, end, duration)), None, timeout, net)
    }

    /** `wait_for_state`: the state is both a parameter and the target, and
        the wait's timeout is always given. */
    function WaitForState(stateName: string, timeout: real, net: Network): (r: Result<ActionResult, Error>)
      ensures r == ExecuteAction("wait", Some(WaitParameters(stateName)), Some(stateName), Some(timeout), net)
      ensures r.Success? ==> Truthy(r.value.success)
      ensures r.Failure? && r.error.BrobotActionError? ==> r.error.actionType == Some("wait")
    {
      ExecuteAction("wait", Some(WaitParameters(stateName)), Some(stateName), Some(timeout), net)
    }

    /** `get_health`: the decoded body as it is. */
    function GetHealth(net: Network): (r: Result<Json, Error>)
      ensures r == MakeRequest(Get, HealthPath, None, None, net)
      ensures r.Failure? ==> TransportError(r.error)
    {
      MakeRequest(Get, HealthPath, None, None, net)
    }
  }
}
