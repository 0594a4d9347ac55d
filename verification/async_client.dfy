/** The asynchronous client (brobot_client/async_client.py). Its aiohttp
    session is an object the client creates lazily, reuses while open and
    replaces once closed; awaiting is sequential execution here. */
module AsyncClient {
  import opened Basics
  import opened Exceptions
  import opened Http
  import opened ClientModels
  import opened Conversions
  import opened Builders
  import opened Client

  /** The fallback of an action's own timeout: fixed, not the client's. */
  const ActionTimeoutFallback: real := 30.0

  /** An aiohttp ClientSession: its default total timeout and whether it
      has been closed. */
  class ClientSession {
    const timeout: real
    var closed: bool

    constructor(timeout: real)
      ensures this.timeout == timeout && !closed
    {
      this.timeout := timeout;
      closed := false;
    }

    method Close()
      modifies this
      ensures closed
    {
      closed := true;
    }
  }

  class AsyncBrobotClient {
    const baseUrl: string
    const apiBase: string := baseUrl + "/api/v1"
    /** The `ClientTimeout(total=timeout)` sessions and requests default to. */
    const timeout: real
    const verifySsl: bool
    var session: ClientSession?

    /** `AsyncBrobotClient(base_url, timeout, verify_ssl)`: no session yet. */
    constructor(baseUrl: string, timeout: real, verifySsl: bool)
      ensures this.baseUrl == RStripSlash(baseUrl) && this.apiBase == this.baseUrl + "/api/v1"
      ensures this.timeout == timeout && this.verifySsl == verifySsl && session == null
    {
      this.baseUrl := RStripSlash(baseUrl);
      this.timeout := timeout;
      this.verifySsl := verifySsl;
      session := null;
    }

    predicate HasOpenSession()
      reads this, session
    {
      session != null && !session.closed
    }

    /** `_ensure_session`: an open session is kept, otherwise a new one is
        created with the client's timeout. */
    method EnsureSession()
      modifies this
      ensures HasOpenSession()
      ensures old(HasOpenSession()) ==> session == old(session)
      ensures !old(HasOpenSession()) ==> fresh(session) && session.timeout == timeout
    {
      if session == null || session.closed {
        session := new ClientSession(timeout);
      }
    }

    /** `close`: closes an open session; without one it does nothing. */
    method Close()
      modifies session
      ensures session != null ==> session.closed
    {
      if session != null && !session.closed {
        session.Close();
      }
    }

    /** `__aenter__`. */
    method Enter() returns (self: AsyncBrobotClient)
      modifies this
      ensures self == this && HasOpenSession()
      ensures old(HasOpenSession()) ==> session == old(session)
      ensures !old(HasOpenSession()) ==> fresh(session)
    {
      EnsureSession();
      self := this;
    }

    /** `__aexit__`. */
    method Exit()
      modifies session
      ensures session != null ==> session.closed
    {
      Close();
    }

    /** The request `_make_request` sends: `ClientTimeout(total=timeout)`
        when a truthy timeout is given, else the client's. */
    function Sent(verb: Method, endpoint: Endpoint, body: Option<Json>, timeout: Option<real>): (req: Request)
      ensures req.url == baseUrl + "/api/" + endpoint.Path()[1..]
      ensures req.verb == verb && req.body == body && req.verifySsl == verifySsl
      ensures timeout.Some? && timeout.value != 0.0 ==> req.timeout == timeout.value
      ensures timeout.None? || timeout.value == 0.0 ==> req.timeout == this.timeout
    {
      Prepare(baseUrl, verb, endpoint, body, timeout, this.timeout, verifySsl)
    }

    /** The result `_make_request` produces for a transport behaviour. */
    function Response(verb: Method, endpoint: Endpoint, body: Option<Json>, timeout: Option<real>, net: Network): (r: Result<Json, Error>)
      ensures var o := net(Sent(verb, endpoint, body, timeout));
              r.Success? <==> o.Delivered?
      ensures var o := net(Sent(verb, endpoint, body, timeout));
              o.Delivered? ==> r.value == o.body
      ensures var req := Sent(verb, endpoint, body, timeout); var o := net(req);
              o.Raised? ==> r.error == MapFault(o.fault, req.url, [Lit("Request timed out: "), Lit(o.fault.text)], Say(o.fault.text))
    ensures r.Failure? ==> TransportError(r.error)
    {
      var req := Sent(verb, endpoint, body, timeout);
      MapAsync(net(req), req.url)
    }

    /** `_make_request`: ensures a session, then sends one request. */
    method MakeRequest(verb: Method, endpoint: Endpoint, body: Option<Json>, timeout: Option<real>, net: Network)
      returns (r: Result<Json, Error>)
      modifies this
      ensures HasOpenSession() && (old(HasOpenSession()) ==> session == old(session))
      ensures r == Response(verb, endpoint, body, timeout, net)
    {
      EnsureSession();
      r := Response(verb, endpoint, body, timeout, net);
    }

    /** `get_state_structure`. */
    method GetStateStructure(net: Network) returns (r: Result<StateStructure, Error>)
      modifies this
      ensures HasOpenSession() && (old(HasOpenSession()) ==> session == old(session))
      ensures r == Convert(Response(Get, StateStructurePath, None, None, net), StructureFromJson)
    {
      var data := MakeRequest(Get, StateStructurePath, None, None, net);
      if data.Failure? {
        return Failure(data.error);
      }
      r := ConvertStateStructure(data.value);
    }

    /** `get_observation`. */
    method GetObservation(net: Network, isIso: string -> bool) returns (r: Result<Observation, Error>)
      modifies this
      ensures HasOpenSession() && (old(HasOpenSession()) ==> session == old(session))
      ensures r == Convert(Response(Get, ObservationPath, None, None, net), d => ObservationFromJson(d, isIso))
      ensures r.Success? ==> isIso(r.value.timestamp) && 'Z' !in r.value.timestamp
    {
      var data := MakeRequest(Get, ObservationPath, None, None, net);
      r := Convert(data, d => ObservationFromJson(d, isIso));
    }

    /** The body `execute_action` posts: the action's own timeout falls
        back to 30 seconds whatever the client's timeout. */
    function ActionBody(actionType: string, parameters: Option<map<string, Json>>, targetState: Option<string>, timeout: Option<real>): (body: Json)
      ensures body.JObj? && body.fields.Keys == {"action_type", "parameters", "target_state", "timeout"}
      ensures body.fields["action_type"] == JStr(actionType)
      ensures body.fields["parameters"] == JObj(if parameters.Some? then parameters.value else map[])
      ensures body.fields["timeout"] == JReal(RealOr(timeout, ActionTimeoutFallback))
    {
      JObj(ActionRequestFor(actionType, parameters, targetState, timeout, ActionTimeoutFallback).ToDict())
    }

    /** `execute_action`. */
    method ExecuteAction(actionType: string, parameters: Option<map<string, Json>>, targetState: Option<string>,
                         timeout: Option<real>, net: Network) returns (r: Result<ActionResult, Error>)
      modifies this
      ensures HasOpenSession() && (old(HasOpenSession()) ==> session == old(session))
      ensures r == ActionOutcome(Response(Post, ExecutePath, Some(ActionBody(actionType, parameters, targetState, timeout)), None, net), actionType)
      ensures r.Success? ==> Truthy(r.value.success)
      ensures r.Failure? && r.error.BrobotActionError? ==> r.error.actionType == Some(actionType)
    {
      var data := MakeRequest(Post, ExecutePath, Some(ActionBody(actionType, parameters, targetState, timeout)), None, net);
      r := ActionOutcome(data, actionType);
    }

    /** `click`: without a target it raises ValueError before any session
        is opened. */
    method Click(imagePattern: Option<string>, location: Option<Location>, confidence: real, timeout: Option<real>, net: Network)
      returns (r: Result<ActionResult, Error>)
      modifies this
      ensures ClickParameters(imagePattern, location, confidence).Failure? ==>
                r == Failure(ClickTargetMissing) && session == old(session)
      ensures ClickParameters(imagePattern, location, confidence).Success? ==>
                HasOpenSession() && (old(HasOpenSession()) ==> session == old(session)) &&
                r == ActionOutcome(Response(Post, ExecutePath, Some(ActionBody("click", Some(ClickParameters(imagePattern, location, confidence).value), None, timeout)), None, net), "click")
      ensures r.Failure? && r.error.BrobotActionError? ==> r.error.actionType == Some("click")
    {
      var parameters := ClickParameters(imagePattern, location, confidence);
      if parameters.Failure? {
        return Failure(parameters.error);
      }
      r := ExecuteAction("click", Some(parameters.value), None, timeout, net);
    }

    /** `type_text`. */
    method TypeText(text: string, typingSpeed: Option<int>, timeout: Option<real>, net: Network) returns (r: Result<ActionResult, Error>)
      modifies this
      ensures HasOpenSession() && (old(HasOpenSession()) ==> session == old(session))
      ensures r == ActionOutcome(Response(Post, ExecutePath, Some(ActionBody("type", Some(TypeTextParameters(text, typingSpeed)), None, timeout)), None, net), "type")
      ensures r.Success? ==> Truthy(r.value.success)
      ensures r.Failure? && r.error.BrobotActionError? ==> r.error.actionType == Some("type")
    {
      r := ExecuteAction("type", Some(TypeTextParameters(text, typingSpeed)), None, timeout, net);
    }

    /** `drag`. */
    method Drag(start: DragPoint, end: DragPoint, duration: real, timeout: Option<real>, net: Network) returns (r: Result<ActionResult, Error>)
      modifies this
      ensures HasOpenSession() && (old(HasOpenSession()) ==> session == old(session))
      ensures r == ActionOutcome(Response(Post, ExecutePath, Some(ActionBody("drag", Some(DragParameters(start, end, duration)), None, timeout)), None, net), "drag")
      ensures r.Success? ==> Truthy(r.value.success)
      ensures r.Failure? && r.error.BrobotActionError? ==> r.error.actionType == Some("drag")
    {
      r := ExecuteAction("drag", Some(DragParameters(start, end, duration)), None, timeout, net);
    }

    /** `wait_for_state`. */
    method WaitForState(stateName: string, timeout: real, net: Network) returns (r: Result<ActionResult, Error>)
      modifies this
      ensures HasOpenSession() && (old(HasOpenSession()) ==> session == old(session))
      ensures r == ActionOutcome(Response(Post, ExecutePath, Some(ActionBody("wait", Some(WaitParameters(stateName)), Some(stateName), Some(timeout))), None, net), "wait")
      ensures r.Success? ==> Truthy(r.value.success)
      ensures r.Failure? && r.error.BrobotActionError? ==> r.error.actionType == Some("wait")
    {
      r := ExecuteAction("wait", Some(WaitParameters(stateName)), Some(stateName), Some(timeout), net);
    }

    /** `get_health`. */
    method GetHealth(net: Network) returns (r: Result<Json, Error>)
      modifies this
      ensures HasOpenSession() && (old(HasOpenSession()) ==> session == old(session))
      ensures r == Response(Get, HealthPath, None, None, net)
      ensures r.Failure? ==> TransportError(r.error)
    {
      r := MakeRequest(Get, HealthPath, None, None, net);
    }
  }

  /** Both clients send the same request, the action body apart: for an
      action the asynchronous client's own timeout falls back to 30 seconds
      while the blocking client's falls back to its configured timeout. */
  lemma ClientsAgreeOnRequests(c: BrobotClient, a: AsyncBrobotClient, verb: Method, endpoint: Endpoint, body: Option<Json>, timeout: Option<real>)
    requires c.baseUrl == a.baseUrl && c.timeout == a.timeout && c.verifySsl == a.verifySsl
    ensures c.Sent(verb, endpoint, body, timeout) == a.Sent(verb, endpoint, body, timeout)
  {
  }

  lemma ActionTimeoutsDiffer(c: BrobotClient, a: AsyncBrobotClient, actionType: string, parameters: Option<map<string, Json>>,
                             targetState: Option<string>)
    requires c.timeout != ActionTimeoutFallback
    ensures c.ActionBody(actionType, parameters, targetState, None) != a.ActionBody(actionType, parameters, targetState, None)
  {
    assert c.ActionBody(actionType, parameters, targetState, None).fields["timeout"] == JReal(c.timeout);
  }
}
