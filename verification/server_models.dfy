/** The server's request and response schemas (mcp_server/models.py).
    Each pydantic model is a datatype plus a smart constructor that takes
    the given fields (None when a field is not given), fills the defaults
    and checks the required fields and numeric constraints, reporting
    every failing field in declaration order as pydantic does. */
module ServerModels {
  import opened Basics

  /** Why a field was rejected: missing, or against its `ge`, `le` or `gt`
      bound. */
  datatype Violation = Missing | BelowMinimum(ge: real) | AboveMaximum(le: real) | NotGreaterThan(gt: real)

  datatype FieldError = FieldError(field: string, violation: Violation)

  type Errors = seq<FieldError>

  /** A required field. */
  function Require<T>(field: string, v: Option<T>): (es: Errors)
    ensures es == [] <==> v.Some?
    ensures v.None? ==> es == [FieldError(field, Missing)]
  {
    if v.Some? then [] else [FieldError(field, Missing)]
  }

  /** A float field with `ge=lo, le=hi`. */
  function Between(field: string, x: real, lo: real, hi: real): (es: Errors)
    ensures es == [] <==> lo <= x <= hi
    ensures x < lo ==> es == [FieldError(field, BelowMinimum(lo))]
    ensures lo <= x && hi < x ==> es == [FieldError(field, AboveMaximum(hi))]
  {
    if x < lo then [FieldError(field, BelowMinimum(lo))]
    else if hi < x then [FieldError(field, AboveMaximum(hi))]
    else []
  }

  /** A float field with `gt=bound`. */
  function Above(field: string, x: real, bound: real): (es: Errors)
    ensures es == [] <==> bound < x
    ensures x <= bound ==> es == [FieldError(field, NotGreaterThan(bound))]
  {
    if bound < x then [] else [FieldError(field, NotGreaterThan(bound))]
  }

  datatype StateTransition = StateTransition(fromState: string, toState: string, action: string, probability: real)

  predicate ValidTransition(t: StateTransition) {
    0.0 <= t.probability <= 1.0
  }

  const DefaultProbability: real := 0.0

  /** `StateTransition(...)`: three required names and a probability in
      [0, 1], 0.0 when not given. */
  function NewStateTransition(fromState: Option<string>, toState: Option<string>, action: Option<string>,
                              probability: Option<real>): (r: Result<StateTransition, Errors>)
    ensures r.Success? <==> fromState.Some? && toState.Some? && action.Some? &&
                            0.0 <= probability.GetOr(DefaultProbability) <= 1.0
    ensures r.Success? ==> ValidTransition(r.value)
    ensures r.Success? ==> r.value == StateTransition(fromState.value, toState.value, action.value, probability.GetOr(DefaultProbability))
    ensures r.Failure? ==> (FieldError("action", Missing) in r.error <==> action.None?)
  {
    var p := probability.GetOr(DefaultProbability);
    var errors := Require("from_state", fromState) + Require("to_state", toState) + Require("action", action) +
                  Between("probability", p, 0.0, 1.0);
    if errors == [] then Success(StateTransition(fromState.value, toState.value, action.value, p))
    else Failure(errors)
  }

  /** Unlike the client's record, a server State's description defaults to
      None. */
  datatype State = State(
    name: string,
    description: Option<string>,
    images: seq<string>,
    transitions: seq<StateTransition>,
    isInitial: bool,
    isFinal: bool)

  /** `State(...)`: only the name is required. */
  function NewState(name: Option<string>, description: Option<string>, images: Option<seq<string>>,
                    transitions: Option<seq<StateTransition>>, isInitial: Option<bool>, isFinal: Option<bool>): (r: Result<State, Errors>)
    ensures r.Success? <==> name.Some?
    ensures r.Failure? ==> r.error == [FieldError("name", Missing)]
    ensures r.Success? ==> r.value.name == name.value && r.value.description == description
    ensures r.Success? ==> r.value.images == images.GetOr([]) && r.value.transitions == transitions.GetOr([])
    ensures r.Success? ==> r.value.isInitial == isInitial.GetOr(false) && r.value.isFinal == isFinal.GetOr(false)
  {
    if name.None? then Failure([FieldError("name", Missing)])
    else Success(State(name.value, description, images.GetOr([]), transitions.GetOr([]), isInitial.GetOr(false), isFinal.GetOr(false)))
  }

  datatype StateStructure = StateStructure(states: seq<State>, currentState: Option<string>, metadata: map<string, Json>)

  /** `StateStructure(...)`: the states are required. */
  function NewStateStructure(states: Option<seq<State>>, currentState: Option<string>, metadata: Option<map<string, Json>>): (r: Result<StateStructure, Errors>)
    ensures r.Success? <==> states.Some?
    ensures r.Failure? ==> r.error == [FieldError("states", Missing)]
    ensures r.Success? ==> r.value.states == states.value && r.value.currentState == currentState
    ensures r.Success? ==> r.value.metadata == metadata.GetOr(map[])
  {
    if states.None? then Failure([FieldError("states", Missing)])
    else Success(StateStructure(states.value, currentState, metadata.GetOr(map[])))
  }

  datatype ActiveState = ActiveState(name: string, confidence: real, matchedPatterns: seq<string>)

  predicate ValidActiveState(a: ActiveState) {
    0.0 <= a.confidence <= 1.0
  }

  /** `ActiveState(...)`: name and a confidence in [0, 1] are required. */
  function NewActiveState(name: Option<string>, confidence: Option<real>, matchedPatterns: Option<seq<string>>): (r: Result<ActiveState, Errors>)
    ensures r.Success? <==> name.Some? && confidence.Some? && 0.0 <= confidence.value <= 1.0
    ensures r.Success? ==> ValidActiveState(r.value)
    ensures r.Success? ==> r.value == ActiveState(name.value, confidence.value, matchedPatterns.GetOr([]))
    ensures r.Failure? ==> (FieldError("confidence", Missing) in r.error <==> confidence.None?)
  {
    var errors := Require("name", name) +
                  (if confidence.None? then Require("confidence", confidence) else Between("confidence", confidence.value, 0.0, 1.0));
    if errors == [] then Success(ActiveState(name.value, confidence.value, matchedPatterns.GetOr([])))
    else Failure(errors)
  }

  /** `timestamp` is kept as its ISO text; date parsing is not part of
      this model. */
  datatype Observation = Observation(
    timestamp: string,
    activeStates: seq<ActiveState>,
    screenshot: Option<string>,
    screenWidth: int,
    screenHeight: int,
    metadata: map<string, Json>)

  /** `Observation(...)`: timestamp, active states and both screen sizes
      are required. */
  function NewObservation(timestamp: Option<string>, activeStates: Option<seq<ActiveState>>, screenshot: Option<string>,
                          screenWidth: Option<int>, screenHeight: Option<int>, metadata: Option<map<string, Json>>): (r: Result<Observation, Errors>)
    ensures r.Success? <==> timestamp.Some? && activeStates.Some? && screenWidth.Some? && screenHeight.Some?
    ensures r.Success? ==> r.value == Observation(timestamp.value, activeStates.value, screenshot, screenWidth.value,
                                                  screenHeight.value, metadata.GetOr(map[]))
    ensures r.Failure? ==> forall e :: e in r.error ==> e.violation == Missing
    ensures r.Failure? ==> (FieldError("screen_width", Missing) in r.error <==> screenWidth.None?)
  {
    var errors := Require("timestamp", timestamp) + Require("active_states", activeStates) +
                  Require("screen_width", screenWidth) + Require("screen_height", screenHeight);
    if errors == [] then
      Success(Observation(timestamp.value, activeStates.value, screenshot, screenWidth.value, screenHeight.value, metadata.GetOr(map[])))
    else Failure(errors)
  }

  datatype ActionRequest = ActionRequest(actionType: string, parameters: map<string, Json>, targetState: Option<string>, timeout: real)

  predicate ValidActionRequest(a: ActionRequest) {
    a.timeout > 0.0
  }

  const DefaultActionTimeout: real := 10.0

  /** `ActionRequest(...)`: the action type is required and the timeout,
      10 seconds when not given, must be positive. */
  function NewActionRequest(actionType: Option<string>, parameters: Option<map<string, Json>>, targetState: Option<string>,
                            timeout: Option<real>): (r: Result<ActionRequest, Errors>)
    ensures r.Success? <==> actionType.Some? && timeout.GetOr(DefaultActionTimeout) > 0.0
    ensures r.Success? ==> ValidActionRequest(r.value)
    ensures r.Success? ==> r.value == ActionRequest(actionType.value, parameters.GetOr(map[]), targetState, timeout.GetOr(DefaultActionTimeout))
    ensures timeout.Some? && timeout.value <= 0.0 ==> r.Failure? && FieldError("timeout", NotGreaterThan(0.0)) in r.error
  {
    var t := timeout.GetOr(DefaultActionTimeout);
    var errors := Require("action_type", actionType) + Above("timeout", t, 0.0);
    if errors == [] then Success(ActionRequest(actionType.value, parameters.GetOr(map[]), targetState, t))
    else Failure(errors)
  }

  datatype ActionResult = ActionResult(
    success: bool,
    actionType: string,
    duration: real,
    resultState: Option<string>,
    error: Option<string>,
    metadata: map<string, Json>)

  /** `ActionResult(...)`: success, action type and duration are required. */
  function NewActionResult(success: Option<bool>, actionType: Option<string>, duration: Option<real>, resultState: Option<string>,
                           error: Option<string>, metadata: Option<map<string, Json>>): (r: Result<ActionResult, Errors>)
    ensures r.Success? <==> success.Some? && actionType.Some? && duration.Some?
    ensures r.Success? ==> r.value == ActionResult(success.value, actionType.value, duration.value, resultState, error, metadata.GetOr(map[]))
    ensures r.Failure? ==> forall e :: e in r.error ==> e.violation == Missing
  {
    var errors := Require("success", success) + Require("action_type", actionType) + Require("duration", duration);
    if errors == [] then Success(ActionResult(success.value, actionType.value, duration.value, resultState, error, metadata.GetOr(map[])))
    else Failure(errors)
  }

  datatype HealthStatus = HealthStatus(status: string, version: string, brobotConnected: bool, timestamp: string)

  /** `HealthStatus(...)`: status and version are required, the CLI is
      reported disconnected unless said otherwise, and the timestamp
      defaults to the clock's reading `now`. */
  function NewHealthStatus(status: Option<string>, version: Option<string>, brobotConnected: Option<bool>,
                           timestamp: Option<string>, now: string): (r: Result<HealthStatus, Errors>)
    ensures r.Success? <==> status.Some? && version.Some?
    ensures r.Success? ==> r.value == HealthStatus(status.value, version.value, brobotConnected.GetOr(false), timestamp.GetOr(now))
    ensures r.Success? && brobotConnected.None? ==> !r.value.brobotConnected
  {
    var errors := Require("status", status) + Require("version", version);
    if errors == [] then Success(HealthStatus(status.value, version.value, brobotConnected.GetOr(false), timestamp.GetOr(now)))
    else Failure(errors)
  }
}
