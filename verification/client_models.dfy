/** The client library's records (brobot_client/models.py). Records built
    from server responses keep the JSON values they were given, as the
    dataclasses do not check types; the one exception is an active state's
    confidence, which is a number because it is compared. Records the
    caller builds (locations, regions, action requests) have typed fields. */
module ClientModels {
  import opened Basics

  datatype StateTransition = StateTransition(fromState: Json, toState: Json, action: Json, probability: Json)

  datatype State = State(
    name: Json,
    description: Json,
    images: Json,
    transitions: seq<StateTransition>,
    isInitial: Json,
    isFinal: Json)

  datatype StateStructure = StateStructure(states: seq<State>, currentState: Json, metadata: Json)

  datatype ActiveState = ActiveState(name: Json, confidence: real, matchedPatterns: Json)

  /** `timestamp` is the ISO text handed to `datetime.fromisoformat`. */
  datatype Observation = Observation(
    timestamp: string,
    activeStates: seq<ActiveState>,
    screenshot: Json,
    screenWidth: Json,
    screenHeight: Json,
    metadata: Json)

  datatype ActionResult = ActionResult(
    success: Json,
    actionType: Json,
    duration: Json,
    resultState: Json,
    error: Json,
    metadata: Json)

  /** Dataclass defaults. */
  const DefaultProbability: Json := JReal(0.0)
  const DefaultDescription: Json := JStr("")
  const DefaultImages: Json := JArr([])
  const DefaultFlag: Json := JBool(false)
  const DefaultPatterns: Json := JArr([])
  const DefaultScreenSize: Json := JInt(0)
  const DefaultRequestTimeout: real := 10.0

  datatype Location = Location(x: int, y: int) {
    /** `Location.to_dict`. */
    function ToDict(): (d: map<string, Json>)
      ensures d.Keys == {"x", "y"}
      ensures d["x"] == JInt(x) && d["y"] == JInt(y)
    {
      map["x" := JInt(x), "y" := JInt(y)]
    }
  }

  datatype Region = Region(x: int, y: int, width: int, height: int) {
    /** `Region.to_dict`. */
    function ToDict(): (d: map<string, Json>)
      ensures d.Keys == {"x", "y", "width", "height"}
      ensures d["x"] == JInt(x) && d["y"] == JInt(y)
      ensures d["width"] == JInt(width) && d["height"] == JInt(height)
    {
      map["x" := JInt(x), "y" := JInt(y), "width" := JInt(width), "height" := JInt(height)]
    }

    /** `Region.center`: offsets by `width // 2` and `height // 2`, Python's
        floor division (which Dafny's `/` matches for the divisor 2). */
    function Center(): (c: Location)
      ensures 2 * (c.x - x) <= width < 2 * (c.x - x) + 2
      ensures 2 * (c.y - y) <= height < 2 * (c.y - y) + 2
    {
      Location(x + width / 2, y + height / 2)
    }
  }

  /** A request to execute an action, as the caller builds it. */
  datatype ActionRequest = ActionRequest(
    actionType: string,
    parameters: map<string, Json>,
    targetState: Option<string>,
    timeout: real)
  {
    /** `ActionRequest.to_dict`: always all four keys, `target_state`
        included even when it is None. */
    function ToDict(): (d: map<string, Json>)
      ensures d.Keys == {"action_type", "parameters", "target_state", "timeout"}
      ensures d["action_type"] == JStr(actionType) && d["parameters"] == JObj(parameters)
      ensures d["target_state"] == (if targetState.Some? then JStr(targetState.value) else JNull)
      ensures d["timeout"] == JReal(timeout)
    {
      map[
        "action_type" := JStr(actionType),
        "parameters" := JObj(parameters),
        "target_state" := (match targetState case Some(s) => JStr(s) case None => JNull),
        "timeout" := JReal(timeout)]
    }
  }

  /** `ActionRequest(action_type)` with its dataclass defaults. */
  function DefaultActionRequest(actionType: string): (r: ActionRequest)
    ensures r.actionType == actionType && r.parameters == map[]
    ensures r.targetState.None? && r.timeout == 10.0
  {
    ActionRequest(actionType, map[], None, DefaultRequestTimeout)
  }

  /** Index of the element `max(states, key=confidence)` returns: a
      greatest confidence, the first one on ties. */
  function MostConfidentIndex(states: seq<ActiveState>): (k: nat)
    requires |states| > 0
    ensures k < |states|
    ensures forall j :: 0 <= j < |states| ==> states[j].confidence <= states[k].confidence
    ensures forall j :: 0 <= j < k ==> states[j].confidence < states[k].confidence
  {
    if |states| == 1 then 0
    else
      var k := MostConfidentIndex(states[..|states| - 1]);
      if states[|states| - 1].confidence > states[k].confidence then |states| - 1 else k
  }

  /** `Observation.get_most_confident_state`. */
  function GetMostConfidentState(o: Observation): (r: Option<ActiveState>)
    ensures r.None? <==> o.activeStates == []
    ensures r.Some? ==> exists k :: 0 <= k < |o.activeStates| && o.activeStates[k] == r.value &&
                          (forall j :: 0 <= j < k ==> o.activeStates[j].confidence < r.value.confidence)
    ensures r.Some? ==> forall s :: s in o.activeStates ==> s.confidence <= r.value.confidence
  {
    if o.activeStates == [] then None
    else Some(o.activeStates[MostConfidentIndex(o.activeStates)])
  }
}
