/** The action parameters the clients' convenience methods build
    (brobot_client/client.py:244-356, the same in async_client.py), and
    the ActionRequest `execute_action` sends. */
module Builders {
  import opened Basics
  import opened Exceptions
  import opened ClientModels

  const ClickTargetMissing: Error := Foreign("ValueError", Say("Either image_pattern or location must be provided"))

  /** `click`: a non-empty image pattern wins over a location; with
      neither, ValueError. */
  function ClickParameters(imagePattern: Option<string>, location: Option<Location>, confidence: real): (r: Result<map<string, Json>, Error>)
    ensures r.Success? <==> (imagePattern.Some? && imagePattern.value != "") || location.Some?
    ensures r.Failure? ==> r.error == ClickTargetMissing
    ensures imagePattern.Some? && imagePattern.value != "" ==>
              r.value.Keys == {"image_pattern", "confidence"} &&
              r.value["image_pattern"] == JStr(imagePattern.value) && r.value["confidence"] == JReal(confidence)
    ensures (imagePattern.None? || imagePattern.value == "") && location.Some? ==>
              r.value.Keys == {"location"} && r.value["location"] == JObj(location.value.ToDict())
  {
    if imagePattern.Some? && imagePattern.value != "" then
      Success(map["image_pattern" := JStr(imagePattern.value), "confidence" := JReal(confidence)])
    else if location.Some? then
      Success(map["location" := JObj(location.value.ToDict())])
    else
      Failure(ClickTargetMissing)
  }

  /** `type_text`: the speed is sent whenever it is given, 0 included. */
  function TypeTextParameters(text: string, typingSpeed: Option<int>): (d: map<string, Json>)
    ensures d.Keys == if typingSpeed.Some? then {"text", "typing_speed"} else {"text"}
    ensures d["text"] == JStr(text)
    ensures typingSpeed.Some? ==> d["typing_speed"] == JInt(typingSpeed.value)
  {
    var d := map["text" := JStr(text)];
    if typingSpeed.Some? then d["typing_speed" := JInt(typingSpeed.value)] else d
  }

  /** A drag end point: coordinates or an image pattern. */
  datatype DragPoint = At(location: Location) | Pattern(pattern: string)

  /** The keys a drag end point contributes. */
  function PointKeys(p: DragPoint, xKey: string, yKey: string, patternKey: string): set<string> {
    if p.At? then {xKey, yKey} else {patternKey}
  }

  function AddPoint(d: map<string, Json>, p: DragPoint, xKey: string, yKey: string, patternKey: string): (e: map<string, Json>)
    requires xKey != yKey
    ensures e.Keys == d.Keys + PointKeys(p, xKey, yKey, patternKey)
    ensures forall k :: k in d && k !in PointKeys(p, xKey, yKey, patternKey) ==> e[k] == d[k]
    ensures p.At? ==> e[xKey] == JInt(p.location.x) && e[yKey] == JInt(p.location.y)
    ensures p.Pattern? ==> e[patternKey] == JStr(p.pattern)
  {
    match p
    case At(l) => d[xKey := JInt(l.x)][yKey := JInt(l.y)]
    case Pattern(s) => d[patternKey := JStr(s)]
  }

  /** `drag`: the duration, then each end point as coordinates or as a
      pattern, never both. */
  function DragParameters(start: DragPoint, end: DragPoint, duration: real): (d: map<string, Json>)
    ensures d.Keys == {"duration"} + PointKeys(start, "start_x", "start_y", "start_pattern") + PointKeys(end, "end_x", "end_y", "end_pattern")
    ensures d["duration"] == JReal(duration)
    ensures start.At? ==> d["start_x"] == JInt(start.location.x) && d["start_y"] == JInt(start.location.y) && "start_pattern" !in d
    ensures start.Pattern? ==> d["start_pattern"] == JStr(start.pattern) && "start_x" !in d && "start_y" !in d
    ensures end.At? ==> d["end_x"] == JInt(end.location.x) && d["end_y"] == JInt(end.location.y) && "end_pattern" !in d
    ensures end.Pattern? ==> d["end_pattern"] == JStr(end.pattern) && "end_x" !in d && "end_y" !in d
  {
    var withStart := AddPoint(map["duration" := JReal(duration)], start, "start_x", "start_y", "start_pattern");
    AddPoint(withStart, end, "end_x", "end_y", "end_pattern")
  }

  /** `wait_for_state`: the state's name and a one-second poll interval. */
  function WaitParameters(stateName: string): (d: map<string, Json>)
    ensures d.Keys == {"state_name", "check_interval"}
    ensures d["state_name"] == JStr(stateName) && d["check_interval"] == JReal(1.0)
  {
    map["state_name" := JStr(stateName), "check_interval" := JReal(1.0)]
  }

  /** The ActionRequest of `execute_action`: `parameters or {}` and
      `timeout or fallback`, where the blocking client's fallback is its
      configured timeout and the asynchronous client's a fixed 30.0. */
  function ActionRequestFor(actionType: string, parameters: Option<map<string, Json>>, targetState: Option<string>,
                            timeout: Option<real>, fallback: real): (r: ActionRequest)
    ensures r.actionType == actionType && r.targetState == targetState
    ensures r.parameters == if parameters.Some? then parameters.value else map[]
    ensures timeout.Some? && timeout.value != 0.0 ==> r.timeout == timeout.value
    ensures timeout.None? || timeout.value == 0.0 ==> r.timeout == fallback
  {
    ActionRequest(actionType, parameters.GetOr(map[]), targetState, RealOr(timeout, fallback))
  }
}
