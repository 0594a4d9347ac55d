/** The server's mock action dispatch (mcp_server/api.py,
    `get_mock_action_result`): click, type and drag succeed with canned
    metadata, every other action type fails. */
module Api {
  import opened Basics
  import opened ServerModels

  /** The canned metadata of each supported action. */
  function ClickMetadata(): map<string, Json> {
    map[
      "click_location" := JObj(map["x" := JInt(640), "y" := JInt(480)]),
      "pattern_found" := JBool(true),
      "confidence" := JReal(0.92)]
  }

  function TypeMetadata(text: Json): map<string, Json> {
    map["text_entered" := text, "typing_speed" := JInt(50)]
  }

  function DragMetadata(): map<string, Json> {
    map[
      "start_location" := JObj(map["x" := JInt(100), "y" := JInt(100)]),
      "end_location" := JObj(map["x" := JInt(500), "y" := JInt(500)]),
      "drag_duration" := JReal(0.5)]
  }

  /** `request.target_state or "unknown"`. */
  function TargetOrUnknown(targetState: Option<string>): (s: string)
    ensures targetState.Some? && targetState.value != "" ==> s == targetState.value
    ensures targetState.None? || targetState.value == "" ==> s == "unknown"
  {
    if targetState.Some? && targetState.value != "" then targetState.value else "unknown"
  }

  /** `get_mock_action_result`. */
  function GetMockActionResult(request: ActionRequest): (r: ActionResult)
    ensures r.actionType == request.actionType
    ensures r.success <==> request.actionType in {"click", "type", "drag"}
    ensures r.error.None? <==> r.success
    ensures !r.success ==> r.error == Some("Unknown action type: " + request.actionType) && r.resultState.None? && r.metadata == map[]
    ensures request.actionType == "click" ==> r.resultState == Some(TargetOrUnknown(request.targetState))
    ensures request.actionType in {"type", "drag"} ==> r.resultState == request.targetState
    ensures request.actionType == "type" ==>
              "text_entered" in r.metadata &&
              r.metadata["text_entered"] == (if "text" in request.parameters then request.parameters["text"] else JStr(""))
    ensures r.duration > 0.0
  {
    if request.actionType == "click" then
      ActionResult(true, request.actionType, 0.523, Some(TargetOrUnknown(request.targetState)), None, ClickMetadata())
    else if request.actionType == "type" then
      var text := if "text" in request.parameters then request.parameters["text"] else JStr("");
      ActionResult(true, request.actionType, 1.234, request.targetState, None, TypeMetadata(text))
    else if request.actionType == "drag" then
      ActionResult(true, request.actionType, 0.876, request.targetState, None, DragMetadata())
    else
      ActionResult(false, request.actionType, 0.001, None, Some("Unknown action type: " + request.actionType), map[])
  }

  /** "wait" is not among the mocked actions: waiting for a state always
      fails in mock mode, whatever the request. */
  lemma MockWaitFails(request: ActionRequest)
    requires request.actionType == "wait"
    ensures !GetMockActionResult(request).success
    ensures GetMockActionResult(request).error == Some("Unknown action type: wait")
  {
    assert request.actionType !in {"click", "type", "drag"} by {
      assert request.actionType[0] == 'w';
    }
    assert "Unknown action type: " + request.actionType == "Unknown action type: wait";
  }

  /** Every mock result is a well-formed ActionResult: it passes the
      schema's own validation with the same fields. */
  lemma MockResultsValidate(request: ActionRequest)
    ensures var r := GetMockActionResult(request);
            NewActionResult(Some(r.success), Some(r.actionType), Some(r.duration), r.resultState, r.error, Some(r.metadata)) == Success(r)
  {
  }
}
