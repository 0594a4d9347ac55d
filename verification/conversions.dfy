/** Conversion of server responses into client records, shared by the
    blocking and the asynchronous client (brobot_client/client.py:130-240
    and async_client.py:144-254 hold the same code). Dictionary access
    follows Python: `d[k]` raises KeyError, `d.get(k, default)` falls back,
    and both fail on a value that is not a dictionary. */
module Conversions {
  import opened Basics
  import opened Exceptions
  import opened ClientModels

  function NoAttribute(v: Json, attribute: string): Error {
    Foreign("AttributeError", Say("'" + TypeName(v) + "' object has no attribute '" + attribute + "'"))
  }

  /** A failed `v[key]` on a value that is not a dictionary. */
  function NotSubscriptable(v: Json): Error {
    Foreign("TypeError", Say(TypeName(v)))
  }

  function NotIterable(v: Json): Error {
    Foreign("TypeError", Say("'" + TypeName(v) + "' object is not iterable"))
  }

  /** `v.get(key, default)`. */
  function Get(v: Json, key: string, default: Json): (r: Result<Json, Error>)
    ensures v.JObj? <==> r.Success?
    ensures v.JObj? ==> r.value == if key in v.fields then v.fields[key] else default
    ensures !v.JObj? ==> r.error == NoAttribute(v, "get")
  {
    match v
    case JObj(m) => Success(if key in m then m[key] else default)
    case _ => Failure(NoAttribute(v, "get"))
  }

  /** `v[key]`. */
  function Index(v: Json, key: string): (r: Result<Json, Error>)
    ensures r.Success? <==> v.JObj? && key in v.fields
    ensures r.Success? ==> r.value == v.fields[key]
    ensures v.JObj? && key !in v.fields ==> r.error == Foreign("KeyError", [Lit("'"), Lit(key), Lit("'")])
    ensures !v.JObj? ==> r.error == NotSubscriptable(v)
  {
    match v
    case JObj(m) => if key in m then Success(m[key]) else Failure(Foreign("KeyError", [Lit("'"), Lit(key), Lit("'")]))
    case _ => Failure(NotSubscriptable(v))
  }

  /** The values `Items` accepts: a list, or an empty string or
      dictionary. */
  predicate Iterates(v: Json) {
    v.JArr? || v == JStr("") || v == EmptyObject
  }

  /** What a `for` over an accepted value visits. */
  function Elements(v: Json): seq<Json> {
    if v.JArr? then v.items else []
  }

  /** `d.get(key, default)` on a dictionary's fields. */
  function FieldOr(fields: map<string, Json>, key: string, default: Json): Json {
    if key in fields then fields[key] else default
  }

  /** Every element converts. */
  predicate AllSucceed<B>(xs: seq<Json>, f: Json -> Result<B, Error>) {
    forall i :: 0 <= i < |xs| ==> f(xs[i]).Success?
  }

  /** The elements a `for` over v visits, for a consumer that fails with
      `onString` on a string element. Iterating a non-empty string visits
      its characters and a non-empty dictionary its keys, so every such
      consumer fails on the first element; an empty one visits nothing. */
  function Items(v: Json, onString: Error): (r: Result<seq<Json>, Error>)
    ensures v.JArr? ==> r == Success(v.items)
    ensures v == JStr("") || v == EmptyObject ==> r == Success([])
    ensures r.Success? ==> v.JArr? || r.value == []
    ensures r.Success? <==> Iterates(v)
    ensures r.Success? ==> r.value == Elements(v)
    ensures (v.JStr? && v.s != "") || (v.JObj? && v.fields != map[]) ==> r == Failure(onString)
    ensures !v.JArr? && !v.JStr? && !v.JObj? ==> r == Failure(NotIterable(v))
  {
    match v
    case JArr(xs) => Success(xs)
    case JStr(s) => if s == "" then Success([]) else Failure(onString)
    case JObj(m) => if m == map[] then Success([]) else Failure(onString)
    case _ => Failure(NotIterable(v))
  }

  /** `[f(x) for x in xs]` where f may raise: the first error, or every
      converted element in order. */
  function MapAll<A, B(==)>(xs: seq<A>, f: A -> Result<B, Error>): (r: Result<seq<B>, Error>)
    ensures r.Success? <==> forall i :: 0 <= i < |xs| ==> f(xs[i]).Success?
    ensures r.Success? ==> |r.value| == |xs| && forall i :: 0 <= i < |xs| ==> f(xs[i]) == Success(r.value[i])
    ensures r.Failure? ==> exists i :: 0 <= i < |xs| && f(xs[i]) == Failure(r.error) &&
                                       forall j :: 0 <= j < i ==> f(xs[j]).Success?
  {
    if xs == [] then Success([])
    else
      match f(xs[0])
      case Failure(e) => Failure(e)
      case Success(y) =>
        match MapAll(xs[1..], f)
        case Failure(e) =>
          assert forall j :: 1 <= j < |xs| ==> xs[j] == xs[1..][j - 1];
          Failure(e)
        case Success(ys) =>
          assert forall j :: 1 <= j < |xs| ==> xs[j] == xs[1..][j - 1];
          Success([y] + ys)
  }

  /** The characterisation in MapAll's contract determines its result. */
  lemma MapAllCharacterized<A, B>(xs: seq<A>, f: A -> Result<B, Error>, r: Result<seq<B>, Error>)
    requires r.Success? ==> |r.value| == |xs| && forall i :: 0 <= i < |xs| ==> f(xs[i]) == Success(r.value[i])
    requires r.Failure? ==> exists i :: 0 <= i < |xs| && f(xs[i]) == Failure(r.error) &&
                                        forall j :: 0 <= j < i ==> f(xs[j]).Success?
    ensures r == MapAll(xs, f)
  {
    var m := MapAll(xs, f);
    if r.Success? {
      assert m.Success?;
      assert r.value == m.value;
    } else {
      var i :| 0 <= i < |xs| && f(xs[i]) == Failure(r.error) && forall j :: 0 <= j < i ==> f(xs[j]).Success?;
      assert m.Failure?;
      var k :| 0 <= k < |xs| && f(xs[k]) == Failure(m.error) && forall j :: 0 <= j < k ==> f(xs[j]).Success?;
      if i != k {
        assert false;
      }
    }
  }

  /** `StateTransition(from_state=t["from_state"], to_state=t["to_state"],
      action=t["action"], probability=t.get("probability", 0.0))`. */
  function ToTransition(t: Json): (r: Result<StateTransition, Error>)
    ensures r.Success? <==> t.JObj? && "from_state" in t.fields && "to_state" in t.fields && "action" in t.fields
    ensures r.Success? ==> r.value.fromState == t.fields["from_state"] && r.value.toState == t.fields["to_state"]
    ensures r.Success? ==> r.value.action == t.fields["action"]
    ensures r.Success? ==> r.value.probability == if "probability" in t.fields then t.fields["probability"] else DefaultProbability
  {
    var from :- Index(t, "from_state");
    var to :- Index(t, "to_state");
    var action :- Index(t, "action");
    var probability := Get(t, "probability", DefaultProbability).value;
    Success(StateTransition(from, to, action, probability))
  }

  /** One state of `get_state_structure`: its transitions first, then its
      own fields with their defaults. */
  function ToState(sd: Json): (r: Result<State, Error>)
    ensures r.Success? ==> sd.JObj? && "name" in sd.fields && r.value.name == sd.fields["name"]
    ensures r.Success? ==> r.value.description == if "description" in sd.fields then sd.fields["description"] else DefaultDescription
    ensures r.Success? ==> r.value.images == if "images" in sd.fields then sd.fields["images"] else DefaultImages
    ensures r.Success? ==> r.value.isInitial == if "is_initial" in sd.fields then sd.fields["is_initial"] else DefaultFlag
    ensures r.Success? ==> r.value.isFinal == if "is_final" in sd.fields then sd.fields["is_final"] else DefaultFlag
    ensures r.Success? && "transitions" !in sd.fields ==> r.value.transitions == []
    ensures r.Success? && "transitions" in sd.fields && sd.fields["transitions"].JArr? ==>
              var ts := sd.fields["transitions"].items;
              |r.value.transitions| == |ts| && forall i :: 0 <= i < |ts| ==> ToTransition(ts[i]) == Success(r.value.transitions[i])
    ensures sd.JObj? && "name" !in sd.fields ==> r.Failure?
    ensures r.Success? <==> sd.JObj? && "name" in sd.fields &&
                            Iterates(FieldOr(sd.fields, "transitions", JArr([]))) &&
                            AllSucceed(Elements(FieldOr(sd.fields, "transitions", JArr([]))), ToTransition)
  {
    var ts :- Get(sd, "transitions", JArr([]));
    var items :- Items(ts, NotSubscriptable(JStr("")));
    var transitions :- MapAll(items, ToTransition);
    var name :- Index(sd, "name");
    var description := Get(sd, "description", DefaultDescription).value;
    var images := Get(sd, "images", DefaultImages).value;
    var isInitial := Get(sd, "is_initial", DefaultFlag).value;
    var isFinal := Get(sd, "is_final", DefaultFlag).value;
    Success(State(name, description, images, transitions, isInitial, isFinal))
  }

  /** Reference definition of `get_state_structure`'s conversion. */
  function StructureFromJson(data: Json): (r: Result<StateStructure, Error>)
    ensures r.Success? ==> data.JObj?
    ensures r.Success? && "states" !in data.fields ==> r.value.states == []
    ensures r.Success? && "states" in data.fields && data.fields["states"].JArr? ==>
              var ss := data.fields["states"].items;
              |r.value.states| == |ss| && forall i :: 0 <= i < |ss| ==> ToState(ss[i]) == Success(r.value.states[i])
    ensures r.Success? ==> r.value.currentState == if "current_state" in data.fields then data.fields["current_state"] else JNull
    ensures r.Success? ==> r.value.metadata == if "metadata" in data.fields then data.fields["metadata"] else EmptyObject
    ensures r.Success? <==> data.JObj? && Iterates(FieldOr(data.fields, "states", JArr([]))) &&
                            AllSucceed(Elements(FieldOr(data.fields, "states", JArr([]))), ToState)
  {
    var statesJson :- Get(data, "states", JArr([]));
    var items :- Items(statesJson, NoAttribute(JStr(""), "get"));
    var states :- MapAll(items, ToState);
    var current := Get(data, "current_state", JNull).value;
    var metadata := Get(data, "metadata", EmptyObject).value;
    Success(StateStructure(states, current, metadata))
  }

  /** The loop of `get_state_structure`: converts each state and appends
      it, keeping the count and the order; the first failing state's error
      propagates. */
  method ConvertStates(items: seq<Json>) returns (r: Result<seq<State>, Error>)
    ensures r.Success? ==> |r.value| == |items| && forall i :: 0 <= i < |items| ==> ToState(items[i]) == Success(r.value[i])
    ensures r.Failure? ==> exists i :: 0 <= i < |items| && ToState(items[i]) == Failure(r.error) &&
                                       forall j :: 0 <= j < i ==> ToState(items[j]).Success?
    ensures r == MapAll(items, ToState)
  {
    var states: seq<State> := [];
    var i := 0;
    while i < |items|
      invariant 0 <= i <= |items| && |states| == i
      invariant forall j :: 0 <= j < i ==> ToState(items[j]) == Success(states[j])
    {
      match ToState(items[i])
      case Failure(e) =>
        r := Failure(e);
        MapAllCharacterized(items, ToState, r);
        return;
      case Success(state) =>
        states := states + [state];
      i := i + 1;
    }
    r := Success(states);
    MapAllCharacterized(items, ToState, r);
  }

  /** `get_state_structure`'s conversion of a response body. */
  method ConvertStateStructure(data: Json) returns (r: Result<StateStructure, Error>)
    ensures r == StructureFromJson(data)
  {
    var statesJson := Get(data, "states", JArr([]));
    if statesJson.Failure? {
      return Failure(statesJson.error);
    }
    var items := Items(statesJson.value, NoAttribute(JStr(""), "get"));
    if items.Failure? {
      return Failure(items.error);
    }
    var states := ConvertStates(items.value);
    if states.Failure? {
      return Failure(states.error);
    }
    var current := Get(data, "current_state", JNull).value;
    var metadata := Get(data, "metadata", EmptyObject).value;
    r := Success(StateStructure(states.value, current, metadata));
  }

  /** A number as Python compares it (bool counts as int). */
  function AsNumber(v: Json): (r: Result<real, Error>)
    ensures r.Success? <==> v.JInt? || v.JReal? || v.JBool?
    ensures v.JReal? ==> r == Success(v.r)
    ensures v.JInt? ==> r == Success(v.i as real)
  {
    match v
    case JInt(i) => Success(i as real)
    case JReal(x) => Success(x)
    case JBool(b) => Success(if b then 1.0 else 0.0)
    case _ => Failure(Foreign("TypeError", Say("'" + TypeName(v) + "' confidence is not a number")))
  }

  /** `ActiveState(name=s["name"], confidence=s["confidence"],
      matched_patterns=s.get("matched_patterns", []))`. */
  function ToActiveState(s: Json): (r: Result<ActiveState, Error>)
    ensures r.Success? ==> s.JObj? && "name" in s.fields && "confidence" in s.fields
    ensures r.Success? ==> r.value.name == s.fields["name"] && AsNumber(s.fields["confidence"]) == Success(r.value.confidence)
    ensures r.Success? ==> r.value.matchedPatterns == if "matched_patterns" in s.fields then s.fields["matched_patterns"] else DefaultPatterns
    ensures r.Success? <==> s.JObj? && "name" in s.fields && "confidence" in s.fields && AsNumber(s.fields["confidence"]).Success?
  {
    var name :- Index(s, "name");
    var confidenceJson :- Index(s, "confidence");
    var confidence :- AsNumber(confidenceJson);
    var patterns := Get(s, "matched_patterns", DefaultPatterns).value;
    Success(ActiveState(name, confidence, patterns))
  }

  /** `text.replace('Z', '+00:00')`. */
  function ReplaceZ(text: string): (r: string)
    ensures 'Z' !in r
    ensures 'Z' !in text ==> r == text
    ensures |r| >= |text|
  {
    if text == [] then []
    else (if text[0] == 'Z' then "+00:00" else [text[0]]) + ReplaceZ(text[1..])
  }

  /** `get_observation`'s conversion: active states in order, the
      timestamp with each 'Z' replaced by '+00:00' and then parsed
      (`isIso` says whether `datetime.fromisoformat` accepts a text), and
      the defaults of the remaining fields. */
  function ObservationFromJson(data: Json, isIso: string -> bool): (r: Result<Observation, Error>)
    ensures r.Success? ==> data.JObj? && "timestamp" in data.fields && data.fields["timestamp"].JStr?
    ensures r.Success? ==> r.value.timestamp == ReplaceZ(data.fields["timestamp"].s) && isIso(r.value.timestamp)
    ensures r.Success? && "active_states" !in data.fields ==> r.value.activeStates == []
    ensures r.Success? && "active_states" in data.fields && data.fields["active_states"].JArr? ==>
              var ss := data.fields["active_states"].items;
              |r.value.activeStates| == |ss| && forall i :: 0 <= i < |ss| ==> ToActiveState(ss[i]) == Success(r.value.activeStates[i])
    ensures r.Success? ==> r.value.screenshot == if "screenshot" in data.fields then data.fields["screenshot"] else JNull
    ensures r.Success? ==> r.value.screenWidth == if "screen_width" in data.fields then data.fields["screen_width"] else DefaultScreenSize
    ensures r.Success? ==> r.value.screenHeight == if "screen_height" in data.fields then data.fields["screen_height"] else DefaultScreenSize
    ensures r.Success? ==> r.value.metadata == if "metadata" in data.fields then data.fields["metadata"] else EmptyObject
    ensures (data.JObj? && "timestamp" in data.fields && data.fields["timestamp"].JStr? &&
             !isIso(ReplaceZ(data.fields["timestamp"].s))) ==> r.Failure?
    ensures r.Success? <==> data.JObj? && Iterates(FieldOr(data.fields, "active_states", JArr([]))) &&
                            AllSucceed(Elements(FieldOr(data.fields, "active_states", JArr([]))), ToActiveState) &&
                            "timestamp" in data.fields && data.fields["timestamp"].JStr? &&
                            isIso(ReplaceZ(data.fields["timestamp"].s))
  {
    var activeJson :- Get(data, "active_states", JArr([]));
    var items :- Items(activeJson, NotSubscriptable(JStr("")));
    var active :- MapAll(items, ToActiveState);
    var stamp :- Index(data, "timestamp");
    var text :- if stamp.JStr? then Success(ReplaceZ(stamp.s)) else Failure(NoAttribute(stamp, "replace"));
    var _ :- if isIso(text) then Success(text)
             else Failure(Foreign("ValueError", [Lit("Invalid isoformat string: '"), Lit(text), Lit("'")]));
    var screenshot := Get(data, "screenshot", JNull).value;
    var width := Get(data, "screen_width", DefaultScreenSize).value;
    var height := Get(data, "screen_height", DefaultScreenSize).value;
    var metadata := Get(data, "metadata", EmptyObject).value;
    Success(Observation(text, active, screenshot, width, height, metadata))
  }

  /** `ActionResult(success=data["success"], action_type=data["action_type"],
      duration=data["duration"], result_state=data.get("result_state"),
      error=data.get("error"), metadata=data.get("metadata", {}))`. */
  function ActionResultFromJson(data: Json): (r: Result<ActionResult, Error>)
    ensures r.Success? <==> data.JObj? && "success" in data.fields && "action_type" in data.fields && "duration" in data.fields
    ensures r.Success? ==> r.value.success == data.fields["success"] && r.value.actionType == data.fields["action_type"]
    ensures r.Success? ==> r.value.duration == data.fields["duration"]
    ensures r.Success? ==> r.value.resultState == (if "result_state" in data.fields then data.fields["result_state"] else JNull)
    ensures r.Success? ==> r.value.error == (if "error" in data.fields then data.fields["error"] else JNull)
    ensures r.Success? ==> r.value.metadata == (if "metadata" in data.fields then data.fields["metadata"] else EmptyObject)
    ensures r.Failure? ==> r.error.Foreign?
  {
    var success :- Index(data, "success");
    var actionType :- Index(data, "action_type");
    var duration :- Index(data, "duration");
    var resultState := Get(data, "result_state", JNull).value;
    var error := Get(data, "error", JNull).value;
    var metadata := Get(data, "metadata", EmptyObject).value;
    Success(ActionResult(success, actionType, duration, resultState, error, metadata))
  }

  /** The tail of `execute_action`: convert the response, and raise
      BrobotActionError, carrying the action type and the result's
      metadata, when the result's `success` is falsy. */
  function ActionOutcome(data: Result<Json, Error>, actionType: string): (r: Result<ActionResult, Error>)
    ensures data.Failure? ==> r == Failure(data.error)
    ensures r.Success? ==> data.Success? && ActionResultFromJson(data.value) == Success(r.value) && Truthy(r.value.success)
    ensures data.Success? && ActionResultFromJson(data.value).Failure? ==> r == Failure(ActionResultFromJson(data.value).error)
    ensures data.Success? && ActionResultFromJson(data.value).Success? && !Truthy(ActionResultFromJson(data.value).value.success) ==>
              var result := ActionResultFromJson(data.value).value;
              r.Failure? && r.error.BrobotActionError? && r.error.actionType == Some(actionType) &&
              r.error.message == [Lit("Action '"), Lit(actionType), Lit("' failed: "), Shown(result.error)] &&
              r.error.errorDetails == (if Truthy(result.metadata) then result.metadata else EmptyObject)
    ensures r.Failure? && r.error.BrobotActionError? ==> data == Failure(r.error) || r.error.actionType == Some(actionType)
  {
    var d :- data;
    var result :- ActionResultFromJson(d);
    if !Truthy(result.success) then
      Failure(NewActionError([Lit("Action '"), Lit(actionType), Lit("' failed: "), Shown(result.error)], Some(actionType), Some(result.metadata)))
    else Success(result)
  }
}
