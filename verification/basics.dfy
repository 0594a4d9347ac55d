/** Value types shared by the whole model: optional values, results,
    JSON documents as Python's json module produces them, and formatted
    message texts. */
module Basics {

  datatype Option<+T> = None | Some(value: T) {
    function GetOr(default: T): T {
      match this
      case Some(v) => v
      case None => default
    }
  }

  datatype Result<+T, +E> = Success(value: T) | Failure(error: E) {
    predicate IsFailure() {
      Failure?
    }

    function PropagateFailure<U>(): Result<U, E>
      requires Failure?
    {
      Failure(error)
    }

    function Extract(): T
      requires Success?
    {
      value
    }
  }

  /** A decoded JSON document (what `json.loads` or `response.json()`
      yields): Python distinguishes int from float, so JSON numbers do too. */
  datatype Json =
    | JNull
    | JBool(b: bool)
    | JInt(i: int)
    | JReal(r: real)
    | JStr(s: string)
    | JArr(items: seq<Json>)
    | JObj(fields: map<string, Json>)

  const EmptyObject: Json := JObj(map[])

  /** Python's type name of a JSON value. */
  function TypeName(v: Json): string {
    match v
    case JNull => "NoneType"
    case JBool(_) => "bool"
    case JInt(_) => "int"
    case JReal(_) => "float"
    case JStr(_) => "str"
    case JArr(_) => "list"
    case JObj(_) => "dict"
  }

  /** Python's truth value of a JSON value (`if x:` / `x or y`). */
  predicate Truthy(v: Json) {
    match v
    case JNull => false
    case JBool(b) => b
    case JInt(i) => i != 0
    case JReal(r) => r != 0.0
    case JStr(s) => s != ""
    case JArr(xs) => xs != []
    case JObj(m) => m != map[]
  }

  /** Python's `x or fallback` for an optional float argument: None and
      0.0 are falsy and give the fallback. */
  function RealOr(x: Option<real>, fallback: real): (r: real)
    ensures x.Some? && x.value != 0.0 ==> r == x.value
    ensures x.None? || x.value == 0.0 ==> r == fallback
  {
    if x.Some? && x.value != 0.0 then x.value else fallback
  }

  /** One part of an f-string: literal text or a formatted value. The
      model keeps messages as these parts because Python's rendering of a
      float cannot be reproduced exactly. */
  datatype Piece = Lit(s: string) | Num(r: real) | Whole(i: int) | Shown(v: Json)

  type Text = seq<Piece>

  function Say(s: string): Text {
    [Lit(s)]
  }

  /** A piece whose rendering is certainly not empty. */
  predicate Visible(p: Piece) {
    match p
    case Lit(s) => s != ""
    case Num(_) => true
    case Whole(_) => true
    case Shown(v) => v != JStr("")
  }

  /** A text whose rendering is not the empty string. */
  predicate NonBlank(t: Text) {
    exists i :: 0 <= i < |t| && Visible(t[i])
  }
}
