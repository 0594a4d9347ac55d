/** The client library's error hierarchy (brobot_client/exceptions.py) and
    the few Python built-in exceptions the client code lets through. */
module Exceptions {
  import opened Basics

  /** The classes an `except` clause or `isinstance` can name. */
  datatype ErrorClass =
    | ExceptionClass
    | ClientErrorClass
    | ConnectionErrorClass
    | TimeoutErrorClass
    | ActionErrorClass
    | ValidationErrorClass
    | ForeignClass(name: string)

  /** A raised error. `Foreign` stands for an exception of the Python
      runtime (KeyError, TypeError, AttributeError, ValueError, ...), named
      by its class. */
  datatype Error =
    | BrobotClientError(message: Text)
    | BrobotConnectionError(message: Text)
    | BrobotTimeoutError(message: Text)
    | BrobotActionError(message: Text, actionType: Option<string>, errorDetails: Json)
    | BrobotValidationError(message: Text)
    | Foreign(name: string, message: Text)

  /** The most derived class of an error. */
  function ClassOf(e: Error): ErrorClass {
    match e
    case BrobotClientError(_) => ClientErrorClass
    case BrobotConnectionError(_) => ConnectionErrorClass
    case BrobotTimeoutError(_) => TimeoutErrorClass
    case BrobotActionError(_, _, _) => ActionErrorClass
    case BrobotValidationError(_) => ValidationErrorClass
    case Foreign(name, _) => ForeignClass(name)
  }

  /** The class itself and every class it derives from: of the built-in
      errors the model raises, KeyError alone has a base below Exception,
      LookupError. */
  function Lineage(c: ErrorClass): set<ErrorClass> {
    match c
    case ExceptionClass => {ExceptionClass}
    case ClientErrorClass => {ClientErrorClass, ExceptionClass}
    case ForeignClass(name) =>
      if name == "KeyError" then {c, ForeignClass("LookupError"), ExceptionClass} else {c, ExceptionClass}
    case _ => {c, ClientErrorClass, ExceptionClass}
  }

  /** Python's `isinstance(e, c)`. */
  predicate IsInstance(e: Error, c: ErrorClass) {
    c in Lineage(ClassOf(e))
  }

  /** `isinstance(e, classes)` for a tuple of classes: an instance of one
      of them, tried in order. */
  predicate IsInstanceOfAny(e: Error, classes: seq<ErrorClass>) {
    |classes| > 0 && (IsInstance(e, classes[0]) || IsInstanceOfAny(e, classes[1..]))
  }

  /** `str(e)`: the message given to the constructor. */
  function Str(e: Error): Text {
    e.message
  }

  /** `BrobotActionError(message, action_type, error_details)`: a missing
      (or empty) details dictionary is stored as `{}`. */
  function NewActionError(message: Text, actionType: Option<string>, errorDetails: Option<Json>): (e: Error)
    ensures IsInstance(e, ActionErrorClass) && IsInstance(e, ClientErrorClass)
    ensures Str(e) == message && e.actionType == actionType
    ensures errorDetails.None? ==> e.errorDetails == EmptyObject
    ensures errorDetails.Some? && Truthy(errorDetails.value) ==> e.errorDetails == errorDetails.value
    ensures errorDetails.Some? && !Truthy(errorDetails.value) ==> e.errorDetails == EmptyObject
    ensures Truthy(e.errorDetails) || e.errorDetails == EmptyObject
  {
    var details := if errorDetails.Some? && Truthy(errorDetails.value) then errorDetails.value else EmptyObject;
    BrobotActionError(message, actionType, details)
  }

  /** The four specialised errors derive from BrobotClientError, which
      (like every error) derives from Exception. */
  lemma ClientErrorHierarchy(e: Error)
    ensures IsInstance(e, ExceptionClass)
    ensures IsInstance(e, ClientErrorClass) <==> !e.Foreign?
    ensures IsInstance(e, ConnectionErrorClass) <==> e.BrobotConnectionError?
    ensures IsInstance(e, TimeoutErrorClass) <==> e.BrobotTimeoutError?
    ensures IsInstance(e, ActionErrorClass) <==> e.BrobotActionError?
    ensures IsInstance(e, ValidationErrorClass) <==> e.BrobotValidationError?
  {
  }

  /** The four subclasses are siblings: no error is an instance of two of them. */
  lemma SubclassesAreSiblings(e: Error, c: ErrorClass, d: ErrorClass)
    requires c in {ConnectionErrorClass, TimeoutErrorClass, ActionErrorClass, ValidationErrorClass}
    requires d in {ConnectionErrorClass, TimeoutErrorClass, ActionErrorClass, ValidationErrorClass}
    requires c != d
    ensures !(IsInstance(e, c) && IsInstance(e, d))
  {
  }
}
