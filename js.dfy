/** JavaScript values as the cloud functions see them in request payloads and
    store documents, the HttpsError codes they raise, and the Option/Result
    wrappers the model uses for "absent" and "thrown". */
module Js {

  /** A JavaScript value. Objects other than arrays are opaque (`Obj`). */
  datatype Value =
    | Undefined
    | Null
    | Bool(b: bool)
    | Num(x: real)
    | Str(s: string)
    | Arr(items: seq<Value>)
    | Obj

  /** A store document or a request payload: field name to value. */
  type Doc = map<string, Value>

  /** JavaScript truthiness (NaN is not representable, see README). */
  predicate Truthy(v: Value)
  {
    match v
    case Undefined => false
    case Null => false
    case Bool(b) => b
    case Num(x) => x != 0.0
    case Str(s) => s != ""
    case Arr(_) => true
    case Obj => true
  }

  /** `a || b` */
  function Or(a: Value, b: Value): (r: Value)
    ensures Truthy(a) ==> r == a
    ensures !Truthy(a) ==> r == b
  {
    if Truthy(a) then a else b
  }

  /** Reading a field of a document: a missing field is `undefined`. */
  function Field(d: Doc, k: string): (v: Value)
    ensures k !in d ==> v == Undefined
    ensures k in d ==> v == d[k]
  {
    if k in d then d[k] else Undefined
  }

  /** `!x || typeof x !== "string"` fails exactly when this is false. */
  predicate IsNonEmptyString(v: Value)
  {
    v.Str? && v.s != ""
  }

  /** The text of a string-valued field; any other value reads as "". */
  function TextOf(v: Value): (s: string)
    ensures v.Str? ==> s == v.s
    ensures !v.Str? ==> s == ""
  {
    if v.Str? then v.s else ""
  }

  /** `Number.isInteger(x)` for a finite number. */
  predicate IsInteger(x: real)
  {
    x == x.Floor as real
  }

  /** The HttpsError codes the functions raise. */
  datatype Code =
    | InvalidArgument
    | NotFound
    | PermissionDenied
    | FailedPrecondition
    | Unauthenticated
    | AlreadyExists
    | Internal

  datatype Option<+T> = None | Some(value: T)

  /** A call either returns a value or throws an HttpsError with a code. */
  datatype Result<+T> = Ok(value: T) | Err(code: Code)

  /** What a `catch` block receives: an HttpsError, an error carrying a
      Firebase Auth code such as "auth/user-not-found", or anything else. */
  datatype Thrown =
    | Https(code: Code)
    | AuthError(authCode: string)
    | OtherError
}
