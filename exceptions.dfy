/** The four exception classes of the snapshot server. Each is a distinct subclass of
    std::runtime_error whose constructor only forwards its message, so what() returns
    exactly the message it was built with. */
module Exceptions {
  import opened Wrappers

  datatype ErrorKind = InitializationError | InvalidRequest | InvalidParams | CaptureError

  /** A thrown exception of one of the four classes: its class and its what() text. */
  datatype Exception = Exception(kind: ErrorKind, what: string)

  /** Constructing an exception of kind `k` with message `msg`. */
  function Raise(k: ErrorKind, msg: string): (e: Exception)
    ensures e.kind == k && e.what == msg
  {
    Exception(k, msg)
  }

  /** The dynamic type name the error handler reads back for an exception of kind `k`
      (the compiler's typeid name, "class X"). */
  function TypeName(k: ErrorKind): (name: string)
    ensures |name| > 6 && name[..6] == "class "
  {
    match k
    case InitializationError => "class InitializationError"
    case InvalidRequest => "class InvalidRequest"
    case InvalidParams => "class InvalidParams"
    case CaptureError => "class CaptureError"
  }

  /** Which of the four classes a type name denotes, if any. */
  function KindOf(name: string): (r: Option<ErrorKind>)
    ensures r.Some? ==> TypeName(r.value) == name
  {
    if name == "class InitializationError" then Some(InitializationError)
    else if name == "class InvalidRequest" then Some(InvalidRequest)
    else if name == "class InvalidParams" then Some(InvalidParams)
    else if name == "class CaptureError" then Some(CaptureError)
    else None
  }

  /** The type name of every kind is recognised as that kind, so the four classes can be
      told apart by their names. */
  lemma KindOfTypeName(k: ErrorKind)
    ensures KindOf(TypeName(k)) == Some(k)
  {
  }

  /** Distinct classes have distinct type names. */
  lemma TypeNamesDistinct(k1: ErrorKind, k2: ErrorKind)
    ensures TypeName(k1) == TypeName(k2) <==> k1 == k2
  {
    KindOfTypeName(k1);
    KindOfTypeName(k2);
  }
}
