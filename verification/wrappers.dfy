/** Optional values and results with an error, shared by the other modules. */
module Wrappers {

  /** A value that may be missing (`undefined` or `null` on the JavaScript side). */
  datatype Option<+T> = None | Some(value: T)

  /** The outcome of an operation that can throw: a value or the error it threw. */
  datatype Result<+T, +E> = Success(value: T) | Failure(error: E)

  /** JavaScript truthiness of an optional string: present and not the empty string. */
  predicate Truthy(s: Option<string>)
  {
    s.Some? && s.value != ""
  }

  /** `a || b` on optional strings. */
  function Or(a: Option<string>, b: Option<string>): (r: Option<string>)
    ensures Truthy(r) <==> Truthy(a) || Truthy(b)
    ensures Truthy(a) ==> r == a
    ensures !Truthy(a) ==> r == b
  {
    if Truthy(a) then a else b
  }

  /** The string an optional value holds, or "" when it is missing. */
  function OrEmpty(s: Option<string>): string
  {
    match s
    case Some(v) => v
    case None => ""
  }
}
