/** Optional values, and the JavaScript notion of a "present" (truthy) string. */
module Wrappers {

  /** A value that may be absent: JavaScript's `undefined` / `null`, or a query that found no row. */
  datatype Option<+T> = None | Some(value: T) {
    function GetOr(default: T): T {
      match this
      case Some(v) => v
      case None => default
    }
  }

  /** The outcome of a guard chain: a value, or the error that stopped it. */
  datatype Result<+T, +E> = Success(value: T) | Failure(error: E)

  /** A string field is truthy in JavaScript when it is present and not the empty string. */
  predicate Present(s: Option<string>) {
    s.Some? && s.value != ""
  }

  /** `a || b` on two optional strings: the first truthy one, else absent. */
  function FirstPresent(a: Option<string>, b: Option<string>): (r: Option<string>)
    ensures Present(r) <==> Present(a) || Present(b)
    ensures Present(a) ==> r == a
    ensures !Present(a) && Present(b) ==> r == b
  {
    if Present(a) then a else if Present(b) then b else None
  }
}
