/** Optional values and results: Python's `None` and raised exceptions, made explicit. */
module Wrappers {

  /** A value that may be absent (Python's `None`, or a missing dictionary key). */
  datatype Option<+T> = None | Some(value: T)

  /** An outcome that is either a value or the error the operation raised. */
  datatype Result<+R, +E> = Success(value: R) | Failure(error: E)

  /** `a` if it holds a value, otherwise the fallback `b`. */
  function OrElse<T>(a: Option<T>, b: Option<T>): (r: Option<T>)
    ensures a.Some? ==> r == a
    ensures a.None? ==> r == b
    ensures r.Some? <==> a.Some? || b.Some?
  {
    match a
    case Some(_) => a
    case None => b
  }
}
