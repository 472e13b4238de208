/** Failure-carrying results used for the exceptions the controllers raise. */
module Wrappers {

  datatype Option<+T> = None | Some(value: T)

  /** The value of an operation, or the exception that ended it. */
  datatype Result<+T, +E> = Ok(value: T) | Err(error: E)

  /** An operation that returns nothing, or the exception that ended it. */
  datatype Outcome<+E> = Pass | Fail(error: E)

  function MapOption<T, U>(o: Option<T>, f: T -> U): (r: Option<U>)
    ensures r.Some? <==> o.Some?
    ensures r.Some? ==> r.value == f(o.value)
  {
    match o
    case None => None
    case Some(v) => Some(f(v))
  }
}
