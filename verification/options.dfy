/** Optional values and fallible results, usable with `:-`. */
module Options {

  /** A value that may be absent (Python's `None`). */
  datatype Option<+T> = None | Some(value: T) {

    predicate IsFailure() {
      None?
    }

    function PropagateFailure<U>(): Option<U>
      requires None?
    {
      None
    }

    function Extract(): T
      requires Some?
    {
      value
    }
  }

  /** A successful value or an error message. */
  datatype Result<+T, +E> = Ok(value: T) | Err(error: E)

  /** The first of two alternatives that succeeded: how a backtracking
      matcher falls back to its second choice. */
  function OrElse<T>(a: Option<T>, b: Option<T>): (r: Option<T>)
    ensures a.Some? ==> r == a
    ensures a.None? ==> r == b
  {
    if a.Some? then a else b
  }
}
