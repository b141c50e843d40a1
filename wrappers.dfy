/**
 * Option and Result for lookups and conversions that can fail, and Outcome
 * for the three ways a C++ call of the plugin can end: it returns, it throws
 * an exception, or it reaches behaviour the language leaves undefined (an
 * out-of-range element access, a null dereference, a division by zero).
 */
module Wrappers {

  datatype Option<+T> = None | Some(value: T)

  datatype Result<+T, +E> = Ok(value: T) | Err(error: E)

  datatype Outcome<+T> = Done(value: T) | Threw(what: string) | Undefined(what: string)
  {
    predicate Failed() { !Done? }

    /** The same failure, as the outcome of a caller that lets it through. */
    function Propagate<U>(): (r: Outcome<U>)
      requires Failed()
      ensures r.Failed() && r.Threw? == Threw? && r.what == what
    {
      if Threw? then Threw(what) else Undefined(what)
    }
  }
}
