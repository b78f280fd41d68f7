/** Results of Python calls: a value, or the class of the exception that escaped. */
module Outcomes {

  datatype Option<+T> = None | Some(value: T)

  /** The exception classes the modelled code can raise. */
  datatype PyError =
    | KeyError            // a dict lookup of a missing key
    | TypeError           // subscripting None, `in` on an int, indexing a str by a str
    | NameError(name: string)  // a name that is neither imported nor defined
    | UnboundLocalError   // a local read before any assignment reached it

  /** What a Python call ends with; usable with `:-` to propagate the exception. */
  datatype Outcome<+T> = Returned(value: T) | Raised(error: PyError) {

    predicate IsFailure() {
      Raised?
    }

    /**
     * The exception, carried to the caller's result type.  `:-` calls it on Raised
     * only, so the Returned branch is unreachable through `:-` and its KeyError
     * stands for no exception the source raises; the function is total so that a
     * read which cannot fail leaves nothing to check.
     */
    function PropagateFailure<U>(): (r: Outcome<U>)
      ensures Raised? ==> r == Raised(error)
    {
      match this
      case Raised(e) => Raised(e)
      case Returned(_) => Raised(KeyError)
    }

    function Extract(): T
      requires Returned?
    {
      value
    }
  }
}
