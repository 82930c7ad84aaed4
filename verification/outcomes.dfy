/** Failure-compatible wrappers and the Python exceptions the ingest code can raise. */
module Outcomes {

  datatype Option<+T> = None | Some(value: T)

  /** The exceptions of the Python operations the handlers use: dictionary
      indexing raises KeyError or TypeError, `.get` on a non-dictionary raises
      AttributeError (which the handlers never reach, since they call `.get`
      only on a member already indexed as a dict), and a pydantic model
      constructor raises ValidationError naming every field whose value has
      the wrong type or is missing. */
  datatype Exception =
    | KeyError(key: string)
    | TypeError
    | AttributeError
    | ValidationError(fields: seq<string>)

  datatype Result<+T> = Success(value: T) | Failure(error: Exception) {

    predicate IsFailure() {
      Failure?
    }

    function PropagateFailure<U>(): Result<U>
      requires Failure?
    {
      Failure(error)
    }

    function Extract(): T
      requires Success?
    {
      value
    }
  }
}
