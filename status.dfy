/** Status values and the failure-compatible Result used to model
    TF_RETURN_IF_ERROR: a call that fails returns its error unchanged. */
module Status {

  /** The error codes that appear in the node's failure paths. */
  datatype Code = Unknown | InvalidArgument | NotFound

  datatype Status = Ok | Error(code: Code, message: string)

  /** A status that is not OK; only these are carried by a failed Result. */
  type ErrorStatus = s: Status | s.Error? witness Error(Unknown, "")

  datatype Option<+T> = None | Some(value: T)

  datatype Result<+T> = Success(value: T) | Failure(error: ErrorStatus) {

    predicate IsFailure() {
      Failure?
    }

    function PropagateFailure<U>(): Result<U>
      requires Failure?
    {
      Failure(error)
    }

    function Extract(): T
      requires Success?
    {
      value
    }
  }

  /** The status a caller observes for an outcome. */
  function StatusOf<T>(r: Result<T>): (s: Status)
    ensures s.Ok? <==> r.Success?
    ensures r.Failure? ==> s == r.error
  {
    match r
    case Success(_) => Ok
    case Failure(e) => e
  }
}
