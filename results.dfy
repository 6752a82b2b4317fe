/** Outcome types shared by the whole model: what a client call answers, what a lookup
    helper returns, and what a resource handler returns to the plugin framework. */
module Results {

  datatype Option<+T> = None | Some(value: T)

  /** The answer of one call to the Gitea client: the decoded value, or an error together
      with the HTTP status of the response that carried it. */
  datatype Reply<+T> = Ok(value: T) | Fail(status: int, msg: string) {
    /** The only status the handlers inspect. */
    predicate IsNotFound() {
      Fail? && status == 404
    }
  }

  /** A Go `(value, error)` pair where only one side is meaningful. */
  datatype Result<+T> = Success(value: T) | Failure(msg: string)

  /** What a resource handler ends with: a nil error, an error, or a Go runtime panic
      (the handler dereferences the nil result of a failed call). */
  datatype Outcome = Done | Error(msg: string) | Crash
}
