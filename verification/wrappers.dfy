/** Failure-compatible wrappers shared by every module: `Option` for Swift
    optionals, `Result` for throwing functions that produce a value, and
    `Outcome` for throwing functions that produce nothing. A throwing
    method of a stateful object also yields the object after the call,
    since Swift keeps what the method assigned before it threw: `Attempt`
    when the method returns nothing, `Answer` when it returns a value. */
module Wrappers {

  datatype Option<+T> = None | Some(value: T) {
    predicate IsFailure() {
      None?
    }

    function PropagateFailure<U>(): Option<U>
      requires None?
    {
      None
    }

    function Extract(): T
      requires Some?
    {
      value
    }
  }

  datatype Result<+R, +E> = Success(value: R) | Failure(error: E) {
    predicate IsFailure() {
      Failure?
    }

    function PropagateFailure<U>(): Result<U, E>
      requires Failure?
    {
      Failure(error)
    }

    function Extract(): R
      requires Success?
    {
      value
    }
  }

  datatype Outcome<+E> = Pass | Fail(error: E) {
    predicate IsFailure() {
      Fail?
    }

    function PropagateFailure(): Outcome<E>
      requires Fail?
    {
      this
    }
  }

  datatype Attempt<+S, +E> = Attempt(after: S, thrown: Option<E>)

  datatype Answer<+S, +R, +E> = Answer(after: S, result: Result<R, E>)
}
