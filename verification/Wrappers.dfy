/** Results shared by the models. */
module Wrappers {
  datatype Option<+T> = None | Some(value: T)

  /** What an operation that may raise a Lua error reports. */
  datatype Check<+E> = Fine | Failed(error: E) {
    predicate IsFailure() { Failed? }

    function PropagateFailure(): Check<E>
      requires Failed?
    {
      this
    }
  }
}
