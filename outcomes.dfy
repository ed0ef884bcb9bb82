/** How an operation of the two stores ends: with a value, normally, or by
    throwing one of the two exception classes they use. */
module Outcomes {

  /** The exceptions the stores throw. */
  datatype Exception = IllegalArgumentException | IndexOutOfBoundsException

  /** A call that returns a value: it either returns it or throws. */
  datatype Result<T> = Return(value: T) | Throw(exception: Exception)

  /** A `void` call: it either completes normally or throws. */
  datatype Outcome = Completed | Threw(exception: Exception)

  /** What `Stream.findFirst()` yields: a present or an absent value. */
  datatype Option<T> = None | Some(value: T)
}
