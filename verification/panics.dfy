/** How the modelled code ends when a debug build of the program aborts.
    Every operation that can panic returns a `Result` instead of assuming
    its caller never triggers the panic. */
module Panics {

  /** The two panics the movement core can raise. */
  datatype Panic =
    | ArithmeticOverflow   // an i32 `+ 1` or `- 1` left the i32 range
    | IndexOutOfBounds     // a `Vec` was indexed at or past its length

  /** Either the value computed, or the panic that stopped the computation. */
  datatype Result<+T> = Ok(value: T) | Err(panic: Panic) {

    /** True if the computation panicked. */
    predicate IsFailure() {
      Err?
    }

    /** Passes the panic on under a different value type. */
    function PropagateFailure<U>(): Result<U>
      requires Err?
    {
      Err(panic)
    }

    /** The value computed. */
    function Extract(): T
      requires Ok?
    {
      value
    }
  }
}
