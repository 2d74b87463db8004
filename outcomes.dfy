/** The exceptions the Python code can raise, and a result type that carries
    either a value or the exception that interrupted the computation. */
module Outcomes {

  /** Python exception kinds reachable from the modelled code. */
  datatype Error =
    | AssertionError     // a failed `assert` (ragged rows, mismatched shapes)
    | IndexError         // `self._matriz[0]` or `self._matriz[i]` out of range
    | ZeroDivisionError  // division of a number by zero
    | TypeError          // `reduce` over an empty sequence without an initial value

  datatype Result<T> = Ok(value: T) | Err(error: Error)
}
