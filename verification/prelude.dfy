/** Shared vocabulary of the simulator model: optional values, results, the
    Python exceptions the core can raise, and Python's `int()` on floats. */
module Prelude {

  datatype Option<+T> = None | Some(value: T)

  datatype Result<+T, +E> = Success(value: T) | Failure(error: E)

  datatype Outcome<+E> = Pass | Fail(error: E)

  /** The exceptions the core raises and does not catch itself. */
  datatype Raised =
    | InitializationError   // a table or a position used before it was set
    | ValueError            // bad interpolation bounds, negative numpy sizes, ...
    | ZeroDivisionError
    | TypeError
    | IndexError
    | UnboundLocalError     // a loop variable read after a loop that never ran

  /** A dynamically typed argument that is checked with `type(x) != int`. */
  datatype PyArg = IntArg(value: int) | OtherArg

  /** Python's `int(x)` on a float: truncation toward zero. */
  function Trunc(x: real): (r: int)
    ensures 0.0 <= x ==> r as real <= x < r as real + 1.0
    ensures x <= 0.0 ==> r as real - 1.0 < x <= r as real
  {
    if x >= 0.0 then x.Floor else -((-x).Floor)
  }
}
