/** Failure-carrying result types shared by the model.

    Python signals "no answer" with `None` and failures with exceptions that
    travel up to the stream loop's outer handler; both are made explicit here. */
module Outcomes {

  /** Python's `Optional[T]`. */
  datatype Option<+T> = None | Some(value: T)

  /** The exceptions the modelled code can raise. `AttributeError` names the
      attribute that was looked up: a field the settings object lacks, or a
      method (`get`, `upper`) a JSON value of the wrong type lacks. */
  datatype Fault =
    | DivisionByZero
    | AttributeError(name: string)

  /** A computation that either returns a value or raises a fault. */
  datatype Checked<+T> = Ok(value: T) | Raised(fault: Fault)

  /** Python's built-in `abs` on floats. */
  function Abs(x: real): (r: real)
    ensures r >= 0.0
    ensures r == x || r == -x
  {
    if x < 0.0 then -x else x
  }
}
