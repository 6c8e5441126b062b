/** Failure-carrying wrappers shared by every module of the model. */
module Common {

  /** A value that may be absent: a JSON field left undefined, a null, a lookup miss. */
  datatype Option<+T> = None | Some(value: T)

  /**
   * A JSON number field as a server receives it. JavaScript arithmetic tells
   * the first two apart: `undefined` makes a product NaN while `null` counts
   * as 0.
   */
  datatype JsonNumber = Undefined | Null | Num(n: int)

  /** The outcome of an operation that can fail with an error of type E. */
  datatype Result<+T, +E> = Ok(value: T) | Err(error: E)

  /** `Math.max` on integers. */
  function Max(a: int, b: int): (m: int)
    ensures m >= a && m >= b
    ensures m == a || m == b
  {
    if a >= b then a else b
  }
}
