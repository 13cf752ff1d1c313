/** Small shared vocabulary: optional values and the absolute value used by the guards. */
module Basics {

  /** A value that may be absent: a null engine reference, a missed ray cast. */
  datatype Option<T> = None | Some(value: T)

  /** Mathf.Abs on the model's reals. */
  function Abs(x: real): (r: real)
    ensures r >= 0.0
    ensures r == x || r == -x
  {
    if x < 0.0 then -x else x
  }
}
