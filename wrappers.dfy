/** Failure-compatible return values shared by the engine and the experiment harness. */
module Wrappers {

  /** An optional value; Python's `None` or a missing entry. */
  datatype Option<+T> = None | Some(value: T)

  /** A value, or the error that a Python call would have raised instead of returning. */
  datatype Result<+T, +E> = Ok(value: T) | Err(error: E)

  /** `max(0, n)`: how many times `range(n)` iterates. */
  function Clamp(n: int): (r: nat)
    ensures n >= 0 ==> r == n
    ensures n < 0 ==> r == 0
  {
    if n < 0 then 0 else n
  }
}
