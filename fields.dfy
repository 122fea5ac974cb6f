/** Values that a ticket field can hold once pandas has read it. */
module Fields {

  datatype Option<+T> = None | Some(value: T) {
    function GetOr(default: T): T {
      match this
      case Some(v) => v
      case None => default
    }
  }

  /** A numeric field: NaN (`Missing`), a value `float()`/`int()` rejects
      (`Unparseable`), or a number. */
  datatype Num = Missing | Unparseable | Value(r: real)

  /** `x <= bound` in Python: NaN and non-numbers fail every comparison. */
  predicate AtMost(x: Num, bound: real) {
    x.Value? && x.r <= bound
  }

  /** Python's `int(x)` on a float: truncation toward zero. */
  function Trunc(x: real): (n: int)
    ensures 0.0 <= x ==> n as real <= x < n as real + 1.0
    ensures x < 0.0 ==> n as real - 1.0 < x <= n as real
  {
    if 0.0 <= x then x.Floor else -((-x).Floor)
  }
}
