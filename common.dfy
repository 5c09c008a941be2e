/** Small shared vocabulary: optional values and bytes. */
module Common {

  /** Python's `None` or a present value. */
  datatype Option<T> = None | Some(value: T) {
    /** `d.get(key, default)` style fallback. */
    function GetOr(default: T): T {
      match this
      case Some(v) => v
      case None => default
    }
  }

  /** One byte of game memory or of an HID report. */
  newtype byte = b: int | 0 <= b < 256

  function Abs(x: real): real {
    if x < 0.0 then -x else x
  }

  /** Python's `max(a, b)` and `min(a, b)` on numbers. */
  function MaxReal(a: real, b: real): real {
    if a >= b then a else b
  }

  function MinReal(a: real, b: real): real {
    if a <= b then a else b
  }
}
