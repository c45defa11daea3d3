/** Small value types shared by every module of the model. */
module Values {

  /** An optional value: JavaScript's `null`/`undefined` versus a present value. */
  datatype Option<+T> = None | Some(value: T) {
    /** The value, or `default` when absent (JavaScript's `x ?? d` on a present/absent field). */
    function GetOr(default: T): T {
      match this
      case Some(v) => v
      case None => default
    }
  }

  /** The `{ success, error }` objects the application returns, as a tagged union. */
  datatype Result<+T, +E> = Ok(value: T) | Err(error: E)

  /**
   * A calendar date as stored by the application. Every date the application stores comes from an
   * HTML date input, which yields either the empty string or a valid date; `Unset` stands for the
   * empty string and `At(ms)` for the instant, in milliseconds since the epoch.
   */
  datatype Date = Unset | At(ms: int)

  /** `new Date(d) < new Date(now)`: false when `d` is empty, since an invalid date compares false. */
  predicate IsBefore(d: Date, now: int) {
    d.At? && d.ms < now
  }

  /** JavaScript's `Math.max(a, b)` on integers. */
  function Max(a: int, b: int): (r: int)
    ensures r >= a && r >= b && (r == a || r == b)
  {
    if a >= b then a else b
  }
}
