/**
 * The date helpers: day differences rounded up, past/future tests against a given "now", and
 * the 'N/A' guard of the display formatters. Instants are milliseconds since the epoch.
 */
module FormatDate {
  import opened Values

  /** `1000 * 60 * 60 * 24`, the milliseconds in a day. */
  const DAY_MS := 86400000

  /** `Math.abs(x)`. */
  function Abs(x: int): (r: int)
    ensures r >= 0 && (r == x || r == -x)
  {
    if x < 0 then -x else x
  }

  /** `Math.ceil(ms / DAY_MS)`: the least whole number of days covering `ms`. */
  function CeilDays(ms: int): (r: int)
    ensures (r - 1) * DAY_MS < ms <= r * DAY_MS
  {
    -((-ms) / DAY_MS)
  }

  /** The rounding is exactly the ceiling: any `k` with `(k - 1)` days `< ms <=` `k` days is it. */
  lemma CeilDaysUnique(ms: int, k: int)
    requires (k - 1) * DAY_MS < ms <= k * DAY_MS
    ensures CeilDays(ms) == k
  {
  }

  /**
   * `daysBetween(start, end)`: the whole days covering the gap between the two instants, in
   * either order; `None` stands for the `NaN` an invalid or missing date produces.
   */
  function DaysBetween(start: Date, end: Date): (r: Option<int>)
    ensures r.Some? <==> start.At? && end.At?
    ensures r.Some? ==> r.value >= 0
  {
    if start.At? && end.At? then Some(CeilDays(Abs(end.ms - start.ms))) else None
  }

  /** The difference does not depend on the order of its arguments. */
  lemma DaysBetweenSymmetric(a: Date, b: Date)
    ensures DaysBetween(a, b) == DaysBetween(b, a)
  {
  }

  /** A date is no days away from itself. */
  lemma DaysBetweenSame(t: int)
    ensures DaysBetween(At(t), At(t)) == Some(0)
  {
    CeilDaysUnique(0, 0);
  }

  /** Instants exactly `k` days apart are `k` days apart, whichever comes first. */
  lemma DaysBetweenWholeDays(t: int, k: int)
    ensures DaysBetween(At(t), At(t + k * DAY_MS)) == Some(Abs(k))
  {
    CeilDaysUnique(Abs(k * DAY_MS), Abs(k));
  }

  /** Any positive gap shorter than a day counts as one day. */
  lemma DaysBetweenUnderADay(t: int, d: int)
    requires 0 < d < DAY_MS
    ensures DaysBetween(At(t), At(t + d)) == Some(1)
    ensures DaysBetween(At(t + d), At(t)) == Some(1)
  {
    CeilDaysUnique(d, 1);
  }

  /** `isPast(date)`: `new Date(date) < now`, false for an invalid date. */
  function IsPast(date: Date, now: int): (r: bool)
    ensures r ==> date.At?
  {
    IsBefore(date, now)
  }

  /** `isFuture(date)`: `new Date(date) > now`, false for an invalid date. */
  function IsFuture(date: Date, now: int): (r: bool)
    ensures r ==> date.At?
  {
    date.At? && date.ms > now
  }

  /** A date is never both past and future; it is neither exactly when it is invalid or is now. */
  lemma PastFutureExclusive(date: Date, now: int)
    ensures !(IsPast(date, now) && IsFuture(date, now))
    ensures !IsPast(date, now) && !IsFuture(date, now) <==> date.Unset? || date.ms == now
  {
  }

  /**
   * `formatDate(date)` and `formatTime(date)`: 'N/A' for a falsy date, otherwise the locale
   * rendering, which is a parameter here (the date rendering for the one, the time rendering for
   * the other).
   */
  function FormatWith(date: Date, render: int -> string): (r: string)
    ensures date.Unset? ==> r == "N/A"
    ensures date.At? ==> r == render(date.ms)
  {
    match date
    case Unset => "N/A"
    case At(ms) => render(ms)
  }
}
