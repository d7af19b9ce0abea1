/** Values shared by every part of the model: optional values, document ids
    and the integer clock (milliseconds since the epoch, and UTC day numbers). */
module Common {

  datatype Option<+T> = None | Some(value: T) {
    function GetOr(default: T): T {
      match this
      case Some(v) => v
      case None => default
    }
  }

  /** A MongoDB ObjectId, compared by its hexadecimal text. */
  type ObjectId = string

  const MsPerMinute: int := 60 * 1000
  const MsPerHour: int := 60 * MsPerMinute
  const MsPerDay: int := 24 * MsPerHour

  /** The calendar day of a timestamp, as `toDateString` distinguishes days
      (taken in UTC here). */
  function Day(t: int): (d: int)
    ensures d * MsPerDay <= t < (d + 1) * MsPerDay
  {
    t / MsPerDay
  }

  /** The day of `now - 24 h` is the day before the day of `now`, which is how
      the quiz streak finds "yesterday". */
  lemma DayBefore(now: int)
    ensures Day(now - MsPerDay) == Day(now) - 1
  {
    assert now - MsPerDay == (Day(now) - 1) * MsPerDay + now % MsPerDay;
  }

  /** Euclidean division by a positive divisor brackets the dividend. */
  lemma DivBrackets(x: int, d: int)
    requires d > 0
    ensures d * (x / d) <= x < d * (x / d + 1)
  {
    assert x == d * (x / d) + x % d;
    assert d * (x / d + 1) == d * (x / d) + d;
  }

  /** Multiplying by a positive factor keeps a strict order. */
  lemma MulCancelLess(d: int, a: int, b: int)
    requires d > 0 && d * a < d * b
    ensures a < b
  {
  }
}
