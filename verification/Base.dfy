/** Shared vocabulary: optional values and the clock.

    The dispatcher compares clock readings in nanoseconds; the store keeps every
    timestamp as whole milliseconds and reads a column that is not positive back
    as the zero time. */
module Base {

  datatype Option<+T> = None | Some(value: T)

  /** A clock reading: nanoseconds since the Unix epoch. */
  type Time = int

  /** One millisecond. */
  const MS: int := 1_000_000

  /** The zero `time.Time`, 1 January of year 1. */
  const ZERO_TIME: Time := -62_135_596_800_000_000_000

  /** Whole milliseconds since the epoch, rounded down. */
  function Millis(t: Time): int {
    t / MS
  }

  /** The column written for `t`. */
  function StoredMs(t: Time): int {
    if t == ZERO_TIME then 0 else Millis(t)
  }

  /** The time read back from a column. */
  function LoadedTime(ms: int): Time {
    if ms > 0 then ms * MS else ZERO_TIME
  }

  /** `t` rounded down to a whole millisecond. */
  function FloorMs(t: Time): Time {
    Millis(t) * MS
  }

  /** A timestamp comes back rounded down, by less than a millisecond, exactly if it is at
      least a millisecond after the epoch or within the first millisecond of the zero time;
      every other one is lost and comes back as the zero time. */
  lemma StoreRoundTrip(t: Time)
    ensures LoadedTime(StoredMs(t)) == FloorMs(t) <==> t >= MS || ZERO_TIME <= t < ZERO_TIME + MS
    ensures t < MS ==> LoadedTime(StoredMs(t)) == ZERO_TIME
    ensures FloorMs(t) <= t < FloorMs(t) + MS
  {
    assert t == MS * (t / MS) + t % MS;
  }

  /** A whole number of milliseconds passes through the rounding unchanged. */
  lemma FloorShift(t: Time, d: int)
    requires d % MS == 0
    ensures FloorMs(t + d) == FloorMs(t) + d
  {
    var q := d / MS;
    assert d == q * MS;
    assert t + d == MS * (t / MS + q) + t % MS;
    assert (t + d) / MS == t / MS + q;
  }

  lemma MulMonotone(a: int, b: int, d: int)
    requires a <= b && d >= 0
    ensures a * d <= b * d
  {
    assert b * d == a * d + (b - a) * d;
  }

  lemma DivSplits(x: nat, d: nat)
    requires d > 0
    ensures x == x / d * d + x % d && 0 <= x % d < d
  {
  }

  /** A quotient is below a bound exactly if the dividend is below that many divisors. */
  lemma DivBelow(x: nat, count: nat, d: nat)
    requires d > 0
    ensures x / d < count <==> x < count * d
  {
    var m := x / d;
    DivSplits(x, d);
    if m < count {
      MulMonotone(m + 1, count, d);
      assert (m + 1) * d == m * d + d;
    } else {
      MulMonotone(count, m, d);
    }
  }

  lemma MillisMonotone(a: Time, b: Time)
    requires a <= b
    ensures Millis(a) <= Millis(b) && FloorMs(a) <= FloorMs(b)
  {
  }
}
