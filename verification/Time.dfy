/** One shared clock in nanoseconds, Unix seconds, and Go's 64-bit durations. */
module Time {

  const SECOND := 1_000_000_000
  const MAX_INT64 := 0x7FFF_FFFF_FFFF_FFFF
  const TWO_TO_64 := 0x1_0000_0000_0000_0000

  /** time.Now().Unix(): whole seconds, rounded down. */
  function Unix(now: int): int {
    now / SECOND
  }

  /** The instant at which a Unix second begins. */
  function Instant(second: int): int {
    second * SECOND
  }

  /** Two's-complement wrap-around of an int64. */
  function Wrap64(x: int): (w: int)
    ensures -MAX_INT64 - 1 <= w <= MAX_INT64
  {
    (x + MAX_INT64 + 1) % TWO_TO_64 - MAX_INT64 - 1
  }

  /** time.Duration(execTime - time.Now().Unix()) * time.Second, with its overflow. */
  function Until(execTime: int, now: int): int {
    Wrap64((execTime - Unix(now)) * SECOND)
  }

  /** Exec times that fit the signed INT column exec_time. */
  predicate FitsColumn(execTime: int) {
    -0x8000_0000 <= execTime < 0x8000_0000
  }

  /** The years 1970 to 2191. */
  predicate SaneClock(now: int) {
    0 <= now < 7_000_000_000 * SECOND
  }

  /** The largest whole number of seconds an int64 duration can hold. */
  const MAX_SECONDS := 9_223_372_036

  /** The multiplication is exact if and only if the distance is at most MAX_SECONDS. */
  lemma UntilIsExactWhen(execTime: int, now: int)
    ensures Until(execTime, now) == (execTime - Unix(now)) * SECOND
            <==> -MAX_SECONDS <= execTime - Unix(now) <= MAX_SECONDS
  {
  }

  /** For stored exec times and a sane clock the multiplication never overflows. */
  lemma ColumnsNeverOverflow(execTime: int, now: int)
    requires FitsColumn(execTime) && SaneClock(now)
    ensures Until(execTime, now) == (execTime - Unix(now)) * SECOND
  {
    UntilIsExactWhen(execTime, now);
  }

  lemma UnixGrows(a: int, b: int)
    requires a <= b
    ensures Unix(a) <= Unix(b)
  {
  }

  /** At most MAX_SECONDS ahead. */
  predicate Near(execTime: int, now: int) {
    execTime - Unix(now) <= MAX_SECONDS
  }

  /**
   Whoever sleeps for Until, and not at all if it is not positive, wakes no earlier than in the exec second, if and
   only if that second is near. Distances that overflow in the past only make the sleep longer.
   */
  lemma SleepSufficesWhen(execTime: int, now: int)
    ensures Near(execTime, now)
            <==> Instant(execTime) <= if Until(execTime, now) > 0 then now + Until(execTime, now) else now
  {
  }

  /** More than 292 years before the present. */
  predicate Ancient(execTime: int, now: int) {
    execTime - Unix(now) < -MAX_SECONDS
  }

  /** Such a sleep ends within the exec second, unless a distance in the past has overflowed. */
  lemma SleepIsPromptWhen(execTime: int, now: int)
    ensures (Until(execTime, now) > 0 ==> now + Until(execTime, now) < Instant(execTime) + SECOND)
            <==> !Ancient(execTime, now) || Until(execTime, now) <= 0
  {
    UntilIsExactWhen(execTime, now);
  }

  /** There is no sleep for a second that has begun. */
  lemma BegunIsDue(execTime: int, now: int)
    requires execTime <= Unix(now) && !Ancient(execTime, now)
    ensures Until(execTime, now) <= 0
  {
    UntilIsExactWhen(execTime, now);
  }

  /** One second past the limit the computed wait is negative, although the task is centuries away. */
  lemma OverflowLooksDue(now: int)
    ensures Until(Unix(now) + MAX_SECONDS + 1, now) < 0
  {
  }

  /** A second has begun by instant x exactly when its first instant is not after x. */
  lemma BegunBy(second: int, x: int)
    ensures second <= Unix(x) <==> Instant(second) <= x
  {
  }
}
