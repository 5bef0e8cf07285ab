/** TimeToPgTime and PgTimeToTimestamp in helpers.go: Postgres counts microseconds from the year 2000. */
module Timestamps {
  import opened Int64
  import opened Wrappers

  /** Instants are in nanoseconds from 1970; this is the first of January 2000. */
  const EPOCH := 946_684_800 * SECOND

  predicate Leap(year: nat) {
    year % 4 == 0 && (year % 100 != 0 || year % 400 == 0)
  }

  /** The days from the first of January 1970 to that of the year. */
  function DaysTo(year: nat): nat {
    if year <= 1970 then 0 else DaysTo(year - 1) + if Leap(year - 1) then 366 else 365
  }

  /** The epoch is where the calendar has it. */
  lemma EpochIsNewYear2000()
    ensures EPOCH == DaysTo(2000) * 86_400 * SECOND
  {
    assert DaysTo(1980) == 3652;
    assert DaysTo(1990) == 7305;
    assert DaysTo(2000) == 10957;
  }

  // the years 1 to 9999, in seconds from 1970
  const MIN_VALID_SECONDS := -62_135_596_800
  const MAX_VALID_SECONDS := 253_402_300_800

  datatype Timestamp = Timestamp(seconds: int, nanos: int)

  function Instant(ts: Timestamp): int {
    ts.seconds * SECOND + ts.nanos
  }

  /** ptypes.TimestampProto: seconds, and nanoseconds counted forward whatever the sign; an error outside the
      years a timestamp may have. */
  function TimestampProto(instant: int): Option<Timestamp> {
    var ts := Timestamp(instant / SECOND, instant % SECOND);
    if MIN_VALID_SECONDS <= ts.seconds < MAX_VALID_SECONDS then Some(ts) else None
  }

  function PgTimeToTimestamp(t: int): Option<Timestamp> {
    TimestampProto(EPOCH + Wrap64(t * 1000))
  }

  function TimeToPgTime(instant: int): int {
    Div(Sub(instant, EPOCH), 1000)
  }

  /** There is never an error: 64 bits of nanoseconds do not leave the valid years. */
  lemma AlwaysNormalised(t: int)
    requires IsInt64(t)
    ensures PgTimeToTimestamp(t).Some?
    ensures 0 <= PgTimeToTimestamp(t).value.nanos < SECOND
    ensures Instant(PgTimeToTimestamp(t).value) == EPOCH + Wrap64(t * 1000)
  {
    var instant := EPOCH + Wrap64(t * 1000);
    assert instant == (instant / SECOND) * SECOND + instant % SECOND;
  }

  /** Out and back gives the same time exactly when its nanoseconds fit. */
  lemma OutAndBackExactlyWhen(t: int)
    requires IsInt64(t)
    ensures PgTimeToTimestamp(t).Some?
    ensures TimeToPgTime(Instant(PgTimeToTimestamp(t).value)) == t <==> IsInt64(t * 1000)
  {
    AlwaysNormalised(t);
  }

  /** The furthest from the epoch an instant can be and still be kept to the microsecond. */
  const REACH := 9_223_372_036_854_775_999

  /** In and back loses less than a microsecond, toward the epoch, exactly when the instant is within 292
      years of it; further out it becomes the end of that time. */
  lemma InAndBackExactlyWhen(instant: int)
    ensures
      var p := TimeToPgTime(instant);
      && IsInt64(p * 1000)
      && PgTimeToTimestamp(p).Some?
      && var back := Instant(PgTimeToTimestamp(p).value);
      && (-1000 < back - instant < 1000 <==> -REACH <= instant - EPOCH <= REACH)
      && (instant >= EPOCH ==> EPOCH <= back <= instant)
      && (instant <= EPOCH ==> instant <= back <= EPOCH)
  {
    AlwaysNormalised(TimeToPgTime(instant));
  }
}
