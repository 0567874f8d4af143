/**
 * The part of Python's `datetime` the session recorder relies on: naive
 * date-times, subtraction (through the proleptic Gregorian ordinal that
 * CPython's `datetime` module uses), and `strftime("%Y%m%d_%H%M%S")`.
 * The clock itself (`datetime.now()`) is not modelled: callers pass the
 * current time in.
 */
module Clock {
  import opened Wrappers
  import opened Text

  datatype Civil = Civil(year: nat, month: nat, day: nat,
                         hour: nat, minute: nat, second: nat, microsecond: nat)
  {
    /** The ranges a `datetime` object enforces on construction. */
    predicate Valid() {
      && 1 <= year <= 9999
      && 1 <= month <= 12
      && 1 <= day <= DaysInMonth(year, month)
      && hour < 24 && minute < 60 && second < 60 && microsecond < 1000000
    }
  }

  /** A naive `datetime` value. */
  type DateTime = t: Civil | t.Valid() witness Civil(1, 1, 1, 0, 0, 0, 0)

  const MICROS_PER_DAY := 86_400_000_000

  predicate IsLeap(year: nat) {
    year % 4 == 0 && (year % 100 != 0 || year % 400 == 0)
  }

  function DaysInYear(year: nat): nat {
    if IsLeap(year) then 366 else 365
  }

  function DaysInMonth(year: nat, month: nat): nat
    requires 1 <= month <= 12
  {
    if month == 2 then (if IsLeap(year) then 29 else 28)
    else [31, 28, 31, 30, 31, 30, 31, 31, 30, 31, 30, 31][month - 1]
  }

  /** Days in the months of `year` before `month`. */
  function DaysBeforeMonth(year: nat, month: nat): nat
    requires 1 <= month <= 12
  {
    [0, 31, 59, 90, 120, 151, 181, 212, 243, 273, 304, 334][month - 1]
    + (if month > 2 && IsLeap(year) then 1 else 0)
  }

  /** Days in the years before `year`, counted from 1 January of year 1. */
  function DaysBeforeYear(year: nat): nat
    requires year >= 1
  {
    var y := year - 1;
    y * 365 + y / 4 - y / 100 + y / 400
  }

  /** The proleptic Gregorian ordinal of the date: 1 January of year 1 is day 1. */
  function Ordinal(t: DateTime): nat {
    DaysBeforeYear(t.year) + DaysBeforeMonth(t.year, t.month) + t.day
  }

  function TimeOfDayMicros(t: DateTime): nat {
    ((t.hour * 60 + t.minute) * 60 + t.second) * 1_000_000 + t.microsecond
  }

  /** Microseconds since midnight before 1 January of year 1. */
  function Micros(t: DateTime): nat {
    Ordinal(t) * MICROS_PER_DAY + TimeOfDayMicros(t)
  }

  /**
   * `end - start` for two naive datetimes, as a number of microseconds.
   * Subtraction is faithful to chronology: the difference is positive
   * exactly when `start` is earlier, zero exactly when the two are the same
   * instant, and negative exactly when `end` is earlier.
   */
  function Duration(start: DateTime, end: DateTime): (micros: int)
    ensures micros > 0 <==> Earlier(start, end)
    ensures micros == 0 <==> start == end
    ensures micros < 0 <==> Earlier(end, start)
  {
    MicrosOrder(start, end);
    Micros(end) - Micros(start)
  }

  /** Chronological order: the fields compared from the year down to the microsecond. */
  predicate Earlier(a: DateTime, b: DateTime) {
    || a.year < b.year
    || (a.year == b.year && a.month < b.month)
    || (a.year == b.year && a.month == b.month && a.day < b.day)
    || (a.year == b.year && a.month == b.month && a.day == b.day && a.hour < b.hour)
    || (a.year == b.year && a.month == b.month && a.day == b.day && a.hour == b.hour
        && a.minute < b.minute)
    || (a.year == b.year && a.month == b.month && a.day == b.day && a.hour == b.hour
        && a.minute == b.minute && a.second < b.second)
    || (a.year == b.year && a.month == b.month && a.day == b.day && a.hour == b.hour
        && a.minute == b.minute && a.second == b.second && a.microsecond < b.microsecond)
  }

  // Calendar arithmetic

  lemma YearStep(year: nat)
    requires year >= 1
    ensures DaysBeforeYear(year + 1) == DaysBeforeYear(year) + DaysInYear(year)
  {
    var y := year - 1;
    LeapCountStep(y);
    MultiplesNest(year);
    var leapDays := (if year % 4 == 0 then 1 else 0) - (if year % 100 == 0 then 1 else 0)
                    + (if year % 400 == 0 then 1 else 0);
    assert leapDays == DaysInYear(year) - 365;
    assert DaysBeforeYear(year + 1) == y * 365 + 365 + y / 4 - y / 100 + y / 400 + leapDays;
  }

  /** A multiple of 400 is a multiple of 100, which is a multiple of 4. */
  lemma MultiplesNest(year: nat)
    ensures year % 400 == 0 ==> year % 100 == 0
    ensures year % 100 == 0 ==> year % 4 == 0
  {
    if year % 400 == 0 {
      var k := year / 400;
      assert year == 100 * (4 * k);
    }
    if year % 100 == 0 {
      var k := year / 100;
      assert year == 4 * (25 * k);
    }
  }

  /** Moving one year on adds one to each of the leap-rule counts exactly when the new year is a multiple. */
  lemma LeapCountStep(y: nat)
    ensures (y + 1) / 4 == y / 4 + (if (y + 1) % 4 == 0 then 1 else 0)
    ensures (y + 1) / 100 == y / 100 + (if (y + 1) % 100 == 0 then 1 else 0)
    ensures (y + 1) / 400 == y / 400 + (if (y + 1) % 400 == 0 then 1 else 0)
  {
  }

  /** Every day of an earlier year comes before the first day of a later year. */
  lemma {:induction false} YearsInOrder(y1: nat, y2: nat)
    requires 1 <= y1 < y2
    ensures DaysBeforeYear(y1) + DaysInYear(y1) <= DaysBeforeYear(y2)
    decreases y2 - y1
  {
    YearStep(y1);
    if y1 + 1 < y2 {
      YearsInOrder(y1 + 1, y2);
    }
  }

  /** Every day of an earlier month comes before the first day of a later month of the same year. */
  lemma MonthsInOrder(year: nat, m1: nat, m2: nat)
    requires 1 <= m1 < m2 <= 12
    ensures DaysBeforeMonth(year, m1) + DaysInMonth(year, m1) <= DaysBeforeMonth(year, m2)
  {
  }

  lemma MonthsFitYear(year: nat, month: nat)
    requires 1 <= month <= 12
    ensures DaysBeforeMonth(year, month) + DaysInMonth(year, month) <= DaysInYear(year)
  {
  }

  /** A strictly earlier calendar date has a strictly smaller ordinal. */
  lemma OrdinalInOrder(a: DateTime, b: DateTime)
    requires || a.year < b.year
             || (a.year == b.year && a.month < b.month)
             || (a.year == b.year && a.month == b.month && a.day < b.day)
    ensures Ordinal(a) < Ordinal(b)
  {
    if a.year < b.year {
      MonthsFitYear(a.year, a.month);
      YearsInOrder(a.year, b.year);
    } else if a.month < b.month {
      MonthsInOrder(a.year, a.month, b.month);
    }
  }

  lemma TimeOfDayBelowOneDay(t: DateTime)
    ensures TimeOfDayMicros(t) < MICROS_PER_DAY
  {
    assert t.hour * 60 + t.minute <= 1439;
    assert (t.hour * 60 + t.minute) * 60 + t.second <= 86399;
  }

  lemma TimeOfDayInOrder(a: DateTime, b: DateTime)
    requires || a.hour < b.hour
             || (a.hour == b.hour && a.minute < b.minute)
             || (a.hour == b.hour && a.minute == b.minute && a.second < b.second)
             || (a.hour == b.hour && a.minute == b.minute && a.second == b.second
                 && a.microsecond < b.microsecond)
    ensures TimeOfDayMicros(a) < TimeOfDayMicros(b)
  {
    var ma, mb := a.hour * 60 + a.minute, b.hour * 60 + b.minute;
    assert ma <= mb;
    var sa, sb := ma * 60 + a.second, mb * 60 + b.second;
    assert sa <= sb;
    if sa == sb {
      assert a.microsecond < b.microsecond;
    } else {
      assert sa + 1 <= sb;
      assert sa * 1_000_000 + 1_000_000 <= sb * 1_000_000;
    }
  }

  /** The microsecond count is strictly increasing in chronological order. */
  lemma MicrosInOrder(a: DateTime, b: DateTime)
    requires Earlier(a, b)
    ensures Micros(a) < Micros(b)
  {
    if a.year == b.year && a.month == b.month && a.day == b.day {
      TimeOfDayInOrder(a, b);
    } else {
      OrdinalInOrder(a, b);
      TimeOfDayBelowOneDay(a);
      assert Ordinal(a) * MICROS_PER_DAY + MICROS_PER_DAY <= Ordinal(b) * MICROS_PER_DAY;
    }
  }

  /** Two date-times are ordered by their microsecond counts as they are in time. */
  lemma MicrosOrder(a: DateTime, b: DateTime)
    ensures Micros(a) < Micros(b) <==> Earlier(a, b)
    ensures Micros(a) == Micros(b) <==> a == b
    ensures Micros(b) < Micros(a) <==> Earlier(b, a)
  {
    if Earlier(a, b) {
      MicrosInOrder(a, b);
    } else if Earlier(b, a) {
      MicrosInOrder(b, a);
    } else {
      assert a == b;
    }
  }

  // strftime("%Y%m%d_%H%M%S")

  /** `t.strftime("%Y%m%d_%H%M%S")`: fifteen characters, digits around one underscore. */
  function Stamp(t: DateTime): (s: string)
    ensures |s| == 15
  {
    Digits(t.year, 4) + Digits(t.month, 2) + Digits(t.day, 2) + "_"
    + Digits(t.hour, 2) + Digits(t.minute, 2) + Digits(t.second, 2)
  }

  /** Reads a `%Y%m%d_%H%M%S` stamp back into a date-time with no microseconds. */
  function ParseStamp(s: string): Option<Civil> {
    if |s| == 15 && s[8] == '_' then
      Some(Civil(DecimalValue(s[0..4]), DecimalValue(s[4..6]), DecimalValue(s[6..8]),
                 DecimalValue(s[9..11]), DecimalValue(s[11..13]), DecimalValue(s[13..15]), 0))
    else
      None
  }

  /** A stamp determines the date-time it was written from, down to the second. */
  lemma StampRoundTrip(t: DateTime)
    ensures ParseStamp(Stamp(t)) == Some(t.(microsecond := 0))
  {
    var s := Stamp(t);
    var y, mo, d := Digits(t.year, 4), Digits(t.month, 2), Digits(t.day, 2);
    var h, mi, se := Digits(t.hour, 2), Digits(t.minute, 2), Digits(t.second, 2);
    assert s == y + mo + d + "_" + h + mi + se;
    assert s[0..4] == y && s[4..6] == mo && s[6..8] == d && s[8] == '_';
    assert s[9..11] == h && s[11..13] == mi && s[13..15] == se;
    assert Pow10(2) == 100;
    assert Pow10(4) == 10000;
    DecimalRoundTrip(t.year, 4);
    DecimalRoundTrip(t.month, 2);
    DecimalRoundTrip(t.day, 2);
    DecimalRoundTrip(t.hour, 2);
    DecimalRoundTrip(t.minute, 2);
    DecimalRoundTrip(t.second, 2);
  }
}
