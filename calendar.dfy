/**
 * Local calendar time as the application uses it through JavaScript `Date`:
 * a timestamp is a whole number of milliseconds in local time, day number 0 is
 * 1 January 1970, and `getDay()` numbers the weekdays from Sunday = 0.
 * Time zones and daylight-saving shifts are not part of this model.
 */
module Calendar {

  const MsPerDay: int := 86400000

  /** A calendar date as picked in a date field or read from `Date`. */
  datatype Date = Date(year: int, month: int, day: int)

  /** The current local time: a date and the milliseconds elapsed since its midnight. */
  datatype LocalDateTime = LocalDateTime(date: Date, msOfDay: int)

  predicate IsLeapYear(y: int) {
    y % 4 == 0 && (y % 100 != 0 || y % 400 == 0)
  }

  function DaysInMonth(y: int, m: int): (n: int)
    requires 1 <= m <= 12
    ensures 28 <= n <= 31
  {
    if m == 2 then (if IsLeapYear(y) then 29 else 28)
    else if m == 4 || m == 6 || m == 9 || m == 11 then 30
    else 31
  }

  predicate ValidDate(d: Date) {
    1 <= d.month <= 12 && 1 <= d.day <= DaysInMonth(d.year, d.month)
  }

  predicate ValidDateTime(t: LocalDateTime) {
    ValidDate(t.date) && 0 <= t.msOfDay < MsPerDay
  }

  /**
   * The day number of year `y`, month `m`, day `d` in the proleptic Gregorian
   * calendar. Like `new Date(y, m - 1, d)`, a day outside the month rolls over
   * into the neighbouring months, which is what `setDate` relies on.
   */
  function DaysFromCivil(y: int, m: int, d: int): int
    requires 1 <= m <= 12
  {
    var y' := if m <= 2 then y - 1 else y;
    var mp := if m > 2 then m - 3 else m + 9;
    MarchDays(y') + MonthStartDays(mp) + d - 1 - 719468
  }

  /**
   * The days from 1 March of year 0 to 1 March of year `y`: the years are
   * counted from March so that the leap day ends a year.
   */
  function MarchDays(y: int): int {
    365 * y + y / 4 - y / 100 + y / 400
  }

  /** The days from 1 March to the first day of month `mp` (0 for March, 11 for February). */
  function MonthStartDays(mp: int): int {
    (153 * mp + 2) / 5
  }

  function DayNumber(d: Date): int
    requires 1 <= d.month <= 12
  {
    DaysFromCivil(d.year, d.month, d.day)
  }

  /** `getDay()` of a day number: 0 for Sunday up to 6 for Saturday. */
  function Weekday(day: int): (w: int)
    ensures 0 <= w < 7
  {
    (day + 4) % 7
  }

  /** The local timestamp of a date and time of day. */
  function Timestamp(t: LocalDateTime): int
    requires 1 <= t.date.month <= 12
  {
    DayNumber(t.date) * MsPerDay + t.msOfDay
  }

  /** The day a timestamp falls on. */
  function DayOf(ts: int): int {
    ts / MsPerDay
  }

  /** Local midnight of a day. */
  function StartOfDay(day: int): (ts: int)
    ensures DayOf(ts) == day && ts % MsPerDay == 0
  {
    day * MsPerDay
  }

  /** Day numbers agree with the epoch: 1 January 1970 is day 0, a Thursday. */
  lemma EpochIsThursday()
    ensures DaysFromCivil(1970, 1, 1) == 0 && Weekday(0) == 4
  {
  }

  /** A valid date-time falls on its own day, after its midnight. */
  lemma TimestampDay(t: LocalDateTime)
    requires ValidDateTime(t)
    ensures DayOf(Timestamp(t)) == DayNumber(t.date)
    ensures StartOfDay(DayNumber(t.date)) <= Timestamp(t) < StartOfDay(DayNumber(t.date)) + MsPerDay
  {
  }

  /** Counting back from a day by its weekday lands on a Sunday. */
  lemma WeekdayOfWeekStart(day: int)
    ensures Weekday(day - Weekday(day)) == 0
  {
  }

  /** Within one month's formula the day argument counts days one for one. */
  lemma DaysFromCivilShift(y: int, m: int, d: int, k: int)
    requires 1 <= m <= 12
    ensures DaysFromCivil(y, m, d - k) == DaysFromCivil(y, m, d) - k
  {
  }

  /** The year from 1 March of `y - 1` to 1 March of `y` has 366 days when `y` is a leap year, 365 otherwise. */
  lemma MarchYearLength(y: int)
    ensures MarchDays(y) - MarchDays(y - 1) == if IsLeapYear(y) then 366 else 365
  {
    QuotientStep(y, 4);
    QuotientStep(y, 100);
    QuotientStep(y, 400);
    DivisorsNest(y);
  }

  /** A multiple of 400 is a multiple of 100, and a multiple of 100 is a multiple of 4. */
  lemma DivisorsNest(y: int)
    ensures y % 400 == 0 ==> y % 100 == 0
    ensures y % 100 == 0 ==> y % 4 == 0
  {
    if y % 400 == 0 {
      var q := y / 400;
      assert y == 100 * (4 * q);
    }
    if y % 100 == 0 {
      var q := y / 100;
      assert y == 4 * (25 * q);
    }
  }

  /** Going back one from `y`, the quotient by a leap-year divisor drops by one exactly when it divides `y`. */
  lemma QuotientStep(y: int, k: int)
    requires k == 4 || k == 100 || k == 400
    ensures y / k - (y - 1) / k == if y % k == 0 then 1 else 0
  {
    if k == 4 {
      assert y / 4 - (y - 1) / 4 == if y % 4 == 0 then 1 else 0;
    } else if k == 100 {
      assert y / 100 - (y - 1) / 100 == if y % 100 == 0 then 1 else 0;
    } else {
      assert y / 400 - (y - 1) / 400 == if y % 400 == 0 then 1 else 0;
    }
  }

  /** The first days of the months counted from 1 March. */
  lemma MonthOffset(mp: int)
    requires 0 <= mp < 12
    ensures MonthStartDays(mp) == [0, 31, 61, 92, 122, 153, 184, 214, 245, 275, 306, 337][mp]
  {
  }

  /**
   * The day numbers of consecutive months join up without gap or overlap: the
   * day after the last day of a month is the first day of the next one.
   */
  lemma MonthsAreContiguous(y: int, m: int)
    requires 1 <= m <= 12
    ensures DaysFromCivil(y, m, DaysInMonth(y, m) + 1)
         == if m == 12 then DaysFromCivil(y + 1, 1, 1) else DaysFromCivil(y, m + 1, 1)
  {
    var mp := if m > 2 then m - 3 else m + 9;
    MonthOffset(mp);
    MonthOffset(if mp == 11 then 0 else mp + 1);
    if m == 2 {
      MarchYearLength(y);
    }
  }
}
