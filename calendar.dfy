/**
 * The parts of JavaScript's local-time `Date` that the core reads: the year
 * (`getFullYear`), the weekday (`getDay`, 0 = Sunday), the hour (`getHours`)
 * and the milliseconds elapsed since local midnight on 1 January. An
 * `Instant` is a local wall-clock time given as a year and a millisecond
 * offset into that year; the proleptic Gregorian calendar fixes the weekday
 * of every 1 January. Time zones and daylight-saving shifts are not modelled.
 */
module Calendar {

  const MsPerMinute: nat := 60000
  const MsPerHour: nat := 3600000
  const MsPerDay: nat := 86400000
  const MsPerWeek: nat := 604800000

  predicate IsLeapYear(y: int) {
    y % 4 == 0 && (y % 100 != 0 || y % 400 == 0)
  }

  function DaysInYear(y: int): nat {
    if IsLeapYear(y) then 366 else 365
  }

  /** Number of leap years among 1, 2, ..., y - 1 (extended to all integers). */
  function LeapYearsBefore(y: int): int {
    (y - 1) / 4 - (y - 1) / 100 + (y - 1) / 400
  }

  /** Day number of 1 January of year `y`, counting 1 January 1970 as day 0. */
  function Jan1Day(y: int): int {
    365 * (y - 1970) + LeapYearsBefore(y) - LeapYearsBefore(1970)
  }

  /** Reducing the first summand modulo 7 does not change the sum modulo 7. */
  lemma Mod7Shift(a: int, b: int)
    ensures (a + b) % 7 == (a % 7 + b) % 7
  {
    var q := a / 7;
    assert a == 7 * q + a % 7;
    assert a + b == 7 * q + (a % 7 + b);
  }

  lemma Step4(y: int)
    ensures y / 4 - (y - 1) / 4 == if y % 4 == 0 then 1 else 0
  {
    var q := y / 4;
    assert y == 4 * q + y % 4;
    if y % 4 == 0 { assert y - 1 == 4 * (q - 1) + 3; } else { assert y - 1 == 4 * q + (y % 4 - 1); }
  }

  lemma Step100(y: int)
    ensures y / 100 - (y - 1) / 100 == if y % 100 == 0 then 1 else 0
  {
    var q := y / 100;
    assert y == 100 * q + y % 100;
    if y % 100 == 0 { assert y - 1 == 100 * (q - 1) + 99; } else { assert y - 1 == 100 * q + (y % 100 - 1); }
  }

  lemma Step400(y: int)
    ensures y / 400 - (y - 1) / 400 == if y % 400 == 0 then 1 else 0
  {
    var q := y / 400;
    assert y == 400 * q + y % 400;
    if y % 400 == 0 { assert y - 1 == 400 * (q - 1) + 399; } else { assert y - 1 == 400 * q + (y % 400 - 1); }
  }

  /** A year adds one leap year to the count exactly when it is a leap year itself. */
  lemma LeapStep(y: int)
    ensures LeapYearsBefore(y + 1) - LeapYearsBefore(y) == if IsLeapYear(y) then 1 else 0
  {
    assert LeapYearsBefore(y + 1) == y / 4 - y / 100 + y / 400;
    Step4(y);
    Step100(y);
    Step400(y);
    if y % 100 == 0 {
      Divides(4, 25, y);
    }
    if y % 400 == 0 {
      Divides(100, 4, y);
    }
  }

  /** A multiple of `a * b` is a multiple of `a`. */
  lemma Divides(a: int, b: int, y: int)
    requires a > 0 && b > 0 && y % (a * b) == 0
    ensures y % a == 0
  {
    var q := y / (a * b);
    assert y == (a * b) * q;
    assert y == a * (b * q);
  }

  /** Consecutive New Year's Days are one year length apart. */
  lemma Jan1DayStep(y: int)
    ensures Jan1Day(y + 1) == Jan1Day(y) + DaysInYear(y)
  {
    LeapStep(y);
  }

  /** Weekday of day number `d` (0 = Sunday); 1 January 1970 was a Thursday. */
  function WeekdayOfDay(d: int): (w: nat)
    ensures w < 7
  {
    (d + 4) % 7
  }

  /**
   * Consecutive days have consecutive weekdays, Sunday following Saturday,
   * and a week later the weekday is the same.
   */
  lemma WeekdayStep(d: int)
    ensures WeekdayOfDay(d + 1) == (WeekdayOfDay(d) + 1) % 7
    ensures WeekdayOfDay(d + 7) == WeekdayOfDay(d)
  {
    Mod7Shift(d + 4, 1);
    Mod7Shift(d + 4, 7);
  }

  /** Going back as many days as the weekday number lands on a Sunday. */
  lemma BackToSunday(d: int)
    ensures WeekdayOfDay(d - WeekdayOfDay(d)) == 0
  {
    var w: int := WeekdayOfDay(d);
    Mod7Shift(d + 4, -w);
    assert (d + 4) % 7 - w == 0;
    assert d - w + 4 == (d + 4) + -w;
  }

  function Jan1Weekday(y: int): (w: nat)
    ensures w < 7
  {
    WeekdayOfDay(Jan1Day(y))
  }

  /** A local wall-clock time: `msIntoYear` milliseconds after 1 January 00:00 of `year`. */
  datatype Instant = Instant(year: nat, msIntoYear: nat)

  predicate Valid(t: Instant) {
    t.msIntoYear < DaysInYear(t.year) * MsPerDay
  }

  /** Whole days elapsed since 1 January (0 on 1 January). */
  function DayOfYear(t: Instant): nat {
    t.msIntoYear / MsPerDay
  }

  /** The calendar date of `t` as a day number. */
  function Day(t: Instant): int {
    Jan1Day(t.year) + DayOfYear(t)
  }

  /** `getDay()`. */
  function Weekday(t: Instant): (w: nat)
    ensures w < 7
  {
    WeekdayOfDay(Day(t))
  }

  /** `getHours()`. */
  function Hours(t: Instant): (h: nat)
    ensures h < 24
  {
    (t.msIntoYear % MsPerDay) / MsPerHour
  }

  /** Milliseconds since local midnight of 1 January 1970. */
  function LocalMs(t: Instant): int {
    Jan1Day(t.year) * MsPerDay + t.msIntoYear
  }

  /** Time order of instants. */
  predicate AtOrBefore(a: Instant, b: Instant) {
    a.year < b.year || (a.year == b.year && a.msIntoYear <= b.msIntoYear)
  }

  /** The weekday advances by one with each day of the year. */
  lemma WeekdayInYear(t: Instant)
    ensures Weekday(t) == (Jan1Weekday(t.year) + DayOfYear(t)) % 7
  {
    Mod7Shift(Jan1Day(t.year) + 4, DayOfYear(t));
  }
}
