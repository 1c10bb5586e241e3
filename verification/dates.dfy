/** Calendar dates and the day arithmetic the views do with JavaScript `Date`.
    A date string `YYYY-MM-DD` parses to midnight UTC of that day, and
    `getTime()` counts milliseconds since 1970-01-01; both are modelled in
    whole numbers here, with all times in UTC. */
module Dates {

  /** A calendar date in the proleptic Gregorian calendar; `month` is 1-based. */
  datatype Date = Date(year: int, month: int, day: int)

  function DaysInMonth(year: int, month: int): int
  {
    if month == 2 then (if IsLeapYear(year) then 29 else 28)
    else if month == 4 || month == 6 || month == 9 || month == 11 then 30
    else 31
  }

  predicate IsLeapYear(year: int)
  {
    year % 4 == 0 && (year % 100 != 0 || year % 400 == 0)
  }

  predicate ValidDate(d: Date)
  {
    1 <= d.month <= 12 && 1 <= d.day <= DaysInMonth(d.year, d.month)
  }

  /** Days from 1970-01-01 to `d` (negative before it). Years are counted
      from March so that the leap day is the last day of a counted year. */
  function DayNumber(d: Date): int
  {
    var marchYear := if d.month <= 2 then d.year - 1 else d.year;
    var monthFromMarch := if d.month > 2 then d.month - 3 else d.month + 9;
    MarchYearStart(marchYear) + (153 * monthFromMarch + 2) / 5 + d.day - 1
  }

  /** Day number of March 1st of `y`; 400 Gregorian years are exactly 146097
      days. */
  function MarchYearStart(y: int): int
  {
    var era := y / 400;
    var yearOfEra := y - era * 400;
    era * 146097 + yearOfEra * 365 + yearOfEra / 4 - yearOfEra / 100 - 719468
  }

  /** The year from March 1st of `y` holds the February of `y + 1`, so it
      has 366 days exactly when `y + 1` is a leap year. */
  lemma MarchYearLength(y: int)
    ensures MarchYearStart(y + 1) - MarchYearStart(y) == if IsLeapYear(y + 1) then 366 else 365
  {
    var era := y / 400;
    var yoe := y - era * 400;
    DivMod(y, 400, era, yoe);
    if yoe == 399 {
      DivMod(y + 1, 400, era + 1, 0);
    } else {
      DivMod(y + 1, 400, era, yoe + 1);
      DivMod(yoe, 4, yoe / 4, yoe % 4);
      DivMod(y + 1, 4, era * 100 + (yoe + 1) / 4, (yoe + 1) % 4);
      DivMod(y + 1, 100, era * 4 + (yoe + 1) / 100, (yoe + 1) % 100);
      Successor(yoe, 4);
      Successor(yoe, 100);
    }
  }

  /** Euclidean division is determined by its defining equation. */
  lemma DivMod(a: int, b: int, q: int, r: int)
    requires b > 0 && 0 <= r < b && a == q * b + r
    ensures a / b == q && a % b == r
  {
    var q', r' := a / b, a % b;
    assert (q - q') * b == r' - r;
    if q' < q {
      AtLeastOneMultiple(q - q', b);
    } else if q' > q {
      AtLeastOneMultiple(q' - q, b);
    }
  }

  lemma AtLeastOneMultiple(k: int, b: int)
    requires k >= 1 && b > 0
    ensures k * b >= b
  {
  }

  /** Stepping a non-negative number by one raises its quotient by one
      exactly when the step lands on a multiple of the divisor. */
  lemma Successor(x: int, b: int)
    requires x >= 0 && b > 0
    ensures (x + 1) / b == x / b + (if (x + 1) % b == 0 then 1 else 0)
  {
    var q, r := x / b, x % b;
    if r == b - 1 {
      DivMod(x + 1, b, q + 1, 0);
    } else {
      DivMod(x + 1, b, q, r + 1);
    }
  }

  /** The number of milliseconds in a day, the divisor of every day
      difference in the views. */
  const MsPerDay: int := 86400000

  /** A reading of the clock: the current date and the milliseconds elapsed
      since its midnight. */
  datatype Clock = Clock(date: Date, msOfDay: int)

  /** The current instant, as the views read it: a clock reading that lies
      inside its own day. */
  type Now = c: Clock | 0 <= c.msOfDay < MsPerDay witness Clock(Date(1970, 1, 1), 0)

  /** Milliseconds since the epoch at midnight UTC of `d`, which is where a
      date-only string is placed when parsed. */
  function DateMs(d: Date): int
  {
    DayNumber(d) * MsPerDay
  }

  /** Milliseconds since the epoch at the clock reading. */
  function NowMs(now: Now): int
  {
    DayNumber(now.date) * MsPerDay + now.msOfDay
  }

  /** The quotient `a / b` rounded up, for a positive integer divisor: the
      least integer whose multiple of `b` reaches `a`. */
  function CeilDiv(a: int, b: int): (r: int)
    requires b > 0
    ensures r * b >= a
    ensures (r - 1) * b < a
  {
    var q := (-a) / b;
    assert -a == q * b + (-a) % b;
    assert (-q) * b == -(q * b);
    -q
  }

  /** The day difference both the due-soon view and the warranty view use:
      the milliseconds from the clock reading to midnight of `d`, divided by
      the length of a day and rounded up. Whatever the time of day, it is
      the difference of calendar days: a date due today is 0 days away,
      tomorrow is 1, yesterday is -1. */
  function DaysUntil(d: Date, now: Now): (r: int)
    ensures r == DayNumber(d) - DayNumber(now.date)
  {
    CeilDiv(DateMs(d) - NowMs(now), MsPerDay)
  }

  /** A date-only instant lies strictly after the clock exactly when its day
      is a later day than the clock's. */
  lemma AfterNowIsLaterDay(d: Date, now: Now)
    ensures DateMs(d) > NowMs(now) <==> DayNumber(d) > DayNumber(now.date)
  {
  }

  /** The calendar day after `d`. */
  function NextDate(d: Date): Date
  {
    if d.day < DaysInMonth(d.year, d.month) then Date(d.year, d.month, d.day + 1)
    else if d.month < 12 then Date(d.year, d.month + 1, 1)
    else Date(d.year + 1, 1, 1)
  }

  /** The day after a valid date is valid and has the next day number: the
      numbering has no gaps or repeats, within a month, across month ends
      (leap years included) and across the year end. */
  lemma DayNumberNextDate(d: Date)
    requires ValidDate(d)
    ensures ValidDate(NextDate(d))
    ensures DayNumber(NextDate(d)) == DayNumber(d) + 1
  {
    if d.day == DaysInMonth(d.year, d.month) && d.month == 2 {
      MarchYearLength(d.year - 1);
    }
  }
}
