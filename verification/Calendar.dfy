/** The proleptic Gregorian calendar of Python's `datetime`: civil fields and the microsecond
    count they stand for, each computed from the other.

    Days are counted from the first of January of year 1 up to the last of December 9999, and the
    time of day in microseconds, with no leap seconds, as `datetime` does. `CivilAt` searches the year
    and then the month that hold a day; its contract says that the fields it finds stand for the
    instant it was given, and `CivilAtMicros` that a valid reading comes back from its own instant.
    The lengths of months and years, and the day that follows each day, are stated in figures, and the
    first of January 1970 is anchored as a day number. */
module Calendar {
  const MICROS_PER_SECOND := 1_000_000
  const MICROS_PER_MINUTE := 60_000_000
  const MICROS_PER_DAY := 86_400_000_000
  const MAX_YEAR := 9999

  datatype Civil = Civil(year: nat, month: nat, day: nat, hour: nat, minute: nat, second: nat, micro: nat)

  predicate IsLeap(year: nat) {
    year % 4 == 0 && (year % 100 != 0 || year % 400 == 0)
  }

  function DaysInMonth(leap: bool, month: nat): (d: nat)
    requires 1 <= month <= 12
    ensures 28 <= d <= 31
  {
    if month == 2 then (if leap then 29 else 28)
    else if month in {4, 6, 9, 11} then 30 else 31
  }

  /** Days in all the years before `year`. */
  function DaysBeforeYear(year: nat): nat
    requires year >= 1
  {
    var y := year - 1;
    365 * y + y / 4 - y / 100 + y / 400
  }

  /** Days in the months before `month`; month 13 gives the length of the year. */
  function DaysBeforeMonth(leap: bool, month: nat): nat
    requires 1 <= month <= 13
  {
    if month == 1 then 0 else DaysBeforeMonth(leap, month - 1) + DaysInMonth(leap, month - 1)
  }

  predicate ValidCivil(c: Civil) {
    && 1 <= c.year <= MAX_YEAR && 1 <= c.month <= 12
    && 1 <= c.day <= DaysInMonth(IsLeap(c.year), c.month)
    && c.hour < 24 && c.minute < 60 && c.second < 60 && c.micro < MICROS_PER_SECOND
  }

  function DayNumber(c: Civil): nat
    requires ValidCivil(c)
  {
    DaysBeforeYear(c.year) + DaysBeforeMonth(IsLeap(c.year), c.month) + c.day - 1
  }

  function TimeOfDay(c: Civil): nat {
    ((c.hour * 60 + c.minute) * 60 + c.second) * MICROS_PER_SECOND + c.micro
  }

  /** Microseconds since the start of year 1. */
  function Micros(c: Civil): nat
    requires ValidCivil(c)
  {
    DayNumber(c) * MICROS_PER_DAY + TimeOfDay(c)
  }

  /** The instants a `datetime` can hold: year 1 up to the end of year 9999. */
  predicate InRange(t: int) {
    0 <= t < DaysBeforeYear(MAX_YEAR + 1) * MICROS_PER_DAY
  }

  lemma MonthTable(leap: bool)
    ensures DaysBeforeMonth(leap, 13) == if leap then 366 else 365
  {
    var extra := if leap then 1 else 0;
    assert DaysBeforeMonth(leap, 2) == 31;
    assert DaysBeforeMonth(leap, 3) == 59 + extra;
    assert DaysBeforeMonth(leap, 5) == 120 + extra;
    assert DaysBeforeMonth(leap, 7) == 181 + extra;
    assert DaysBeforeMonth(leap, 9) == 243 + extra;
    assert DaysBeforeMonth(leap, 11) == 304 + extra;
  }

  lemma Hundreds(n: nat, k: nat)
    requires n == 100 * k
    ensures n % 100 == 0
  {
  }

  lemma YearLength(year: nat)
    requires year >= 1
    ensures DaysBeforeYear(year + 1) == DaysBeforeYear(year) + (if IsLeap(year) then 366 else 365)
    ensures DaysBeforeYear(year + 1) == DaysBeforeYear(year) + DaysBeforeMonth(IsLeap(year), 13)
  {
    var y := year - 1;
    assert year / 4 == y / 4 + (if year % 4 == 0 then 1 else 0);
    assert year / 100 == y / 100 + (if year % 100 == 0 then 1 else 0);
    assert year / 400 == y / 400 + (if year % 400 == 0 then 1 else 0);
    MonthTable(IsLeap(year));
  }

  /** The calendar, day by day: day 0 is the first of January of year 1, and each day of a month, month of
      a year and year is followed by the next, with the Gregorian leap rule. */
  lemma DaysFollow(c: Civil)
    requires ValidCivil(c)
    ensures var leap := c.year % 4 == 0 && (c.year % 100 != 0 || c.year % 400 == 0);
            var days := if c.month in {4, 6, 9, 11} then 30 else if c.month == 2 then (if leap then 29 else 28) else 31;
            && c.day <= days
            && (c.day < days ==> DayNumber(c.(day := c.day + 1)) == DayNumber(c) + 1)
            && (c.day == days && c.month < 12 ==> DayNumber(c.(day := 1, month := c.month + 1)) == DayNumber(c) + 1)
            && (c.month == 12 && c.day == days && c.year < 9999 ==>
                  DayNumber(c.(day := 1, month := 1, year := c.year + 1)) == DayNumber(c) + 1)
    ensures c.year == 1 && c.month == 1 && c.day == 1 ==> DayNumber(c) == 0
  {
    YearLength(c.year);
  }

  /** The time of day counts hours, minutes, seconds and microseconds of a day of 86400 seconds. */
  lemma InstantCounts(c: Civil)
    requires ValidCivil(c)
    ensures Micros(c) == DayNumber(c) * 86_400_000_000
                         + c.hour * 3_600_000_000 + c.minute * 60_000_000 + c.second * 1_000_000 + c.micro
  {
  }

  /** The first of January 1970. */
  lemma EpochDay(c: Civil)
    requires ValidCivil(c) && c.year == 1970 && c.month == 1 && c.day == 1
    ensures DayNumber(c) == 719_162
  {
  }

  /** The year that holds a day, searched upwards from a year that starts no later. */
  function YearOf(day: nat, from: nat): (y: nat)
    requires 1 <= from <= MAX_YEAR
    requires DaysBeforeYear(from) <= day < DaysBeforeYear(MAX_YEAR + 1)
    ensures 1 <= y <= MAX_YEAR
    ensures DaysBeforeYear(y) <= day < DaysBeforeYear(y + 1)
    decreases MAX_YEAR - from
  {
    if day < DaysBeforeYear(from + 1) then from else YearOf(day, from + 1)
  }

  /** The month that holds the given zero-based day of the year. */
  function MonthOf(leap: bool, dayOfYear: nat, from: nat): (m: nat)
    requires 1 <= from <= 12
    requires DaysBeforeMonth(leap, from) <= dayOfYear < DaysBeforeMonth(leap, 13)
    ensures 1 <= m <= 12
    ensures DaysBeforeMonth(leap, m) <= dayOfYear < DaysBeforeMonth(leap, m + 1)
    decreases 12 - from
  {
    if dayOfYear < DaysBeforeMonth(leap, from + 1) then from else MonthOf(leap, dayOfYear, from + 1)
  }

  lemma TimeOfDaySplits(rest: nat)
    ensures ((rest / 3_600_000_000 * 60 + rest / MICROS_PER_MINUTE % 60) * 60
             + rest / MICROS_PER_SECOND % 60) * MICROS_PER_SECOND + rest % MICROS_PER_SECOND == rest
  {
    var s := rest / MICROS_PER_SECOND;
    assert rest / MICROS_PER_MINUTE == s / 60;
    assert rest / 3_600_000_000 == s / 60 / 60;
  }

  /** The civil fields of an instant, which stand for that instant. */
  function CivilAt(t: nat): (c: Civil)
    requires InRange(t)
    ensures ValidCivil(c) && Micros(c) == t
  {
    var day := t / MICROS_PER_DAY;
    var rest := t % MICROS_PER_DAY;
    var year := YearOf(day, 1);
    YearLength(year);
    TimeOfDaySplits(rest);
    var inYear := day - DaysBeforeYear(year);
    var month := MonthOf(IsLeap(year), inYear, 1);
    Civil(year, month, inYear - DaysBeforeMonth(IsLeap(year), month) + 1,
          rest / 3_600_000_000, rest / MICROS_PER_MINUTE % 60, rest / MICROS_PER_SECOND % 60,
          rest % MICROS_PER_SECOND)
  }

  lemma {:induction false} MonthsIncrease(leap: bool, m: nat, n: nat)
    requires 1 <= m < n <= 13
    ensures DaysBeforeMonth(leap, m + 1) <= DaysBeforeMonth(leap, n)
  {
    if m + 1 < n {
      MonthsIncrease(leap, m, n - 1);
    }
  }

  lemma {:induction false} NextMultiple(d: nat, e: nat, base: nat)
    requires d < e
    ensures d * base + base <= e * base
    decreases e - d
  {
    assert (d + 1) * base == d * base + base;
    if d + 1 < e {
      NextMultiple(d + 1, e, base);
    }
  }

  /** Quotient and remainder are determined by the number they make up. */
  lemma SameParts(d: nat, t: nat, e: nat, u: nat, base: nat)
    requires t < base && u < base && d * base + t == e * base + u
    ensures d == e && t == u
  {
    if d < e {
      NextMultiple(d, e, base);
    } else if e < d {
      NextMultiple(e, d, base);
    }
  }

  lemma TimeOfDayBound(c: Civil)
    requires ValidCivil(c)
    ensures TimeOfDay(c) < MICROS_PER_DAY
  {
  }

  lemma TimeOfDayInjective(a: Civil, b: Civil)
    requires ValidCivil(a) && ValidCivil(b) && TimeOfDay(a) == TimeOfDay(b)
    ensures a.hour == b.hour && a.minute == b.minute && a.second == b.second && a.micro == b.micro
  {
    SameParts((a.hour * 60 + a.minute) * 60 + a.second, a.micro, (b.hour * 60 + b.minute) * 60 + b.second, b.micro, MICROS_PER_SECOND);
    SameParts(a.hour * 60 + a.minute, a.second, b.hour * 60 + b.minute, b.second, 60);
    SameParts(a.hour, a.minute, b.hour, b.minute, 60);
  }

  lemma DayWithinYear(c: Civil)
    requires ValidCivil(c)
    ensures DaysBeforeYear(c.year) <= DayNumber(c) < DaysBeforeYear(c.year + 1)
  {
    YearLength(c.year);
    if c.month < 12 {
      MonthsIncrease(IsLeap(c.year), c.month, 13);
    }
  }

  lemma YearsIncrease(a: nat, b: nat)
    requires 1 <= a < b
    ensures DaysBeforeYear(a + 1) <= DaysBeforeYear(b)
  {
  }

  lemma DayNumberInjective(a: Civil, b: Civil)
    requires ValidCivil(a) && ValidCivil(b)
    requires DayNumber(a) == DayNumber(b)
    ensures a.year == b.year && a.month == b.month && a.day == b.day
  {
    DayWithinYear(a);
    DayWithinYear(b);
    if a.year < b.year {
      YearsIncrease(a.year, b.year);
    } else if b.year < a.year {
      YearsIncrease(b.year, a.year);
    } else if a.month < b.month {
      MonthsIncrease(IsLeap(a.year), a.month, b.month);
    } else if b.month < a.month {
      MonthsIncrease(IsLeap(a.year), b.month, a.month);
    }
  }

  /** Two valid readings of the clock that stand for the same instant are the same reading. */
  lemma MicrosInjective(a: Civil, b: Civil)
    requires ValidCivil(a) && ValidCivil(b)
    requires Micros(a) == Micros(b)
    ensures a == b
  {
    TimeOfDayBound(a);
    TimeOfDayBound(b);
    SameParts(DayNumber(a), TimeOfDay(a), DayNumber(b), TimeOfDay(b), MICROS_PER_DAY);
    hide DayNumber, TimeOfDay;
    DayNumberInjective(a, b);
    TimeOfDayInjective(a, b);
  }

  /** A valid reading stands for an instant in range. */
  lemma MicrosInRange(c: Civil)
    requires ValidCivil(c)
    ensures InRange(Micros(c))
  {
    DayWithinYear(c);
    if c.year < MAX_YEAR {
      YearsIncrease(c.year, MAX_YEAR + 1);
    }
    TimeOfDayBound(c);
  }

  /** Reading the clock and counting microseconds undo each other, in this direction too. */
  lemma CivilAtMicros(c: Civil)
    requires ValidCivil(c)
    ensures InRange(Micros(c)) && CivilAt(Micros(c)) == c
  {
    MicrosInRange(c);
    MicrosInjective(CivilAt(Micros(c)), c);
  }
}
