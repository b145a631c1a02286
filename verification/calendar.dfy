/**
 * The proleptic Gregorian calendar as Python's `datetime` counts it: dates from
 * 0001-01-01 to 9999-12-31, numbered by an ordinal that is 1 on 0001-01-01.
 * Subtracting `timedelta(weeks=2)` from a datetime moves its date to the date
 * whose ordinal is 14 smaller, and fails when that ordinal would not be positive.
 */
module Calendar {
  import opened Wrappers

  datatype Date = Date(year: int, month: int, day: int)

  /** The length of the look-back window, `timedelta(weeks=2)`, in days. */
  const LookbackDays := 14

  predicate IsLeapYear(y: int) {
    y % 4 == 0 && (y % 100 != 0 || y % 400 == 0)
  }

  function DaysInMonth(y: int, m: int): (n: int)
    requires 1 <= m <= 12
    ensures 28 <= n <= 31
    ensures n == 29 <==> m == 2 && IsLeapYear(y)
  {
    if m == 2 then (if IsLeapYear(y) then 29 else 28)
    else if m == 4 || m == 6 || m == 9 || m == 11 then 30
    else 31
  }

  function DaysInYear(y: int): int {
    if IsLeapYear(y) then 366 else 365
  }

  /** A date Python's `date` constructor accepts. */
  predicate ValidDate(d: Date) {
    && 1 <= d.year <= 9999
    && 1 <= d.month <= 12
    && 1 <= d.day <= DaysInMonth(d.year, d.month)
  }

  /** Days in the years before `y` (Python's `_days_before_year`). */
  function DaysBeforeYear(y: int): int
    requires y >= 1
  {
    var n := y - 1;
    n * 365 + n / 4 - n / 100 + n / 400
  }

  /** Days in the months of year `y` before month `m` (Python's `_days_before_month`). */
  function DaysBeforeMonth(y: int, m: int): int
    requires 1 <= m <= 12
  {
    var common :=
      if m == 1 then 0 else if m == 2 then 31 else if m == 3 then 59
      else if m == 4 then 90 else if m == 5 then 120 else if m == 6 then 151
      else if m == 7 then 181 else if m == 8 then 212 else if m == 9 then 243
      else if m == 10 then 273 else if m == 11 then 304 else 334;
    common + (if m > 2 && IsLeapYear(y) then 1 else 0)
  }

  /** The day number of a date, 1 for 0001-01-01 (Python's `date.toordinal`). */
  function Ordinal(d: Date): int
    requires ValidDate(d)
  {
    DaysBeforeYear(d.year) + DaysBeforeMonth(d.year, d.month) + d.day
  }

  /** Consecutive months of one year: month `m + 1` starts where month `m` ends. */
  lemma MonthStep(y: int, m: int)
    requires 1 <= m <= 11
    ensures DaysBeforeMonth(y, m + 1) == DaysBeforeMonth(y, m) + DaysInMonth(y, m)
  {
  }

  /** December ends the year. */
  lemma DecemberEndsYear(y: int)
    ensures DaysBeforeMonth(y, 12) + DaysInMonth(y, 12) == DaysInYear(y)
  {
  }

  /** Counting multiples of `k` up to `n` and up to `n - 1` differs exactly when `k` divides `n`. */
  lemma MultiplesStep(n: int, k: int)
    requires n >= 1 && (k == 4 || k == 100 || k == 400)
    ensures n / k - (n - 1) / k == if n % k == 0 then 1 else 0
  {
    var q, r := n / k, n % k;
    assert n == k * q + r && 0 <= r < k;
    if r == 0 {
      assert n - 1 == k * (q - 1) + (k - 1);
    } else {
      assert n - 1 == k * q + (r - 1);
    }
  }

  /** The three divisibility corrections of `DaysBeforeYear` add up to one day exactly in leap years. */
  lemma LeapCorrection(n: int)
    ensures (if n % 4 == 0 then 1 else 0) - (if n % 100 == 0 then 1 else 0) + (if n % 400 == 0 then 1 else 0)
         == (if IsLeapYear(n) then 1 else 0)
  {
    if n % 400 == 0 {
      var q := n / 400;
      assert n == 100 * (4 * q);
      assert n == 4 * (100 * q);
    } else if n % 100 == 0 {
      var q := n / 100;
      assert n == 4 * (25 * q);
    }
  }

  /** Consecutive years: year `y` starts where year `y - 1` ends. */
  lemma YearStep(y: int)
    requires y >= 2
    ensures DaysBeforeYear(y) == DaysBeforeYear(y - 1) + DaysInYear(y - 1)
  {
    var n := y - 1;
    MultiplesStep(n, 4);
    MultiplesStep(n, 100);
    MultiplesStep(n, 400);
    LeapCorrection(n);
  }

  /** A year occupies the ordinals after the days before it and up to the days before the next. */
  lemma {:induction false} YearsAreOrdered(y1: int, y2: int)
    requires 1 <= y1 < y2
    ensures DaysBeforeYear(y1) + DaysInYear(y1) <= DaysBeforeYear(y2)
    decreases y2 - y1
  {
    YearStep(y1 + 1);
    if y1 + 1 < y2 {
      YearsAreOrdered(y1 + 1, y2);
    }
  }

  /** Months of one year are ordered like years are. */
  lemma {:induction false} MonthsAreOrdered(y: int, m1: int, m2: int)
    requires 1 <= m1 < m2 <= 12
    ensures DaysBeforeMonth(y, m1) + DaysInMonth(y, m1) <= DaysBeforeMonth(y, m2)
    decreases m2 - m1
  {
    MonthStep(y, m1);
    if m1 + 1 < m2 {
      MonthsAreOrdered(y, m1 + 1, m2);
    }
  }

  /** The ordinal of a date lies inside the ordinals of its year. */
  lemma OrdinalWithinYear(d: Date)
    requires ValidDate(d)
    ensures DaysBeforeYear(d.year) < Ordinal(d) <= DaysBeforeYear(d.year) + DaysInYear(d.year)
  {
    if d.month < 12 {
      MonthsAreOrdered(d.year, d.month, 12);
    }
    DecemberEndsYear(d.year);
  }

  /** Distinct valid dates have distinct ordinals, so a date is determined by its ordinal. */
  lemma OrdinalInjective(a: Date, b: Date)
    requires ValidDate(a) && ValidDate(b)
    requires Ordinal(a) == Ordinal(b)
    ensures a == b
  {
    OrdinalWithinYear(a);
    OrdinalWithinYear(b);
    if a.year < b.year {
      YearsAreOrdered(a.year, b.year);
    } else if b.year < a.year {
      YearsAreOrdered(b.year, a.year);
    }
    assert a.year == b.year;
    if a.month < b.month {
      MonthsAreOrdered(a.year, a.month, b.month);
    } else if b.month < a.month {
      MonthsAreOrdered(a.year, b.month, a.month);
    }
  }

  /** `DaysBeforeYear` never goes below zero. */
  lemma DaysBeforeYearNonNegative(y: int)
    requires y >= 1
    ensures DaysBeforeYear(y) >= 0
    ensures y >= 2 ==> DaysBeforeYear(y) >= 365
  {
    if y >= 2 {
      YearStep(y);
      if y > 2 {
        DaysBeforeYearNonNegative(y - 1);
      }
    }
  }

  /**
   * The date two weeks before `d`, as `d - timedelta(weeks=2)` computes it on the
   * date part of a datetime: `None` when the result would fall before 0001-01-01
   * (Python raises OverflowError there).
   */
  function TwoWeeksEarlier(d: Date): (r: Option<Date>)
    requires ValidDate(d)
    ensures r.Some? <==> Ordinal(d) > LookbackDays
    ensures r.Some? ==> ValidDate(r.value) && Ordinal(r.value) == Ordinal(d) - LookbackDays
  {
    DaysBeforeYearNonNegative(d.year);
    if d.day > LookbackDays then
      Some(Date(d.year, d.month, d.day - LookbackDays))
    else if d.month > 1 then
      MonthStep(d.year, d.month - 1);
      Some(Date(d.year, d.month - 1, d.day + DaysInMonth(d.year, d.month - 1) - LookbackDays))
    else if d.year > 1 then
      YearStep(d.year);
      DecemberEndsYear(d.year - 1);
      Some(Date(d.year - 1, 12, d.day + 31 - LookbackDays))
    else
      None
  }

  /** The date `TwoWeeksEarlier` returns is the only valid date 14 days before `d`. */
  lemma TwoWeeksEarlierIsUnique(d: Date, e: Date)
    requires ValidDate(d) && ValidDate(e)
    requires Ordinal(e) == Ordinal(d) - LookbackDays
    ensures TwoWeeksEarlier(d) == Some(e)
  {
    OrdinalInjective(TwoWeeksEarlier(d).value, e);
  }

  /** Fourteen days back across the ends of months and years, in leap, common and century years. */
  lemma RolloverExamples()
    ensures TwoWeeksEarlier(Date(2024, 1, 15)) == Some(Date(2024, 1, 1))
    ensures TwoWeeksEarlier(Date(2024, 3, 10)) == Some(Date(2024, 2, 25))
    ensures TwoWeeksEarlier(Date(2023, 3, 10)) == Some(Date(2023, 2, 24))
    ensures TwoWeeksEarlier(Date(1900, 3, 5)) == Some(Date(1900, 2, 19))
    ensures TwoWeeksEarlier(Date(2000, 3, 5)) == Some(Date(2000, 2, 20))
    ensures TwoWeeksEarlier(Date(2024, 1, 5)) == Some(Date(2023, 12, 22))
    ensures TwoWeeksEarlier(Date(1, 1, 15)) == Some(Date(1, 1, 1))
    ensures TwoWeeksEarlier(Date(1, 1, 14)) == None
  {
  }
}
