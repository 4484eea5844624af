/**
 * Proleptic Gregorian calendar dates and the ISO 8601 week calendar
 * (ISO 8601:2004, section 3.2.2 for the calendar week, section 4.1.4 for week dates).
 *
 * Days are numbered from 0001-01-01, which is day 1 and a Monday.
 */
module Calendar {

  /** A calendar date as the transaction store keeps it, after parsing. */
  datatype Date = Date(year: int, month: int, day: int)
  {
    /** The range of dates Python's `datetime.date` admits (years 1 to 9999). */
    predicate Valid()
    {
      1 <= year <= 9999 && 1 <= month <= 12 && 1 <= day <= DaysInMonth(year, month)
    }
  }

  type ValidDate = d: Date | d.Valid() witness Date(2000, 1, 1)

  predicate IsLeapYear(y: int)
  {
    y % 4 == 0 && (y % 100 != 0 || y % 400 == 0)
  }

  function DaysInYear(y: int): int
  {
    if IsLeapYear(y) then 366 else 365
  }

  function DaysInMonth(y: int, m: int): int
    requires 1 <= m <= 12
  {
    if m == 2 then (if IsLeapYear(y) then 29 else 28)
    else if m == 4 || m == 6 || m == 9 || m == 11 then 30
    else 31
  }

  /** Days of year `y` before the first of month `m`. */
  function DaysBeforeMonth(y: int, m: int): int
    requires 1 <= m <= 12
  {
    var common :=
      if m == 1 then 0 else if m == 2 then 31 else if m == 3 then 59
      else if m == 4 then 90 else if m == 5 then 120 else if m == 6 then 151
      else if m == 7 then 181 else if m == 8 then 212 else if m == 9 then 243
      else if m == 10 then 273 else if m == 11 then 304 else 334;
    if m > 2 && IsLeapYear(y) then common + 1 else common
  }

  /** Days before the first of January of year `y`, counted from 0001-01-01. */
  function DaysBeforeYear(y: int): int
  {
    var n := y - 1;
    365 * n + n / 4 - n / 100 + n / 400
  }

  /** The day number of the first of January of year `y`. */
  function YearStart(y: int): int
  {
    DaysBeforeYear(y) + 1
  }

  /** 1-based position of the date within its year. */
  function DayOfYear(d: Date): (r: int)
    requires d.Valid()
    ensures 1 <= r <= DaysInYear(d.year)
    ensures d.month == 12 <==> r > DaysInYear(d.year) - 31
    ensures d.month == 12 ==> r == DaysInYear(d.year) - 31 + d.day
  {
    DaysBeforeMonth(d.year, d.month) + d.day
  }

  /** The absolute day number of the date (0001-01-01 is day 1). */
  function DayNumber(d: Date): int
    requires d.Valid()
  {
    DaysBeforeYear(d.year) + DayOfYear(d)
  }

  /** Day of the week, 0 for Monday up to 6 for Sunday. */
  function Weekday(d: Date): (w: int)
    requires d.Valid()
    ensures 0 <= w < 7
  {
    (DayNumber(d) + 6) % 7
  }

  /** Consecutive years are laid end to end: year `y + 1` starts when year `y` is over. */
  lemma YearStartStep(y: int)
    ensures YearStart(y + 1) == YearStart(y) + DaysInYear(y)
  {
    QuotientStep(y - 1, 4);
    QuotientStep(y - 1, 100);
    QuotientStep(y - 1, 400);
  }

  /** Going from n to n + 1 raises n / k by one exactly when k divides n + 1. */
  lemma QuotientStep(n: int, k: int)
    requires k == 4 || k == 100 || k == 400
    ensures (n + 1) / k == n / k + (if (n + 1) % k == 0 then 1 else 0)
  {
    var q, r := n / k, n % k;
    assert n == k * q + r && 0 <= r < k;
    if r == k - 1 {
      assert n + 1 == k * (q + 1) + 0;
    } else {
      assert n + 1 == k * q + (r + 1);
    }
  }

  /** A date lies inside its own year. */
  lemma DayNumberInYear(d: Date)
    requires d.Valid()
    ensures YearStart(d.year) <= DayNumber(d) < YearStart(d.year + 1)
  {
    YearStartStep(d.year);
  }

  /** The day number of the Thursday of the Monday-to-Sunday week that contains `d`. */
  function ThursdayOf(d: Date): int
    requires d.Valid()
  {
    DayNumber(d) - Weekday(d) + 3
  }

  /**
   * The ISO week-numbering year of `d`: the calendar year that holds the Thursday of
   * d's week. That Thursday is at most three days away, so it lies in the year before,
   * the same year or the year after.
   */
  function IsoYear(d: Date): (y: int)
    requires d.Valid()
    ensures YearStart(y) <= ThursdayOf(d) < YearStart(y + 1)
    ensures d.year - 1 <= y <= d.year + 1
  {
    DayNumberInYear(d);
    YearStartStep(d.year - 1);
    YearStartStep(d.year + 1);
    var th := ThursdayOf(d);
    if th < YearStart(d.year) then d.year - 1
    else if th >= YearStart(d.year + 1) then d.year + 1
    else d.year
  }

  /**
   * The ISO 8601 week number of `d`. Week 1 of an ISO year is the week that holds the
   * year's first Thursday, and every week belongs to the year that holds its Thursday,
   * so the week number counts the Thursdays of the ISO year up to and including d's.
   */
  function IsoWeek(d: Date): (w: int)
    requires d.Valid()
    ensures 1 <= w <= 53
  {
    var y := IsoYear(d);
    YearStartStep(y);
    (ThursdayOf(d) - YearStart(y)) / 7 + 1
  }

  /**
   * The same week number computed from the day of the year and the weekday alone:
   * estimate the week from the day of the year, then correct the first days of
   * January (which may belong to week 52 or 53 of the year before) and the last
   * days of December (which may belong to week 1 of the year after).
   */
  function IsoWeekByDayOfYear(d: Date): int
    requires d.Valid()
  {
    var doy := DayOfYear(d);
    var dow := Weekday(d);
    var estimate := (doy - 1) - dow + 3;
    if estimate < 0 then
      (if estimate > -2 || (estimate == -2 && IsLeapYear(d.year - 1)) then 53 else 52)
    else if estimate / 7 + 1 == 53 && 31 - d.day + dow < 3 then 1
    else estimate / 7 + 1
  }

  /** The day-of-year computation agrees with the ISO 8601 definition on every date. */
  lemma IsoWeekFormulationsAgree(d: Date)
    requires d.Valid()
    ensures IsoWeekByDayOfYear(d) == IsoWeek(d)
  {
    var y := d.year;
    YearStartStep(y - 1);
    YearStartStep(y);
    var estimate := (DayOfYear(d) - 1) - Weekday(d) + 3;
    assert ThursdayOf(d) - YearStart(y) == estimate;
    if estimate < 0 {
      assert IsoYear(d) == y - 1;
      assert ThursdayOf(d) - YearStart(y - 1) == estimate + DaysInYear(y - 1);
    } else if estimate >= DaysInYear(y) {
      assert IsoYear(d) == y + 1;
      assert d.month == 12;
    } else {
      assert IsoYear(d) == y;
      if estimate / 7 + 1 == 53 {
        assert d.month == 12;
      }
    }
  }

  /** Later years start later. */
  lemma {:induction false} YearStartMonotone(a: int, b: int)
    requires a <= b
    ensures YearStart(a) <= YearStart(b)
    decreases b - a
  {
    if a < b {
      YearStartStep(a);
      YearStartMonotone(a + 1, b);
    }
  }

  /** A day belongs to exactly one year. */
  lemma YearOfDayUnique(n: int, y1: int, y2: int)
    requires YearStart(y1) <= n < YearStart(y1 + 1)
    requires YearStart(y2) <= n < YearStart(y2 + 1)
    ensures y1 == y2
  {
    if y1 < y2 {
      YearStartMonotone(y1 + 1, y2);
    } else if y2 < y1 {
      YearStartMonotone(y2 + 1, y1);
    }
  }

  /** All seven days of a Monday-to-Sunday week carry the same ISO year and week number. */
  lemma SameWeekSameNumber(d1: Date, d2: Date)
    requires d1.Valid() && d2.Valid()
    requires DayNumber(d1) - Weekday(d1) == DayNumber(d2) - Weekday(d2)
    ensures IsoYear(d1) == IsoYear(d2) && IsoWeek(d1) == IsoWeek(d2)
  {
    YearOfDayUnique(ThursdayOf(d1), IsoYear(d1), IsoYear(d2));
  }

  /** The fourth of January is always in week 1 of its own year. */
  lemma FourthOfJanuaryIsWeekOne(y: int)
    requires 1 <= y <= 9999
    ensures IsoYear(Date(y, 1, 4)) == y && IsoWeek(Date(y, 1, 4)) == 1
  {
    DayNumberInYear(Date(y, 1, 4));
  }

  /** The twenty-eighth of December is always in the last week, 52 or 53, of its own year. */
  lemma TwentyEighthOfDecemberIsLastWeek(y: int)
    requires 1 <= y <= 9999
    ensures IsoYear(Date(y, 12, 28)) == y
    ensures IsoWeek(Date(y, 12, 28)) == 52 || IsoWeek(Date(y, 12, 28)) == 53
  {
    YearStartStep(y);
  }

  /** 2024-12-30 is a Monday whose Thursday falls in 2025, so it is week 1 of ISO year 2025. */
  lemma LateDecemberOpensNextYear()
    ensures IsoYear(Date(2024, 12, 30)) == 2025 && IsoWeek(Date(2024, 12, 30)) == 1
  {
    var d := Date(2024, 12, 30);
    assert DayNumber(d) == 739250;
    assert Weekday(d) == 0;
    assert YearStart(2025) == 739252;
  }

  /** 2021-01-01 is a Friday whose Thursday falls in 2020, so it is week 53 of ISO year 2020. */
  lemma EarlyJanuaryClosesPreviousYear()
    ensures IsoYear(Date(2021, 1, 1)) == 2020 && IsoWeek(Date(2021, 1, 1)) == 53
  {
    var d := Date(2021, 1, 1);
    assert DayNumber(d) == 737791;
    assert Weekday(d) == 4;
    assert YearStart(2020) == 737425;
    assert YearStart(2021) == 737791;
  }
}
