/**
  UTC calendar arithmetic as section 15.9.1 of ECMA-262 5.1 defines it, for the midnights that the
  streak rebuilds from year, month and date.  Dafny's `/` rounds down for a positive divisor, as
  the standard's floor does.
  */
module Calendar {
  const MS_PER_DAY: int := 86400000

  function Day(t: int): int { t / MS_PER_DAY }

  predicate Leap(y: int) { y % 4 == 0 && (y % 100 != 0 || y % 400 == 0) }

  function DaysInYear(y: int): int { if Leap(y) then 366 else 365 }

  function DayFromYear(y: int): int {
    365 * (y - 1970) + (y - 1969) / 4 - (y - 1901) / 100 + (y - 1601) / 400
  }

  lemma FoursStep(y: int)
    ensures (y + 1 - 1969) / 4 == (y - 1969) / 4 + if y % 4 == 0 then 1 else 0
  {}

  lemma CenturiesStep(y: int)
    ensures (y + 1 - 1901) / 100 == (y - 1901) / 100 + if y % 100 == 0 then 1 else 0
  {}

  lemma FourHundredsStep(y: int)
    ensures (y + 1 - 1601) / 400 == (y - 1601) / 400 + if y % 400 == 0 then 1 else 0
    ensures (y % 400 == 0 ==> y % 100 == 0) && (y % 100 == 0 ==> y % 4 == 0)
  {}

  lemma YearStep(y: int)
    ensures DayFromYear(y + 1) == DayFromYear(y) + DaysInYear(y)
  {
    FoursStep(y);
    CenturiesStep(y);
    FourHundredsStep(y);
  }

  lemma {:induction false} YearsIncrease(y: int, z: int)
    requires y <= z
    ensures DayFromYear(z) >= DayFromYear(y) + 365 * (z - y)
    decreases z - y
  {
    if y < z {
      YearStep(y);
      YearsIncrease(y + 1, z);
    }
  }

  lemma {:induction false} AfterEpoch(k: nat)
    ensures DayFromYear(1970 + k) <= 366 * k
  {
    if k > 0 {
      AfterEpoch(k - 1);
      YearStep(1970 + k - 1);
    }
  }

  /** The year of a day: the last one that starts on or before it, searched for upwards from `y`. */
  function YearFrom(day: int, y: int): (r: int)
    requires DayFromYear(y) <= day
    ensures DayFromYear(r) <= day < DayFromYear(r + 1)
    decreases day - DayFromYear(y)
  {
    YearStep(y);
    if day < DayFromYear(y + 1) then y else YearFrom(day, y + 1)
  }

  function YearOf(day: int): (y: int)
    ensures DayFromYear(y) <= day < DayFromYear(y + 1)
  {
    if day >= 0 then
      AfterEpoch(day / 366);
      YearFrom(day, 1970 + day / 366)
    else
      YearsIncrease(1970 + day / 365, 1970);
      YearFrom(day, 1970 + day / 365)
  }

  /** The day within the year on which month `m` (from 0) starts. */
  function MonthStart(m: int, leap: bool): int
    requires 0 <= m <= 12
  {
    [0, 31, 59, 90, 120, 151, 181, 212, 243, 273, 304, 334, 365][m] + if leap && m >= 2 then 1 else 0
  }

  function MonthFrom(d: int, leap: bool, m: int): (r: int)
    requires 0 <= m < 12 && MonthStart(m, leap) <= d < MonthStart(12, leap)
    ensures 0 <= r < 12 && MonthStart(r, leap) <= d < MonthStart(r + 1, leap)
    decreases 12 - m
  {
    if d < MonthStart(m + 1, leap) then m else MonthFrom(d, leap, m + 1)
  }

  // ---- the three getters, and Date.UTC

  function UtcFullYear(t: int): int { YearOf(Day(t)) }

  function DayWithinYear(t: int): int { Day(t) - DayFromYear(UtcFullYear(t)) }

  lemma WithinYear(t: int)
    ensures 0 <= DayWithinYear(t) < MonthStart(12, Leap(UtcFullYear(t)))
  {
    YearStep(UtcFullYear(t));
  }

  function UtcMonth(t: int): (m: int)
    ensures 0 <= m < 12
  {
    WithinYear(t);
    MonthFrom(DayWithinYear(t), Leap(UtcFullYear(t)), 0)
  }

  function UtcDate(t: int): int { DayWithinYear(t) - MonthStart(UtcMonth(t), Leap(UtcFullYear(t))) + 1 }

  function MakeDay(y: int, m: int, d: int): int
    requires 0 <= m < 12
  {
    DayFromYear(y) + MonthStart(m, Leap(y)) + d - 1
  }

  /** Years 0 to 99 are taken to mean 1900 to 1999. */
  function DateUtc(y: int, m: int, d: int): int
    requires 0 <= m < 12
  {
    MakeDay(if 0 <= y <= 99 then 1900 + y else y, m, d) * MS_PER_DAY
  }

  lemma YearNotAfter(day: int, y: int, r: int)
    requires DayFromYear(y) <= day < DayFromYear(r + 1)
    ensures y <= r
  {
    if r < y { YearsIncrease(r + 1, y); }
  }

  lemma YearIsUnique(day: int, y: int)
    requires DayFromYear(y) <= day < DayFromYear(y + 1)
    ensures YearOf(day) == y
  {
    YearNotAfter(day, y, YearOf(day));
    YearNotAfter(day, YearOf(day), y);
  }

  lemma {:induction false} MonthIsUnique(d: int, leap: bool, m: int, r: int)
    requires 0 <= m <= r < 12 && MonthStart(r, leap) <= d < MonthStart(r + 1, leap)
    ensures MonthStart(m, leap) <= d < MonthStart(12, leap) && MonthFrom(d, leap, m) == r
    decreases r - m
  {
    assert MonthStart(m, leap) <= MonthStart(r, leap) && MonthStart(r + 1, leap) <= MonthStart(12, leap);
    if m < r {
      assert MonthStart(m + 1, leap) <= MonthStart(r, leap);
      MonthIsUnique(d, leap, m + 1, r);
    }
  }

  lemma MakeDayInYear(y: int, m: int, d: int)
    requires 0 <= m < 12 && 1 <= d <= MonthStart(m + 1, Leap(y)) - MonthStart(m, Leap(y))
    ensures DayFromYear(y) <= MakeDay(y, m, d) < DayFromYear(y + 1)
  {
    YearStep(y);
    assert MonthStart(m + 1, Leap(y)) <= MonthStart(12, Leap(y)) == DaysInYear(y);
  }

  lemma MonthAndDateReadBack(t: int, y: int, m: int, d: int)
    requires 0 <= m < 12 && 1 <= d <= MonthStart(m + 1, Leap(y)) - MonthStart(m, Leap(y))
    requires UtcFullYear(t) == y && DayWithinYear(t) == MonthStart(m, Leap(y)) + d - 1
    ensures UtcMonth(t) == m && UtcDate(t) == d
  {
    MonthIsUnique(DayWithinYear(t), Leap(y), 0, m);
  }

  /** MakeDay is the standard's: reading year, month and date back from the day it makes gives them again. */
  lemma MakeDayReadsBack(y: int, m: int, d: int)
    requires 0 <= m < 12 && 1 <= d <= MonthStart(m + 1, Leap(y)) - MonthStart(m, Leap(y))
    ensures
      var t := MakeDay(y, m, d) * MS_PER_DAY;
      UtcFullYear(t) == y && UtcMonth(t) == m && UtcDate(t) == d
  {
    var day := MakeDay(y, m, d);
    assert Day(day * MS_PER_DAY) == day;
    MakeDayInYear(y, m, d);
    YearIsUnique(day, y);
    MonthAndDateReadBack(day * MS_PER_DAY, y, m, d);
  }

  /**
    By how many days Date.UTC's reading of the years 0 to 99 moves a date; the year 0 is a leap year and
    1900 is not.
    */
  function RemapDays(t: int): int {
    if !(0 <= UtcFullYear(t) <= 99) then 0 else if UtcFullYear(t) == 0 && UtcMonth(t) < 2 then 693961 else 693960
  }

  lemma RemappedYear(y: int)
    requires 0 <= y <= 99
    ensures DayFromYear(1900 + y) - DayFromYear(y) == if y == 0 then 693961 else 693960
    ensures Leap(1900 + y) == (Leap(y) && y != 0)
  {}

  lemma RemappedDay(y: int, m: int, d: int)
    requires 0 <= y <= 99 && 0 <= m < 12
    ensures MakeDay(1900 + y, m, d) == MakeDay(y, m, d) + if y == 0 && m < 2 then 693961 else 693960
  {
    RemappedYear(y);
  }

  lemma GettersMakeTheDay(t: int)
    ensures MakeDay(UtcFullYear(t), UtcMonth(t), UtcDate(t)) == Day(t)
  {}

  /** The midnight rebuilt from a time's UTC date. */
  lemma RebuiltMidnight(t: int)
    ensures DateUtc(UtcFullYear(t), UtcMonth(t), UtcDate(t)) == (Day(t) + RemapDays(t)) * MS_PER_DAY
  {
    var y, m, d := UtcFullYear(t), UtcMonth(t), UtcDate(t);
    GettersMakeTheDay(t);
    if 0 <= y <= 99 { RemappedDay(y, m, d); }
  }

  /** It is the start of its day exactly when Date.UTC does not remap its year. */
  lemma MidnightRebuilt(t: int)
    ensures DateUtc(UtcFullYear(t), UtcMonth(t), UtcDate(t)) == Day(t) * MS_PER_DAY <==> !(0 <= UtcFullYear(t) <= 99)
  {
    RebuiltMidnight(t);
  }
}
