/**
 The UTC calendar of ECMAScript's Date: days since 1970, years by the DayFromYear formula, months counted
 through from year 0 so that Date.UTC(y, m, 1) is FirstDay(12 * y + m) for any m.
 */
module Calendar {

  const MS_PER_HOUR := 3600000
  const MS_PER_DAY := 86400000

  predicate Leap(y: int) {
    (y % 4 == 0 && y % 100 != 0) || y % 400 == 0
  }

  function DayFromYear(y: int): int {
    365 * (y - 1970) + (y - 1969) / 4 - (y - 1901) / 100 + (y - 1601) / 400
  }

  /** Days of the year before month m, 0 to 11. */
  function DaysBefore(m: nat, leap: bool): int
    requires m < 12
  {
    [0, 31, 59, 90, 120, 151, 181, 212, 243, 273, 304, 334][m] + if leap && m >= 2 then 1 else 0
  }

  /** The first day of a month; 12 * year + month, so Date.UTC(y, m, 1) for any m. */
  function FirstDay(month: int): int {
    DayFromYear(month / 12) + DaysBefore(month % 12, Leap(month / 12))
  }

  function DaysIn(month: int): int {
    FirstDay(month + 1) - FirstDay(month)
  }

  lemma FourthYears(y: int)
    ensures (y - 1968) / 4 - (y - 1969) / 4 == if y % 4 == 0 then 1 else 0
  {}

  lemma HundredthYears(y: int)
    ensures (y - 1900) / 100 - (y - 1901) / 100 == if y % 100 == 0 then 1 else 0
  {}

  lemma FourHundredthYears(y: int)
    ensures (y - 1600) / 400 - (y - 1601) / 400 == if y % 400 == 0 then 1 else 0
  {}

  lemma Multiples(y: int)
    ensures y % 400 == 0 ==> y % 100 == 0
    ensures y % 100 == 0 ==> y % 4 == 0
  {}

  /** Days count from 1970, and the formula gives every year 365 days and a leap year one more. */
  lemma YearLength(y: int)
    ensures DayFromYear(1970) == 0
    ensures DayFromYear(y + 1) - DayFromYear(y) == if Leap(y) then 366 else 365
  {
    FourthYears(y);
    HundredthYears(y);
    FourHundredthYears(y);
    Multiples(y);
    var a, b, c := (y - 1969) / 4, (y - 1901) / 100, (y - 1601) / 400;
    var d, e, f := (y - 1968) / 4, (y - 1900) / 100, (y - 1600) / 400;
    assert DayFromYear(y) == 365 * (y - 1970) + a - b + c;
    assert DayFromYear(y + 1) == 365 * (y - 1969) + d - e + f by { NextYear(y); }
  }

  lemma NextYear(y: int)
    ensures DayFromYear(y + 1) == 365 * (y - 1969) + (y - 1968) / 4 - (y - 1900) / 100 + (y - 1600) / 400
  {
    assert y + 1 - 1969 == y - 1968 && y + 1 - 1901 == y - 1900 && y + 1 - 1601 == y - 1600;
  }

  lemma MonthStep(month: int)
    ensures month % 12 < 11 ==> (month + 1) / 12 == month / 12 && (month + 1) % 12 == month % 12 + 1
    ensures month % 12 == 11 ==> (month + 1) / 12 == month / 12 + 1 && (month + 1) % 12 == 0
  {}

  /** Months have their calendar lengths, across year ends too. */
  lemma MonthLength(month: int)
    ensures 28 <= DaysIn(month) <= 31
    ensures DaysIn(month) == if month % 12 == 1 then (if Leap(month / 12) then 29 else 28)
                             else if month % 12 in {3, 5, 8, 10} then 30 else 31
  {
    hide DayFromYear, Leap;
    MonthStep(month);
    YearLength(month / 12);
  }

  lemma {:induction false} MonthsGrow(a: int, b: int)
    requires a < b
    ensures FirstDay(a) + 28 <= FirstDay(b)
    decreases b - a
  {
    MonthLength(b - 1);
    hide FirstDay;
    if a < b - 1 {
      MonthsGrow(a, b - 1);
    }
  }

  /** How far a month is from holding a day. */
  function Away(day: int, month: int): nat {
    if day < FirstDay(month) then FirstDay(month) - day
    else if day < FirstDay(month + 1) then 0
    else day - FirstDay(month + 1) + 1
  }

  /** getUTCFullYear and getUTCMonth: the month a day is in. */
  function MonthFrom(day: int, month: int): (r: int)
    ensures FirstDay(r) <= day < FirstDay(r + 1)
    decreases Away(day, month)
  {
    MonthLength(month);
    MonthLength(month - 1);
    MonthLength(month + 1);
    hide FirstDay;
    if day < FirstDay(month) then MonthFrom(day, month - 1)
    else if day >= FirstDay(month + 1) then MonthFrom(day, month + 1)
    else month
  }

  function MonthOf(day: int): int {
    MonthFrom(day, 12 * 1970)
  }

  lemma MonthOfHolds(day: int)
    ensures FirstDay(MonthOf(day)) <= day < FirstDay(MonthOf(day) + 1)
  {
    hide FirstDay;
  }

  /** A day is in the one month whose first day is at or before it and whose next month starts after it. */
  lemma MonthOfIs(day: int, month: int)
    ensures MonthOf(day) == month <==> FirstDay(month) <= day < FirstDay(month + 1)
  {
    hide FirstDay, MonthOf;
    MonthOfHolds(day);
    var r := MonthOf(day);
    if r < month {
      if r + 1 < month {
        MonthsGrow(r + 1, month);
      }
    } else if month < r {
      if month + 1 < r {
        MonthsGrow(month + 1, r);
      }
    }
  }

  /** The year of that month is YearFromTime of ECMA-262: the last year that has begun. */
  lemma YearIsLastBegun(day: int)
    ensures DayFromYear(MonthOf(day) / 12) <= day < DayFromYear(MonthOf(day) / 12 + 1)
  {
    hide FirstDay, DayFromYear, MonthOf;
    MonthOfHolds(day);
    var m := MonthOf(day);
    YearStarts(m);
    if 12 * (m / 12) < m {
      MonthsGrow(12 * (m / 12), m);
    }
    if m + 1 < 12 * (m / 12 + 1) {
      MonthsGrow(m + 1, 12 * (m / 12 + 1));
    }
  }

  lemma YearStarts(m: int)
    ensures 12 * (m / 12) <= m < 12 * (m / 12 + 1)
    ensures FirstDay(12 * (m / 12)) == DayFromYear(m / 12) && FirstDay(12 * (m / 12 + 1)) == DayFromYear(m / 12 + 1)
  {
    hide DayFromYear;
    var y := m / 12;
    assert (12 * y) / 12 == y && (12 * y) % 12 == 0;
    assert (12 * (y + 1)) / 12 == y + 1 && (12 * (y + 1)) % 12 == 0;
  }
}
