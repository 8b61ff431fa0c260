/** Day arithmetic of the Gregorian calendar as section 21.4.1 of ECMA-262 defines it, in whole days from 1970-01-01. */
module Calendrical {
  predicate IsLeap(y: int) {
    y % 4 == 0 && (y % 100 != 0 || y % 400 == 0)
  }

  function DaysInYear(y: int): int {
    if IsLeap(y) then 366 else 365
  }

  /** The first day of a year: the lengths of the years between it and 1970. */
  function DayFromYear(y: int): int
    decreases if y > 1970 then y - 1970 else 1970 - y
  {
    if y == 1970 then 0
    else if y > 1970 then DayFromYear(y - 1) + DaysInYear(y - 1)
    else DayFromYear(y + 1) - DaysInYear(y)
  }

  function DaysInMonth(y: int, m: int): int {
    if m == 2 then (if IsLeap(y) then 29 else 28) else if m == 4 || m == 6 || m == 9 || m == 11 then 30 else 31
  }

  /** The days of a year before its month m, January being 1. */
  function DaysBefore(y: int, m: int): int
    requires 1 <= m <= 13
    decreases m
  {
    if m == 1 then 0 else DaysBefore(y, m - 1) + DaysInMonth(y, m - 1)
  }

  predicate Valid(y: int, m: int, d: int) {
    1 <= m <= 12 && 1 <= d <= DaysInMonth(y, m)
  }

  /** MakeDay: months outside the year carry into it, days outside the month simply count on. */
  function MakeDay(y: int, m: int, d: int): int {
    var year, month := y + (m - 1) / 12, (m - 1) % 12 + 1;
    DayFromYear(year) + DaysBefore(year, month) + d - 1
  }

  lemma YearLength(y: int)
    ensures DayFromYear(y + 1) - DayFromYear(y) == DaysInYear(y)
  {
  }

  function DayFromYearFormula(y: int): int {
    365 * (y - 1970) + (y - 1969) / 4 - (y - 1901) / 100 + (y - 1601) / 400
  }

  lemma Step4(n: int)
    ensures (n + 1) / 4 - n / 4 == if (n + 1) % 4 == 0 then 1 else 0
  {
  }

  lemma Step100(n: int)
    ensures (n + 1) / 100 - n / 100 == if (n + 1) % 100 == 0 then 1 else 0
  {
  }

  lemma Step400(n: int)
    ensures (n + 1) / 400 - n / 400 == if (n + 1) % 400 == 0 then 1 else 0
  {
  }

  lemma Mod4(y: int)
    ensures (y - 1968) % 4 == y % 4
  {
    assert y - 1968 == 4 * (y / 4 - 492) + y % 4;
  }

  lemma Mod100(y: int)
    ensures (y - 1900) % 100 == y % 100
  {
    assert y - 1900 == 100 * (y / 100 - 19) + y % 100;
  }

  lemma Mod400(y: int)
    ensures (y - 1600) % 400 == y % 400
  {
    assert y - 1600 == 400 * (y / 400 - 4) + y % 400;
  }

  lemma Hundreds(y: int)
    ensures y % 400 == 0 ==> y % 100 == 0
  {
    assert y == 100 * (4 * (y / 400)) + y % 400;
  }

  lemma Fours(y: int)
    ensures y % 100 == 0 ==> y % 4 == 0
  {
    assert y == 4 * (25 * (y / 100)) + y % 100;
  }

  lemma FormulaStep(y: int)
    ensures DayFromYearFormula(y + 1) - DayFromYearFormula(y) == DaysInYear(y)
  {
    Step4(y - 1969);
    Step100(y - 1901);
    Step400(y - 1601);
    Mod4(y);
    Mod100(y);
    Mod400(y);
    Hundreds(y);
    Fours(y);
    var a, b, c := (y - 1968) / 4 - (y - 1969) / 4, (y - 1900) / 100 - (y - 1901) / 100, (y - 1600) / 400 - (y - 1601) / 400;
    assert a == if y % 4 == 0 then 1 else 0;
    assert b == if y % 100 == 0 then 1 else 0;
    assert c == if y % 400 == 0 then 1 else 0;
    assert DayFromYearFormula(y + 1) - DayFromYearFormula(y) == 365 + a - b + c;
  }

  /** The closed form of section 21.4.1.3. */
  lemma {:induction false} DayFromYearIsFormula(y: int)
    ensures DayFromYear(y) == DayFromYearFormula(y)
    decreases if y > 1970 then y - 1970 else 1970 - y
  {
    if y > 1970 {
      DayFromYearIsFormula(y - 1);
      FormulaStep(y - 1);
    } else if y < 1970 {
      DayFromYearIsFormula(y + 1);
      FormulaStep(y);
    }
  }

  lemma MonthsFillYear(y: int)
    ensures DaysBefore(y, 13) == DaysInYear(y)
  {
    assert DaysBefore(y, 4) == DaysBefore(y, 3) + 31 == DaysBefore(y, 2) + DaysInMonth(y, 2) + 31;
    assert DaysBefore(y, 7) == DaysBefore(y, 6) + 30 == DaysBefore(y, 5) + 61 == DaysBefore(y, 4) + 91;
    assert DaysBefore(y, 10) == DaysBefore(y, 9) + 30 == DaysBefore(y, 8) + 61 == DaysBefore(y, 7) + 92;
    assert DaysBefore(y, 13) == DaysBefore(y, 12) + 31 == DaysBefore(y, 11) + 61 == DaysBefore(y, 10) + 92;
  }

  lemma {:induction false} MonthsAdd(y: int, m: int, n: int)
    requires 1 <= m <= n <= 13
    ensures DaysBefore(y, m) <= DaysBefore(y, n)
    ensures m < n ==> DaysBefore(y, m) + DaysInMonth(y, m) <= DaysBefore(y, n)
    decreases n
  {
    if m < n { MonthsAdd(y, m, n - 1); }
  }

  // ---- back from days --------------------------------------------------------------------------------------------------

  /** The year a day lies in, searched upwards from a year not after it. */
  function YearFrom(y: int, t: int): (r: int)
    requires DayFromYear(y) <= t
    ensures DayFromYear(r) <= t < DayFromYear(r + 1)
    decreases t - DayFromYear(y)
  {
    YearLength(y);
    if t < DayFromYear(y + 1) then y else YearFrom(y + 1, t)
  }

  lemma EarlyEnough(t: int)
    ensures DayFromYear(if t >= 0 then 1970 + t / 366 else 1970 + t / 365) <= t
  {
    if t >= 0 {
      var k := t / 366;
      assert 366 * k <= t;
      LeapsAtMost(k);
    } else {
      var k := t / 365;
      assert 365 * k <= t;
      LeapsBefore(k);
    }
  }

  lemma {:induction false} LeapsAtMost(k: int)
    requires k >= 0
    ensures DayFromYear(1970 + k) <= 366 * k
    decreases k
  {
    if k > 0 {
      LeapsAtMost(k - 1);
      YearLength(1970 + k - 1);
    }
  }

  lemma {:induction false} LeapsBefore(k: int)
    requires k <= 0
    ensures DayFromYear(1970 + k) <= 365 * k
    decreases -k
  {
    if k < 0 {
      LeapsBefore(k + 1);
      YearLength(1970 + k);
    }
  }

  function YearOf(t: int): (r: int)
    ensures DayFromYear(r) <= t < DayFromYear(r + 1)
  {
    EarlyEnough(t);
    YearFrom(if t >= 0 then 1970 + t / 366 else 1970 + t / 365, t)
  }

  /** The month a day of the year lies in. */
  function MonthFrom(y: int, m: int, n: int): (r: int)
    requires 1 <= m <= 12 && DaysBefore(y, m) <= n < DaysBefore(y, 13)
    ensures m <= r <= 12 && DaysBefore(y, r) <= n < DaysBefore(y, r + 1)
    decreases 12 - m
  {
    if n < DaysBefore(y, m + 1) then m else MonthFrom(y, m + 1, n)
  }

  datatype Civil = Civil(year: int, month: int, day: int)

  /** Year, month and day of a day number. */
  function CivilOf(t: int): (c: Civil)
    ensures Valid(c.year, c.month, c.day)
  {
    var y := YearOf(t);
    YearLength(y);
    MonthsFillYear(y);
    var n := t - DayFromYear(y);
    var m := MonthFrom(y, 1, n);
    Civil(y, m, n - DaysBefore(y, m) + 1)
  }

  lemma {:induction false} YearsAdd(y: int, z: int)
    requires y < z
    ensures DayFromYear(y) + DaysInYear(y) <= DayFromYear(z)
    decreases z - y
  {
    YearLength(y);
    if y + 1 < z {
      YearsAdd(y + 1, z);
    }
  }

  lemma MakeDayInYear(y: int, m: int, d: int)
    requires 1 <= m <= 12
    ensures MakeDay(y, m, d) == DayFromYear(y) + DaysBefore(y, m) + d - 1
  {
    assert (m - 1) / 12 == 0 && (m - 1) % 12 == m - 1;
  }

  lemma MakeDayOfValid(y: int, m: int, d: int)
    requires Valid(y, m, d)
    ensures MakeDay(y, m, d) == DayFromYear(y) + DaysBefore(y, m) + d - 1
    ensures DayFromYear(y) <= MakeDay(y, m, d) < DayFromYear(y + 1)
    ensures DaysBefore(y, m) <= MakeDay(y, m, d) - DayFromYear(y) < DaysBefore(y, m + 1)
  {
    MakeDayInYear(y, m, d);
    MonthsAdd(y, 1, m);
    MonthsAdd(y, m, 13);
    MonthsFillYear(y);
    YearLength(y);
  }

  lemma YearIs(t: int, y: int)
    requires DayFromYear(y) <= t < DayFromYear(y + 1)
    ensures YearOf(t) == y
  {
    var z := YearOf(t);
    if z < y {
      YearsAdd(z, y);
      YearLength(z);
    } else if y < z {
      YearsAdd(y, z);
      YearLength(y);
    }
  }

  lemma MonthIs(y: int, m: int, n: int)
    requires 1 <= m <= 12 && DaysBefore(y, m) <= n < DaysBefore(y, m + 1) && 0 <= n < DaysBefore(y, 13)
    ensures MonthFrom(y, 1, n) == m
  {
    var k := MonthFrom(y, 1, n);
    if k < m { MonthsAdd(y, k + 1, m); }
    if m < k { MonthsAdd(y, m + 1, k); }
  }

  /** From a calendar day to its number and back. */
  lemma CivilOfMakeDay(y: int, m: int, d: int)
    requires Valid(y, m, d)
    ensures CivilOf(MakeDay(y, m, d)) == Civil(y, m, d)
  {
    var t := MakeDay(y, m, d);
    MakeDayOfValid(y, m, d);
    YearIs(t, y);
    MonthsFillYear(y);
    YearLength(y);
    MonthIs(y, m, t - DayFromYear(y));
  }

  /** From a day number to its calendar day and back. */
  lemma MakeDayOfCivil(t: int)
    ensures MakeDay(CivilOf(t).year, CivilOf(t).month, CivilOf(t).day) == t
  {
    var c := CivilOf(t);
    MakeDayOfValid(c.year, c.month, c.day);
  }

  predicate Earlier(a: Civil, b: Civil) {
    a.year < b.year || (a.year == b.year && (a.month < b.month || (a.month == b.month && a.day < b.day)))
  }

  /** Days count on in calendar order. */
  lemma DaysInOrder(s: int, t: int)
    requires s < t
    ensures Earlier(CivilOf(s), CivilOf(t))
  {
    var a, b := CivilOf(s), CivilOf(t);
    MakeDayOfCivil(s);
    MakeDayOfCivil(t);
    MakeDayOfValid(a.year, a.month, a.day);
    MakeDayOfValid(b.year, b.month, b.day);
    if b.year < a.year {
      YearsAdd(b.year, a.year);
      YearLength(b.year);
    } else if a.year == b.year && b.month < a.month {
      MonthsAdd(a.year, b.month + 1, a.month);
    }
  }
}
