/** The Gregorian calendar, one day at a time (RFC 3339, section 5.7 and Appendix C). */
module Calendar {

  datatype Date = Date(year: int, month: int, day: int)

  predicate LeapYear(y: int) {
    y % 4 == 0 && (y % 100 != 0 || y % 400 == 0)
  }

  function MonthLength(y: int, m: int): int {
    if m == 2 then (if LeapYear(y) then 29 else 28)
    else if m == 4 || m == 6 || m == 9 || m == 11 then 30
    else 31
  }

  predicate Valid(d: Date) {
    1 <= d.month <= 12 && 1 <= d.day <= MonthLength(d.year, d.month)
  }

  function NextDay(d: Date): Date {
    if d.day < MonthLength(d.year, d.month) then d.(day := d.day + 1)
    else if d.month < 12 then Date(d.year, d.month + 1, 1)
    else Date(d.year + 1, 1, 1)
  }

  /** The date reached by stepping `n` days from 1970-01-01. */
  function DaysLater(n: nat): Date {
    if n == 0 then Date(1970, 1, 1) else NextDay(DaysLater(n - 1))
  }

  predicate Earlier(a: Date, b: Date) {
    a.year < b.year
    || (a.year == b.year && (a.month < b.month || (a.month == b.month && a.day < b.day)))
  }

  // A second account of the calendar: the number of days since 0000-03-01, in closed form.

  function DaysBeforeYear(y: int): int {
    365 * y + y / 4 - y / 100 + y / 400
  }

  function DaysBeforeMonth(mp: int): int {
    (153 * mp + 2) / 5
  }

  function DayNumber(d: Date): int {
    var y := if d.month <= 2 then d.year - 1 else d.year;
    var mp := if d.month <= 2 then d.month + 9 else d.month - 3;
    DaysBeforeYear(y) + DaysBeforeMonth(mp) + d.day - 1
  }

  lemma YearLength(y: int)
    ensures DaysBeforeYear(y + 1) == DaysBeforeYear(y) + (if LeapYear(y + 1) then 366 else 365)
  {
    var z := y + 1;
    assert z / 4 == y / 4 + (if z % 4 == 0 then 1 else 0);
    assert z / 100 == y / 100 + (if z % 100 == 0 then 1 else 0);
    assert z / 400 == y / 400 + (if z % 400 == 0 then 1 else 0);
    assert z % 100 == 0 ==> z % 4 == 0;
    assert z % 400 == 0 ==> z % 100 == 0;
  }

  lemma NextDayAddsOne(d: Date)
    requires Valid(d)
    ensures Valid(NextDay(d)) && DayNumber(NextDay(d)) == DayNumber(d) + 1
  {
    MonthTable();
    hide DaysBeforeYear, DaysBeforeMonth;
    YearLength(d.year - 1);
    if d.month != 2 && d.month != 12 {
      MonthStep(if d.month == 1 then 10 else d.month - 3);
    }
  }

  lemma MonthTable()
    ensures DaysBeforeMonth(0) == 0 && DaysBeforeMonth(9) == 275 && DaysBeforeMonth(10) == 306
         && DaysBeforeMonth(11) == 337
  {
  }

  lemma MonthStep(mp: int)
    requires 0 <= mp <= 10
    ensures DaysBeforeMonth(mp + 1)
            == DaysBeforeMonth(mp) + (if mp == 1 || mp == 3 || mp == 6 || mp == 8 then 30 else 31)
  {
  }

  lemma {:induction false} DaysLaterNumber(n: nat)
    ensures Valid(DaysLater(n)) && DayNumber(DaysLater(n)) == n + 719468
  {
    if n > 0 {
      DaysLaterNumber(n - 1);
      NextDayAddsOne(DaysLater(n - 1));
    }
  }

  lemma {:induction false} YearsAccumulate(a: int, b: int)
    requires a <= b
    ensures DaysBeforeYear(b) - DaysBeforeYear(a) >= 365 * (b - a)
    decreases b - a
  {
    if a < b {
      YearsAccumulate(a, b - 1);
      YearLength(b - 1);
    }
  }

  lemma NumberWithinYear(d: Date)
    requires Valid(d)
    ensures DayNumber(Date(d.year, 1, 1)) <= DayNumber(d) <= DayNumber(Date(d.year, 12, 31))
  {
    YearLength(d.year - 1);
  }

  lemma MonthsAccumulate(mp: int, mq: int)
    requires 0 <= mp < mq <= 11
    ensures DaysBeforeMonth(mq) >= DaysBeforeMonth(mp) + (if mp == 1 || mp == 3 || mp == 6 || mp == 8 then 30 else 31)
  {
    assert DaysBeforeMonth(mq) >= DaysBeforeMonth(mp + 1);
  }

  lemma NumberWithinMonths(a: Date, b: Date)
    requires Valid(a) && Valid(b) && a.year == b.year && a.month < b.month
    ensures DayNumber(a) < DayNumber(b)
  {
    YearLength(a.year - 1);
    if b.month <= 2 || a.month > 2 {
      var shift := if b.month <= 2 then 9 else -3;
      MonthsAccumulate(a.month + shift, b.month + shift);
    } else {
      assert 0 == DaysBeforeMonth(0) <= DaysBeforeMonth(b.month - 3);
      assert DaysBeforeMonth(10) == 306 && DaysBeforeMonth(11) == 337;
    }
  }

  /** The closed form grows with the calendar order. */
  lemma NumberFollowsOrder(a: Date, b: Date)
    requires Valid(a) && Valid(b) && Earlier(a, b)
    ensures DayNumber(a) < DayNumber(b)
  {
    if a.year < b.year {
      NumberWithinYear(a);
      NumberWithinYear(b);
      YearsAccumulate(a.year, b.year - 1);
      assert DayNumber(Date(b.year, 1, 1)) == DaysBeforeYear(b.year - 1) + 306;
      assert DayNumber(Date(a.year, 12, 31)) == DaysBeforeYear(a.year) + 305;
    } else if a.month < b.month {
      NumberWithinMonths(a, b);
    }
  }

  /** Two dates are in calendar order exactly when their numbers are, so a number names one date. */
  lemma NumberOrder(a: Date, b: Date)
    requires Valid(a) && Valid(b)
    ensures Earlier(a, b) <==> DayNumber(a) < DayNumber(b)
    ensures a == b <==> DayNumber(a) == DayNumber(b)
  {
    if Earlier(a, b) {
      NumberFollowsOrder(a, b);
    } else if a != b {
      NumberFollowsOrder(b, a);
    }
  }
}
