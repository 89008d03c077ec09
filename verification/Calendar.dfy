/** The proleptic Gregorian calendar as the date arithmetic of the source sees it.  Days are numbered from
    1 January of year 0, months from January of year 0, both in either direction. */
module Calendar {

  predicate Leap(y: int) { y % 4 == 0 && (y % 100 != 0 || y % 400 == 0) }

  function DaysBeforeYear(y: int): int { 365 * y + (y + 3) / 4 - (y + 99) / 100 + (y + 399) / 400 }

  /** Length of the month m of a year, from 0 for January. */
  function LengthIn(leap: bool, m: int): (n: int)
    ensures 28 <= n <= 31
  {
    if m == 1 then (if leap then 29 else 28)
    else if m == 3 || m == 5 || m == 8 || m == 10 then 30
    else 31
  }

  /** Length of month number k. */
  function MonthLength(k: int): (n: int)
    ensures 28 <= n <= 31
  {
    LengthIn(Leap(k / 12), k % 12)
  }

  function DaysBeforeMonth(y: int, m: int): int
    requires 0 <= m < 12
  {
    [0, 31, 59, 90, 120, 151, 181, 212, 243, 273, 304, 334][m] + if m >= 2 && Leap(y) then 1 else 0
  }

  function FirstOfMonth(k: int): int { DaysBeforeYear(k / 12) + DaysBeforeMonth(k / 12, k % 12) }

  lemma {:induction false} NextYear(y: int)
    ensures DaysBeforeYear(y + 1) == DaysBeforeYear(y) + 365 + if Leap(y) then 1 else 0
  {
    assert (y + 4) / 4 == (y + 3) / 4 + if y % 4 == 0 then 1 else 0;
    assert (y + 100) / 100 == (y + 99) / 100 + if y % 100 == 0 then 1 else 0;
    assert (y + 400) / 400 == (y + 399) / 400 + if y % 400 == 0 then 1 else 0;
  }

  /** Months follow each other without a gap. */
  lemma {:induction false} NextMonth(k: int)
    ensures FirstOfMonth(k + 1) == FirstOfMonth(k) + MonthLength(k)
  {
    NextYear(k / 12);
    hide DaysBeforeYear, Leap;
    if k % 12 == 11 {
      assert (k + 1) / 12 == k / 12 + 1 && (k + 1) % 12 == 0;
    } else {
      assert (k + 1) / 12 == k / 12 && (k + 1) % 12 == k % 12 + 1;
    }
  }

  /** Later months start later, by 28 to 31 days for each. */
  lemma {:induction false} MonthsApart(j: int, k: int)
    requires j <= k
    ensures 28 * (k - j) <= FirstOfMonth(k) - FirstOfMonth(j) <= 31 * (k - j)
    decreases k - j
  {
    if j < k {
      hide FirstOfMonth, MonthLength;
      MonthsApart(j, k - 1);
      NextMonth(k - 1);
    }
  }

  /** The month a day falls in, searched for from a month that is not later. */
  function MonthFrom(k: int, day: int): (r: int)
    requires FirstOfMonth(k) <= day
    ensures k <= r && FirstOfMonth(r) <= day < FirstOfMonth(r + 1)
    decreases day - FirstOfMonth(k)
  {
    hide FirstOfMonth;
    NextMonth(k);
    if day < FirstOfMonth(k + 1) then k else MonthFrom(k + 1, day)
  }

  function MonthOf(day: int): (k: int)
    ensures FirstOfMonth(k) <= day < FirstOfMonth(k + 1)
  {
    hide FirstOfMonth;
    var guess := if day >= 0 then 0 else day;
    NotLater(day);
    MonthFrom(guess, day)
  }

  lemma {:induction false} NotLater(day: int)
    ensures FirstOfMonth(0) == 0
    ensures day < 0 ==> FirstOfMonth(day) <= day
  {
    if day < 0 { MonthsApart(day, 0); }
  }

  /** A day lies in one month only. */
  lemma {:induction false} MonthUnique(day: int, k: int)
    requires FirstOfMonth(k) <= day < FirstOfMonth(k + 1)
    ensures MonthOf(day) == k
  {
    hide FirstOfMonth, MonthOf;
    var m := MonthOf(day);
    if m < k { MonthsApart(m + 1, k); }
    if k < m { MonthsApart(k + 1, m); }
  }

  /** Day of the month, from 1. */
  function DayOfMonth(day: int): (d: int)
    ensures 1 <= d <= MonthLength(MonthOf(day))
  {
    NextMonth(MonthOf(day));
    day - FirstOfMonth(MonthOf(day)) + 1
  }

  /** The day written as year, month 1 to 12 and day of the month; an overflowing month or day carries over. */
  function Civil(year: int, month: int, dayOfMonth: int): int {
    FirstOfMonth(12 * year + month - 1) + dayOfMonth - 1
  }

  function YearOf(day: int): int { MonthOf(day) / 12 }

  function MonthNumber(day: int): (m: int)
    ensures 1 <= m <= 12
  {
    MonthOf(day) % 12 + 1
  }

  /** Adds to year, month and day of the month separately, then lets the result carry over. */
  function AddDate(day: int, years: int, months: int, days: int): int {
    Civil(YearOf(day) + years, MonthNumber(day) + months, DayOfMonth(day) + days)
  }

  lemma {:induction false} AddDateShift(day: int, years: int, months: int, days: int)
    ensures AddDate(day, years, months, days) ==
            FirstOfMonth(MonthOf(day) + 12 * years + months) + (day - FirstOfMonth(MonthOf(day))) + days
  {
    hide FirstOfMonth, MonthOf;
    var k := MonthOf(day);
    assert 12 * (k / 12) + k % 12 == k;
  }
}
