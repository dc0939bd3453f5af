/** The proleptic Gregorian calendar, for every year before and after year 0. */
module Calendar {

  predicate IsLeapYear(year: int) {
    year % 4 == 0 && (year % 100 != 0 || year % 400 == 0)
  }

  function DaysInYear(year: int): nat {
    if IsLeapYear(year) then 366 else 365
  }

  function DaysInMonth(year: int, month: int): (d: nat)
    requires 1 <= month <= 12
    ensures 28 <= d <= 31
  {
    if month == 2 then (if IsLeapYear(year) then 29 else 28)
    else if month == 4 || month == 6 || month == 9 || month == 11 then 30
    else 31
  }

  /** Days from January 1 of year 0 to January 1 of `year`. */
  function DaysBeforeYear(year: int): int
    decreases if year < 0 then -year else year
  {
    if year == 0 then 0
    else if year > 0 then DaysBeforeYear(year - 1) + DaysInYear(year - 1)
    else DaysBeforeYear(year + 1) - DaysInYear(year)
  }

  function DaysBeforeMonth(year: int, month: int): nat
    requires 1 <= month <= 13
    decreases month
  {
    if month == 1 then 0 else DaysBeforeMonth(year, month - 1) + DaysInMonth(year, month - 1)
  }

  datatype Date = Date(year: int, month: int, day: int)

  predicate RealDate(d: Date) {
    1 <= d.month <= 12 && 1 <= d.day <= DaysInMonth(d.year, d.month)
  }

  /** Days since January 1 of year 0. */
  function DayNumber(d: Date): int
    requires RealDate(d)
  {
    DaysBeforeYear(d.year) + DaysBeforeMonth(d.year, d.month) + d.day - 1
  }

  lemma NextYear(year: int)
    ensures DaysBeforeYear(year + 1) == DaysBeforeYear(year) + DaysInYear(year)
  {
  }

  lemma {:induction false} YearsIncrease(a: int, b: int)
    requires a <= b
    ensures DaysBeforeYear(a) + 365 * (b - a) <= DaysBeforeYear(b)
    decreases b - a
  {
    if a < b {
      NextYear(a);
      YearsIncrease(a + 1, b);
    }
  }

  /** The year that day n is in, searched from `from` on. */
  function YearOf(n: int, from: int): (y: int)
    requires DaysBeforeYear(from) <= n
    ensures y >= from && DaysBeforeYear(y) <= n < DaysBeforeYear(y + 1)
    decreases n - DaysBeforeYear(from)
  {
    NextYear(from);
    if n < DaysBeforeYear(from + 1) then from else YearOf(n, from + 1)
  }

  /** The month that day n of a year is in, searched from `from` on. */
  function MonthOf(year: int, n: int, from: int): (m: int)
    requires 1 <= from <= 12 && DaysBeforeMonth(year, from) <= n < DaysBeforeMonth(year, 13)
    ensures from <= m <= 12 && DaysBeforeMonth(year, m) <= n < DaysBeforeMonth(year, m + 1)
    decreases 12 - from
  {
    if n < DaysBeforeMonth(year, from + 1) then from else MonthOf(year, n, from + 1)
  }

  lemma MonthsMakeYear(year: int)
    ensures DaysBeforeMonth(year, 13) == DaysInYear(year)
  {
    assert DaysBeforeMonth(year, 1) == 0;
    assert DaysBeforeMonth(year, 2) == 31;
    assert DaysBeforeMonth(year, 3) == DaysInYear(year) - 306;
    assert DaysBeforeMonth(year, 5) == DaysInYear(year) - 245;
    assert DaysBeforeMonth(year, 7) == DaysInYear(year) - 184;
    assert DaysBeforeMonth(year, 9) == DaysInYear(year) - 122;
    assert DaysBeforeMonth(year, 11) == DaysInYear(year) - 61;
    assert DaysBeforeMonth(year, 12) == DaysInYear(year) - 31;
  }

  /** The date of day n. */
  function DateOf(n: int): (d: Date)
    ensures RealDate(d) && DayNumber(d) == n
  {
    var from := if n < 0 then n else 0;
    YearsIncrease(from, 0);
    var year := YearOf(n, from);
    var rest := n - DaysBeforeYear(year);
    NextYear(year);
    MonthsMakeYear(year);
    var month := MonthOf(year, rest, 1);
    Date(year, month, rest - DaysBeforeMonth(year, month) + 1)
  }

  lemma {:induction false} MonthsIncrease(year: int, a: int, b: int)
    requires 1 <= a <= b <= 13
    ensures DaysBeforeMonth(year, a) <= DaysBeforeMonth(year, b)
    decreases b
  {
    if a < b { MonthsIncrease(year, a, b - 1); }
  }

  /** A date lies in its own year. */
  lemma DayNumberInYear(d: Date)
    requires RealDate(d)
    ensures DaysBeforeYear(d.year) <= DayNumber(d) < DaysBeforeYear(d.year + 1)
  {
    MonthsIncrease(d.year, d.month + 1, 13);
    MonthsMakeYear(d.year);
    NextYear(d.year);
  }

  /** Dates in order have day numbers in order, year by year. */
  lemma LaterYear(d: Date, e: Date)
    requires RealDate(d) && RealDate(e) && d.year < e.year
    ensures DayNumber(d) < DayNumber(e)
  {
    DayNumberInYear(d);
    DayNumberInYear(e);
    YearsIncrease(d.year + 1, e.year);
  }

  lemma LaterMonth(d: Date, e: Date)
    requires RealDate(d) && RealDate(e) && d.year == e.year && d.month < e.month
    ensures DayNumber(d) < DayNumber(e)
  {
    MonthsIncrease(d.year, d.month + 1, e.month);
  }

  /** Different dates have different day numbers. */
  lemma DateOfDayNumber(d: Date)
    requires RealDate(d)
    ensures DateOf(DayNumber(d)) == d
  {
    var e := DateOf(DayNumber(d));
    if d.year < e.year { LaterYear(d, e); }
    else if e.year < d.year { LaterYear(e, d); }
    else if d.month < e.month { LaterMonth(d, e); }
    else if e.month < d.month { LaterMonth(e, d); }
  }

  /** The real dates are exactly those that some day has. */
  lemma RealDateIff(d: Date)
    ensures RealDate(d) <==> exists n: int :: DateOf(n) == d
  {
    if RealDate(d) { DateOfDayNumber(d); }
  }

  /** How many multiples of k lie in the years from 0 up to `year`, not counting it. */
  function MultiplesBefore(year: int, k: int): int
    requires k > 0
  {
    (year + k - 1) / k
  }

  /** The Gregorian count of leap days. */
  function LeapDaysBefore(year: int): int {
    MultiplesBefore(year, 4) - MultiplesBefore(year, 100) + MultiplesBefore(year, 400)
  }

  /** Division is determined by its bounds. */
  lemma DivIs(a: int, k: int, q: int)
    requires k > 0 && k * q <= a < k * q + k
    ensures a / k == q
  {
    var d := a / k;
    assert a == k * d + a % k && k * (d - q) == k * d - k * q;
    AtLeast(k, d - q);
  }

  lemma AtLeast(k: int, x: int)
    requires k > 0
    ensures x >= 1 ==> k * x >= k
    ensures x <= -1 ==> k * x <= -k
  {
  }

  lemma NextMultiple(year: int, k: int)
    requires k > 0
    ensures MultiplesBefore(year + 1, k) == MultiplesBefore(year, k) + (if year % k == 0 then 1 else 0)
  {
    var q, r := year / k, year % k;
    assert year == k * q + r && k * (q + 1) == k * q + k;
    DivIs(year + k, k, q + 1);
    DivIs(year + k - 1, k, if r == 0 then q else q + 1);
  }

  /** Multiples of n * k are multiples of k. */
  lemma MultipleOf(year: int, n: int, k: int)
    requires n > 0 && k > 0 && n * k > 0 && year % (n * k) == 0
    ensures year % k == 0
  {
    var q := year / (n * k);
    assert year == n * k * q == k * (n * q);
    DivIs(year, k, n * q);
  }

  lemma MultiplesNest(year: int)
    ensures year % 400 == 0 ==> year % 100 == 0
    ensures year % 100 == 0 ==> year % 4 == 0
  {
    if year % 400 == 0 { MultipleOf(year, 4, 100); }
    if year % 100 == 0 { MultipleOf(year, 25, 4); }
  }

  lemma NextLeapDay(year: int)
    ensures LeapDaysBefore(year + 1) == LeapDaysBefore(year) + (if IsLeapYear(year) then 1 else 0)
  {
    NextMultiple(year, 4);
    NextMultiple(year, 100);
    NextMultiple(year, 400);
    MultiplesNest(year);
  }

  lemma {:induction false} DaysBeforeYearClosed(year: int)
    ensures DaysBeforeYear(year) == 365 * year + LeapDaysBefore(year)
    decreases if year < 0 then -year else year
  {
    hide LeapDaysBefore, IsLeapYear;
    NoLeapDaysBeforeZero();
    if year > 0 {
      DaysBeforeYearClosed(year - 1);
      NextLeapDay(year - 1);
    } else if year < 0 {
      DaysBeforeYearClosed(year + 1);
      NextLeapDay(year);
    }
  }

  lemma NoLeapDaysBeforeZero()
    ensures LeapDaysBefore(0) == 0
  {
  }
}
