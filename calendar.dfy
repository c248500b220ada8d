/**
 * The proleptic Gregorian calendar that JavaScript's Date uses, with the
 * local time zone taken to be UTC and no daylight-saving shifts. A moment is
 * a signed count of milliseconds since 1970-01-01T00:00:00; a calendar date is
 * a (year, month, day) triple with JavaScript's 0-based month (0 = January,
 * 11 = December) and 1-based day.
 */
module Calendar {

  const MsPerDay: int := 1000 * 60 * 60 * 24

  /** getMonth() of a date in December. */
  const December: int := 11

  /** A JavaScript Date holds a moment within 8.64e15 ms of 1970; beyond that it is an Invalid Date. */
  const MaxTimeMs: int := 8_640_000_000_000_000

  datatype Date = Date(year: int, month: int, day: int)

  predicate InDateRange(ms: int)
  {
    -MaxTimeMs <= ms <= MaxTimeMs
  }

  /** The year `new Date(year, month, day)` uses: years 0 to 99 stand for 1900 to 1999. */
  function ConstructorYear(year: int): (y: int)
    ensures 0 <= year <= 99 ==> y == 1900 + year
    ensures !(0 <= year <= 99) ==> y == year
  {
    if 0 <= year <= 99 then 1900 + year else year
  }

  predicate IsLeapYear(y: int)
  {
    y % 4 == 0 && (y % 100 != 0 || y % 400 == 0)
  }

  function DaysInYear(y: int): int
  {
    if IsLeapYear(y) then 366 else 365
  }

  function DaysInMonth(y: int, m: int): int
    requires 0 <= m < 12
  {
    if m == 1 && IsLeapYear(y) then 29
    else [31, 28, 31, 30, 31, 30, 31, 31, 30, 31, 30, 31][m]
  }

  /** Days of year y that lie before the first of month m (m == 12: the whole year). */
  function DaysBeforeMonth(y: int, m: int): (r: int)
    requires 0 <= m <= 12
    ensures 0 <= r <= DaysInYear(y)
    ensures m == 12 ==> r == DaysInYear(y)
  {
    [0, 31, 59, 90, 120, 151, 181, 212, 243, 273, 304, 334, 365][m]
      + (if m >= 2 && IsLeapYear(y) then 1 else 0)
  }

  lemma MonthStep(y: int, m: int)
    requires 0 <= m < 12
    ensures DaysBeforeMonth(y, m) + DaysInMonth(y, m) == DaysBeforeMonth(y, m + 1)
  {
  }

  predicate Valid(d: Date)
  {
    0 <= d.month < 12 && 1 <= d.day <= DaysInMonth(d.year, d.month)
  }

  /** Days from 1970-01-01 to January 1 of year y (negative before 1970). */
  function DaysBeforeYear(y: int): int
    decreases if y >= 1970 then y - 1970 else 1970 - y
  {
    if y == 1970 then 0
    else if y > 1970 then DaysBeforeYear(y - 1) + DaysInYear(y - 1)
    else DaysBeforeYear(y + 1) - DaysInYear(y)
  }

  lemma YearStep(y: int)
    ensures DaysBeforeYear(y + 1) == DaysBeforeYear(y) + DaysInYear(y)
  {
  }

  /** The number of the day d, counted from 1970-01-01 as day 0. */
  function DayNumber(d: Date): int
    requires Valid(d)
  {
    DaysBeforeYear(d.year) + DaysBeforeMonth(d.year, d.month) + d.day - 1
  }

  /** The date of the n-th day (0-based) of year y, searching from month m on. */
  function MonthDayOf(y: int, m: int, n: int): (d: Date)
    requires 0 <= m < 12 && DaysBeforeMonth(y, m) <= n < DaysInYear(y)
    ensures Valid(d) && d.year == y && DaysBeforeMonth(y, d.month) + d.day - 1 == n
    decreases 12 - m
  {
    MonthStep(y, m);
    if n < DaysBeforeMonth(y, m + 1) then Date(y, m, n - DaysBeforeMonth(y, m) + 1)
    else MonthDayOf(y, m + 1, n)
  }

  /** The date n days after January 1 of year y (n may be negative or exceed the year). */
  function DateFrom(y: int, n: int): (d: Date)
    ensures Valid(d) && DayNumber(d) == DaysBeforeYear(y) + n
    decreases if n < 0 then 1 else 0, if n < 0 then -n else n
  {
    if n < 0 then
      YearStep(y - 1);
      DateFrom(y - 1, n + DaysInYear(y - 1))
    else if n >= DaysInYear(y) then
      YearStep(y);
      DateFrom(y + 1, n - DaysInYear(y))
    else
      MonthDayOf(y, 0, n)
  }

  /** The calendar date of day number n; it is the inverse of DayNumber. */
  function DateOfDay(n: int): (d: Date)
    ensures Valid(d) && DayNumber(d) == n
  {
    DateFrom(1970, n)
  }

  /** DateOfDay undoes DayNumber: the day number of a valid date determines it. */
  lemma DateOfDayNumber(d: Date)
    requires Valid(d)
    ensures DateOfDay(DayNumber(d)) == d
  {
    DayNumberInjective(DateOfDay(DayNumber(d)), d);
  }

  lemma DayNumberInjective(a: Date, b: Date)
    requires Valid(a) && Valid(b) && DayNumber(a) == DayNumber(b)
    ensures a == b
  {
    if a.year < b.year {
      YearsAdvance(a.year, b.year);
      YearStep(a.year);
      assert false;
    } else if b.year < a.year {
      YearsAdvance(b.year, a.year);
      YearStep(b.year);
      assert false;
    }
    if a.month < b.month {
      MonthStep(a.year, a.month);
      MonthsAdvance(a.year, a.month + 1, b.month);
      assert false;
    } else if b.month < a.month {
      MonthStep(b.year, b.month);
      MonthsAdvance(b.year, b.month + 1, a.month);
      assert false;
    }
  }

  /** Every year has at least 365 days. */
  lemma {:induction false} YearsSpan(y: int, z: int)
    requires y <= z
    ensures DaysBeforeYear(z) - DaysBeforeYear(y) >= 365 * (z - y)
    decreases z - y
  {
    if y < z {
      YearsSpan(y, z - 1);
      YearStep(z - 1);
    }
  }

  /** Day numbers of later years start no earlier than the end of year y. */
  lemma {:induction false} YearsAdvance(y: int, z: int)
    requires y < z
    ensures DaysBeforeYear(y + 1) <= DaysBeforeYear(z)
    decreases z - y
  {
    if y + 1 < z {
      YearsAdvance(y, z - 1);
      YearStep(z - 1);
    }
  }

  lemma {:induction false} MonthsAdvance(y: int, m: int, k: int)
    requires 0 <= m <= k <= 12
    ensures DaysBeforeMonth(y, m) <= DaysBeforeMonth(y, k)
    decreases k - m
  {
    if m < k {
      MonthStep(y, m);
      MonthsAdvance(y, m + 1, k);
    }
  }

  /** The calendar date of moment ms (getFullYear, getMonth, getDate). */
  function DateOf(ms: int): (d: Date)
    ensures Valid(d) && DayNumber(d) == ms / MsPerDay
  {
    DateOfDay(ms / MsPerDay)
  }

  /** A moment is its day's midnight plus a time of day in [0, MsPerDay). */
  lemma MomentSplit(ms: int)
    ensures ms == DayNumber(DateOf(ms)) * MsPerDay + ms % MsPerDay
    ensures 0 <= ms % MsPerDay < MsPerDay
  {
  }

  /** Math.ceil(a / b) for integers a and b > 0. */
  function CeilDiv(a: int, b: int): (r: int)
    requires b > 0
    ensures (r - 1) * b < a <= r * b
  {
    var q := (-a) / b;
    assert q * b <= -a < q * b + b;
    -q
  }
}
