/** The proleptic Gregorian calendar as Go's `time` package uses it, for zones at a fixed offset.

    An instant is a whole number of seconds since 0001-01-01T00:00:00Z, the zero of Go's clock, so
    `Truncate` on absolute time is rounding down to a multiple.  Day number 0 is 0001-01-01, a Monday. */
module Calendar {

  const DAY := 86400
  const HOUR := 3600
  const MINUTE := 60

  /** Quotient and remainder are unique. */
  lemma ModUnique(x: int, q: int, r: int, step: int)
    requires step >= 1 && x == q * step + r && 0 <= r < step
    ensures x % step == r
  {
    var d := q - x / step;
    assert d * step == x % step - r;
    assert d >= 1 ==> d * step >= step;
    assert d <= -1 ==> d * step <= -step;
  }

  predicate IsLeap(y: int) {
    y % 4 == 0 && (y % 100 != 0 || y % 400 == 0)
  }

  /** Day number of 1 January of year y. */
  function YearStart(y: int): int {
    365 * (y - 1) + (y - 1) / 4 - (y - 1) / 100 + (y - 1) / 400
  }

  function YearLength(y: int): int {
    if IsLeap(y) then 366 else 365
  }

  /** Days of the year before month m; month 13 stands for the end of the year. */
  function DaysBefore(leap: bool, m: int): (d: int)
    requires 1 <= m <= 13
  {
    var l := if leap then 1 else 0;
    if m == 1 then 0 else if m == 2 then 31 else if m == 3 then 59 + l else if m == 4 then 90 + l
    else if m == 5 then 120 + l else if m == 6 then 151 + l else if m == 7 then 181 + l
    else if m == 8 then 212 + l else if m == 9 then 243 + l else if m == 10 then 273 + l
    else if m == 11 then 304 + l else if m == 12 then 334 + l else 365 + l
  }

  function DaysIn(leap: bool, m: int): (d: int)
    requires 1 <= m <= 12
    ensures 28 <= d <= 31
  {
    DaysBefore(leap, m + 1) - DaysBefore(leap, m)
  }

  datatype Date = Date(year: int, month: int, day: int)

  predicate ValidDate(d: Date) {
    1 <= d.month <= 12 && 1 <= d.day <= DaysIn(IsLeap(d.year), d.month)
  }

  /** The date part of Go's time.Date: months outside 1..12 carry into the year, days are counted on. */
  function DayNumber(d: Date): int {
    var y := d.year + (d.month - 1) / 12;
    var m := (d.month - 1) % 12 + 1;
    MonthStartDay(y, m) + d.day - 1
  }

  function MonthStartDay(y: int, m: int): int
    requires 1 <= m <= 13
  {
    YearStart(y) + DaysBefore(IsLeap(y), m)
  }

  lemma DayNumberInYear(d: Date)
    requires 1 <= d.month <= 12
    ensures DayNumber(d) == MonthStartDay(d.year, d.month) + d.day - 1
  {
    hide YearStart, IsLeap, DaysBefore;
    assert (d.month - 1) / 12 == 0 && (d.month - 1) % 12 == d.month - 1;
  }

  /** The year holding day n, by 400-, 100-, 4- and 1-year cycles. */
  function YearOf(n: int): int {
    var c400 := n / 146097;
    var r400 := n % 146097;
    var c100 := if r400 / 36524 < 3 then r400 / 36524 else 3;
    var r100 := r400 - c100 * 36524;
    var c4 := r100 / 1461;
    var r4 := r100 % 1461;
    var c1 := if r4 / 365 < 3 then r4 / 365 else 3;
    400 * c400 + 100 * c100 + 4 * c4 + c1 + 1
  }

  /** The month holding day `yday` (from 0) of a year. */
  function MonthOf(leap: bool, yday: int): (m: int)
    requires 0 <= yday < DaysBefore(leap, 13)
    ensures 1 <= m <= 12 && DaysBefore(leap, m) <= yday < DaysBefore(leap, m + 1)
  {
    if yday < DaysBefore(leap, 2) then 1 else if yday < DaysBefore(leap, 3) then 2
    else if yday < DaysBefore(leap, 4) then 3 else if yday < DaysBefore(leap, 5) then 4
    else if yday < DaysBefore(leap, 6) then 5 else if yday < DaysBefore(leap, 7) then 6
    else if yday < DaysBefore(leap, 8) then 7 else if yday < DaysBefore(leap, 9) then 8
    else if yday < DaysBefore(leap, 10) then 9 else if yday < DaysBefore(leap, 11) then 10
    else if yday < DaysBefore(leap, 12) then 11 else 12
  }

  lemma YearStep(y: int)
    ensures YearStart(y + 1) == YearStart(y) + YearLength(y)
  {
    assert y / 400 == (y - 1) / 400 + if y % 400 == 0 then 1 else 0;
    assert y / 100 == (y - 1) / 100 + if y % 100 == 0 then 1 else 0;
    assert y / 4 == (y - 1) / 4 + if y % 4 == 0 then 1 else 0;
    CenturyIsFourth(y);
  }

  lemma CenturyIsFourth(y: int)
    ensures y % 400 == 0 ==> y % 100 == 0
    ensures y % 100 == 0 ==> y % 4 == 0
  {
  }

  lemma YearCycle(a: int, b: int, c: int, d: int)
    requires 0 <= b < 4 && 0 <= c < 25 && 0 <= d < 4
    ensures YearStart(400 * a + 100 * b + 4 * c + d + 1) == 146097 * a + 36524 * b + 1461 * c + 365 * d
  {
    var k := 400 * a + 100 * b + 4 * c + d;
    assert k / 4 == 100 * a + 25 * b + c;
    assert k / 100 == 4 * a + b;
    assert k / 400 == a;
  }

  lemma YearHolds(n: int)
    ensures YearStart(YearOf(n)) <= n < YearStart(YearOf(n) + 1)
  {
    hide YearStart, YearLength;
    var c400 := n / 146097;
    var r400 := n % 146097;
    var c100 := if r400 / 36524 < 3 then r400 / 36524 else 3;
    var r100 := r400 - c100 * 36524;
    var c4 := r100 / 1461;
    var r4 := r100 % 1461;
    var c1 := if r4 / 365 < 3 then r4 / 365 else 3;
    CenturyPart(r400);
    YearCycle(c400, c100, c4, c1);
    YearStep(YearOf(n));
    LastOfCycle(c400, c100, c4, c1, r4);
  }

  lemma CenturyPart(r400: int)
    requires 0 <= r400 < 146097
    ensures var c := if r400 / 36524 < 3 then r400 / 36524 else 3;
            0 <= c < 4 && 0 <= r400 - c * 36524 && r400 - c * 36524 < if c < 3 then 36524 else 36525
  {
  }

  /** The day left over at the end of a cycle exists only in a leap year. */
  lemma LastOfCycle(a: int, b: int, c: int, d: int, r: int)
    requires 0 <= b < 4 && 0 <= c < 25 && 0 <= d < 4 && 0 <= r < 1461
    requires d == if r / 365 < 3 then r / 365 else 3
    requires (b < 3 ==> 1461 * c + r < 36524) && (b == 3 ==> 1461 * c + r < 36525)
    ensures r - 365 * d < YearLength(400 * a + 100 * b + 4 * c + d + 1)
  {
    var y := 400 * a + 100 * b + 4 * c + d + 1;
    if d == 3 && r == 1460 {
      assert y == 4 * (100 * a + 25 * b + c + 1);
      assert y % 4 == 0;
      if y % 100 == 0 {
        assert c == 24;
        assert b == 3;
        assert y == 400 * (a + 1);
      }
    }
  }

  lemma {:induction false} YearsApart(y: int, z: int)
    requires y <= z
    ensures YearStart(y) + 365 * (z - y) <= YearStart(z)
  {
    assert (y - 1) / 4 - (y - 1) / 100 + (y - 1) / 400 <= (z - 1) / 4 - (z - 1) / 100 + (z - 1) / 400 by {
      LeapCount(y - 1, z - 1);
    }
  }

  /** The number of leap years grows with the year. */
  lemma {:induction false} LeapCount(p: int, q: int)
    requires p <= q
    ensures p / 4 - p / 100 + p / 400 <= q / 4 - q / 100 + q / 400
    decreases q - p
  {
    if p < q {
      LeapCount(p + 1, q);
      YearStep(p + 1);
    }
  }

  lemma YearBounds(leap: bool, m: int)
    requires 1 <= m <= 12
    ensures 0 <= DaysBefore(leap, m) < DaysBefore(leap, m + 1) <= DaysBefore(leap, 13)
    ensures DaysBefore(leap, 13) == if leap then 366 else 365
  {
  }

  function DateOfYearDay(y: int, yday: int): (d: Date)
    requires 0 <= yday < YearLength(y)
    ensures ValidDate(d) && DayNumber(d) == YearStart(y) + yday
  {
    YearBounds(IsLeap(y), 12);
    var m := MonthOf(IsLeap(y), yday);
    var d := Date(y, m, yday - DaysBefore(IsLeap(y), m) + 1);
    DayNumberInYear(d);
    d
  }

  /** The civil date of day n; Go's time.Date maps it back to n. */
  function CivilDate(n: int): (d: Date)
    ensures ValidDate(d) && DayNumber(d) == n
  {
    YearHolds(n);
    YearStep(YearOf(n));
    var y := YearOf(n);
    DateOfYearDay(y, n - YearStart(y))
  }

  lemma DaysBeforeMonotone(leap: bool, a: int, b: int)
    requires 1 <= a < b <= 13
    ensures DaysBefore(leap, a) + DaysIn(leap, a) <= DaysBefore(leap, b)
  {
  }

  lemma DateInYear(d: Date)
    requires ValidDate(d)
    ensures YearStart(d.year) <= DayNumber(d) < YearStart(d.year + 1)
    ensures DayNumber(d) == MonthStartDay(d.year, d.month) + d.day - 1
  {
    YearStep(d.year);
    DayNumberInYear(d);
    YearBounds(IsLeap(d.year), d.month);
  }

  /** Distinct valid dates have distinct day numbers. */
  lemma DateInjective(d: Date, e: Date)
    requires ValidDate(d) && ValidDate(e) && DayNumber(d) == DayNumber(e)
    ensures d == e
  {
    hide DayNumber, YearStart, IsLeap, DaysBefore, DaysIn;
    DateInYear(d);
    DateInYear(e);
    if d.year < e.year {
      YearsApart(d.year + 1, e.year);
    } else if e.year < d.year {
      YearsApart(e.year + 1, d.year);
    } else if d.month < e.month {
      DaysBeforeMonotone(IsLeap(d.year), d.month, e.month);
    } else if e.month < d.month {
      DaysBeforeMonotone(IsLeap(d.year), e.month, d.month);
    }
  }

  lemma DayNumberRoundTrip(d: Date)
    requires ValidDate(d)
    ensures CivilDate(DayNumber(d)) == d
  {
    DateInjective(CivilDate(DayNumber(d)), d);
  }

  lemma MonthStart(y: int, m: int)
    requires 1 <= m <= 12
    ensures DayNumber(Date(y, m + 1, 1)) == DayNumber(Date(y, m, 1)) + DaysIn(IsLeap(y), m)
  {
    hide YearStart, IsLeap;
    DayNumberInYear(Date(y, m, 1));
    if m < 12 {
      DayNumberInYear(Date(y, m + 1, 1));
    } else {
      YearStep(y);
      YearBounds(IsLeap(y), m);
      assert (m + 1 - 1) / 12 == 1 && (m + 1 - 1) % 12 == 0;
    }
  }

  lemma LaterInMonth(d: Date, j: nat)
    requires ValidDate(d) && DayNumber(d) + j < DayNumber(Date(d.year, d.month + 1, 1))
    ensures var e := Date(d.year, d.month, d.day + j); ValidDate(e) && DayNumber(e) == DayNumber(d) + j
  {
    MonthStart(d.year, d.month);
    DayNumberInYear(d);
    DayNumberInYear(Date(d.year, d.month, d.day + j));
    DayNumberInYear(Date(d.year, d.month, 1));
  }

  /** All days from day n to the end of its month share its year and month. */
  lemma MonthRun(n: int, k: int)
    requires n <= k < DayNumber(Date(CivilDate(n).year, CivilDate(n).month + 1, 1))
    ensures var d := CivilDate(n); CivilDate(k) == Date(d.year, d.month, d.day + (k - n))
  {
    hide *;
    var d := CivilDate(n);
    LaterInMonth(d, k - n);
    DayNumberRoundTrip(Date(d.year, d.month, d.day + (k - n)));
  }

  lemma NextMonthLater(n: int)
    ensures n < DayNumber(Date(CivilDate(n).year, CivilDate(n).month + 1, 1))
  {
    hide CivilDate, DayNumber, IsLeap;
    var d := CivilDate(n);
    MonthStart(d.year, d.month);
    DayNumberInYear(d);
    DayNumberInYear(Date(d.year, d.month, 1));
  }

  // Wall-clock fields of instant t in a zone `off` seconds east of UTC.

  function DayIndex(off: int, t: int): int { (t + off) / DAY }
  function Second(off: int, t: int): (r: int) ensures 0 <= r < 60 { (t + off) % 60 }
  function Minute(off: int, t: int): (r: int) ensures 0 <= r < 60 { (t + off) / 60 % 60 }
  function Hour(off: int, t: int): (r: int) ensures 0 <= r < 24 { (t + off) / 3600 % 24 }
  function Weekday(n: int): (r: int) ensures 0 <= r < 7 { (n + 1) % 7 }

  /** Go's time.Date in a zone `off` seconds east of UTC. */
  function MakeTime(off: int, d: Date, hour: int, minute: int, second: int): int {
    DayNumber(d) * DAY + hour * HOUR + minute * MINUTE + second - off
  }

  /** Go's Truncate for a positive unit in seconds: absolute time rounded down. */
  function Truncate(t: int, unit: int): int
    requires unit > 0
  {
    t - t % unit
  }

  /** Go's AddDate(years, 0, 0). */
  function AddYears(off: int, t: int, years: int): int {
    var d := CivilDate(DayIndex(off, t));
    MakeTime(off, Date(d.year + years, d.month, d.day), Hour(off, t), Minute(off, t), Second(off, t))
  }

  /** Wall-clock fields name the instant they came from. */
  lemma ClockRoundTrip(off: int, t: int)
    ensures MakeTime(off, CivilDate(DayIndex(off, t)), Hour(off, t), Minute(off, t), Second(off, t)) == t
  {
    hide CivilDate, DayNumber;
    SplitClock(t + off);
  }

  lemma SplitClock(w: int)
    ensures w == w / DAY * DAY + w / 3600 % 24 * 3600 + w / 60 % 60 * 60 + w % 60
  {
    assert w / 60 / 60 == w / 3600;
    assert w / 3600 / 24 == w / DAY;
  }

  /** The fields of an instant given by a day and a time of day. */
  lemma ClockFields(off: int, n: int, h: int, m: int, s: int)
    requires 0 <= h < 24 && 0 <= m < 60 && 0 <= s < 60
    ensures var t := n * DAY + h * HOUR + m * MINUTE + s - off;
            DayIndex(off, t) == n && Hour(off, t) == h && Minute(off, t) == m && Second(off, t) == s
  {
    var w := n * DAY + h * HOUR + m * MINUTE + s;
    assert w / 60 == n * 1440 + h * 60 + m;
    assert w / 3600 == n * 24 + h;
    assert w / DAY == n;
  }
}
