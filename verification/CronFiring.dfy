/** When Expr.Next of a parsed expression gives up, in whole-hour zones. */
module CronFiring {
  import opened Wrappers
  import opened Calendar
  import opened Cron

  ghost predicate Within(bits: Bits, lo: int, hi: int) {
    && (exists i :: 0 <= i < 60 && bits[i])
    && (forall i :: 0 <= i < 60 && bits[i] ==> lo <= i <= hi)
  }

  /** What Parse guarantees of its result: every field selects something, and nothing out of range. */
  ghost predicate WellFormed(e: Expr) {
    && Within(e.sec.bits, 0, 59)
    && Within(e.min.bits, 0, 59)
    && Within(e.hour.bits, 0, 23)
    && Within(e.dom.bits, 1, 31)
    && Within(e.month.bits, 1, 12)
    && Within(e.dow.bits, 0, 6)
  }

  /** Some selected month and day exist in every year. */
  ghost predicate HasCommonDate(e: Expr) {
    exists m, d | 1 <= m <= 12 && 1 <= d <= DaysIn(false, m) :: e.month.bits[m] && e.dom.bits[d]
  }

  /** The day field alone decides the day. */
  predicate BoundToDates(e: Expr) {
    e.dow.all && !e.dom.all
  }

  function LastBelow(bits: Bits, v: int): (r: int)
    requires v <= 60
    ensures -1 <= r < 60 && (r == -1 || (r < v && bits[r]))
    ensures forall i :: r < i < v && 0 <= i ==> !bits[i]
  {
    if v <= 0 then -1 else if bits[v - 1] then v - 1 else LastBelow(bits, v - 1)
  }

  function TimeOn(off: int, n: int, h: int, m: int, s: int): int {
    n * DAY + h * HOUR + m * MINUTE + s - off
  }

  /** The earliest and the latest selected second of day n. */
  function EarliestOn(e: Expr, off: int, n: int): int {
    TimeOn(off, n, FirstFrom(e.hour.bits, 0, 24), FirstFrom(e.min.bits, 0, 60), FirstFrom(e.sec.bits, 0, 60))
  }

  function LatestOn(e: Expr, off: int, n: int): int {
    TimeOn(off, n, LastBelow(e.hour.bits, 24), LastBelow(e.min.bits, 60), LastBelow(e.sec.bits, 60))
  }

  function LeapDay(y: int): int {
    DayNumber(Date(y, 2, 29))
  }

  /** The multiple of four in y + 1 .. y + 4. */
  function NextFourth(y: int): int {
    y + 4 - y % 4
  }

  /** The window from start, in year y, holds no selected 29 February: the only candidate wholly inside
      falls in a century year that is no leap year, and those at the two ends are cut off. */
  predicate LeapDayMissed(e: Expr, off: int, start: int) {
    var y := CivilDate(DayIndex(off, start)).year;
    && !IsLeap(NextFourth(y))
    && !(IsLeap(y) && start <= LatestOn(e, off, LeapDay(y)))
    && !(IsLeap(y + 5) && EarliestOn(e, off, LeapDay(y + 5)) < LimitOf(off, start))
  }

  ghost predicate GivesUp(e: Expr, off: int, start: int) {
    && BoundToDates(e)
    && !HasCommonDate(e)
    && (e.dom.bits[29] && e.month.bits[2] ==> LeapDayMissed(e, off, start))
  }

  lemma YearOfDay(n: int, y: int)
    ensures YearStart(y) <= n < YearStart(y + 1) <==> CivilDate(n).year == y
    ensures YearStart(y) <= n <==> y <= CivilDate(n).year
  {
    hide YearStart, IsLeap, CivilDate, DayNumber;
    var z := CivilDate(n).year;
    DateInYear(CivilDate(n));
    if y <= z {
      YearsApart(y, z);
    }
    if y < z {
      YearsApart(y + 1, z);
    } else if z < y {
      YearsApart(z + 1, y);
    }
  }

  /** Selected times of day on a selected day match, and lie between its earliest and latest. */
  lemma MatchesOn(e: Expr, off: int, n: int)
    requires WellFormed(e) && DayOK(e, n) && MonthOK(e, n)
    ensures Matches(e, off, EarliestOn(e, off, n)) && DayIndex(off, EarliestOn(e, off, n)) == n
    ensures Matches(e, off, LatestOn(e, off, n)) && DayIndex(off, LatestOn(e, off, n)) == n
  {
    hide CivilDate, DayMatch, Second, Minute, Hour, DayIndex;
    ClockFields(off, n, FirstFrom(e.hour.bits, 0, 24), FirstFrom(e.min.bits, 0, 60), FirstFrom(e.sec.bits, 0, 60));
    ClockFields(off, n, LastBelow(e.hour.bits, 24), LastBelow(e.min.bits, 60), LastBelow(e.sec.bits, 60));
  }

  lemma BetweenEnds(e: Expr, off: int, t: int)
    ensures Matches(e, off, t) ==> EarliestOn(e, off, DayIndex(off, t)) <= t <= LatestOn(e, off, DayIndex(off, t))
  {
    if !Matches(e, off, t) {
      return;
    }
    hide CivilDate, DayMatch, DayOK, MonthOK, DayIndex, Second, Minute, Hour;
    ClockParts(off, t);
    assert FirstFrom(e.hour.bits, 0, 24) <= Hour(off, t) <= LastBelow(e.hour.bits, 24);
    assert FirstFrom(e.min.bits, 0, 60) <= Minute(off, t) <= LastBelow(e.min.bits, 60);
    assert FirstFrom(e.sec.bits, 0, 60) <= Second(off, t) <= LastBelow(e.sec.bits, 60);
  }

  lemma ClockParts(off: int, t: int)
    ensures t == TimeOn(off, DayIndex(off, t), Hour(off, t), Minute(off, t), Second(off, t))
  {
    SplitClock(t + off);
  }

  /** All of day n lies in the window when n is in one of the four years after the year of start. */
  lemma InWindow(off: int, start: int, n: int, t: int)
    requires var y := CivilDate(DayIndex(off, start)).year; YearStart(y + 1) <= n < YearStart(y + 5)
    requires DayIndex(off, t) == n
    ensures start <= t < LimitOf(off, start)
  {
    hide CivilDate, YearStart, IsLeap, DayNumber;
    var d := CivilDate(DayIndex(off, start));
    DateInYear(d);
    LimitInYear(d);
  }

  lemma LimitInYear(d: Date)
    requires ValidDate(d)
    ensures YearStart(d.year + 5) <= DayNumber(Date(d.year + 5, d.month, d.day)) < YearStart(d.year + 6)
  {
    hide YearStart, DaysIn;
    DayNumberInYear(Date(d.year + 5, d.month, d.day));
    YearBounds(IsLeap(d.year + 5), d.month);
    YearStep(d.year + 5);
    MonthsOfYears(IsLeap(d.year), IsLeap(d.year + 5), d.month, d.day);
  }

  /** A day of the month in one kind of year falls inside the other kind as well. */
  lemma MonthsOfYears(a: bool, b: bool, m: int, day: int)
    requires 1 <= m <= 12 && 1 <= day <= DaysIn(a, m)
    ensures 0 <= DaysBefore(b, m) + day - 1 < DaysBefore(b, 13)
  {
  }

  /** A match strictly inside the window means Next succeeds. */
  lemma FiresIfMatch(e: Expr, off: int, after: int, t: int)
    requires off % HOUR == 0 && Matches(e, off, t)
    requires StartOf(after) <= t < LimitOf(off, StartOf(after))
    ensures FastNext(e, off, after).Some?
  {
    hide Matches, Scan, LimitOf;
    ScanIsLeast(e, off, StartOf(after), LimitOf(off, StartOf(after)));
  }

  /** The first day on or after n that falls on weekday w. */
  lemma WeekdayWithin(n: int, w: int) returns (k: int)
    requires 0 <= w <= 6
    ensures 0 <= k < 7 && Weekday(n + k) == w
  {
    k := (w - Weekday(n)) % 7;
  }

  /** Some day of year y is selected, unless the expression is bound to dates that may not exist. */
  lemma SelectedDay(e: Expr, y: int) returns (n: int)
    requires WellFormed(e) && (BoundToDates(e) ==> HasCommonDate(e))
    ensures YearStart(y) <= n < YearStart(y + 1) && DayOK(e, n) && MonthOK(e, n)
  {
    hide CivilDate, DayNumber, YearStart, IsLeap, Weekday;
    var m :| 0 <= m < 60 && e.month.bits[m];
    var day := 1;
    if BoundToDates(e) {
      m, day :| 1 <= m <= 12 && 1 <= day <= DaysIn(false, m) && e.month.bits[m] && e.dom.bits[day];
    } else if !(e.dom.all && e.dow.all) {
      var w :| 0 <= w < 60 && e.dow.bits[w];
      var k := WeekdayWithin(DayNumber(Date(y, m, 1)), w);
      day := 1 + k;
      DayNumberInYear(Date(y, m, 1));
      DayNumberInYear(Date(y, m, day));
    }
    LeapMonths(m);
    var d := Date(y, m, day);
    n := DayNumber(d);
    DateInYear(d);
    DayNumberRoundTrip(d);
  }

  lemma LeapMonths(m: int)
    requires 1 <= m <= 12
    ensures DaysIn(true, m) == DaysIn(false, m) + if m == 2 then 1 else 0
    ensures DaysIn(false, 2) == 28
  {
  }

  /** Unless it is bound to dates, and no selected date exists in every year, Next always finds a firing. */
  lemma AlwaysFires(e: Expr, off: int, after: int)
    requires off % HOUR == 0 && WellFormed(e) && (BoundToDates(e) ==> HasCommonDate(e))
    ensures FastNext(e, off, after).Some?
  {
    hide FastNext, Matches, WellFormed, CivilDate, YearStart, LimitOf, DayIndex;
    var y := CivilDate(DayIndex(off, StartOf(after))).year;
    var n := SelectedDay(e, y + 1);
    YearsApart(y + 2, y + 5);
    MatchesOn(e, off, n);
    InWindow(off, StartOf(after), n, EarliestOn(e, off, n));
    FiresIfMatch(e, off, after, EarliestOn(e, off, n));
  }

  /** With no selected date common to all years, every match falls on 29 February. */
  lemma OnlyLeapDays(e: Expr, off: int, t: int)
    requires BoundToDates(e) && !HasCommonDate(e) && Matches(e, off, t)
    ensures var d := CivilDate(DayIndex(off, t));
            d.month == 2 && d.day == 29 && IsLeap(d.year) && e.dom.bits[29] && e.month.bits[2]
  {
    hide CivilDate, DayIndex, Second, Minute, Hour, DaysIn, IsLeap;
    var d := CivilDate(DayIndex(off, t));
    LeapMonths(d.month);
  }

  lemma LeapDayIs(y: int)
    requires IsLeap(y)
    ensures CivilDate(LeapDay(y)) == Date(y, 2, 29) && YearStart(y) <= LeapDay(y) < YearStart(y + 1)
  {
    hide CivilDate, DayNumber, YearStart, IsLeap;
    DayNumberRoundTrip(Date(y, 2, 29));
    DateInYear(Date(y, 2, 29));
  }

  /** A selected 29 February of a leap year matches at its earliest and latest selected times. */
  lemma LeapDayMatches(e: Expr, off: int, y: int)
    requires WellFormed(e) && BoundToDates(e) && IsLeap(y) && e.dom.bits[29] && e.month.bits[2]
    ensures Matches(e, off, EarliestOn(e, off, LeapDay(y)))
    ensures DayIndex(off, EarliestOn(e, off, LeapDay(y))) == LeapDay(y)
    ensures Matches(e, off, LatestOn(e, off, LeapDay(y))) && DayIndex(off, LatestOn(e, off, LeapDay(y))) == LeapDay(y)
  {
    hide CivilDate, DayNumber, IsLeap, Matches, DayIndex;
    LeapDayIs(y);
    MatchesOn(e, off, LeapDay(y));
  }

  /** The years a match in the window can fall in. */
  lemma WindowYears(off: int, start: int, t: int)
    requires start <= t < LimitOf(off, start)
    ensures var y := CivilDate(DayIndex(off, start)).year;
            y <= CivilDate(DayIndex(off, t)).year <= y + 5
  {
    hide CivilDate, YearStart, IsLeap, DayNumber;
    var d := CivilDate(DayIndex(off, start));
    DateInYear(d);
    LimitInYear(d);
    YearOfDay(DayIndex(off, t), d.year);
    YearOfDay(DayIndex(off, t), d.year + 6);
  }

  lemma OneFourth(y: int, z: int)
    requires y < z <= y + 4 && IsLeap(z)
    ensures z == NextFourth(y)
  {
  }

  lemma MissedMeansNone(e: Expr, off: int, start: int, t: int)
    requires BoundToDates(e) && !HasCommonDate(e) && LeapDayMissed(e, off, start)
    requires start <= t < LimitOf(off, start)
    ensures !Matches(e, off, t)
  {
    hide CivilDate, IsLeap, YearStart, LimitOf, Matches, DayIndex, EarliestOn, LatestOn, NextFourth;
    if Matches(e, off, t) {
      var y := CivilDate(DayIndex(off, start)).year;
      var z := CivilDate(DayIndex(off, t)).year;
      OnlyLeapDays(e, off, t);
      assert LeapDay(z) == DayIndex(off, t);
      WindowYears(off, start, t);
      BetweenEnds(e, off, t);
      if y < z <= y + 4 {
        OneFourth(y, z);
      }
    }
  }

  lemma NotMissedMeansMatch(e: Expr, off: int, start: int) returns (t: int)
    requires WellFormed(e) && BoundToDates(e) && e.dom.bits[29] && e.month.bits[2]
    requires !LeapDayMissed(e, off, start)
    ensures Matches(e, off, t) && start <= t < LimitOf(off, start)
  {
    hide CivilDate, DayNumber, IsLeap, YearStart, LimitOf, Matches, DayIndex, EarliestOn, LatestOn, LeapDay, WellFormed;
    var y := CivilDate(DayIndex(off, start)).year;
    var z := NextFourth(y);
    if IsLeap(z) {
      LeapDayMatches(e, off, z);
      LeapDayIs(z);
      YearsApart(y + 1, z);
      YearsApart(z + 1, y + 5);
      t := EarliestOn(e, off, LeapDay(z));
      InWindow(off, start, LeapDay(z), t);
    } else if IsLeap(y) && start <= LatestOn(e, off, LeapDay(y)) {
      LeapDayMatches(e, off, y);
      LeapDayIs(y);
      t := LatestOn(e, off, LeapDay(y));
      BeforeLimit(off, start, t, y);
    } else {
      LeapDayMatches(e, off, y + 5);
      LeapDayIs(y + 5);
      t := EarliestOn(e, off, LeapDay(y + 5));
      AfterStart(off, start, t, y + 5);
    }
  }

  lemma BeforeLimit(off: int, start: int, t: int, y: int)
    requires y == CivilDate(DayIndex(off, start)).year && DayIndex(off, t) < YearStart(y + 1)
    ensures t < LimitOf(off, start)
  {
    hide CivilDate, YearStart, IsLeap, DayNumber;
    LimitInYear(CivilDate(DayIndex(off, start)));
    YearsApart(y + 1, y + 5);
  }

  lemma AfterStart(off: int, start: int, t: int, z: int)
    ensures CivilDate(DayIndex(off, start)).year < z && YearStart(z) <= DayIndex(off, t) ==> start <= t
  {
    hide CivilDate, YearStart, IsLeap, DayNumber;
    var y := CivilDate(DayIndex(off, start)).year;
    DateInYear(CivilDate(DayIndex(off, start)));
    if y < z {
      YearsApart(y + 1, z);
    }
  }

  /** Next fails exactly when the expression is bound to dates, none of them exists in every year, and
      29 February is not selected or has no selected second left in the five-year window. */
  lemma FailsExactly(e: Expr, off: int, after: int)
    requires off % HOUR == 0 && WellFormed(e)
    ensures FastNext(e, off, after).None? <==> GivesUp(e, off, StartOf(after))
  {
    hide Matches, Scan, LimitOf, LeapDayMissed, WellFormed;
    var start := StartOf(after);
    var limit := LimitOf(off, start);
    if !BoundToDates(e) || HasCommonDate(e) {
      AlwaysFires(e, off, after);
    } else if GivesUp(e, off, start) {
      forall t | start <= t < limit ensures !Matches(e, off, t) {
        if Matches(e, off, t) {
          OnlyLeapDays(e, off, t);
          MissedMeansNone(e, off, start, t);
        }
      }
      ScanIsLeast(e, off, start, limit);
    } else {
      var t := NotMissedMeansMatch(e, off, start);
      FiresIfMatch(e, off, after, t);
    }
  }

  // ---- Stepped day fields ----

  lemma DayInJanuary(d: int)
    requires 1 <= d <= 31
    ensures CivilDate(DayNumber(Date(2001, 1, d))).day == d
  {
    hide CivilDate, DayNumber, IsLeap;
    DayNumberRoundTrip(Date(2001, 1, d));
  }

  /** With the weekday starred, every selected day obeys the day field exactly when that field is not
      starred or is full: a step on a star, as in "*" + "/2", is ignored. */
  lemma DayFieldHonoured(e: Expr)
    requires WellFormed(e) && e.dow.all
    ensures (forall n :: DayOK(e, n) ==> e.dom.bits[CivilDate(n).day]) <==>
            (e.dom.all ==> forall d :: 1 <= d <= 31 ==> e.dom.bits[d])
  {
    hide CivilDate, WellFormed, Weekday, DaysIn, IsLeap;
    if e.dom.all && !(forall d :: 1 <= d <= 31 ==> e.dom.bits[d]) {
      var d :| 1 <= d <= 31 && !e.dom.bits[d];
      DayInJanuary(d);
      assert DayOK(e, DayNumber(Date(2001, 1, d)));
    }
  }

  /** The same for the weekday field when the day of the month is starred. */
  lemma WeekdayFieldHonoured(e: Expr)
    requires WellFormed(e) && e.dom.all
    ensures (forall n :: DayOK(e, n) ==> e.dow.bits[Weekday(n)]) <==>
            (e.dow.all ==> forall w :: 0 <= w <= 6 ==> e.dow.bits[w])
  {
    hide CivilDate, WellFormed;
    if e.dow.all && !(forall w :: 0 <= w <= 6 ==> e.dow.bits[w]) {
      var w :| 0 <= w <= 6 && !e.dow.bits[w];
      var k := WeekdayWithin(0, w);
      assert DayOK(e, k);
    }
  }
}
