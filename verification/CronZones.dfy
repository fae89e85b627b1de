/** In which fixed-offset zones Expr.Next meets its intent.

    `Truncate` rounds absolute time, so the jumps to the next minute and the next hour land on whole
    minutes and hours of UTC (cron/cron.go:95, 104).  The search is right in a zone exactly when its
    offset is a multiple of an hour. */
module CronZones {
  import opened Wrappers
  import opened Calendar
  import opened Cron

  /** Every search in the zone gives what trying every second would give. */
  ghost predicate NextIsRight(off: int) {
    forall e: Expr, after: int ::
      FastNext(e, off, after) == NaiveScan(e, off, StartOf(after), LimitOf(off, StartOf(after)))
  }

  /** The bits lo..hi. */
  function Range(lo: int, hi: int): Bits {
    seq(60, k => lo <= k <= hi)
  }

  /** The expression "0 0 * * * *": every hour on the hour. */
  function EveryHour(): Expr {
    Expr(Field(Range(0, 0), false), Field(Range(0, 0), false), Field(Range(0, 23), true),
         Field(Range(1, 31), true), Field(Range(1, 12), true), Field(Range(0, 6), true))
  }

  lemma EveryHourMatches(off: int, t: int)
    ensures Matches(EveryHour(), off, t) <==> Second(off, t) == 0 && Minute(off, t) == 0
  {
    hide CivilDate;
    assert DayOK(EveryHour(), DayIndex(off, t));
    assert MonthOK(EveryHour(), DayIndex(off, t));
  }

  /** Seconds never reach 0: the jump to the next minute lands on second off % 60. */
  lemma {:induction false} StuckOnSeconds(off: int, t: int, limit: int)
    requires off % 60 != 0 && Second(off, t) != 0
    ensures Scan(EveryHour(), off, t, limit) == None
    decreases limit - t
  {
    hide CivilDate;
    var e := EveryHour();
    JumpProgress(e, off, t);
    if t < limit {
      var j := Truncate(t, MINUTE) + MINUTE;
      assert FirstFrom(e.sec.bits, Second(off, t), 60) == -1;
      assert Jump(e, off, t) == j;
      AddMultiple(t, off, 60);
      StuckOnSeconds(off, j, limit);
    }
  }

  /** t rounded down to a multiple of k, plus k, leaves remainder off % k in the zone. */
  lemma AddMultiple(t: int, off: int, k: int)
    requires k == 60 || k == 3600
    ensures (t - t % k + k + off) % k == off % k
  {
    if k == 60 {
      ModUnique(t - t % 60 + 60 + off, t / 60 + 1 + off / 60, off % 60, 60);
    } else {
      ModUnique(t - t % 3600 + 3600 + off, t / 3600 + 1 + off / 3600, off % 3600, 3600);
    }
  }

  /** Minutes never reach 0: the jump to the next hour lands on minute off / 60 % 60. */
  lemma {:induction false} StuckOnMinutes(off: int, t: int, limit: int)
    requires off % 60 == 0 && off % HOUR != 0 && Second(off, t) == 0 && Minute(off, t) != 0
    ensures Scan(EveryHour(), off, t, limit) == None
    decreases limit - t
  {
    hide CivilDate;
    var e := EveryHour();
    JumpProgress(e, off, t);
    if t < limit {
      var j := Truncate(t, HOUR) + HOUR;
      assert FirstFrom(e.min.bits, Minute(off, t), 60) == -1;
      assert Jump(e, off, t) == j;
      AddMultiple(t, off, 3600);
      ZeroSecond(off, j);
      StuckOnMinutes(off, j, limit);
    }
  }

  lemma ZeroSecond(off: int, t: int)
    requires off % 60 == 0 && (t + off) % 3600 == off % 3600
    ensures Second(off, t) == 0 && Minute(off, t) == off % 3600 / 60
  {
    SplitHour(t + off);
    SplitHour(off);
  }

  /** The window of a search is at least five common years long. */
  lemma WindowLength(off: int, t: int)
    ensures t + 5 * 365 * DAY <= LimitOf(off, t)
  {
    hide CivilDate, DayNumber, YearStart, IsLeap;
    var d := CivilDate(DayIndex(off, t));
    ClockRoundTrip(off, t);
    FiveYearsOn(d);
  }

  lemma FiveYearsOn(d: Date)
    requires ValidDate(d)
    ensures DayNumber(d) + 5 * 365 <= DayNumber(Date(d.year + 5, d.month, d.day))
  {
    hide YearStart, IsLeap, DaysIn;
    DayNumberInYear(d);
    DayNumberInYear(Date(d.year + 5, d.month, d.day));
    FiveYears(d.year);
  }

  /** Five years hold a leap year unless a century year intervenes, whatever the starting month. */
  lemma FiveYears(y: int)
    ensures YearStart(y) + 5 * 365 + (if IsLeap(y) then 1 else 0) <= YearStart(y + 5)
  {
    hide YearStart;
    YearStep(y);
    YearsApart(y + 1, y + 5);
  }

  /** Off the hour grid some search gives up although the window holds a match within the hour. */
  lemma OffTheHourFails(off: int)
    requires off % HOUR != 0
    ensures !NextIsRight(off)
  {
    hide Scan, NaiveScan, LimitOf, Matches, Second, Minute;
    var start := if off % 60 != 0 then 1 - off else 60 - off;
    var after := (start - 1) * SECOND_NS;
    var limit := LimitOf(off, start);
    assert StartOf(after) == start;
    NearMidnight(off);
    if off % 60 != 0 {
      StuckOnSeconds(off, start, limit);
    } else {
      StuckOnMinutes(off, start, limit);
    }
    WindowLength(off, start);
    var hit := 3600 - off;
    EveryHourMatches(off, hit);
    NaiveIsLeast(EveryHour(), off, start, limit);
    assert start <= hit < limit;
    assert NaiveScan(EveryHour(), off, start, limit) != None;
    assert FastNext(EveryHour(), off, after) == None;
  }

  lemma NearMidnight(off: int)
    ensures Second(off, 1 - off) == 1
    ensures Second(off, 60 - off) == 0 && Minute(off, 60 - off) == 1
    ensures Second(off, 3600 - off) == 0 && Minute(off, 3600 - off) == 0
  {
  }

  /** Next is right in a zone if and only if the zone's offset is a whole number of hours. */
  lemma RightExactlyOnTheHour(off: int)
    ensures NextIsRight(off) <==> off % HOUR == 0
  {
    hide FastNext, NaiveScan;
    if off % HOUR == 0 {
      forall e: Expr, after: int
        ensures FastNext(e, off, after) == NaiveScan(e, off, StartOf(after), LimitOf(off, StartOf(after)))
      {
        NextIsNaive(e, off, after);
      }
    } else {
      OffTheHourFails(off);
    }
  }
}
