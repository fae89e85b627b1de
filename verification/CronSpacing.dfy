/** The firings of the printed expressions are exactly periodic in whole-hour zones. */
module CronSpacing {
  import opened Wrappers
  import opened Calendar
  import opened GoText
  import opened Cron
  import opened CronZones
  import opened CronParse
  import opened CronWrappers

  /** e matches exactly the seconds whose local time leaves remainder `phase`. */
  ghost predicate Periodic(e: Expr, off: int, period: int, phase: int)
    requires period > 0
  {
    && 0 <= phase < period <= WEEK
    && forall t :: Matches(e, off, t) <==> OnPhase(off, period, phase, t)
  }

  predicate OnPhase(off: int, period: int, phase: int, t: int)
    requires period > 0
  {
    (t + off) % period == phase
  }

  /** The first instant at or after start with the phase. */
  function FirstAt(off: int, period: int, phase: int, start: int): int
    requires period > 0
  {
    start + (phase - (start + off)) % period
  }

  lemma FirstAtIsLeast(off: int, period: int, phase: int, start: int)
    requires 0 <= phase < period
    ensures var r := FirstAt(off, period, phase, start);
            start <= r < start + period && OnPhase(off, period, phase, r) &&
            forall s :: start <= s < r ==> !OnPhase(off, period, phase, s)
  {
    var d := (phase - (start + off)) % period;
    var q := (phase - (start + off)) / period;
    assert start + d + off == -q * period + phase;
    ModUnique(start + d + off, -q, phase, period);
    forall s | start <= s < start + d ensures !OnPhase(off, period, phase, s) {
      SamePhaseApart(start + d + off, s + off, period);
    }
  }

  lemma SamePhaseApart(x: int, y: int, period: int)
    requires y < x < y + period
    ensures x % period != y % period
  {
    var a, b := x / period, y / period;
    assert x - y == (a - b) * period + (x % period - y % period);
    NoMultipleBetween(a - b, period);
  }

  lemma NoMultipleBetween(k: int, period: int)
    requires period > 0
    ensures k * period <= 0 || k * period >= period
  {
    assert k >= 1 ==> (k - 1) * period >= 0;
    assert k <= 0 ==> -k * period >= 0;
  }

  /** Where the next firing falls. */
  lemma PeriodicNext(e: Expr, off: int, period: int, phase: int, after: int)
    requires off % HOUR == 0 && period > 0 && Periodic(e, off, period, phase)
    ensures FastNext(e, off, after) == Some(FirstAt(off, period, phase, StartOf(after)))
  {
    hide Matches, Scan, LimitOf, OnPhase, FirstAt;
    var start := StartOf(after);
    FirstAtIsLeast(off, period, phase, start);
    WindowLength(off, start);
    ScanIsLeast(e, off, start, LimitOf(off, start));
    var r := FirstAt(off, period, phase, start);
    assert Matches(e, off, r);
  }

  /** After a firing the next one is exactly one period later. */
  lemma OnePeriodOn(off: int, period: int, phase: int, t: int)
    requires 0 <= phase < period && OnPhase(off, period, phase, t)
    ensures FirstAt(off, period, phase, t + 1) == t + period
    ensures OnPhase(off, period, phase, t + period)
  {
    FirstAtIsLeast(off, period, phase, t + 1);
    var r := FirstAt(off, period, phase, t + 1);
    var q := (t + off) / period;
    assert t + period + off == (q + 1) * period + phase;
    ModUnique(t + period + off, q + 1, phase, period);
    if r != t + period {
      SamePhaseApart(t + period + off, r + off, period);
    }
  }

  function Every(first: int, period: int, n: nat): seq<int>
    decreases n
  {
    if n == 0 then [] else [first] + Every(first + period, period, n - 1)
  }

  lemma {:induction false} EveryAt(first: int, period: int, n: nat, i: nat)
    requires i < n
    ensures |Every(first, period, n)| == n && Every(first, period, n)[i] == first + i * period
    decreases n
  {
    if i > 0 {
      EveryAt(first + period, period, n - 1, i - 1);
    } else if n > 1 {
      EveryAt(first + period, period, n - 1, 0);
    }
  }

  /** NextN of a periodic expression: n firings one period apart, from the first at or after the start. */
  lemma {:induction false} PeriodicNextN(e: Expr, off: int, period: int, phase: int, after: int, n: nat)
    requires off % HOUR == 0 && period > 0 && Periodic(e, off, period, phase)
    ensures FastNextN(e, off, after, n) == Some(Every(FirstAt(off, period, phase, StartOf(after)), period, n))
    decreases n
  {
    hide FastNext, FirstAt, Periodic;
    if n > 0 {
      PeriodicNext(e, off, period, phase, after);
      PhaseBounds(e, off, period, phase);
      var t := FirstAt(off, period, phase, StartOf(after));
      FirstAtIsLeast(off, period, phase, StartOf(after));
      OnePeriodOn(off, period, phase, t);
      assert StartOf(t * SECOND_NS) == t + 1;
      PeriodicNextN(e, off, period, phase, t * SECOND_NS, n - 1);
    }
  }

  lemma PhaseBounds(e: Expr, off: int, period: int, phase: int)
    requires period > 0 && Periodic(e, off, period, phase)
    ensures 0 <= phase < period <= WEEK
  {
  }

  // ---- The four wrappers ----

  lemma DateInRange(n: int)
    ensures Star(1, 31).bits[CivilDate(n).day] && Star(1, 12).bits[CivilDate(n).month]
    ensures Star(0, 6).bits[Weekday(n)]
  {
    hide CivilDate, Weekday, DayNumber;
  }

  /** What the printed expressions match, field by field. */
  lemma PrintedMatches(off: int, t: int, weekday: int, hour: int, minute: int, second: int)
    requires 0 <= weekday <= 6 && 0 <= hour <= 23 && 0 <= minute <= 59 && 0 <= second <= 59
    ensures Matches(EveryMinuteExpr(second), off, t) <==> Second(off, t) == second
    ensures Matches(EveryHourExpr(minute), off, t) <==> Second(off, t) == 0 && Minute(off, t) == minute
    ensures Matches(DailyExpr(hour, minute, second), off, t) <==>
            Second(off, t) == second && Minute(off, t) == minute && Hour(off, t) == hour
    ensures Matches(WeeklyExpr(weekday, hour, minute, second), off, t) <==>
            Second(off, t) == second && Minute(off, t) == minute && Hour(off, t) == hour &&
            Weekday(DayIndex(off, t)) == weekday
  {
    hide CivilDate, DayIndex, Second, Minute, Hour, Weekday;
    DateInRange(DayIndex(off, t));
  }

  lemma EveryMinutePeriodic(second: int, off: int)
    requires 0 <= second <= 59
    ensures Periodic(EveryMinuteExpr(second), off, MINUTE, second)
  {
    hide Matches;
    forall t ensures Matches(EveryMinuteExpr(second), off, t) <==> OnPhase(off, MINUTE, second, t) {
      PrintedMatches(off, t, 0, 0, 0, second);
    }
  }

  lemma EveryHourPeriodic(minute: int, off: int)
    requires 0 <= minute <= 59
    ensures Periodic(EveryHourExpr(minute), off, HOUR, minute * MINUTE)
  {
    hide Matches, Minute, Second, Hour;
    forall t ensures Matches(EveryHourExpr(minute), off, t) <==> OnPhase(off, HOUR, minute * MINUTE, t) {
      PrintedMatches(off, t, 0, 0, minute, 0);
      TimeOfDay(off, t);
    }
  }

  lemma DailyPeriodic(hour: int, minute: int, second: int, off: int)
    requires 0 <= hour <= 23 && 0 <= minute <= 59 && 0 <= second <= 59
    ensures Periodic(DailyExpr(hour, minute, second), off, DAY, hour * HOUR + minute * MINUTE + second)
  {
    hide Matches, Minute, Second, Hour;
    var phase := hour * HOUR + minute * MINUTE + second;
    forall t ensures Matches(DailyExpr(hour, minute, second), off, t) <==> OnPhase(off, DAY, phase, t) {
      PrintedMatches(off, t, 0, hour, minute, second);
      TimeOfDay(off, t);
      SameTime(0, Hour(off, t), Minute(off, t), Second(off, t), 0, hour, minute, second);
    }
  }

  lemma TimeOfDay(off: int, t: int)
    ensures (t + off) % HOUR == Minute(off, t) * MINUTE + Second(off, t)
    ensures (t + off) % DAY == Hour(off, t) * HOUR + Minute(off, t) * MINUTE + Second(off, t)
  {
    SplitHour(t + off);
    SplitDay(t + off);
  }

  lemma SameTime(d: int, h: int, m: int, s: int, d': int, h': int, m': int, s': int)
    requires 0 <= h < 24 && 0 <= m < 60 && 0 <= s < 60 && 0 <= h' < 24 && 0 <= m' < 60 && 0 <= s' < 60
    ensures d * DAY + h * HOUR + m * MINUTE + s == d' * DAY + h' * HOUR + m' * MINUTE + s' <==>
            d == d' && h == h' && m == m' && s == s'
  {
  }

  /** Seconds from Monday midnight to the given weekday (0 is Sunday) and time. */
  function WeekPhase(weekday: int, hour: int, minute: int, second: int): int {
    (weekday + 6) % 7 * DAY + hour * HOUR + minute * MINUTE + second
  }

  lemma WeeklyPeriodic(weekday: int, hour: int, minute: int, second: int, off: int)
    requires 0 <= weekday <= 6 && 0 <= hour <= 23 && 0 <= minute <= 59 && 0 <= second <= 59
    ensures Periodic(WeeklyExpr(weekday, hour, minute, second), off, WEEK, WeekPhase(weekday, hour, minute, second))
  {
    hide Matches, DayIndex, Weekday, Minute, Second, Hour;
    var phase := WeekPhase(weekday, hour, minute, second);
    forall t ensures Matches(WeeklyExpr(weekday, hour, minute, second), off, t) <==> OnPhase(off, WEEK, phase, t) {
      PrintedMatches(off, t, weekday, hour, minute, second);
      TimeOfDay(off, t);
      TimeOfWeek(off, t);
      WeekdayShift(DayIndex(off, t), weekday);
      SameTime(DayIndex(off, t) % 7, Hour(off, t), Minute(off, t), Second(off, t),
               (weekday + 6) % 7, hour, minute, second);
    }
  }

  lemma TimeOfWeek(off: int, t: int)
    ensures (t + off) % WEEK == DayIndex(off, t) % 7 * DAY + (t + off) % DAY
  {
    var w := t + off;
    assert w / DAY / 7 == w / WEEK;
    assert w == w / DAY * DAY + w % DAY;
    assert w / DAY == w / DAY / 7 * 7 + w / DAY % 7;
  }

  lemma WeekdayShift(n: int, weekday: int)
    requires 0 <= weekday <= 6
    ensures Weekday(n) == weekday <==> n % 7 == (weekday + 6) % 7
  {
  }

  // ---- Round trip: print, parse, fire ----

  /** DailyAt in range parses, and its n firings from any instant are the given time of day, 86400 s apart. */
  lemma DailyFires(hour: int, minute: int, second: int, off: int, after: int, n: nat)
    requires 0 <= hour <= 23 && 0 <= minute <= 59 && 0 <= second <= 59 && off % HOUR == 0
    ensures ParseSpec(DailyText(hour, minute, second)).Ok?
    ensures FastNextN(ParseSpec(DailyText(hour, minute, second)).value, off, after, n) ==
            Some(Every(FirstAt(off, DAY, hour * HOUR + minute * MINUTE + second, StartOf(after)), DAY, n))
  {
    hide ParseSpec, FastNextN, Periodic, FirstAt, DailyText;
    DailyParses(hour, minute, second);
    DailyPeriodic(hour, minute, second, off);
    PeriodicNextN(DailyExpr(hour, minute, second), off, DAY, hour * HOUR + minute * MINUTE + second, after, n);
  }

  lemma WeeklyFires(weekday: int, hour: int, minute: int, second: int, off: int, after: int, n: nat)
    requires 0 <= weekday <= 6 && 0 <= hour <= 23 && 0 <= minute <= 59 && 0 <= second <= 59 && off % HOUR == 0
    ensures ParseSpec(WeeklyText(weekday, hour, minute, second)).Ok?
    ensures FastNextN(ParseSpec(WeeklyText(weekday, hour, minute, second)).value, off, after, n) ==
            Some(Every(FirstAt(off, WEEK, WeekPhase(weekday, hour, minute, second), StartOf(after)), WEEK, n))
  {
    hide ParseSpec, FastNextN, Periodic, FirstAt, WeeklyText, WeekPhase;
    WeeklyParses(weekday, hour, minute, second);
    WeeklyPeriodic(weekday, hour, minute, second, off);
    PeriodicNextN(WeeklyExpr(weekday, hour, minute, second), off, WEEK,
                  WeekPhase(weekday, hour, minute, second), after, n);
  }

  lemma EveryHourFires(minute: int, off: int, after: int, n: nat)
    requires 0 <= minute <= 59 && off % HOUR == 0
    ensures ParseSpec(EveryHourText(minute)).Ok?
    ensures FastNextN(ParseSpec(EveryHourText(minute)).value, off, after, n) ==
            Some(Every(FirstAt(off, HOUR, minute * MINUTE, StartOf(after)), HOUR, n))
  {
    hide ParseSpec, FastNextN, Periodic, FirstAt, EveryHourText;
    EveryHourParses(minute);
    EveryHourPeriodic(minute, off);
    PeriodicNextN(EveryHourExpr(minute), off, HOUR, minute * MINUTE, after, n);
  }

  lemma EveryMinuteFires(second: int, off: int, after: int, n: nat)
    requires 0 <= second <= 59 && off % HOUR == 0
    ensures ParseSpec(EveryMinuteText(second)).Ok?
    ensures FastNextN(ParseSpec(EveryMinuteText(second)).value, off, after, n) ==
            Some(Every(FirstAt(off, MINUTE, second, StartOf(after)), MINUTE, n))
  {
    hide ParseSpec, FastNextN, Periodic, FirstAt, EveryMinuteText;
    EveryMinuteParses(second);
    EveryMinutePeriodic(second, off);
    PeriodicNextN(EveryMinuteExpr(second), off, MINUTE, second, after, n);
  }
}
