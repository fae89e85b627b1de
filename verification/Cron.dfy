/** cron/cron.go: the match predicate of a parsed expression, the skipping search `Next`, and `NextN`.

    `after` is in nanoseconds, results are in whole seconds.  Time is unbounded; zones have a fixed
    offset `off` in seconds east of UTC. */
module Cron {
  import opened Wrappers
  import opened Calendar

  const MAX_SCAN_YEARS := 5
  const SECOND_NS := 1_000_000_000

  type Bits = s: seq<bool> | |s| == 60 witness seq(60, i => false)

  datatype Field = Field(bits: Bits, all: bool)

  datatype Expr = Expr(sec: Field, min: Field, hour: Field, dom: Field, month: Field, dow: Field)

  function DayMatch(domAll: bool, dowAll: bool, domOK: bool, dowOK: bool): bool {
    if domAll && dowAll then true
    else if domAll then dowOK
    else if dowAll then domOK
    else domOK || dowOK
  }

  // ---- What an expression selects ----

  predicate DayOK(e: Expr, n: int) {
    DayMatch(e.dom.all, e.dow.all, e.dom.bits[CivilDate(n).day], e.dow.bits[Weekday(n)])
  }

  predicate MonthOK(e: Expr, n: int) {
    e.month.bits[CivilDate(n).month]
  }

  predicate Matches(e: Expr, off: int, t: int) {
    && e.sec.bits[Second(off, t)]
    && e.min.bits[Minute(off, t)]
    && e.hour.bits[Hour(off, t)]
    && DayOK(e, DayIndex(off, t))
    && MonthOK(e, DayIndex(off, t))
  }

  /** r is the least matching second in [from, limit). */
  ghost predicate IsLeast(e: Expr, off: int, from: int, limit: int, r: int) {
    && from <= r < limit
    && Matches(e, off, r)
    && forall s :: from <= s < r ==> !Matches(e, off, s)
  }

  ghost predicate NoneBefore(e: Expr, off: int, from: int, limit: int) {
    forall s :: from <= s < limit ==> !Matches(e, off, s)
  }

  /** The second the search starts at: the first whole second strictly after `after`. */
  function StartOf(after: int): (t: int)
    ensures t * SECOND_NS > after && (t - 1) * SECOND_NS <= after
  {
    (after + SECOND_NS) / SECOND_NS
  }

  function LimitOf(off: int, t: int): int {
    AddYears(off, t, MAX_SCAN_YEARS)
  }

  // ---- The search, one pass of the loop at a time ----

  /** The first set index in [v, bound), or -1. */
  function FirstFrom(bits: Bits, v: int, bound: int): (r: int)
    requires 0 <= v && bound <= 60
    ensures r == -1 || (v <= r < bound && bits[r])
    ensures forall i :: v <= i < (if r == -1 then bound else r) ==> !bits[i]
    decreases bound - v
  {
    if v >= bound then -1 else if bits[v] then v else FirstFrom(bits, v + 1, bound)
  }

  method NextInSet(f: Field, v: int) returns (r: int)
    requires 0 <= v
    ensures r == FirstFrom(f.bits, v, 60)
  {
    var i := v;
    while i < 60
      invariant v <= i
      invariant FirstFrom(f.bits, v, 60) == FirstFrom(f.bits, i, 60)
      decreases 60 - i
    {
      if f.bits[i] {
        return i;
      }
      i := i + 1;
    }
    return -1;
  }

  /** Midnight starting the day after day n. */
  function NextMidnight(off: int, n: int): int {
    var d := CivilDate(n);
    MakeTime(off, Date(d.year, d.month, d.day + 1), 0, 0, 0)
  }

  function NextMonth(off: int, n: int): int {
    var d := CivilDate(n);
    MakeTime(off, Date(d.year, d.month + 1, 1), 0, 0, 0)
  }

  /** Where one pass of the loop moves t; t itself when every field matches. */
  function Jump(e: Expr, off: int, t: int): int {
    var n := DayIndex(off, t);
    if !e.sec.bits[Second(off, t)] then
      var s := FirstFrom(e.sec.bits, Second(off, t), 60);
      if s >= 0 then t + (s - Second(off, t)) else Truncate(t, MINUTE) + MINUTE
    else if !e.min.bits[Minute(off, t)] then
      var m := FirstFrom(e.min.bits, Minute(off, t), 60);
      if m >= 0 then Truncate(t, MINUTE) + (m - Minute(off, t)) * MINUTE else Truncate(t, HOUR) + HOUR
    else if !e.hour.bits[Hour(off, t)] then
      var h := FirstFrom(e.hour.bits, Hour(off, t) + 1, 24);
      if h >= 0 then MakeTime(off, CivilDate(n), h, 0, 0) else NextMidnight(off, n)
    else if !DayOK(e, n) then NextMidnight(off, n)
    else if !MonthOK(e, n) then NextMonth(off, n)
    else t
  }

  lemma NextMidnightIs(off: int, n: int)
    ensures NextMidnight(off, n) == (n + 1) * DAY - off
  {
    hide CivilDate, IsLeap, YearStart, DaysBefore;
    var d := CivilDate(n);
    DayNumberInYear(d);
    DayNumberInYear(Date(d.year, d.month, d.day + 1));
  }

  /** In any zone a pass that finds a mismatch moves t strictly forward; otherwise t matches. */
  lemma JumpProgress(e: Expr, off: int, t: int)
    ensures if Jump(e, off, t) == t then Matches(e, off, t) else t < Jump(e, off, t) && !Matches(e, off, t)
  {
    hide CivilDate, DayNumber, DayMatch;
    var n := DayIndex(off, t);
    NextMidnightIs(off, n);
    NextMonthLater(n);
    SplitClock(t + off);
  }

  /** The loop of Next from t: each pass moves t until a second matches or the limit is reached. */
  function Scan(e: Expr, off: int, t: int, limit: int): Option<int>
    decreases limit - t
  {
    JumpProgress(e, off, t);
    if t >= limit then None
    else if Jump(e, off, t) == t then Some(t)
    else Scan(e, off, Jump(e, off, t), limit)
  }

  function FastNext(e: Expr, off: int, after: int): Option<int> {
    Scan(e, off, StartOf(after), LimitOf(off, StartOf(after)))
  }

  /** Expr.Next.  None stands for the "beyond the scan limit" error. */
  method Next(e: Expr, off: int, after: int) returns (r: Option<int>)
    ensures r == FastNext(e, off, after)
    ensures off % HOUR == 0 ==>
              match r
              case Some(t) => IsLeast(e, off, StartOf(after), LimitOf(off, StartOf(after)), t)
              case None => NoneBefore(e, off, StartOf(after), LimitOf(off, StartOf(after)))
  {
    hide CivilDate, DayNumber, Jump, Matches, DayMatch;
    var t := StartOf(after);
    var limit := LimitOf(off, t);
    if off % HOUR == 0 {
      ScanIsLeast(e, off, t, limit);
    }
    while t < limit
      invariant Scan(e, off, StartOf(after), limit) == Scan(e, off, t, limit)
      decreases limit - t
    {
      JumpProgress(e, off, t);
      var before := t;
      t := Pass(e, off, t);
      if t == before {
        return Some(t);
      }
    }
    return None;
  }

  /** The body of the loop of Next: the new t, or the same t when it is the answer. */
  method Pass(e: Expr, off: int, start: int) returns (t: int)
    ensures t == Jump(e, off, start)
  {
    hide DayNumber, CivilDate, DayMatch;
    t := start;
    var date := CivilDate(DayIndex(off, t));
    if !e.sec.bits[Second(off, t)] {
      var n := NextInSet(e.sec, Second(off, t));
      if n >= 0 {
        return t + (n - Second(off, t));
      }
      return Truncate(t, MINUTE) + MINUTE;
    }
    if !e.min.bits[Minute(off, t)] {
      var n := NextInSet(e.min, Minute(off, t));
      if n >= 0 {
        return Truncate(t, MINUTE) + (n - Minute(off, t)) * MINUTE;
      }
      return Truncate(t, HOUR) + HOUR;
    }
    if !e.hour.bits[Hour(off, t)] {
      var h := Hour(off, t) + 1;
      while h < 24
        invariant Hour(off, t) + 1 <= h
        invariant FirstFrom(e.hour.bits, Hour(off, t) + 1, 24) == FirstFrom(e.hour.bits, h, 24)
        decreases 24 - h
      {
        if e.hour.bits[h] {
          var candidate := MakeTime(off, date, h, 0, 0);
          ClockFields(off, DayIndex(off, t), h, 0, 0);
          if Hour(off, candidate) == h {
            return candidate;
          }
        }
        h := h + 1;
      }
      return MakeTime(off, Date(date.year, date.month, date.day + 1), 0, 0, 0);
    }
    if !DayOK(e, DayIndex(off, t)) {
      return MakeTime(off, Date(date.year, date.month, date.day + 1), 0, 0, 0);
    }
    if !e.month.bits[date.month] {
      return MakeTime(off, Date(date.year, date.month + 1, 1), 0, 0, 0);
    }
  }

  // ---- In whole-hour zones every pass skips only seconds that do not match ----

  lemma WithinMinute(w: int, v: int)
    requires w <= v < w - w % 60 + 60
    ensures v % 60 == w % 60 + (v - w)
  {
  }

  lemma WithinMinutes(w: int, v: int, k: nat)
    requires w <= v < w - w % 60 + k * 60 && w / 60 % 60 + k <= 60
    ensures w / 60 % 60 <= v / 60 % 60 < w / 60 % 60 + k
  {
    assert w / 60 <= v / 60 < w / 60 + k;
  }

  lemma WithinHours(w: int, v: int, k: nat)
    requires w <= v < w - w % 3600 + k * 3600 && w / 3600 % 24 + k <= 24
    ensures w / 3600 % 24 <= v / 3600 % 24 < w / 3600 % 24 + k
  {
    assert w / 3600 <= v / 3600 < w / 3600 + k;
  }

  lemma WholeHourZone(off: int, t: int)
    requires off % HOUR == 0
    ensures (t + off) % 60 == t % 60 && (t + off) % 3600 == t % 3600
  {
    var k := off / 3600;
    assert off == 3600 * k;
    assert (t + 3600 * k) % 3600 == t % 3600;
    assert (t + 60 * (60 * k)) % 60 == t % 60;
  }

  lemma SplitHour(w: int)
    ensures w % 3600 == w / 60 % 60 * 60 + w % 60
  {
  }

  lemma SplitDay(w: int)
    ensures w - w % 3600 == w / DAY * DAY + w / 3600 % 24 * 3600
  {
    assert w / 3600 / 24 == w / DAY;
  }

  lemma SecondSkips(e: Expr, off: int, t: int, s: int)
    requires off % HOUR == 0 && !e.sec.bits[Second(off, t)] && t <= s < Jump(e, off, t)
    ensures !e.sec.bits[Second(off, s)]
  {
    hide CivilDate, DayNumber, DayMatch;
    WholeHourZone(off, t);
    WithinMinute(t + off, s + off);
  }

  lemma MinuteSkips(e: Expr, off: int, t: int, s: int)
    requires off % HOUR == 0 && e.sec.bits[Second(off, t)] && !e.min.bits[Minute(off, t)]
    requires t <= s < Jump(e, off, t)
    ensures !e.min.bits[Minute(off, s)]
  {
    hide CivilDate, DayNumber, DayMatch;
    WholeHourZone(off, t);
    SplitHour(t + off);
    var m := FirstFrom(e.min.bits, Minute(off, t), 60);
    WithinMinutes(t + off, s + off, (if m == -1 then 60 else m) - Minute(off, t));
  }

  lemma HourSkips(e: Expr, off: int, t: int, s: int)
    requires e.sec.bits[Second(off, t)] && e.min.bits[Minute(off, t)] && !e.hour.bits[Hour(off, t)]
    requires t <= s < Jump(e, off, t)
    ensures !e.hour.bits[Hour(off, s)]
  {
    hide CivilDate, DayNumber, DayMatch;
    var h := FirstFrom(e.hour.bits, Hour(off, t) + 1, 24);
    NextMidnightIs(off, DayIndex(off, t));
    SplitDay(t + off);
    assert DayNumber(CivilDate(DayIndex(off, t))) == DayIndex(off, t);
    WithinHours(t + off, s + off, (if h == -1 then 24 else h) - Hour(off, t));
  }

  lemma DaySkips(e: Expr, off: int, t: int, s: int)
    requires DayIndex(off, t) * DAY - off <= t <= s < NextMidnight(off, DayIndex(off, t))
    ensures DayIndex(off, s) == DayIndex(off, t)
  {
    NextMidnightIs(off, DayIndex(off, t));
    hide CivilDate, DayNumber;
  }

  lemma MonthSkips(off: int, t: int, s: int)
    requires t <= s < NextMonth(off, DayIndex(off, t))
    ensures CivilDate(DayIndex(off, s)).month == CivilDate(DayIndex(off, t)).month
  {
    hide CivilDate, DayNumber, IsLeap;
    var n := DayIndex(off, t);
    var d := CivilDate(n);
    assert DayIndex(off, s) < DayNumber(Date(d.year, d.month + 1, 1));
    MonthRun(n, DayIndex(off, s));
  }

  lemma JumpSkips(e: Expr, off: int, t: int, s: int)
    requires off % HOUR == 0 && t <= s < Jump(e, off, t)
    ensures !Matches(e, off, s)
  {
    hide CivilDate, DayNumber, DayMatch, Second, Minute, Hour;
    if !e.sec.bits[Second(off, t)] {
      SecondSkips(e, off, t, s);
    } else if !e.min.bits[Minute(off, t)] {
      MinuteSkips(e, off, t, s);
    } else if !e.hour.bits[Hour(off, t)] {
      HourSkips(e, off, t, s);
    } else if !DayOK(e, DayIndex(off, t)) {
      DaySkips(e, off, t, s);
    } else {
      MonthSkips(off, t, s);
    }
  }

  /** The skipping loop finds the least match, and gives up only when the window holds none. */
  lemma {:induction false} ScanIsLeast(e: Expr, off: int, t: int, limit: int)
    requires off % HOUR == 0
    ensures match Scan(e, off, t, limit)
            case Some(r) => IsLeast(e, off, t, limit, r)
            case None => NoneBefore(e, off, t, limit)
    decreases limit - t
  {
    hide Jump, Matches;
    JumpProgress(e, off, t);
    var j := Jump(e, off, t);
    if t < limit && j != t {
      ScanIsLeast(e, off, j, limit);
      forall s | t <= s < j ensures !Matches(e, off, s) {
        JumpSkips(e, off, t, s);
      }
    }
  }

  // ---- The reference: try every second ----

  function NaiveScan(e: Expr, off: int, t: int, limit: int): Option<int>
    decreases limit - t
  {
    if t >= limit then None
    else if Matches(e, off, t) then Some(t)
    else NaiveScan(e, off, t + 1, limit)
  }

  lemma {:induction false} NaiveIsLeast(e: Expr, off: int, t: int, limit: int)
    ensures match NaiveScan(e, off, t, limit)
            case Some(r) => IsLeast(e, off, t, limit, r)
            case None => NoneBefore(e, off, t, limit)
    decreases limit - t
  {
    hide Matches;
    if t < limit && !Matches(e, off, t) {
      NaiveIsLeast(e, off, t + 1, limit);
    }
  }

  /** In whole-hour zones the skipping search and the second-by-second search agree. */
  lemma FastRefinesNaive(e: Expr, off: int, t: int, limit: int)
    requires off % HOUR == 0
    ensures Scan(e, off, t, limit) == NaiveScan(e, off, t, limit)
  {
    hide Scan, NaiveScan, Matches;
    ScanIsLeast(e, off, t, limit);
    NaiveIsLeast(e, off, t, limit);
  }

  /** Next computes exactly the second-by-second reference. */
  lemma NextIsNaive(e: Expr, off: int, after: int)
    requires off % HOUR == 0
    ensures FastNext(e, off, after) == NaiveScan(e, off, StartOf(after), LimitOf(off, StartOf(after)))
  {
    FastRefinesNaive(e, off, StartOf(after), LimitOf(off, StartOf(after)));
  }

  // ---- NextN ----

  function FastNextN(e: Expr, off: int, after: int, n: nat): Option<seq<int>>
    decreases n
  {
    if n == 0 then Some([]) else
    match FastNext(e, off, after)
    case None => None
    case Some(t) => Prepend([t], FastNextN(e, off, t * SECOND_NS, n - 1))
  }

  function Prepend(front: seq<int>, rest: Option<seq<int>>): Option<seq<int>> {
    match rest
    case None => None
    case Some(ts) => Some(front + ts)
  }

  /** Expr.NextN: an error for n <= 0 or as soon as one search fails. */
  method NextN(e: Expr, off: int, after: int, n: int) returns (r: Option<seq<int>>)
    ensures r == if n <= 0 then None else FastNextN(e, off, after, n)
  {
    hide FastNext;
    if n <= 0 {
      return None;
    }
    var out: seq<int> := [];
    var next := after;
    var i := 0;
    PrependNothing(FastNextN(e, off, after, n));
    while i < n
      invariant 0 <= i <= n
      invariant FastNextN(e, off, after, n) == Prepend(out, FastNextN(e, off, next, n - i))
    {
      var t := Next(e, off, next);
      if t.None? {
        return None;
      }
      PrependTwice(out, [t.value], FastNextN(e, off, t.value * SECOND_NS, n - i - 1));
      out := out + [t.value];
      next := t.value * SECOND_NS;
      i := i + 1;
    }
    assert out + [] == out;
    return Some(out);
  }

  lemma PrependTwice(a: seq<int>, b: seq<int>, rest: Option<seq<int>>)
    ensures Prepend(a, Prepend(b, rest)) == Prepend(a + b, rest)
  {
    if rest.Some? {
      assert a + (b + rest.value) == a + b + rest.value;
    }
  }

  /** ts are all the matching seconds strictly after `after` up to the last of ts, in order. */
  ghost predicate FirstMatches(e: Expr, off: int, after: int, ts: seq<int>) {
    && (forall i :: 0 <= i < |ts| ==> ts[i] * SECOND_NS > after && Matches(e, off, ts[i]))
    && (forall i, j :: 0 <= i < j < |ts| ==> ts[i] < ts[j])
    && (forall i, s :: 0 <= i < |ts| && s * SECOND_NS > after && s <= ts[i] && Matches(e, off, s) ==> s in ts)
  }

  /** NextN returns the first n matching seconds, strictly increasing and none omitted. */
  lemma {:induction false} NextNIsFirst(e: Expr, off: int, after: int, n: nat)
    requires off % HOUR == 0 && FastNextN(e, off, after, n).Some?
    ensures |FastNextN(e, off, after, n).value| == n
    ensures FirstMatches(e, off, after, FastNextN(e, off, after, n).value)
    decreases n
  {
    hide Scan, Matches, LimitOf;
    if n > 0 {
      var t := FastNext(e, off, after).value;
      ScanIsLeast(e, off, StartOf(after), LimitOf(off, StartOf(after)));
      NextNIsFirst(e, off, t * SECOND_NS, n - 1);
      var rest := FastNextN(e, off, t * SECOND_NS, n - 1).value;
      var all := FastNextN(e, off, after, n).value;
      assert all == [t] + rest;
      forall i, s | 0 <= i < |all| && s * SECOND_NS > after && s <= all[i] && Matches(e, off, s)
        ensures s in all
      {
        if s > t {
          assert i > 0;
          assert rest[i - 1] == all[i];
          assert s in rest;
        } else {
          assert all[0] == s;
        }
      }
    }
  }

  function LastOr(after: int, ts: seq<int>): int {
    if ts == [] then after else ts[|ts| - 1] * SECOND_NS
  }

  /** n + m firings are n firings followed by m firings from the last of them, in any zone. */
  lemma {:induction false} NextNSplits(e: Expr, off: int, after: int, n: nat, m: nat)
    ensures FastNextN(e, off, after, n + m) ==
            match FastNextN(e, off, after, n)
            case None => None
            case Some(ts) => Prepend(ts, FastNextN(e, off, LastOr(after, ts), m))
    decreases n
  {
    hide FastNext;
    if n == 0 {
      PrependNothing(FastNextN(e, off, after, m));
    } else if FastNext(e, off, after).Some? {
      var t := FastNext(e, off, after).value;
      NextNSplits(e, off, t * SECOND_NS, n - 1, m);
      var head := FastNextN(e, off, t * SECOND_NS, n - 1);
      if head.Some? {
        PrependTwice([t], head.value, FastNextN(e, off, LastOr(t * SECOND_NS, head.value), m));
        assert LastOr(after, [t] + head.value) == LastOr(t * SECOND_NS, head.value);
      }
    }
  }

  lemma PrependNothing(rest: Option<seq<int>>)
    ensures Prepend([], rest) == rest
  {
    if rest.Some? {
      assert [] + rest.value == rest.value;
    }
  }
}
