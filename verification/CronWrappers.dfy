/** internal/core/scheduler.go: EveryMinuteAt, EveryHourAt, DailyAt and WeeklyAt print a cron expression.
    Their arguments are Go ints. */
module CronWrappers {
  import opened Wrappers
  import opened Calendar
  import opened GoText
  import opened Cron
  import opened CronZones
  import opened CronParse

  const WEEK := 7 * DAY

  predicate IsInt(n: int) {
    MIN_INT <= n <= MAX_INT
  }

  function Join(a: string, b: string, c: string, d: string, e: string, f: string): string {
    a + " " + (b + " " + (c + " " + (d + " " + (e + " " + f))))
  }

  function EveryMinuteText(second: int): string {
    Join(Itoa(second), "*", "*", "*", "*", "*")
  }

  function EveryHourText(minute: int): string {
    Join("0", Itoa(minute), "*", "*", "*", "*")
  }

  function DailyText(hour: int, minute: int, second: int): string {
    Join(Itoa(second), Itoa(minute), Itoa(hour), "*", "*", "*")
  }

  function WeeklyText(weekday: int, hour: int, minute: int, second: int): string {
    Join(Itoa(second), Itoa(minute), Itoa(hour), "*", "*", Itoa(weekday))
  }

  lemma JoinFields(a: string, b: string, c: string, d: string, e: string, f: string)
    requires IsWord(a) && IsWord(b) && IsWord(c) && IsWord(d) && IsWord(e) && IsWord(f)
    ensures Fields(Join(a, b, c, d, e, f)) == [a, b, c, d, e, f]
  {
    hide Fields, IsWord;
    WordAlone(f);
    WordThenRest(e, f);
    WordThenRest(d, e + " " + f);
    WordThenRest(c, d + " " + (e + " " + f));
    WordThenRest(b, c + " " + (d + " " + (e + " " + f)));
    WordThenRest(a, b + " " + (c + " " + (d + " " + (e + " " + f))));
  }

  function One(n: int): Field {
    Field(Range(n, n), false)
  }

  function Star(lo: int, hi: int): Field {
    Field(Range(lo, hi), true)
  }

  /** A printed number is accepted exactly when it is in range, and then denotes itself. */
  lemma NumberField(n: int, lo: int, hi: int, unit: Unit)
    requires 0 <= lo <= hi < 60 && IsInt(n)
    ensures if lo <= n <= hi then FieldSpec(Itoa(n), lo, hi, unit) == Ok(One(n))
            else FieldSpec(Itoa(n), lo, hi, unit).Invalid?
  {
    hide FieldSpec, Fill, Cut, Atoi;
    var text := Itoa(n);
    ItoaIsWord(n);
    AtoiItoa(n);
    SinglePart(text, lo, hi, unit);
    if n < 0 {
      hide Itoa;
      NegativePart(n, lo, hi, unit);
    } else {
      hide Itoa;
      assert ParsePart(text, lo, hi, unit) ==
        if lo <= n <= hi then Ok(Part(n, n, 1, false)) else Invalid(BadValue(unit));
      if lo <= n <= hi {
        FillIsRange(n, n);
      }
    }
  }

  lemma NegativePart(n: int, lo: int, hi: int, unit: Unit)
    requires 0 <= lo <= hi < 60 && n < 0
    ensures ParsePart(Itoa(n), lo, hi, unit) == Invalid(BadRange(unit))
  {
    hide Cut, Digits;
    var text := Itoa(n);
    ItoaIsWord(n);
    CutAt("", '-', Digits(-n));
    assert "" + ['-'] + Digits(-n) == text;
    assert Atoi("") == None;
  }

  lemma FillIsRange(lo: int, hi: int)
    requires 0 <= lo <= hi < 60
    ensures Fill(NoBits(), lo, hi, 1) == Some(Range(lo, hi))
  {
    hide Fill;
    FillMeaning(NoBits(), lo, hi, 1);
    var b := Fill(NoBits(), lo, hi, 1).value;
    forall j | 0 <= j < 60 ensures b[j] == Range(lo, hi)[j] {
      assert OnStep(lo, 1, j);
    }
    assert b == Range(lo, hi);
  }

  lemma StarField(lo: int, hi: int, unit: Unit)
    requires 0 <= lo <= hi < 60
    ensures FieldSpec("*", lo, hi, unit) == Ok(Star(lo, hi))
  {
    hide FieldSpec, Fill;
    SinglePart("*", lo, hi, unit);
    FillIsRange(lo, hi);
  }

  /** Parse of six words whose fourth and fifth are stars, from the verdicts on the others. */
  lemma ParseSix(a: string, b: string, c: string, f: string)
    requires IsWord(a) && IsWord(b) && IsWord(c) && IsWord(f)
    ensures var sec, min, hour, dow := FieldSpec(a, 0, 59, Secs), FieldSpec(b, 0, 59, Mins),
                                       FieldSpec(c, 0, 23, Hours), FieldSpec(f, 0, 6, Weekdays);
            var r := ParseSpec(Join(a, b, c, "*", "*", f));
            if sec.Ok? && min.Ok? && hour.Ok? && dow.Ok?
            then r == Ok(Expr(sec.value, min.value, hour.value, Star(1, 31), Star(1, 12), dow.value))
            else !r.Ok? && (r == Panic ==> sec == Panic || min == Panic || hour == Panic || dow == Panic)
  {
    hide FieldSpec, Fields, Join, Star;
    assert IsWord("*");
    JoinFields(a, b, c, "*", "*", f);
    StarField(1, 31, Days);
    StarField(1, 12, Months);
  }

  function WeeklyExpr(weekday: int, hour: int, minute: int, second: int): Expr {
    Expr(One(second), One(minute), One(hour), Star(1, 31), Star(1, 12), One(weekday))
  }

  function DailyExpr(hour: int, minute: int, second: int): Expr {
    Expr(One(second), One(minute), One(hour), Star(1, 31), Star(1, 12), Star(0, 6))
  }

  function EveryHourExpr(minute: int): Expr {
    Expr(One(0), One(minute), Star(0, 23), Star(1, 31), Star(1, 12), Star(0, 6))
  }

  function EveryMinuteExpr(second: int): Expr {
    Expr(One(second), Star(0, 59), Star(0, 23), Star(1, 31), Star(1, 12), Star(0, 6))
  }

  /** WeeklyAt is accepted exactly for weekday 0-6, hour 0-23, minute and second 0-59, and never panics. */
  lemma WeeklyParses(weekday: int, hour: int, minute: int, second: int)
    requires IsInt(weekday) && IsInt(hour) && IsInt(minute) && IsInt(second)
    ensures var r := ParseSpec(WeeklyText(weekday, hour, minute, second));
            if 0 <= weekday <= 6 && 0 <= hour <= 23 && 0 <= minute <= 59 && 0 <= second <= 59
            then r == Ok(WeeklyExpr(weekday, hour, minute, second)) else r.Invalid?
  {
    hide FieldSpec, ParseSpec, One, Join, Itoa;
    Numbers(hour, minute, second);
    NumberField(weekday, 0, 6, Weekdays);
    ItoaIsWord(weekday);
    ParseSix(Itoa(second), Itoa(minute), Itoa(hour), Itoa(weekday));
  }

  lemma Numbers(hour: int, minute: int, second: int)
    requires IsInt(hour) && IsInt(minute) && IsInt(second)
    ensures IsWord(Itoa(hour)) && IsWord(Itoa(minute)) && IsWord(Itoa(second))
    ensures var f := FieldSpec(Itoa(second), 0, 59, Secs);
            if 0 <= second <= 59 then f == Ok(One(second)) else f.Invalid?
    ensures var f := FieldSpec(Itoa(minute), 0, 59, Mins);
            if 0 <= minute <= 59 then f == Ok(One(minute)) else f.Invalid?
    ensures var f := FieldSpec(Itoa(hour), 0, 23, Hours); if 0 <= hour <= 23 then f == Ok(One(hour)) else f.Invalid?
  {
    hide FieldSpec, One, Itoa;
    NumberField(second, 0, 59, Secs);
    NumberField(minute, 0, 59, Mins);
    NumberField(hour, 0, 23, Hours);
    ItoaIsWord(hour);
    ItoaIsWord(minute);
    ItoaIsWord(second);
  }

  lemma DailyParses(hour: int, minute: int, second: int)
    requires IsInt(hour) && IsInt(minute) && IsInt(second)
    ensures var r := ParseSpec(DailyText(hour, minute, second));
            if 0 <= hour <= 23 && 0 <= minute <= 59 && 0 <= second <= 59
            then r == Ok(DailyExpr(hour, minute, second)) else r.Invalid?
  {
    hide FieldSpec, ParseSpec, One, Star, Join, Itoa;
    Numbers(hour, minute, second);
    assert IsWord("*");
    StarField(0, 6, Weekdays);
    ParseSix(Itoa(second), Itoa(minute), Itoa(hour), "*");
  }

  lemma EveryHourParses(minute: int)
    requires IsInt(minute)
    ensures var r := ParseSpec(EveryHourText(minute));
            if 0 <= minute <= 59 then r == Ok(EveryHourExpr(minute)) else r.Invalid?
  {
    hide FieldSpec, ParseSpec, Star, Join;
    Numbers(0, minute, 0);
    assert Itoa(0) == "0";
    hide Itoa, One;
    assert IsWord("*");
    StarField(0, 6, Weekdays);
    StarField(0, 23, Hours);
    ParseSix("0", Itoa(minute), "*", "*");
  }

  lemma EveryMinuteParses(second: int)
    requires IsInt(second)
    ensures var r := ParseSpec(EveryMinuteText(second));
            if 0 <= second <= 59 then r == Ok(EveryMinuteExpr(second)) else r.Invalid?
  {
    hide FieldSpec, ParseSpec, One, Star, Join, Itoa;
    Numbers(0, 0, second);
    assert IsWord("*");
    StarField(0, 59, Mins);
    StarField(0, 23, Hours);
    StarField(0, 6, Weekdays);
    ParseSix(Itoa(second), "*", "*", "*");
  }

  /** The expression that goes wrong off the hour grid is EveryHourAt(0). */
  lemma EveryHourIsParsed()
    ensures ParseSpec(EveryHourText(0)) == Ok(EveryHour())
  {
    hide ParseSpec;
    EveryHourParses(0);
  }
}
