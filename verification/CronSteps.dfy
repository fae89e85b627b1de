/** What Parse makes of steps that go wrong, from the text on: a step on a starred day field, and a step that
    overflows. */
module CronSteps {
  import opened Wrappers
  import opened Calendar
  import opened GoText
  import opened Cron
  import opened CronFiring
  import opened CronParse
  import opened CronWrappers

  /** The days of a month that a step on a star selects. */
  function EveryNth(step: int): (b: Bits)
    requires step >= 1
    ensures forall j :: 0 <= j < 60 ==> (b[j] <==> 1 <= j <= 31 && OnStep(1, step, j))
  {
    seq(60, j => 1 <= j <= 31 && OnStep(1, step, j))
  }

  lemma StepIsWord(base: string, step: int)
    requires IsWord(base) && ',' !in base
    ensures IsWord(base + "/" + Itoa(step)) && ',' !in base + "/" + Itoa(step)
  {
    hide Itoa;
    ItoaIsWord(step);
  }

  /** The day field with a step on its star is starred, and selects every n-th day; the largest step panics. */
  lemma SteppedStarField(step: int)
    requires 1 <= step <= MAX_INT
    ensures FieldSpec("*/" + Itoa(step), 1, 31, Days) ==
            if step == MAX_INT then Panic else Ok(Field(EveryNth(step), true))
  {
    hide FieldSpec, Fill, Cut, Atoi, Itoa, OnStep;
    var text := "*/" + Itoa(step);
    assert text == "*" + ['/'] + Itoa(step) == "*" + "/" + Itoa(step);
    StepIsWord("*", step);
    AtoiItoa(step);
    CutAt("*", '/', Itoa(step));
    assert text[1] == '/';
    assert ParsePart(text, 1, 31, Days) == Ok(Part(1, 31, step, true));
    FillMeaning(NoBits(), 1, 31, step);
    SinglePart(text, 1, 31, Days);
    if step < MAX_INT {
      assert Fill(NoBits(), 1, 31, step).value == EveryNth(step);
    }
  }

  function DayStepText(step: int): string {
    Join("0", "0", "0", "*/" + Itoa(step), "*", "*")
  }

  lemma ZeroWords()
    ensures IsWord("0") && IsWord("*")
    ensures FieldSpec("0", 0, 59, Secs) == Ok(One(0)) && FieldSpec("0", 0, 59, Mins) == Ok(One(0))
    ensures FieldSpec("0", 0, 23, Hours) == Ok(One(0))
  {
    hide FieldSpec, One;
    assert Itoa(0) == "0";
    Numbers(0, 0, 0);
  }

  /** Only the second of January tells every second day from every day, and so for larger steps. */
  lemma NthDays(step: int)
    requires step >= 1
    ensures (forall d :: 1 <= d <= 31 ==> EveryNth(step)[d]) <==> step == 1
  {
    if step == 1 {
      forall d | 1 <= d <= 31 ensures EveryNth(step)[d] {
        assert OnStep(1, 1, d);
      }
    } else {
      SmallMod(2 - 1, step);
      assert !OnStep(1, step, 2);
      assert !EveryNth(step)[2];
    }
  }

  /** Parse of "0 0 0 * /n * *", without the space: accepted for every n below the largest int, but its firings obey
      the day field only for n = 1; the largest int panics. */
  lemma SteppedStarDay(step: int)
    requires 1 <= step <= MAX_INT
    ensures var r := ParseSpec(DayStepText(step));
            if step == MAX_INT then r == Panic
            else r == Ok(Expr(One(0), One(0), One(0), Field(EveryNth(step), true), Star(1, 12), Star(0, 6)))
                 && ((forall n :: DayOK(r.value, n) ==> r.value.dom.bits[CivilDate(n).day]) <==> step == 1)
  {
    hide FieldSpec, Fields, EveryNth, One, Star, DayOK, WellFormed, Itoa, Join, CivilDate;
    ZeroWords();
    assert "*/" + Itoa(step) == "*" + "/" + Itoa(step);
    StepIsWord("*", step);
    JoinFields("0", "0", "0", "*/" + Itoa(step), "*", "*");
    SteppedStarField(step);
    StarField(1, 12, Months);
    StarField(0, 6, Weekdays);
    if step < MAX_INT {
      ParsedWellFormed(DayStepText(step));
      var e := ParseSpec(DayStepText(step)).value;
      StarIsStarred(e);
      DayFieldHonoured(e);
      NthDays(step);
    }
  }

  lemma StarIsStarred(e: Expr)
    requires e.dow == Star(0, 6)
    ensures e.dow.all
  {
  }

  // ---- When Parse panics ----

  /** The range of the k-th of six fields. */
  function LowestOf(k: int): int {
    if k == 3 || k == 4 then 1 else 0
  }

  function HighestOf(k: int): (hi: int)
    ensures LowestOf(k) <= hi < 60
  {
    if k == 2 then 23 else if k == 3 then 31 else if k == 4 then 12 else if k == 5 then 6 else 59
  }

  function UnitOf(k: int): Unit {
    if k == 0 then Secs else if k == 1 then Mins else if k == 2 then Hours
    else if k == 3 then Days else if k == 4 then Months else Weekdays
  }

  function FieldAs(word: string, k: int): Result<Field> {
    FieldSpec(word, LowestOf(k), HighestOf(k), UnitOf(k))
  }

  ghost predicate HasOverflow(word: string, k: int) {
    OverflowsFirst(word, LowestOf(k), HighestOf(k), UnitOf(k))
  }

  /** Parse panics exactly when it reads five or six fields, and the first of them that is not accepted has a step
      that overflows as the first thing wrong with it. */
  lemma ParsePanicsExactly(expr: string)
    ensures var words := Fields(expr);
            ParseSpec(expr) == Panic <==>
            5 <= |words| <= 6 &&
            exists k :: 0 <= k < |words| && HasOverflow(words[k], k + 6 - |words|)
                        && forall j :: 0 <= j < k ==> FieldAs(words[j], j + 6 - |words|).Ok?
  {
    hide FieldSpec, Fields, HasOverflow;
    var words := Fields(expr);
    if 5 <= |words| <= 6 {
      var d := 6 - |words|;
      forall k | 0 <= k < |words| ensures HasOverflow(words[k], k + d) <==> FieldAs(words[k], k + d) == Panic {
        OverflowPanics(words[k], k + d);
      }
      FirstPanics(words, d);
    }
  }

  lemma OverflowPanics(word: string, k: int)
    ensures HasOverflow(word, k) <==> FieldAs(word, k) == Panic
  {
    hide OverflowsFirst, FieldSpec;
    FieldPanicsExactly(word, LowestOf(k), HighestOf(k), UnitOf(k));
  }

  lemma FirstPanics(words: seq<string>, d: int)
    requires 5 <= |words| <= 6 && d == 6 - |words|
    ensures ParseWords(words) == Panic <==>
            exists k :: 0 <= k < |words| && FieldAs(words[k], k + d) == Panic
                        && forall j :: 0 <= j < k ==> FieldAs(words[j], j + d).Ok?
  {
    hide FieldSpec;
    assert d == 0 ==> FieldAs(words[0], 0) == FieldSpec(words[0], 0, 59, Secs);
    assert FieldAs(words[1 - d], 1) == FieldSpec(words[1 - d], 0, 59, Mins);
    assert FieldAs(words[2 - d], 2) == FieldSpec(words[2 - d], 0, 23, Hours);
    assert FieldAs(words[3 - d], 3) == FieldSpec(words[3 - d], 1, 31, Days);
    assert FieldAs(words[4 - d], 4) == FieldSpec(words[4 - d], 1, 12, Months);
    assert FieldAs(words[5 - d], 5) == FieldSpec(words[5 - d], 0, 6, Weekdays);
  }

  /** So the text "* * * v/n * *" panics exactly when v + n exceeds the largest int. */
  lemma DayStepPanics(v: int, step: int)
    requires 1 <= v <= 31 && 1 <= step <= MAX_INT
    ensures ParseSpec(Join("*", "*", "*", Itoa(v) + "/" + Itoa(step), "*", "*")) == Panic <==> v + step > MAX_INT
  {
    hide FieldSpec, Fields, Itoa, Join, Star;
    var word := Itoa(v) + "/" + Itoa(step);
    ItoaIsWord(v);
    StepIsWord(Itoa(v), step);
    ZeroWords();
    JoinFields("*", "*", "*", word, "*", "*");
    StarField(0, 59, Secs);
    StarField(0, 59, Mins);
    StarField(0, 23, Hours);
    StarField(1, 12, Months);
    StarField(0, 6, Weekdays);
    StepTextPanics(v, step, 1, 31, Days);
  }
}
