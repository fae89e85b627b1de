/** cron/cron.go: Parse and parseField. */
module CronParse {
  import opened Wrappers
  import opened GoText
  import Calendar
  import opened Cron
  import opened CronFiring

  datatype Unit = Secs | Mins | Hours | Days | Months | Weekdays

  /** The three kinds of field error and the field count error; all carry the same error code. */
  datatype Reason = FieldCount | BadStep(unit: Unit) | BadRange(unit: Unit) | BadValue(unit: Unit)

  /** Panic is Go's index-out-of-range run-time panic. */
  datatype Result<+T> = Ok(value: T) | Invalid(reason: Reason) | Panic

  /** One comma part: lo, lo + step, ... up to hi. */
  datatype Part = Part(lo: int, hi: int, step: int, star: bool)

  function NoBits(): Bits {
    seq(60, i => false)
  }

  /** The step of one part and what stands before the slash. */
  function SplitStep(part: string, unit: Unit): Result<(string, int)> {
    if '/' !in part then Ok((part, 1))
    else
      var seg := Cut(part, '/');
      var n := Atoi(seg.1);
      if n.None? || n.value <= 0 then Invalid(BadStep(unit)) else Ok((seg.0, n.value))
  }

  function ParsePart(raw: string, lo: int, hi: int, unit: Unit): Result<Part> {
    var part := if raw == "?" then "*" else raw;
    match SplitStep(part, unit)
    case Invalid(why) => Invalid(why)
    case Panic => Panic
    case Ok((base, step)) =>
      if base == "*" then Ok(Part(lo, hi, step, true))
      else if '-' in base then
        var seg := Cut(base, '-');
        var a, b := Atoi(seg.0), Atoi(seg.1);
        if a.None? || b.None? || a.value < lo || b.value > hi || a.value > b.value then Invalid(BadRange(unit))
        else Ok(Part(a.value, b.value, step, false))
      else
        var n := Atoi(base);
        if n.None? || n.value < lo || n.value > hi then Invalid(BadValue(unit))
        else Ok(Part(n.value, n.value, step, false))
  }

  /** `for i := lo; i <= hi; i += step` with 64-bit wrap-around; None is the panic on a wrapped index. */
  function Fill(bits: Bits, i: int, hi: int, step: int): Option<Bits>
    requires hi < 60 && 1 <= step <= MAX_INT
    decreases if i < 0 then 0 else hi + 1 - i
  {
    if i > hi then Some(bits)
    else if i < 0 then None
    else Fill(bits[i := true], WrapInt(i + step), hi, step)
  }

  /** The parts of a field from the k-th on, after the earlier ones set `bits` and `all`. */
  function FieldFrom(parts: seq<string>, lo: int, hi: int, unit: Unit, bits: Bits, all: bool): Result<Field>
    requires 0 <= lo <= hi < 60
  {
    if parts == [] then Ok(Field(bits, all))
    else
      match ParsePart(parts[0], lo, hi, unit)
      case Invalid(why) => Invalid(why)
      case Panic => Panic
      case Ok(p) =>
        PartInRange(parts[0], lo, hi, unit);
        match Fill(bits, p.lo, p.hi, p.step)
        case None => Panic
        case Some(b) => FieldFrom(parts[1..], lo, hi, unit, b, all || p.star)
  }

  lemma PartInRange(raw: string, lo: int, hi: int, unit: Unit)
    requires lo <= hi
    ensures ParsePart(raw, lo, hi, unit) != Panic
    ensures match ParsePart(raw, lo, hi, unit)
            case Ok(p) => lo <= p.lo <= p.hi <= hi && 1 <= p.step <= MAX_INT
            case _ => true
  {
    hide Cut, Atoi, IndexOf;
  }

  function FieldSpec(s: string, lo: int, hi: int, unit: Unit): Result<Field>
    requires 0 <= lo <= hi < 60
  {
    FieldFrom(Split(s, ','), lo, hi, unit, NoBits(), false)
  }

  /** parseField. */
  method ParseField(s: string, lo: int, hi: int, unit: Unit) returns (r: Result<Field>)
    requires 0 <= lo <= hi < 60
    ensures r == FieldSpec(s, lo, hi, unit)
  {
    hide ParsePart, Fill, Split, NoBits;
    var bits := NoBits();
    var all := false;
    var parts := Split(s, ',');
    var k := 0;
    while k < |parts|
      invariant 0 <= k <= |parts|
      invariant FieldSpec(s, lo, hi, unit) == FieldFrom(parts[k..], lo, hi, unit, bits, all)
    {
      assert parts[k..][1..] == parts[k + 1..];
      var p := ParsePart(parts[k], lo, hi, unit);
      PartInRange(parts[k], lo, hi, unit);
      if p.Invalid? {
        return Invalid(p.reason);
      }
      all := all || p.value.star;
      var filled := SetSteps(bits, p.value.lo, p.value.hi, p.value.step);
      if filled.None? {
        return Panic;
      }
      bits := filled.value;
      k := k + 1;
    }
    return Ok(Field(bits, all));
  }

  /** The inner loop of parseField. */
  method SetSteps(start: Bits, lo: int, hi: int, step: int) returns (r: Option<Bits>)
    requires hi < 60 && 1 <= step <= MAX_INT
    ensures r == Fill(start, lo, hi, step)
  {
    var bits := start;
    var i := lo;
    while i <= hi
      invariant Fill(start, lo, hi, step) == Fill(bits, i, hi, step)
      decreases if i < 0 then 0 else hi + 1 - i
    {
      if i < 0 {
        return None;
      }
      bits := bits[i := true];
      i := WrapInt(i + step);
    }
    return Some(bits);
  }

  // ---- What a field means: a union of progressions ----

  /** The step is so large that adding it to the first value wraps around. */
  predicate Overflows(p: Part) {
    p.lo + p.step > MAX_INT
  }

  /** step divides the distance from i to j. */
  predicate OnStep(i: int, step: int, j: int)
    requires step >= 1
  {
    (j - i) % step == 0
  }

  predicate InProgression(p: Part, i: int)
    requires p.step >= 1
  {
    p.lo <= i <= p.hi && OnStep(p.lo, p.step, i)
  }

  lemma {:induction false} FillMeaning(bits: Bits, i: int, hi: int, step: int)
    requires 0 <= i && hi < 60 && 1 <= step <= MAX_INT
    ensures i <= hi && i + step > MAX_INT ==> Fill(bits, i, hi, step) == None
    ensures i > hi || i + step <= MAX_INT ==>
              Fill(bits, i, hi, step).Some? &&
              forall j :: 0 <= j < 60 ==>
                (Fill(bits, i, hi, step).value[j] <==> bits[j] || (i <= j <= hi && OnStep(i, step, j)))
    decreases hi + 1 - i
  {
    if i <= hi {
      if i + step > MAX_INT {
        assert WrapInt(i + step) < 0;
      } else {
        FillMeaning(bits[i := true], i + step, hi, step);
        forall j | i <= j <= hi
          ensures OnStep(i, step, j) <==> j == i || (i + step <= j && OnStep(i + step, step, j))
        {
          StepBack(j - i, step);
        }
      }
    }
  }

  lemma StepBack(x: int, step: int)
    requires x >= 0 && step >= 1
    ensures x % step == 0 <==> x == 0 || (step <= x && (x - step) % step == 0)
  {
    if x < step {
      assert x % step == x by { SmallMod(x, step); }
    } else {
      assert (x - step) % step == x % step by { ModMinus(x, step); }
    }
  }

  lemma SmallMod(x: int, step: int)
    requires 0 <= x < step
    ensures x % step == x
  {
  }

  lemma ModMinus(x: int, step: int)
    requires step >= 1
    ensures (x - step) % step == x % step
  {
    var q, r := (x - step) / step, (x - step) % step;
    assert x == (q + 1) * step + r;
    Calendar.ModUnique(x, q + 1, r, step);
  }

  /** Part k of the field parses and its loop does not wrap. */
  predicate GoodPart(raw: string, lo: int, hi: int, unit: Unit) {
    var p := ParsePart(raw, lo, hi, unit);
    p.Ok? && !Overflows(p.value)
  }

  predicate PartSelects(raw: string, lo: int, hi: int, unit: Unit, i: int) {
    var p := ParsePart(raw, lo, hi, unit);
    p.Ok? && p.value.step >= 1 && InProgression(p.value, i)
  }

  predicate PartStars(raw: string, lo: int, hi: int, unit: Unit) {
    var p := ParsePart(raw, lo, hi, unit);
    p.Ok? && p.value.star
  }

  /** k is the first part that is no good. */
  ghost predicate FirstBad(parts: seq<string>, k: int, lo: int, hi: int, unit: Unit) {
    && 0 <= k < |parts|
    && !GoodPart(parts[k], lo, hi, unit)
    && forall j :: 0 <= j < k ==> GoodPart(parts[j], lo, hi, unit)
  }

  ghost predicate SomeSelects(parts: seq<string>, lo: int, hi: int, unit: Unit, i: int) {
    exists k :: 0 <= k < |parts| && PartSelects(parts[k], lo, hi, unit, i)
  }

  ghost predicate SomeStars(parts: seq<string>, lo: int, hi: int, unit: Unit) {
    exists k :: 0 <= k < |parts| && PartStars(parts[k], lo, hi, unit)
  }

  lemma NothingSelected(lo: int, hi: int, unit: Unit)
    ensures !SomeStars([], lo, hi, unit) && forall i :: !SomeSelects([], lo, hi, unit, i)
  {
  }

  lemma ConsSelects(parts: seq<string>, lo: int, hi: int, unit: Unit, i: int)
    requires parts != []
    ensures SomeSelects(parts, lo, hi, unit, i) <==>
            PartSelects(parts[0], lo, hi, unit, i) || SomeSelects(parts[1..], lo, hi, unit, i)
  {
    hide PartSelects;
    if SomeSelects(parts[1..], lo, hi, unit, i) {
      var k :| 0 <= k < |parts[1..]| && PartSelects(parts[1..][k], lo, hi, unit, i);
      assert parts[k + 1] == parts[1..][k];
    }
    if SomeSelects(parts, lo, hi, unit, i) {
      var k :| 0 <= k < |parts| && PartSelects(parts[k], lo, hi, unit, i);
      assert k > 0 ==> parts[k] == parts[1..][k - 1];
    }
  }

  lemma ConsStars(parts: seq<string>, lo: int, hi: int, unit: Unit)
    requires parts != []
    ensures SomeStars(parts, lo, hi, unit) <==>
            PartStars(parts[0], lo, hi, unit) || SomeStars(parts[1..], lo, hi, unit)
  {
    hide PartStars;
    if SomeStars(parts[1..], lo, hi, unit) {
      var k :| 0 <= k < |parts[1..]| && PartStars(parts[1..][k], lo, hi, unit);
      assert parts[k + 1] == parts[1..][k];
    }
    if SomeStars(parts, lo, hi, unit) {
      var k :| 0 <= k < |parts| && PartStars(parts[k], lo, hi, unit);
      assert k > 0 ==> parts[k] == parts[1..][k - 1];
    }
  }

  /** r is the verdict on the field: the union of its parts when all are good, else that of the first bad one. */
  ghost predicate Verdict(r: Result<Field>, parts: seq<string>, lo: int, hi: int, unit: Unit, bits: Bits, all: bool) {
    match r
    case Ok(f) =>
      && (forall k :: 0 <= k < |parts| ==> GoodPart(parts[k], lo, hi, unit))
      && (forall i :: 0 <= i < 60 ==> (f.bits[i] <==> bits[i] || SomeSelects(parts, lo, hi, unit, i)))
      && (f.all <==> all || SomeStars(parts, lo, hi, unit))
    case Invalid(why) =>
      exists k :: FirstBad(parts, k, lo, hi, unit) && ParsePart(parts[k], lo, hi, unit) == Invalid(why)
    case Panic =>
      exists k :: FirstBad(parts, k, lo, hi, unit) && ParsePart(parts[k], lo, hi, unit).Ok?
  }

  lemma FirstBadLater(parts: seq<string>, k: int, lo: int, hi: int, unit: Unit)
    requires parts != [] && GoodPart(parts[0], lo, hi, unit) && FirstBad(parts[1..], k, lo, hi, unit)
    ensures FirstBad(parts, k + 1, lo, hi, unit) && parts[k + 1] == parts[1..][k]
  {
    hide GoodPart;
    forall j | 0 <= j < k + 1 ensures GoodPart(parts[j], lo, hi, unit) {
      assert j > 0 ==> parts[j] == parts[1..][j - 1];
    }
  }

  lemma VerdictLater(r: Result<Field>, parts: seq<string>, lo: int, hi: int, unit: Unit,
                     bits: Bits, all: bool, b: Bits, p: Part)
    requires parts != [] && GoodPart(parts[0], lo, hi, unit) && ParsePart(parts[0], lo, hi, unit) == Ok(p)
    requires p.step >= 1
    requires forall i :: 0 <= i < 60 ==> (b[i] <==> bits[i] || InProgression(p, i))
    requires Verdict(r, parts[1..], lo, hi, unit, b, all || p.star)
    ensures Verdict(r, parts, lo, hi, unit, bits, all)
  {
    hide ParsePart, InProgression, GoodPart, SomeSelects, SomeStars;
    var rest := parts[1..];
    match r
    case Ok(f) =>
      ConsStars(parts, lo, hi, unit);
      forall i | 0 <= i < 60 ensures f.bits[i] <==> bits[i] || SomeSelects(parts, lo, hi, unit, i) {
        ConsSelects(parts, lo, hi, unit, i);
      }
      forall k | 0 <= k < |parts| ensures GoodPart(parts[k], lo, hi, unit) {
        assert k > 0 ==> parts[k] == rest[k - 1];
      }
    case Invalid(why) =>
      var k :| FirstBad(rest, k, lo, hi, unit) && ParsePart(rest[k], lo, hi, unit) == Invalid(why);
      FirstBadLater(parts, k, lo, hi, unit);
    case Panic =>
      var k :| FirstBad(rest, k, lo, hi, unit) && ParsePart(rest[k], lo, hi, unit).Ok?;
      FirstBadLater(parts, k, lo, hi, unit);
  }

  lemma {:induction false} FieldFromMeaning(parts: seq<string>, lo: int, hi: int, unit: Unit, bits: Bits, all: bool)
    requires 0 <= lo <= hi < 60
    ensures Verdict(FieldFrom(parts, lo, hi, unit, bits, all), parts, lo, hi, unit, bits, all)
    decreases parts
  {
    hide ParsePart, InProgression, SomeSelects, SomeStars;
    NothingSelected(lo, hi, unit);
    if parts != [] {
      PartInRange(parts[0], lo, hi, unit);
      var p := ParsePart(parts[0], lo, hi, unit);
      if p.Ok? {
        FillMeaning(bits, p.value.lo, p.value.hi, p.value.step);
      }
      if GoodPart(parts[0], lo, hi, unit) {
        var b := Fill(bits, p.value.lo, p.value.hi, p.value.step).value;
        FieldFromMeaning(parts[1..], lo, hi, unit, b, all || p.value.star);
        FilledIs(bits, b, p.value);
        VerdictLater(FieldFrom(parts[1..], lo, hi, unit, b, all || p.value.star),
                     parts, lo, hi, unit, bits, all, b, p.value);
      } else {
        assert FirstBad(parts, 0, lo, hi, unit);
      }
    }
  }

  lemma FilledIs(bits: Bits, b: Bits, p: Part)
    requires 0 <= p.lo && p.hi < 60 && 1 <= p.step <= MAX_INT && !Overflows(p)
    requires Fill(bits, p.lo, p.hi, p.step) == Some(b)
    ensures forall i :: 0 <= i < 60 ==> (b[i] <==> bits[i] || InProgression(p, i))
  {
    FillMeaning(bits, p.lo, p.hi, p.step);
  }

  // ---- parseField as a whole ----

  /** parseField: an error or a panic comes from the first bad part, otherwise index i is set exactly when
      some comma part selects it, something is set, and nothing outside lo..hi. */
  lemma FieldMeaning(s: string, lo: int, hi: int, unit: Unit)
    requires 0 <= lo <= hi < 60
    ensures Verdict(FieldSpec(s, lo, hi, unit), Split(s, ','), lo, hi, unit, NoBits(), false)
    ensures match FieldSpec(s, lo, hi, unit) case Ok(f) => Within(f.bits, lo, hi) case _ => true
  {
    hide ParsePart, GoodPart, FieldFrom;
    var parts := Split(s, ',');
    FieldFromMeaning(parts, lo, hi, unit, NoBits(), false);
    var r := FieldSpec(s, lo, hi, unit);
    if r.Ok? {
      FirstSelected(parts[0], lo, hi, unit);
      var first := ParsePart(parts[0], lo, hi, unit).value.lo;
      assert SomeSelects(parts, lo, hi, unit, first);
      forall i | 0 <= i < 60 && r.value.bits[i] ensures lo <= i <= hi {
        assert SomeSelects(parts, lo, hi, unit, i);
        var k :| 0 <= k < |parts| && PartSelects(parts[k], lo, hi, unit, i);
        PartInRange(parts[k], lo, hi, unit);
      }
    }
  }

  lemma FirstSelected(raw: string, lo: int, hi: int, unit: Unit)
    requires 0 <= lo <= hi < 60 && GoodPart(raw, lo, hi, unit)
    ensures ParsePart(raw, lo, hi, unit).Ok?
    ensures var i := ParsePart(raw, lo, hi, unit).value.lo; lo <= i <= hi && PartSelects(raw, lo, hi, unit, i)
  {
    hide ParsePart;
    PartInRange(raw, lo, hi, unit);
    var p := ParsePart(raw, lo, hi, unit).value;
    assert (p.lo - p.lo) % p.step == 0;
  }

  /** The first part that is no good is well formed, but has a step that overflows. */
  ghost predicate OverflowsFirst(s: string, lo: int, hi: int, unit: Unit) {
    exists k :: FirstBad(Split(s, ','), k, lo, hi, unit) && ParsePart(Split(s, ',')[k], lo, hi, unit).Ok?
  }

  /** parseField panics exactly when its first part that is no good parses but has a step that overflows. */
  lemma FieldPanicsExactly(s: string, lo: int, hi: int, unit: Unit)
    requires 0 <= lo <= hi < 60
    ensures FieldSpec(s, lo, hi, unit) == Panic <==> OverflowsFirst(s, lo, hi, unit)
  {
    hide ParsePart, GoodPart, FieldFrom, Split;
    FieldMeaning(s, lo, hi, unit);
  }

  /** A field without commas is its one part. */
  lemma SinglePart(text: string, lo: int, hi: int, unit: Unit)
    requires 0 <= lo <= hi < 60 && ',' !in text
    ensures FieldSpec(text, lo, hi, unit) ==
            match ParsePart(text, lo, hi, unit)
            case Invalid(why) => Invalid(why)
            case Panic => Panic
            case Ok(p) =>
              (PartInRange(text, lo, hi, unit);
               match Fill(NoBits(), p.lo, p.hi, p.step)
               case None => Panic
               case Some(b) => Ok(Field(b, p.star)))
  {
    hide ParsePart, Fill, NoBits;
    SplitNothing(text, ',');
    assert [text][1..] == [];
    PartInRange(text, lo, hi, unit);
    var p := ParsePart(text, lo, hi, unit);
    if p.Ok? {
      var b := Fill(NoBits(), p.value.lo, p.value.hi, p.value.step);
      if b.Some? {
        assert FieldFrom([], lo, hi, unit, b.value, false || p.value.star) == Ok(Field(b.value, p.value.star));
      }
    }
  }

  /** Parsing the field "value/step" panics exactly when value + step exceeds the largest int. */
  lemma StepTextPanics(v: int, step: int, lo: int, hi: int, unit: Unit)
    requires 0 <= lo <= v <= hi < 60 && 1 <= step <= MAX_INT
    ensures FieldSpec(Itoa(v) + "/" + Itoa(step), lo, hi, unit) == Panic <==> v + step > MAX_INT
  {
    hide Itoa, Cut, Fill, Atoi, FieldSpec;
    var text := Itoa(v) + "/" + Itoa(step);
    ItoaIsWord(v);
    ItoaIsWord(step);
    AtoiItoa(v);
    AtoiItoa(step);
    CutAt(Itoa(v), '/', Itoa(step));
    assert text[|Itoa(v)|] == '/';
    assert ParsePart(text, lo, hi, unit) == Ok(Part(v, v, step, false));
    FillMeaning(NoBits(), v, v, step);
    SinglePart(text, lo, hi, unit);
  }

  // ---- Parse ----

  /** Parse of the white-space separated words. */
  function ParseWords(words: seq<string>): Result<Expr> {
    if |words| != 5 && |words| != 6 then Invalid(FieldCount)
    else
      var k := |words| - 5;
      match (if k == 1 then FieldSpec(words[0], 0, 59, Secs) else Ok(Field(NoBits()[0 := true], false)))
      case Invalid(why) => Invalid(why)
      case Panic => Panic
      case Ok(sec) =>
        match FieldSpec(words[k], 0, 59, Mins)
        case Invalid(why) => Invalid(why)
        case Panic => Panic
        case Ok(min) =>
          match FieldSpec(words[k + 1], 0, 23, Hours)
          case Invalid(why) => Invalid(why)
          case Panic => Panic
          case Ok(hour) =>
            match FieldSpec(words[k + 2], 1, 31, Days)
            case Invalid(why) => Invalid(why)
            case Panic => Panic
            case Ok(dom) =>
              match FieldSpec(words[k + 3], 1, 12, Months)
              case Invalid(why) => Invalid(why)
              case Panic => Panic
              case Ok(month) =>
                match FieldSpec(words[k + 4], 0, 6, Weekdays)
                case Invalid(why) => Invalid(why)
                case Panic => Panic
                case Ok(dow) => Ok(Expr(sec, min, hour, dom, month, dow))
  }

  function ParseSpec(expr: string): Result<Expr> {
    ParseWords(Fields(expr))
  }

  /** Parse. */
  method Parse(expr: string) returns (r: Result<Expr>)
    ensures r == ParseSpec(expr)
  {
    hide FieldSpec;
    var parts := Fields(expr);
    if |parts| != 5 && |parts| != 6 {
      return Invalid(FieldCount);
    }
    var sec := Ok(Field(NoBits()[0 := true], false));
    var idx := 0;
    if |parts| == 6 {
      sec := ParseField(parts[0], 0, 59, Secs);
      if !sec.Ok? {
        return Failed(sec);
      }
      idx := 1;
    }
    var min := ParseField(parts[idx], 0, 59, Mins);
    if !min.Ok? {
      return Failed(min);
    }
    var hour := ParseField(parts[idx + 1], 0, 23, Hours);
    if !hour.Ok? {
      return Failed(hour);
    }
    var dom := ParseField(parts[idx + 2], 1, 31, Days);
    if !dom.Ok? {
      return Failed(dom);
    }
    var month := ParseField(parts[idx + 3], 1, 12, Months);
    if !month.Ok? {
      return Failed(month);
    }
    var dow := ParseField(parts[idx + 4], 0, 6, Weekdays);
    if !dow.Ok? {
      return Failed(dow);
    }
    return Ok(Expr(sec.value, min.value, hour.value, dom.value, month.value, dow.value));
  }

  function Failed(r: Result<Field>): Result<Expr>
    requires !r.Ok?
  {
    if r.Panic? then Panic else Invalid(r.reason)
  }

  lemma ZeroField()
    ensures FieldSpec("0", 0, 59, Secs) == Ok(Field(NoBits()[0 := true], false))
  {
    hide FieldSpec;
    assert Atoi("0") == Some(0) by {
      assert "0"[..0] == "";
      assert DigitsValue("0") == 0;
    }
    assert ParsePart("0", 0, 59, Secs) == Ok(Part(0, 0, 1, false));
    assert Fill(NoBits(), 0, 0, 1) == Some(NoBits()[0 := true]);
    SinglePart("0", 0, 59, Secs);
  }

  /** Five fields mean the same as six with a leading "0". */
  lemma FiveMeansSix(expr: string)
    requires |Fields(expr)| == 5
    ensures ParseSpec("0 " + expr) == ParseSpec(expr)
  {
    hide FieldSpec, Fields;
    assert "0 " + expr == "0" + " " + expr;
    WordThenRest("0", expr);
    ZeroField();
  }

  /** What Parse accepts is well formed, so what is proved of well-formed expressions holds of it. */
  lemma ParsedWellFormed(expr: string)
    requires ParseSpec(expr).Ok?
    ensures WellFormed(ParseSpec(expr).value)
  {
    hide FieldSpec, Within, Verdict;
    var words := Fields(expr);
    var k := |words| - 5;
    if k == 1 {
      FieldMeaning(words[0], 0, 59, Secs);
    } else {
      ZeroWithin();
    }
    FieldMeaning(words[k], 0, 59, Mins);
    FieldMeaning(words[k + 1], 0, 23, Hours);
    FieldMeaning(words[k + 2], 1, 31, Days);
    FieldMeaning(words[k + 3], 1, 12, Months);
    FieldMeaning(words[k + 4], 0, 6, Weekdays);
  }

  lemma ZeroWithin()
    ensures Within(NoBits()[0 := true], 0, 59)
  {
    assert NoBits()[0 := true][0];
  }
}
