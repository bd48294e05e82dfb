/** What the conditions on a call's arguments mean (internal/engine/escalation.go, internal/engine/content.go),
    said of numbers and texts, and that the engine's functions compute it. */
module ArgumentRules {
  import opened Prelude
  import opened Policies
  import opened Engine

  // ---- escalate_when

  /** The path that an argument_path stands for: a leading `$.` is dropped, then a leading `$`. */
  ghost predicate Strips(argumentPath: string, path: string) {
    || argumentPath == "$.$" + path
    || (argumentPath == "$." + path && !("$" <= path))
    || (argumentPath == "$" + path && !("." <= path))
    || (argumentPath == path && !("$" <= path))
  }

  lemma TrimmedPath(argumentPath: string, path: string)
    ensures Strips(argumentPath, path) <==> path == TrimPrefix(TrimPrefix(argumentPath, "$."), "$")
  {
    var once := TrimPrefix(argumentPath, "$.");
    assert "$." <= argumentPath ==> argumentPath == "$." + once;
    assert "$" <= once ==> once == "$" + TrimPrefix(once, "$");
    assert "$" <= path ==> path == "$" + path[1..];
    assert "." <= path ==> path == "." + path[1..];
    assert "$.$" + path == "$." + ("$" + path);
    assert argumentPath == "$." + path ==> argumentPath[2..] == path;
    assert argumentPath == "$" + path ==> argumentPath[1..] == path;
    assert argumentPath == "$.$" + path ==> argumentPath[2..] == "$" + path && ("$" + path)[1..] == path;
  }

  /** a lies above b on the line from minus to plus infinity; NaN is nowhere on it. */
  predicate Above(a: Float, b: Float) {
    match a
    case NaN => false
    case NegativeInfinity => false
    case Finite(x) => b.NegativeInfinity? || (b.Finite? && x > b.r)
    case PositiveInfinity => b.NegativeInfinity? || b.Finite?
  }

  predicate SamePlace(a: Float, b: Float) {
    a == b && a != NaN
  }

  predicate OccursAt(part: string, text: string, i: int) {
    0 <= i && i + |part| <= |text| && text[i..i + |part|] == part
  }

  ghost predicate Occurs(part: string, text: string) {
    exists i :: OccursAt(part, text, i)
  }

  /** The condition can be evaluated on this value, and it is met or not. A threshold that is a text counts as
      zero in comparisons, and one that is a number is written out for `contains` and `matches`. */
  ghost predicate Answers(lib: Library, v: Value, operator: Operator, t: Threshold, met: bool) {
    var number := if t.Number? then t.n else Finite(0.0);
    var text := if t.Text? then t.s else lib.showNumber(t.n);
    match operator
    case Greater => met <==> Above(v.number, number)
    case Less => met <==> Above(number, v.number)
    case AtLeast => met <==> Above(v.number, number) || SamePlace(v.number, number)
    case AtMost => met <==> Above(number, v.number) || SamePlace(v.number, number)
    case Equal => met <==> SamePlace(v.number, number)
    case NotEqual => met <==> !SamePlace(v.number, number)
    case Contains => met <==> Occurs(text, v.text)
    case Matches => lib.matches(text, v.text) == Some(met)
    case Unsupported(_) => false
  }

  /** The arguments have a value at the rule's path, and the rule's condition is met by it or not. */
  ghost predicate Judged(lib: Library, args: string, rule: EscalateRule, met: bool) {
    exists path :: Strips(rule.path, path) && JudgedAt(lib, args, path, rule, met)
  }

  ghost predicate JudgedAt(lib: Library, args: string, path: string, rule: EscalateRule, met: bool) {
    path != "" && lib.lookup(args, path).Some?
    && Answers(lib, lib.lookup(args, path).value, rule.operator, rule.threshold, met)
  }

  lemma ComparisonsAgree(a: Float, b: Float)
    ensures LessThan(a, b) <==> Above(b, a)
    ensures EqualTo(a, b) <==> SamePlace(a, b)
  {
  }

  lemma OccursLater(part: string, text: string, i: nat)
    requires |text| > 0
    ensures OccursAt(part, text[1..], i) <==> OccursAt(part, text, i + 1)
  {
    if i + 1 + |part| <= |text| {
      assert text[1..][i..i + |part|] == text[i + 1..i + 1 + |part|];
    }
  }

  /** `contains` finds the text at some position. */
  lemma {:induction false} ContainsMeans(part: string, text: string)
    ensures IsSubstring(part, text) <==> Occurs(part, text)
  {
    if |part| <= |text| && text[..|part|] == part {
      assert text[0..0 + |part|] == text[..|part|];
      assert OccursAt(part, text, 0);
    } else if |text| > 0 {
      ContainsMeans(part, text[1..]);
      if i :| OccursAt(part, text, i) {
        assert text[0..0 + |part|] == text[..|part|];
        OccursLater(part, text, i - 1);
      }
      if i :| OccursAt(part, text[1..], i) {
        OccursLater(part, text, i);
      }
    }
  }

  lemma OperatorMeans(lib: Library, v: Value, operator: Operator, t: Threshold, met: bool)
    ensures Answers(lib, v, operator, t, met) <==> ApplyOperator(lib, v, operator, t) == Ok(met)
  {
    hide IsSubstring, Occurs;
    ComparisonsAgree(v.number, ThresholdNumber(t));
    ComparisonsAgree(ThresholdNumber(t), v.number);
    ContainsMeans(ThresholdText(lib, t), v.text);
  }

  /** The engine answers what the condition says, and fails exactly if it says nothing: the path is empty, the
      argument is missing, the pattern does not compile, or the operator is not supported. */
  lemma ConditionMeans(lib: Library, args: string, rule: EscalateRule)
    ensures forall met :: Triggered(lib, args, rule) == Ok(met) <==> Judged(lib, args, rule, met)
  {
    hide Answers, ApplyOperator, Strips, TrimPrefix;
    var path := TrimPrefix(TrimPrefix(rule.path, "$."), "$");
    forall met
      ensures Triggered(lib, args, rule) == Ok(met) <==> Judged(lib, args, rule, met)
    {
      TrimmedPath(rule.path, path);
      if path != "" && lib.lookup(args, path).Some? {
        OperatorMeans(lib, lib.lookup(args, path).value, rule.operator, rule.threshold, met);
      }
      assert Judged(lib, args, rule, met) <==> JudgedAt(lib, args, path, rule, met) by {
        forall other | Strips(rule.path, other)
          ensures other == path
        {
          TrimmedPath(rule.path, other);
        }
      }
    }
  }

  // ---- never_when

  /** A pattern may be written between slashes, of which either may be missing. */
  ghost predicate Unslashed(written: string, pattern: string) {
    || written == "/" + pattern + "/"
    || (written == "/" + pattern && !EndsIn(pattern, "/"))
    || (written == pattern + "/" && !("/" <= pattern))
    || (written == pattern && !("/" <= pattern) && !EndsIn(pattern, "/"))
  }

  /** text is something followed by end. */
  ghost predicate EndsIn(text: string, end: string) {
    exists front :: text == front + end
  }

  lemma SuffixMeans(text: string, end: string)
    ensures HasSuffix(text, end) <==> EndsIn(text, end)
  {
    if HasSuffix(text, end) {
      assert text == text[..|text| - |end|] + end;
    }
    if front :| text == front + end {
      assert text[|front|..] == end;
    }
  }

  lemma TrimmedPattern(written: string, pattern: string)
    ensures Unslashed(written, pattern) <==> pattern == TrimSuffix(TrimPrefix(written, "/"), "/")
  {
    var once := TrimPrefix(written, "/");
    SuffixMeans(once, "/");
    SuffixMeans(pattern, "/");
    assert "/" <= written ==> written == "/" + once;
    assert HasSuffix(once, "/") ==> once == TrimSuffix(once, "/") + "/";
    assert "/" + pattern + "/" == "/" + (pattern + "/");
    assert written == "/" + pattern ==> written[1..] == pattern;
    assert written == "/" + pattern + "/" ==> written[1..] == pattern + "/";
    assert (pattern + "/")[..|pattern|] == pattern;
    assert (pattern + "/")[|pattern|..] == "/";
    assert "/" <= pattern + "/" && !("/" <= pattern) ==> pattern == "";
  }

  /** The predicate can be evaluated on the arguments, and it fires or not. */
  ghost predicate Says(lib: Library, args: string, p: ContentPredicate, fired: bool) {
    lib.lookup(args, p.argument).Some?
    && var text := lib.lookup(args, p.argument).value.text;
       match p.test
       case IsExternal => fired <==> !EndsIn(text, p.value)
       case ContainsPattern =>
         exists pattern :: Unslashed(p.value, pattern) && lib.matches(pattern, text) == Some(fired)
       case Equals => fired <==> text == p.value
       case NotEquals => fired <==> text != p.value
       case UnsupportedTest(_) => false
  }

  /** What comes of evaluating the predicate; Error is that it says nothing. */
  ghost predicate Outcome(lib: Library, args: string, p: ContentPredicate, o: Result<bool>) {
    match o
    case Ok(fired) => Says(lib, args, p, fired)
    case Error => forall fired :: !Says(lib, args, p, fired)
  }

  /** The engine answers what the predicate says of the argument's text, and fails exactly if it says nothing:
      the argument is missing, the pattern does not compile, or the operator is not supported. */
  lemma PredicateMeans(lib: Library, args: string, p: ContentPredicate, fired: bool)
    ensures Fires(lib, args, p) == Ok(fired) <==> Says(lib, args, p, fired)
  {
    hide HasSuffix, EndsIn, Unslashed, TrimSuffix, TrimPrefix;
    if lib.lookup(args, p.argument).Some? {
      SuffixMeans(lib.lookup(args, p.argument).value.text, p.value);
      var pattern := TrimSuffix(TrimPrefix(p.value, "/"), "/");
      TrimmedPattern(p.value, pattern);
      forall other | Unslashed(p.value, other)
        ensures other == pattern
      {
        TrimmedPattern(p.value, other);
      }
    }
  }

  lemma OutcomesAreFires(lib: Library, args: string)
    ensures forall p, o :: Outcome(lib, args, p, o) <==> Fires(lib, args, p) == o
  {
    hide Fires, Says;
    forall p, o
      ensures Outcome(lib, args, p, o) <==> Fires(lib, args, p) == o
    {
      forall fired {
        PredicateMeans(lib, args, p, fired);
      }
      var fires := Fires(lib, args, p);
      if fires.Ok? {
        assert Says(lib, args, p, fires.value);
      }
    }
  }
}
