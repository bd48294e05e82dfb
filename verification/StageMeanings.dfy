/** What the pipeline's answers mean (internal/engine/pipeline.go and the evaluators), in the words of the policy,
    the call, the session and the tables: each stage, the live pipeline as a whole, and the enforcement mode. */
module StageMeanings {
  import opened Prelude
  import opened Policies
  import opened Database
  import opened Engine
  import opened ArgumentRules
  import opened PipelineLaws
  import opened Evaluation
  import opened SequenceChecks

  // ---- the guards that read no history

  predicate EnvHolds(call: Call, used: Policy) {
    used.requireEnv == "" || call.env == used.requireEnv
  }

  predicate ToolAllowed(call: Call, used: Policy) {
    call.tool in used.mayUse || call.tool == "check_escalation_status"
  }

  predicate CallsLeft(sess: Session, used: Policy) {
    used.budget.maxCalls > 0 ==> sess.calls < used.budget.maxCalls
  }

  predicate MoneyLeft(sess: Session, used: Policy) {
    used.budget.maxCost > 0 ==> sess.cost < used.budget.maxCost
  }

  /** A tainted session may call the tool if it clears taint, or its never_after names no taint source. */
  ghost predicate TaintHarmless(tainted: bool, tool: string, used: Policy) {
    tainted && tool in used.tools && !used.tools[tool].taint.clears ==>
      forall t :: t in used.tools[tool].sequencing.neverAfter ==> !(t in used.tools && used.tools[t].taint.applies)
  }

  lemma ExactSimple(lib: Library, b: Backend, call: Call, sess: Session, used: Policy)
    ensures Passes(Env, lib, b, call, sess, used) <==> EnvHolds(call, used)
    ensures Passes(MayUse, lib, b, call, sess, used) <==> ToolAllowed(call, used)
    ensures Passes(BudgetLimit, lib, b, call, sess, used) <==> CallsLeft(sess, used) && MoneyLeft(sess, used)
    ensures EvalStage(Env, lib, b, call, sess, used)
            == Ok(if EnvHolds(call, used) then Permit() else DenyBy(EnvMismatch))
    ensures EvalStage(MayUse, lib, b, call, sess, used)
            == Ok(if ToolAllowed(call, used) then Permit() else DenyBy(NotInMayUse))
    ensures EvalStage(BudgetLimit, lib, b, call, sess, used)
            == Ok(if !CallsLeft(sess, used) then DenyBy(MaxToolCalls)
                  else if !MoneyLeft(sess, used) then DenyBy(MaxCost) else Permit())
  {
    hide NeverWhenAny, NeverWhenAll, Triggered, SequenceDecision;
  }

  lemma ExactTaint(lib: Library, b: Backend, call: Call, sess: Session, used: Policy)
    ensures Passes(TaintGuard, lib, b, call, sess, used) <==> TaintHarmless(sess.tainted, call.tool, used)
    ensures !Passes(TaintGuard, lib, b, call, sess, used) ==>
              EvalStage(TaintGuard, lib, b, call, sess, used) == Ok(DenyBy(SessionTainted))
  {
    hide NeverWhenAny, NeverWhenAll, Triggered, SequenceDecision;
    assert EvalStage(TaintGuard, lib, b, call, sess, used) == Ok(EvalTaint(call, sess, used));
    if sess.tainted && call.tool in used.tools && !used.tools[call.tool].taint.clears {
      assert NeverAfter(used, call.tool) == used.tools[call.tool].sequencing.neverAfter;
      assert forall t :: t in TaintSources(used) <==> t in used.tools && used.tools[t].taint.applies;
    }
  }

  // ---- never_when

  /** Under "any" no predicate fires; under "all" one does not, after predicates that do. */
  ghost predicate ContentClear(lib: Library, call: Call, used: Policy) {
    call.tool in used.tools && |used.tools[call.tool].neverWhen| > 0 ==>
      var tp := used.tools[call.tool];
      || (tp.neverWhenMatch == Any && AnswersBefore(lib, call.args, tp.neverWhen, |tp.neverWhen|, false))
      || (tp.neverWhenMatch == All && StopsAt(lib, call.args, tp.neverWhen, true, Ok(false)))
  }

  /** Under "any" a predicate fires after predicates that do not, and the rule names it; under "all" every one fires. */
  ghost predicate ContentFires(lib: Library, call: Call, used: Policy, rule: Rule) {
    call.tool in used.tools && |used.tools[call.tool].neverWhen| > 0
    && var tp := used.tools[call.tool];
       || (tp.neverWhenMatch == Any
           && exists i :: 0 <= i < |tp.neverWhen| && FirstToFire(lib, call.args, tp.neverWhen, i)
                && rule == ContentFired(tp.neverWhen[i].argument, tp.neverWhen[i].test))
       || (tp.neverWhenMatch == All && AnswersBefore(lib, call.args, tp.neverWhen, |tp.neverWhen|, true)
             && rule == ContentAllFired)
  }

  ghost predicate FirstToFire(lib: Library, args: string, preds: seq<ContentPredicate>, i: nat)
    requires i < |preds|
  {
    Says(lib, args, preds[i], true) && AnswersBefore(lib, args, preds, i, false)
  }

  lemma {:induction false} AnyPermits(lib: Library, args: string, preds: seq<ContentPredicate>)
    ensures var r := NeverWhenAny(lib, args, preds);
            && (r.Ok? && r.value.action == Allow ==> r.value == Permit())
            && (r.Ok? && r.value.action != Allow ==> r.value == DenyBy(r.value.rule))
  {
    if |preds| > 0 {
      AnyPermits(lib, args, preds[1..]);
    }
  }

  lemma {:induction false} AllPermits(lib: Library, args: string, preds: seq<ContentPredicate>)
    ensures var r := NeverWhenAll(lib, args, preds);
            r.Ok? ==> r.value == Permit() || r.value == DenyBy(ContentAllFired)
  {
    if |preds| > 0 {
      AllPermits(lib, args, preds[1..]);
    }
  }

  /** never_when on the argument's texts: the stage passes, denies, or fails because the predicate it has come to
      cannot be evaluated or the match mode is not supported. */
  lemma ExactContent(lib: Library, b: Backend, call: Call, sess: Session, used: Policy)
    ensures Passes(Content, lib, b, call, sess, used) <==> ContentClear(lib, call, used)
    ensures var r := EvalStage(Content, lib, b, call, sess, used);
            && (r.Ok? && r.value.action == Deny <==> exists rule :: ContentFires(lib, call, used, rule))
            && (r.Ok? && r.value.action == Deny ==>
                  r.value == DenyBy(r.value.rule) && ContentFires(lib, call, used, r.value.rule))
            && (r.Ok? ==> r.value.action == Allow || r.value.action == Deny)
  {
    hide Triggered, SequenceDecision, AnswersBefore, StopsAt, NeverWhenAny, NeverWhenAll, Says;
    assert EvalStage(Content, lib, b, call, sess, used) == EvalContent(lib, call, used);
    if call.tool in used.tools && |used.tools[call.tool].neverWhen| > 0 {
      var tp := used.tools[call.tool];
      var preds := tp.neverWhen;
      ContentOnlyDenies(lib, call.args, preds);
      AllMeaning(lib, call.args, preds);
      AnyPermits(lib, call.args, preds);
      AllPermits(lib, call.args, preds);
      AnyMeaning(lib, call.args, preds);
      AnyRule(lib, call.args, preds);
      if tp.neverWhenMatch == All && AnswersBefore(lib, call.args, preds, |preds|, true) {
        assert ContentFires(lib, call, used, ContentAllFired);
      }
      var r := EvalStage(Content, lib, b, call, sess, used);
      if tp.neverWhenMatch == Any && r.Ok? && r.value.action == Deny {
        assert ContentFires(lib, call, used, r.value.rule);
      }
    }
  }

  lemma AnyRule(lib: Library, args: string, preds: seq<ContentPredicate>)
    ensures var r := NeverWhenAny(lib, args, preds);
            && (r.Ok? && r.value.action == Deny ==>
                  exists i :: 0 <= i < |preds| && FirstToFire(lib, args, preds, i)
                    && r.value.rule == ContentFired(preds[i].argument, preds[i].test))
            && ((exists i :: 0 <= i < |preds| && FirstToFire(lib, args, preds, i)) ==> r.Ok? && r.value.action == Deny)
  {
    hide NeverWhenAny, AnswersBefore, Says;
    var r := NeverWhenAny(lib, args, preds);
    if r.Ok? && r.value.action == Deny {
      var i := AnyNamesTheFirst(lib, args, preds);
      assert FirstToFire(lib, args, preds, i);
    }
    if i :| 0 <= i < |preds| && FirstToFire(lib, args, preds, i) {
      assert Outcome(lib, args, preds[i], Ok(true));
      AnyMeaning(lib, args, preds);
      assert StopsAt(lib, args, preds, false, Ok(true));
    }
  }

  /** One predicate, in either match mode: it denies exactly if the argument's text is as it says, and fails
      exactly if there is no such argument, its pattern does not compile, or its operator is not supported. */
  lemma OnePredicate(lib: Library, b: Backend, call: Call, sess: Session, used: Policy, p: ContentPredicate)
    requires call.tool in used.tools && used.tools[call.tool].neverWhen == [p]
    requires !used.tools[call.tool].neverWhenMatch.UnsupportedMode?
    ensures var r, v := EvalStage(Content, lib, b, call, sess, used), lib.lookup(call.args, p.argument);
            && (v.None? || p.test.UnsupportedTest? ==> r.Error?)
            && (v.Some? ==>
                  match p.test
                  case IsExternal =>
                    r.Ok? && (r.value.action == Allow <==> exists u :: v.value.text == u + p.value)
                  case Equals => r.Ok? && (r.value.action == Deny <==> v.value.text == p.value)
                  case NotEquals => r.Ok? && (r.value.action == Deny <==> v.value.text != p.value)
                  case ContainsPattern =>
                    exists pattern :: Unslashed(p.value, pattern)
                      && (r.Error? <==> lib.matches(pattern, v.value.text).None?)
                      && (r.Ok? ==> (r.value.action == Deny <==> lib.matches(pattern, v.value.text) == Some(true)))
                  case UnsupportedTest(_) => true)
  {
    hide Triggered, SequenceDecision, HasSuffix, TrimSuffix, TrimPrefix, NeverWhenAny, NeverWhenAll, Unslashed;
    assert EvalStage(Content, lib, b, call, sess, used) == EvalContent(lib, call, used);
    Singleton(lib, call.args, p);
    PredicateMeans(lib, call.args, p, true);
    PredicateMeans(lib, call.args, p, false);
    var pattern := TrimSuffix(TrimPrefix(p.value, "/"), "/");
    TrimmedPattern(p.value, pattern);
    var v := lib.lookup(call.args, p.argument);
    if v.Some? {
      assert EndsIn(v.value.text, p.value) <==> exists u :: v.value.text == u + p.value;
      assert Unslashed(p.value, pattern);
      var m := lib.matches(pattern, v.value.text);
      if p.test == ContainsPattern && m.Some? {
        assert Fires(lib, call.args, p) == Ok(m.value) && (m.value ==> m == Some(true));
      }
    }
  }

  lemma Singleton(lib: Library, args: string, p: ContentPredicate)
    ensures var o := Fires(lib, args, p);
            && (o.Error? ==> NeverWhenAny(lib, args, [p]).Error? && NeverWhenAll(lib, args, [p]).Error?)
            && (o.Ok? ==> NeverWhenAny(lib, args, [p]).Ok? && NeverWhenAll(lib, args, [p]).Ok?)
            && (o == Ok(true) ==> NeverWhenAny(lib, args, [p]).value.action == Deny
                                  && NeverWhenAll(lib, args, [p]).value.action == Deny)
            && (o == Ok(false) ==> NeverWhenAny(lib, args, [p]).value.action == Allow
                                   && NeverWhenAll(lib, args, [p]).value.action == Allow)
  {
    hide Fires;
    assert [p][1..] == [];
    assert NeverWhenAny(lib, args, []) == Ok(Permit()) && NeverWhenAll(lib, args, []) == Ok(DenyBy(ContentAllFired));
  }

  // ---- the stages that read the tables

  /** The parent agent is registered with the tool. */
  predicate ParentAllows(db: Db, call: Call) {
    call.parent in db.agents && db.agents[call.parent].allowedTools.Some?
        && call.tool in db.agents[call.parent].allowedTools.value
  }

  predicate ParentReadable(db: Db, call: Call) {
    call.parent in db.agents && db.agents[call.parent].allowedTools.Some?
  }

  /** Fewer than max_calls executed calls of the tool were recorded in window_seconds before the call, or since. */
  predicate QuotaLeft(db: Db, call: Call, used: Policy) {
    call.tool in used.tools && used.tools[call.tool].rateLimit.Some? ==>
      var rl := used.tools[call.tool].rateLimit.value;
      Count(db.events, ExecutedSince(call.session, call.tool, call.requestedAt - rl.windowSeconds * 1_000_000_000))
      < rl.maxCalls
  }

  lemma ExactHistory(lib: Library, db: Db, call: Call, sess: Session, used: Policy)
    ensures EvalStage(Delegation, lib, StoreBackend(db, false), call, sess, used)
            == if call.parent == "" || ParentAllows(db, call) then Ok(Permit())
               else if ParentReadable(db, call) then Ok(DenyBy(ExceedsParent)) else Error
    ensures EvalStage(Rate, lib, StoreBackend(db, false), call, sess, used)
            == Ok(if QuotaLeft(db, call, used) then Permit() else DenyBy(RateLimited(call.tool)))
    ensures Passes(Sequence, lib, StoreBackend(db, false), call, sess, used) <==>
              Prerequisites(db.events, call.session, used, call.tool)
              && NoForbidden(db.events, call.session, used, call.tool)
    ensures EvalStage(Sequence, lib, StoreBackend(db, false), call, sess, used).Ok?
    ensures !Passes(Sequence, lib, StoreBackend(db, false), call, sess, used) ==>
              var d := EvalStage(Sequence, lib, StoreBackend(db, false), call, sess, used).value;
              d.action == Deny && d.rule == SequenceBroken
  {
    hide Triggered, NeverWhenAny, NeverWhenAll, Prerequisites, NoForbidden, SequenceViolations;
    var b := StoreBackend(db, false);
    assert EvalStage(Delegation, lib, b, call, sess, used) == EvalDelegation(b, call);
    assert EvalStage(Rate, lib, b, call, sess, used) == EvalRate(b, call, used);
    assert EvalStage(Sequence, lib, b, call, sess, used) == EvalSequence(b, call, used);
    StageMeaning(db, call, used);
  }

  // ---- escalate_when

  /** A human has approved a call of this session and tool with arguments of this hash. */
  ghost predicate HumanApproved(lib: Library, db: Db, call: Call) {
    exists id :: id in db.escalations
      && db.escalations[id].session == call.session && db.escalations[id].tool == call.tool
      && db.escalations[id].status == Approved && lib.sha256(db.escalations[id].args) == lib.sha256(call.args)
  }

  /** The arguments do not meet escalate_when, or a human has approved them. */
  ghost predicate HumanCleared(lib: Library, db: Db, call: Call, used: Policy) {
    call.tool in used.tools && used.tools[call.tool].escalateWhen.Some? ==>
      var rule := used.tools[call.tool].escalateWhen.value;
      Judged(lib, call.args, rule, false) || (Judged(lib, call.args, rule, true) && HumanApproved(lib, db, call))
  }

  /** The arguments meet escalate_when, and nobody has approved them. */
  ghost predicate HumanNeeded(lib: Library, db: Db, call: Call, used: Policy) {
    && call.tool in used.tools && used.tools[call.tool].escalateWhen.Some?
    && Judged(lib, call.args, used.tools[call.tool].escalateWhen.value, true) && !HumanApproved(lib, db, call)
  }

  lemma ApprovalFound(lib: Library, db: Db, call: Call)
    ensures HasApproval(lib, StoreBackend(db, false), call.session, call.tool, lib.sha256(call.args))
            == Ok(HumanApproved(lib, db, call))
  {
    var hash := lib.sha256(call.args);
    if HumanApproved(lib, db, call) {
      var id :| id in db.escalations
        && db.escalations[id].session == call.session && db.escalations[id].tool == call.tool
        && db.escalations[id].status == Approved && lib.sha256(db.escalations[id].args) == hash;
      assert IsApprovalOf(lib, db.escalations[id], call.session, call.tool, hash);
    }
  }

  /** The escalation stage passes, asks a human, or fails because the condition cannot be evaluated. */
  lemma ExactEscalation(lib: Library, db: Db, call: Call, sess: Session, used: Policy)
    ensures var r := EvalStage(Escalation, lib, StoreBackend(db, false), call, sess, used);
            && (r == Ok(Permit()) <==> HumanCleared(lib, db, call, used))
            && (r.Ok? && r.value.action == Escalate <==> HumanNeeded(lib, db, call, used))
            && (r.Ok? ==> r == Ok(Permit()) || (r.value.action == Escalate && r.value.rule == NeedsApproval))
  {
    hide Triggered, SequenceDecision, NeverWhenAny, NeverWhenAll, Judged, HumanApproved, HasApproval;
    var b := StoreBackend(db, false);
    assert EvalStage(Escalation, lib, b, call, sess, used) == EvalEscalation(lib, b, call, used);
    ApprovalFound(lib, db, call);
    if call.tool in used.tools && used.tools[call.tool].escalateWhen.Some? {
      ConditionMeans(lib, call.args, used.tools[call.tool].escalateWhen.value);
      assert Judged(lib, call.args, used.tools[call.tool].escalateWhen.value, true) <==>
        Triggered(lib, call.args, used.tools[call.tool].escalateWhen.value) == Ok(true);
    }
  }

  /** An escalation rule on a number: which way each comparison points. The stage lets the call pass if the
      comparison fails or a human has approved the call, and otherwise asks a human. */
  lemma NumbersEscalate(
    lib: Library, db: Db, call: Call, sess: Session, used: Policy, path: string, x: real, y: real)
    requires call.tool in used.tools && used.tools[call.tool].escalateWhen.Some?
    requires var rule := used.tools[call.tool].escalateWhen.value;
             && Strips(rule.path, path) && path != "" && rule.threshold == Number(Finite(y))
             && lib.lookup(call.args, path).Some? && lib.lookup(call.args, path).value.number == Finite(x)
    ensures var r := EvalStage(Escalation, lib, StoreBackend(db, false), call, sess, used);
            var operator := used.tools[call.tool].escalateWhen.value.operator;
            && (operator == Greater ==> r.Ok? && (r.value.action == Allow <==> x <= y || HumanApproved(lib, db, call)))
            && (operator == Less ==> r.Ok? && (r.value.action == Allow <==> x >= y || HumanApproved(lib, db, call)))
            && (operator == AtLeast ==> r.Ok? && (r.value.action == Allow <==> x < y || HumanApproved(lib, db, call)))
            && (operator == AtMost ==> r.Ok? && (r.value.action == Allow <==> x > y || HumanApproved(lib, db, call)))
            && (operator == Equal ==> r.Ok? && (r.value.action == Allow <==> x != y || HumanApproved(lib, db, call)))
            && (operator == NotEqual ==> r.Ok? && (r.value.action == Allow <==> x == y || HumanApproved(lib, db, call)))
            && (r.Ok? && r.value.action != Allow ==> r.value.action == Escalate)
  {
    hide EvalStage, HumanApproved;
    ExactEscalation(lib, db, call, sess, used);
    JudgedThere(lib, call.args, path, used.tools[call.tool].escalateWhen.value);
  }

  /** The rule's condition is judged at the one path it stands for. */
  lemma JudgedThere(lib: Library, args: string, path: string, rule: EscalateRule)
    requires Strips(rule.path, path)
    ensures forall met :: Judged(lib, args, rule, met) <==> JudgedAt(lib, args, path, rule, met)
  {
    hide Answers, Strips, TrimPrefix;
    TrimmedPath(rule.path, path);
    forall other | Strips(rule.path, other)
      ensures other == path
    {
      TrimmedPath(rule.path, other);
    }
  }

  /** An escalation rule on a text, and when the rule cannot be evaluated at all. */
  lemma TextsEscalate(lib: Library, db: Db, call: Call, sess: Session, used: Policy, path: string)
    requires call.tool in used.tools && used.tools[call.tool].escalateWhen.Some?
    requires Strips(used.tools[call.tool].escalateWhen.value.path, path)
    ensures var r := EvalStage(Escalation, lib, StoreBackend(db, false), call, sess, used);
            var rule, v := used.tools[call.tool].escalateWhen.value, lib.lookup(call.args, path);
            && (path == "" || v.None? || rule.operator.Unsupported? ==> r.Error?)
            && (path != "" && v.Some? && rule.threshold.Text? ==>
                  && (rule.operator == Contains ==>
                        && r.Ok? && (r.value.action == Allow || r.value.action == Escalate)
                        && (r.value.action == Escalate <==>
                              Occurs(rule.threshold.s, v.value.text) && !HumanApproved(lib, db, call)))
                  && (rule.operator == Matches ==>
                        && (r.Error? <==> lib.matches(rule.threshold.s, v.value.text).None?)
                        && (r.Ok? && r.value.action == Escalate <==>
                              lib.matches(rule.threshold.s, v.value.text) == Some(true)
                              && !HumanApproved(lib, db, call))))
  {
    hide EvalStage, HumanApproved, Occurs;
    ExactEscalation(lib, db, call, sess, used);
    var rule := used.tools[call.tool].escalateWhen.value;
    JudgedThere(lib, call.args, path, rule);
    assert !(Judged(lib, call.args, rule, true) || Judged(lib, call.args, rule, false)) ==>
      EvalStage(Escalation, lib, StoreBackend(db, false), call, sess, used).Error?;
    if rule.threshold.Text? && lib.lookup(call.args, path).Some? {
      var m := lib.matches(rule.threshold.s, lib.lookup(call.args, path).value.text);
      if m.Some? {
        assert Judged(lib, call.args, rule, m.value) || rule.operator != Matches || path == "";
      }
    }
  }

  // ---- the live pipeline

  /** The guards that look at the call, the policy and the session snapshot only. */
  ghost predicate GuardsHold(lib: Library, call: Call, sess: Session, used: Policy) {
    && EnvHolds(call, used) && ToolAllowed(call, used) && CallsLeft(sess, used) && MoneyLeft(sess, used)
    && TaintHarmless(sess.tainted, call.tool, used) && ContentClear(lib, call, used)
  }

  lemma ExactGuards(lib: Library, b: Backend, call: Call, sess: Session, used: Policy)
    ensures GuardsHold(lib, call, sess, used) <==>
            && Passes(Env, lib, b, call, sess, used) && Passes(MayUse, lib, b, call, sess, used)
            && Passes(BudgetLimit, lib, b, call, sess, used) && Passes(TaintGuard, lib, b, call, sess, used)
            && Passes(Content, lib, b, call, sess, used)
  {
    hide Passes, EvalStage, EnvHolds, ToolAllowed, CallsLeft, MoneyLeft, TaintHarmless, ContentClear, ContentFires;
    ExactSimple(lib, b, call, sess, used);
    ExactTaint(lib, b, call, sess, used);
    ExactContent(lib, b, call, sess, used);
  }

  /** The decision is a refusal under this rule, in the tool's enforcement mode. */
  predicate RefusedBy(used: Policy, tool: string, d: Decision, rule: Rule, action: Action) {
    d.rule == rule && d.action == if Blocks(used, tool) then action else ShadowDeny
  }

  predicate Failed(d: Decision) {
    d.rule == InternalError && d.action == Deny
  }

  /** What the live pipeline decides on a working store: the first of these that is broken refuses the call. */
  ghost predicate LiveVerdict(lib: Library, db: Db, call: Call, sess: Session, used: Policy, d: Decision) {
    if !EnvHolds(call, used) then RefusedBy(used, call.tool, d, EnvMismatch, Deny)
    else if !ToolAllowed(call, used) then RefusedBy(used, call.tool, d, NotInMayUse, Deny)
    else if call.parent != "" && !ParentReadable(db, call) then Failed(d)
    else if call.parent != "" && !ParentAllows(db, call) then RefusedBy(used, call.tool, d, ExceedsParent, Deny)
    else if !CallsLeft(sess, used) then RefusedBy(used, call.tool, d, MaxToolCalls, Deny)
    else if !MoneyLeft(sess, used) then RefusedBy(used, call.tool, d, MaxCost, Deny)
    else if !TaintHarmless(sess.tainted, call.tool, used) then RefusedBy(used, call.tool, d, SessionTainted, Deny)
    else LaterVerdict(lib, db, call, used, d)
  }

  ghost predicate LaterVerdict(lib: Library, db: Db, call: Call, used: Policy, d: Decision) {
    if !(Prerequisites(db.events, call.session, used, call.tool)
         && NoForbidden(db.events, call.session, used, call.tool))
    then RefusedBy(used, call.tool, d, SequenceBroken, Deny)
    else if exists rule :: ContentFires(lib, call, used, rule) then
      ContentFires(lib, call, used, d.rule) && RefusedBy(used, call.tool, d, d.rule, Deny)
    else if !ContentClear(lib, call, used) then Failed(d)
    else if !QuotaLeft(db, call, used) then RefusedBy(used, call.tool, d, RateLimited(call.tool), Deny)
    else if HumanNeeded(lib, db, call, used) then RefusedBy(used, call.tool, d, NeedsApproval, Escalate)
    else if !HumanCleared(lib, db, call, used) then Failed(d)
    else d == Permit()
  }

  lemma StageByStage(
    stage: Stage, rest: seq<Stage>, lib: Library, b: Backend, call: Call, sess: Session, used: Policy)
    ensures var d, r := Pipeline([stage] + rest, lib, b, call, sess, used), EvalStage(stage, lib, b, call, sess, used);
            && (Passes(stage, lib, b, call, sess, used) ==> d == Pipeline(rest, lib, b, call, sess, used))
            && (!Passes(stage, lib, b, call, sess, used) && r.Ok? ==>
                  RefusedBy(used, call.tool, d, r.value.rule, r.value.action))
            && (r.Error? ==> Failed(d))
  {
    hide EvalStage, EffectiveMode, Blocks;
    assert ([stage] + rest)[1..] == rest;
    BlocksMeans(used, call.tool);
    var r := EvalStage(stage, lib, b, call, sess, used);
    if !Passes(stage, lib, b, call, sess, used) {
      SettledStands(r, used, call.tool);
    }
  }

  lemma LaterDecides(lib: Library, db: Db, call: Call, sess: Session, used: Policy)
    ensures LaterVerdict(lib, db, call, used,
              Pipeline([Sequence, Content, Rate, Escalation], lib, StoreBackend(db, false), call, sess, used))
  {
    hide Pipeline, EvalStage, Blocks, Prerequisites, NoForbidden, ContentClear, ContentFires, QuotaLeft, HumanCleared,
        HumanNeeded;
    var b := StoreBackend(db, false);
    ExactHistory(lib, db, call, sess, used);
    ExactContent(lib, b, call, sess, used);
    ExactEscalation(lib, db, call, sess, used);
    StageByStage(Sequence, [Content, Rate, Escalation], lib, b, call, sess, used);
    StageByStage(Content, [Rate, Escalation], lib, b, call, sess, used);
    StageByStage(Rate, [Escalation], lib, b, call, sess, used);
    StageByStage(Escalation, [], lib, b, call, sess, used);
    NoStages(lib, b, call, sess, used);
    assert [Sequence] + [Content, Rate, Escalation] == [Sequence, Content, Rate, Escalation];
    assert [Content] + [Rate, Escalation] == [Content, Rate, Escalation];
    assert [Rate] + [Escalation] == [Rate, Escalation] && [Escalation] + [] == [Escalation];
  }

  lemma NoStages(lib: Library, b: Backend, call: Call, sess: Session, used: Policy)
    ensures Pipeline([], lib, b, call, sess, used) == Permit()
  {
  }

  /** The whole decision of the live pipeline. */
  lemma LiveDecides(lib: Library, db: Db, call: Call, sess: Session, used: Policy)
    ensures LiveVerdict(lib, db, call, sess, used, Pipeline(Live(), lib, StoreBackend(db, false), call, sess, used))
  {
    hide Pipeline, EvalStage, LaterVerdict, EnvHolds, ToolAllowed, CallsLeft, MoneyLeft, TaintHarmless, Blocks,
        QuotaLeft, Prerequisites, NoForbidden;
    var b := StoreBackend(db, false);
    var later := [Sequence, Content, Rate, Escalation];
    ExactSimple(lib, b, call, sess, used);
    ExactTaint(lib, b, call, sess, used);
    ExactHistory(lib, db, call, sess, used);
    LaterDecides(lib, db, call, sess, used);
    StageByStage(Env, [MayUse, Delegation, BudgetLimit, TaintGuard] + later, lib, b, call, sess, used);
    StageByStage(MayUse, [Delegation, BudgetLimit, TaintGuard] + later, lib, b, call, sess, used);
    StageByStage(Delegation, [BudgetLimit, TaintGuard] + later, lib, b, call, sess, used);
    StageByStage(BudgetLimit, [TaintGuard] + later, lib, b, call, sess, used);
    StageByStage(TaintGuard, later, lib, b, call, sess, used);
    assert [Env] + ([MayUse, Delegation, BudgetLimit, TaintGuard] + later) == Live();
    assert [MayUse] + ([Delegation, BudgetLimit, TaintGuard] + later)
      == [MayUse, Delegation, BudgetLimit, TaintGuard] + later;
    assert [Delegation] + ([BudgetLimit, TaintGuard] + later) == [Delegation, BudgetLimit, TaintGuard] + later;
    assert [BudgetLimit] + ([TaintGuard] + later) == [BudgetLimit, TaintGuard] + later;
  }

  /** Exactly when the live pipeline permits a call, on a working store: the guards on call, policy and session
      hold, the parent allows the tool, the sequence predicates hold of the event table, the quota is not used
      up, and no human needs to be asked or one has approved. */
  lemma PermittedExactly(lib: Library, db: Db, call: Call, sess: Session, used: Policy)
    ensures Pipeline(Live(), lib, StoreBackend(db, false), call, sess, used).action == Allow <==>
            && GuardsHold(lib, call, sess, used) && (call.parent != "" ==> ParentAllows(db, call))
            && Prerequisites(db.events, call.session, used, call.tool)
            && NoForbidden(db.events, call.session, used, call.tool)
            && QuotaLeft(db, call, used) && HumanCleared(lib, db, call, used)
  {
    hide Pipeline, EvalStage, EnvHolds, ToolAllowed, CallsLeft, MoneyLeft, TaintHarmless, Blocks, QuotaLeft,
        Prerequisites, NoForbidden, ContentFires, ContentClear, HumanNeeded, HumanCleared;
    var d := Pipeline(Live(), lib, StoreBackend(db, false), call, sess, used);
    LiveDecides(lib, db, call, sess, used);
    ExactContent(lib, StoreBackend(db, false), call, sess, used);
    ExactEscalation(lib, db, call, sess, used);
  }

  // ---- the comparison operators

  /** Some comparison of escalate_when is met. */
  predicate Met(lib: Library, v: Value, operator: Operator, t: Threshold) {
    ApplyOperator(lib, v, operator, t) == Ok(true)
  }

  /** Neither side is NaN. */
  predicate Comparable(v: Value, t: Threshold) {
    !v.number.NaN? && !ThresholdNumber(t).NaN?
  }

  /** The comparisons point the way they are written, and opposites cover every call: `==` and `!=` always do;
      `<` and `>=`, and `>` and `<=`, do exactly if neither side is NaN. */
  lemma OppositesCover(lib: Library, v: Value, t: Threshold)
    ensures Met(lib, v, Greater, t) <==> Above(v.number, ThresholdNumber(t))
    ensures Met(lib, v, Less, t) <==> Above(ThresholdNumber(t), v.number)
    ensures Met(lib, v, Equal, t) <==> !Met(lib, v, NotEqual, t)
    ensures (Met(lib, v, Less, t) <==> !Met(lib, v, AtLeast, t)) <==> Comparable(v, t)
    ensures (Met(lib, v, Greater, t) <==> !Met(lib, v, AtMost, t)) <==> Comparable(v, t)
    ensures Comparable(v, t) ==>
      && (Met(lib, v, Less, t) || Met(lib, v, Equal, t) || Met(lib, v, Greater, t))
      && !(Met(lib, v, Less, t) && Met(lib, v, Equal, t)) && !(Met(lib, v, Equal, t) && Met(lib, v, Greater, t))
      && !(Met(lib, v, Less, t) && Met(lib, v, Greater, t))
  {
  }

  /** An argument that reads as NaN meets none of the four order comparisons, whatever the threshold: for such a
      rule the call is not escalated. */
  lemma NotANumberNeverEscalates(lib: Library, db: Db, call: Call, sess: Session, used: Policy, path: string)
    requires call.tool in used.tools && used.tools[call.tool].escalateWhen.Some?
    requires var rule := used.tools[call.tool].escalateWhen.value;
             && (rule.operator == Greater || rule.operator == Less
                 || rule.operator == AtLeast || rule.operator == AtMost)
             && Strips(rule.path, path) && path != ""
             && lib.lookup(call.args, path).Some? && lib.lookup(call.args, path).value.number.NaN?
    ensures Passes(Escalation, lib, StoreBackend(db, false), call, sess, used)
  {
    hide EvalStage, HumanApproved;
    ExactEscalation(lib, db, call, sess, used);
    JudgedThere(lib, call.args, path, used.tools[call.tool].escalateWhen.value);
  }
}
