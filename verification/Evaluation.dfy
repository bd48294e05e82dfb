/** The parts of the engine that work by loops and in-place updates, proved against the functions of
    Engine: the pipeline run, the taint flag, the set of taint sources, and never_when. */
module Evaluation {
  import opened Prelude
  import opened Policies
  import opened Database
  import opened Engine
  import opened ArgumentRules

  /** The session struct a handler holds; the pipeline updates it in place. */
  class SessionState {
    var row: Session

    constructor (row: Session)
      ensures this.row == row
    {
      this.row := row;
    }
  }

  /** Clears first, then applies. */
  method ApplyTaintMutations(call: Call, sess: SessionState, pol: Policy)
    modifies sess
    ensures sess.row == old(sess.row).(tainted := TaintAfter(old(sess.row.tainted), pol, call.tool))
  {
    if call.tool !in pol.tools {
      return;
    }
    var taint := pol.tools[call.tool].taint;
    if taint.clears && sess.row.tainted {
      sess.row := sess.row.(tainted := false);
    }
    if taint.applies {
      sess.row := sess.row.(tainted := true);
    }
  }

  /** Runs the stages in order, each on its own view of the store, until one settles the call. Only a
      permitted call moves the taint flag, and nothing else of the session changes. */
  method Evaluate(stages: seq<Stage>, lib: Library, views: nat -> Backend, call: Call, sess: SessionState, pol: Policy)
    returns (d: Decision)
    modifies sess
    ensures d == PipelineOn(stages, 0, lib, views, call, old(sess.row), pol)
    ensures sess.row == old(sess.row).(tainted :=
              if d.action == Allow then TaintAfter(old(sess.row.tainted), pol, call.tool) else old(sess.row.tainted))
  {
    hide EvalStage, TaintAfter, EffectiveMode;
    for i := 0 to |stages|
      invariant sess.row == old(sess.row)
      invariant PipelineOn(stages, 0, lib, views, call, sess.row, pol)
                == PipelineOn(stages[i..], i, lib, views, call, sess.row, pol)
    {
      assert stages[i..][0] == stages[i] && stages[i..][1..] == stages[i + 1..];
      match EvalStage(stages[i], lib, views(i), call, sess.row, pol)
      case Error => return FailClosed();
      case Ok(result) =>
        if result.action != Allow {
          if EffectiveMode(pol, call.tool) == Shadow {
            return result.(action := ShadowDeny);
          }
          return result;
        }
    }
    ApplyTaintMutations(call, sess, pol);
    return Permit();
  }

  /** Collects the tools whose policy applies taint, in any order of the map. */
  method TaintApplyingTools(pol: Policy) returns (tools: set<string>)
    ensures tools == TaintSources(pol)
  {
    tools := {};
    var rest := pol.tools.Keys;
    while rest != {}
      invariant rest <= pol.tools.Keys
      invariant forall t :: t in tools <==> t in pol.tools && t !in rest && pol.tools[t].taint.applies
      decreases rest
    {
      var t :| t in rest;
      if pol.tools[t].taint.applies {
        tools := tools + {t};
      }
      rest := rest - {t};
    }
  }

  /** The taint evaluator: a tainted session may not call a tool whose never_after names a taint source,
      unless the tool clears taint. */
  method EvaluateTaint(call: Call, sess: Session, pol: Policy) returns (d: Decision)
    ensures d == EvalTaint(call, sess, pol)
  {
    if !sess.tainted || call.tool !in pol.tools || pol.tools[call.tool].taint.clears {
      return Permit();
    }
    var sources := TaintApplyingTools(pol);
    var preds := pol.tools[call.tool].sequencing.neverAfter;
    for i := 0 to |preds|
      invariant forall k :: 0 <= k < i ==> preds[k] !in sources
    {
      if preds[i] in sources {
        return DenyBy(SessionTainted);
      }
    }
    return Permit();
  }

  /** never_when with "any": denies at the first predicate that fires. */
  method EvaluateAny(lib: Library, args: string, preds: seq<ContentPredicate>) returns (r: Result<Decision>)
    ensures r == NeverWhenAny(lib, args, preds)
  {
    hide Fires;
    for i := 0 to |preds|
      invariant NeverWhenAny(lib, args, preds) == NeverWhenAny(lib, args, preds[i..])
    {
      assert preds[i..][0] == preds[i] && preds[i..][1..] == preds[i + 1..];
      var fired := Fires(lib, args, preds[i]);
      if fired.Error? {
        return Error;
      }
      if fired.value {
        return Ok(DenyBy(ContentFired(preds[i].argument, preds[i].test)));
      }
    }
    return Ok(Permit());
  }

  /** never_when with "all": permits at the first predicate that does not fire. */
  method EvaluateAll(lib: Library, args: string, preds: seq<ContentPredicate>) returns (r: Result<Decision>)
    ensures r == NeverWhenAll(lib, args, preds)
  {
    hide Fires;
    for i := 0 to |preds|
      invariant NeverWhenAll(lib, args, preds) == NeverWhenAll(lib, args, preds[i..])
    {
      assert preds[i..][0] == preds[i] && preds[i..][1..] == preds[i + 1..];
      var fired := Fires(lib, args, preds[i]);
      if fired.Error? {
        return Error;
      }
      if !fired.value {
        return Ok(Permit());
      }
    }
    return Ok(DenyBy(ContentAllFired));
  }

  /** Every predicate before the i-th answers `answer`. */
  ghost predicate AnswersBefore(lib: Library, args: string, preds: seq<ContentPredicate>, i: nat, answer: bool)
    requires i <= |preds|
  {
    forall k :: 0 <= k < i ==> Outcome(lib, args, preds[k], Ok(answer))
  }

  /** Some predicate has this outcome, and all before it answer `answer`. */
  ghost predicate StopsAt(lib: Library, args: string, preds: seq<ContentPredicate>, answer: bool,
      outcome: Result<bool>) {
    exists i :: 0 <= i < |preds| && Outcome(lib, args, preds[i], outcome) && AnswersBefore(lib, args, preds, i, answer)
  }

  /** What "any" means: it permits when no predicate fires, denies when one fires after predicates that do
      not, and fails when one cannot be evaluated after predicates that do not fire. */
  lemma {:induction false} AnyMeaning(lib: Library, args: string, preds: seq<ContentPredicate>)
    ensures var r := NeverWhenAny(lib, args, preds);
            && (r == Ok(Permit()) <==> AnswersBefore(lib, args, preds, |preds|, false))
            && (r.Error? <==> StopsAt(lib, args, preds, false, Error))
            && (r.Ok? && r.value.action == Deny <==> StopsAt(lib, args, preds, false, Ok(true)))
  {
    hide Fires, Outcome, StopsAt, AnswersBefore;
    Unroll(lib, args, preds, false);
    if |preds| > 0 {
      AnyMeaning(lib, args, preds[1..]);
    }
  }

  /** A denial under "any" names the argument and the operator of the first predicate that fires. */
  lemma {:induction false} AnyNamesTheFirst(lib: Library, args: string, preds: seq<ContentPredicate>) returns (i: nat)
    requires var r := NeverWhenAny(lib, args, preds); r.Ok? && r.value.action == Deny
    ensures i < |preds| && Says(lib, args, preds[i], true) && AnswersBefore(lib, args, preds, i, false)
    ensures NeverWhenAny(lib, args, preds).value.rule == ContentFired(preds[i].argument, preds[i].test)
  {
    hide Fires, Says;
    OutcomesAreFires(lib, args);
    if Fires(lib, args, preds[0]) == Ok(true) {
      i := 0;
      assert Outcome(lib, args, preds[0], Ok(true));
    } else {
      i := AnyNamesTheFirst(lib, args, preds[1..]);
      Shifted(lib, args, preds, false);
      i := i + 1;
    }
  }

  /** What "all" means: it denies when every predicate fires, permits when one does not fire after
      predicates that do, and fails when one cannot be evaluated after predicates that fire. */
  lemma {:induction false} AllMeaning(lib: Library, args: string, preds: seq<ContentPredicate>)
    ensures var r := NeverWhenAll(lib, args, preds);
            && (r == Ok(DenyBy(ContentAllFired)) <==> AnswersBefore(lib, args, preds, |preds|, true))
            && (r.Error? <==> StopsAt(lib, args, preds, true, Error))
            && (r == Ok(Permit()) <==> StopsAt(lib, args, preds, true, Ok(false)))
  {
    hide Fires, Outcome, StopsAt, AnswersBefore;
    Unroll(lib, args, preds, true);
    if |preds| > 0 {
      AllMeaning(lib, args, preds[1..]);
    }
  }

  /** The first predicate either stops the evaluation or leaves it to the rest. */
  lemma Unroll(lib: Library, args: string, preds: seq<ContentPredicate>, answer: bool)
    ensures |preds| == 0 ==> AnswersBefore(lib, args, preds, 0, answer)
                             && forall o :: !StopsAt(lib, args, preds, answer, o)
    ensures |preds| > 0 ==>
      var first, rest := Fires(lib, args, preds[0]), preds[1..];
      && (AnswersBefore(lib, args, preds, |preds|, answer) <==>
            first == Ok(answer) && AnswersBefore(lib, args, rest, |rest|, answer))
      && forall o :: o != Ok(answer) ==>
           (StopsAt(lib, args, preds, answer, o) <==>
               if first == Ok(answer) then StopsAt(lib, args, rest, answer, o) else first == o)
  {
    hide Fires, Outcome, Says;
    OutcomesAreFires(lib, args);
    if |preds| > 0 {
      var first, rest := Fires(lib, args, preds[0]), preds[1..];
      Shifted(lib, args, preds, answer);
      forall o | o != Ok(answer)
        ensures StopsAt(lib, args, preds, answer, o) <==>
            if first == Ok(answer) then StopsAt(lib, args, rest, answer, o) else first == o
      {
        if first == Ok(answer) {
          if StopsAt(lib, args, preds, answer, o) {
            var i :| 0 <= i < |preds| && Fires(lib, args, preds[i]) == o && AnswersBefore(lib, args, preds, i, answer);
            assert rest[i - 1] == preds[i] && AnswersBefore(lib, args, rest, i - 1, answer);
          }
          if StopsAt(lib, args, rest, answer, o) {
            var i :| 0 <= i < |rest| && Fires(lib, args, rest[i]) == o && AnswersBefore(lib, args, rest, i, answer);
            assert preds[i + 1] == rest[i] && AnswersBefore(lib, args, preds, i + 1, answer);
          }
        } else if first == o {
          assert AnswersBefore(lib, args, preds, 0, answer);
        }
      }
    }
  }

  lemma Shifted(lib: Library, args: string, preds: seq<ContentPredicate>, answer: bool)
    ensures |preds| > 0 && Fires(lib, args, preds[0]) == Ok(answer) ==>
      forall i :: 0 <= i <= |preds[1..]| ==>
        (AnswersBefore(lib, args, preds[1..], i, answer) <==> AnswersBefore(lib, args, preds, i + 1, answer))
    ensures |preds| > 0 && Fires(lib, args, preds[0]) != Ok(answer) ==>
      forall i :: 0 < i <= |preds| ==> !AnswersBefore(lib, args, preds, i, answer)
    ensures forall i :: 0 < i < |preds| ==> preds[i] == preds[1..][i - 1]
  {
    hide Fires, Outcome, Says;
    OutcomesAreFires(lib, args);
    if |preds| > 0 && Fires(lib, args, preds[0]) == Ok(answer) {
      forall i | 0 <= i <= |preds[1..]|
        ensures AnswersBefore(lib, args, preds[1..], i, answer) <==> AnswersBefore(lib, args, preds, i + 1, answer)
      {
        if AnswersBefore(lib, args, preds[1..], i, answer) {
          forall k | 0 <= k < i + 1
            ensures Fires(lib, args, preds[k]) == Ok(answer)
          {
            if k > 0 {
              assert preds[1..][k - 1] == preds[k];
            }
          }
        }
        if AnswersBefore(lib, args, preds, i + 1, answer) {
          forall k | 0 <= k < i
            ensures Fires(lib, args, preds[1..][k]) == Ok(answer)
          {
            assert preds[1..][k] == preds[k + 1];
          }
        }
      }
    }
  }
}
