/** What an offline evaluation decides about each call of a session (cmd/simulate.go, cmd/audit/replay.go), for any
    policy, in the words of the policy and of the results the session has had so far. */
module OfflineMeaning {
  import opened Prelude
  import opened Policies
  import opened Database
  import opened Engine
  import opened ArgumentRules
  import opened PipelineLaws
  import opened SequenceChecks
  import opened StageMeanings
  import opened Sequential
  import opened SessionRuns

  // ---- what the past says

  /** The call was let through. */
  function Ran(): Entry -> bool {
    (e: Entry) => e.decision == Allow || e.decision == ShadowDeny
  }

  predicate Taints(pol: Policy, e: Entry) {
    e.decision == Allow && e.tool in pol.tools && pol.tools[e.tool].taint.applies
  }

  predicate Cleans(pol: Policy, e: Entry) {
    e.decision == Allow && e.tool in pol.tools && pol.tools[e.tool].taint.clears && !pol.tools[e.tool].taint.applies
  }

  /** A permitted call has applied taint, and none permitted since has cleared it. */
  ghost predicate PastTaints(pol: Policy, past: seq<Entry>) {
    exists i :: 0 <= i < |past| && Taints(pol, past[i]) && forall j :: i < j < |past| ==> !Cleans(pol, past[j])
  }

  /** The rate limit counts the executed calls of the tool from the start of its window on. */
  predicate QuotaOpen(pol: Policy, tool: string, at: int, past: seq<Entry>) {
    tool in pol.tools && pol.tools[tool].rateLimit.Some? ==>
      var rl := pol.tools[tool].rateLimit.value;
      Count(past, ExecutedOfSince(tool, at - rl.windowSeconds * 1_000_000_000)) < rl.maxCalls
  }

  /** may_use names the tool, both budgets are left at a thousandth of a dollar for each call let through, the
      taint guard does not stop it, the sequence predicates hold, and its quota is open. */
  ghost predicate PastAllows(pol: Policy, tool: string, at: int, past: seq<Entry>) {
    && (tool in pol.mayUse || tool == "check_escalation_status")
    && (pol.budget.maxCalls > 0 ==> Count(past, Ran()) < pol.budget.maxCalls)
    && (pol.budget.maxCost > 0 ==> Count(past, Ran()) < pol.budget.maxCost)
    && TaintHarmless(PastTaints(pol, past), tool, pol)
    && (tool in pol.tools ==> SequenceHolds(past, pol.tools[tool].sequencing))
    && QuotaOpen(pol, tool, at, past)
  }

  /** The decision on a call with this past; `asks` says that escalate_when is evaluated. */
  ghost predicate PastGives(
    lib: Library, pol: Policy, asks: bool, tool: string, args: string, at: int, past: seq<Entry>, action: Action) {
    if !PastAllows(pol, tool, at, past) then action == if Blocks(pol, tool) then Deny else ShadowDeny
    else if asks && tool in pol.tools && pol.tools[tool].escalateWhen.Some? then
      var rule := pol.tools[tool].escalateWhen.value;
      if Judged(lib, args, rule, true) then action == if Blocks(pol, tool) then Escalate else ShadowDeny
      else action == if Judged(lib, args, rule, false) then Allow else Deny
    else action == Allow
  }

  // ---- the pipeline on a past

  function OfflineStages(asks: bool): seq<Stage> {
    [MayUse, BudgetLimit, TaintGuard, Sequence, Rate] + if asks then [Escalation] else []
  }

  lemma ExactPast(lib: Library, past: seq<Entry>, call: Call, row: Session, pol: Policy)
    ensures var b := MemBackend(past, [], []);
            && EvalStage(Sequence, lib, b, call, row, pol).Ok? && EvalStage(Rate, lib, b, call, row, pol).Ok?
            && EvalStage(Sequence, lib, b, call, row, pol).value.action in {Allow, Deny}
            && EvalStage(Rate, lib, b, call, row, pol).value.action in {Allow, Deny}
            && (Passes(Sequence, lib, b, call, row, pol) <==>
                  (call.tool in pol.tools ==> SequenceHolds(past, pol.tools[call.tool].sequencing)))
            && (Passes(Rate, lib, b, call, row, pol) <==> QuotaOpen(pol, call.tool, call.requestedAt, past))
  {
    hide Triggered, NeverWhenAny, NeverWhenAll, SequenceViolations;
    var b := MemBackend(past, [], []);
    assert EvalStage(Sequence, lib, b, call, row, pol) == EvalSequence(b, call, pol);
    assert EvalStage(Rate, lib, b, call, row, pol) == EvalRate(b, call, pol);
    if call.tool in pol.tools {
      PermittedIffHolds(past, pol.tools[call.tool].sequencing);
    }
  }

  lemma ExactAsking(lib: Library, past: seq<Entry>, call: Call, row: Session, pol: Policy)
    ensures var r := EvalStage(Escalation, lib, MemBackend(past, [], []), call, row, pol);
            if call.tool in pol.tools && pol.tools[call.tool].escalateWhen.Some? then
              var rule := pol.tools[call.tool].escalateWhen.value;
              && (Judged(lib, call.args, rule, true) ==> r.Ok? && r.value.action == Escalate)
              && (Judged(lib, call.args, rule, false) ==> r == Ok(Permit()))
              && (!Judged(lib, call.args, rule, true) && !Judged(lib, call.args, rule, false) ==> r.Error?)
              && !(Judged(lib, call.args, rule, true) && Judged(lib, call.args, rule, false))
            else r == Ok(Permit())
  {
    hide Triggered, NeverWhenAny, NeverWhenAll, SequenceDecision, Judged;
    var b := MemBackend(past, [], []);
    assert EvalStage(Escalation, lib, b, call, row, pol) == EvalEscalation(lib, b, call, pol);
    if call.tool in pol.tools && pol.tools[call.tool].escalateWhen.Some? {
      var rule := pol.tools[call.tool].escalateWhen.value;
      ConditionMeans(lib, call.args, rule);
      assert Judged(lib, call.args, rule, true) <==> Triggered(lib, call.args, rule) == Ok(true);
      assert Judged(lib, call.args, rule, false) <==> Triggered(lib, call.args, rule) == Ok(false);
    }
  }

  /** The session's row tells its past. */
  ghost predicate RowTold(pol: Policy, row: Session, past: seq<Entry>) {
    row.calls == Count(past, Ran()) && row.cost == Count(past, Ran()) && (row.tainted <==> PastTaints(pol, past))
  }

  lemma PastDecides(lib: Library, asks: bool, past: seq<Entry>, call: Call, row: Session, pol: Policy)
    requires RowTold(pol, row, past)
    ensures PastGives(lib, pol, asks, call.tool, call.args, call.requestedAt, past,
              Pipeline(OfflineStages(asks), lib, MemBackend(past, [], []), call, row, pol).action)
  {
    hide Pipeline, EvalStage, Blocks, Judged, TaintHarmless, PastTaints, SequenceHolds, QuotaOpen;
    var b, asking := MemBackend(past, [], []), if asks then [Escalation] else [];
    var later := [TaintGuard, Sequence, Rate] + asking;
    ExactSimple(lib, b, call, row, pol);
    ExactTaint(lib, b, call, row, pol);
    ExactPast(lib, past, call, row, pol);
    ExactAsking(lib, past, call, row, pol);
    StageByStage(MayUse, [BudgetLimit, TaintGuard, Sequence, Rate] + asking, lib, b, call, row, pol);
    StageByStage(BudgetLimit, later, lib, b, call, row, pol);
    StageByStage(TaintGuard, [Sequence, Rate] + asking, lib, b, call, row, pol);
    StageByStage(Sequence, [Rate] + asking, lib, b, call, row, pol);
    StageByStage(Rate, asking, lib, b, call, row, pol);
    StageByStage(Escalation, [], lib, b, call, row, pol);
    NoStages(lib, b, call, row, pol);
    assert [MayUse] + ([BudgetLimit, TaintGuard, Sequence, Rate] + asking) == OfflineStages(asks);
    assert [BudgetLimit] + later == [BudgetLimit, TaintGuard, Sequence, Rate] + asking;
    assert [TaintGuard] + ([Sequence, Rate] + asking) == later;
    assert [Sequence] + ([Rate] + asking) == [Sequence, Rate] + asking;
    assert [Escalation] + [] == [Escalation];
  }

  // ---- a session's memory is its past

  /** The calls made so far, with the decisions recorded for them. */
  function PastOf(calls: seq<Timed>, records: seq<Record>): seq<Entry>
    requires |calls| == |records|
  {
    seq(|calls|, i requires 0 <= i < |calls| => Entry(calls[i].call.tool, records[i].decision, calls[i].at))
  }

  lemma PastGrows(pol: Policy, past: seq<Entry>, e: Entry)
    ensures PastTaints(pol, past + [e]) <==>
            if e.decision == Allow then TaintAfter(PastTaints(pol, past), pol, e.tool) else PastTaints(pol, past)
    ensures Count(past + [e], Ran()) == Count(past, Ran()) + if e.decision in {Allow, ShadowDeny} then 1 else 0
  {
    CountSnoc(past, e, Ran());
    var after, n := past + [e], |past|;
    assert forall i :: 0 <= i < n ==> after[i] == past[i];
    if PastTaints(pol, past) && !Cleans(pol, e) {
      var i :| 0 <= i < n && Taints(pol, past[i]) && forall j :: i < j < n ==> !Cleans(pol, past[j]);
      assert Taints(pol, after[i]);
      assert PastTaints(pol, after);
    }
    if Taints(pol, e) {
      assert Taints(pol, after[n]);
      assert PastTaints(pol, after);
    }
    if PastTaints(pol, after) && !Taints(pol, e) {
      var i :| 0 <= i <= n && Taints(pol, after[i]) && forall j :: i < j < |after| ==> !Cleans(pol, after[j]);
      assert Taints(pol, past[i]) && !Cleans(pol, after[n]);
      assert forall j :: i < j < n ==> !Cleans(pol, after[j]) && after[j] == past[j];
    }
  }

  lemma NewRow(pol: Policy, agent: string)
    ensures RowTold(pol, NewSession(agent, pol.fingerprint), [])
  {
  }

  lemma ChargedTells(pol: Policy, row: Session, past: seq<Entry>, e: Entry)
    requires RowTold(pol, row, past)
    ensures RowTold(pol, Charged(row, pol, e.tool, e.decision), past + [e])
  {
    hide PastTaints, TaintAfter;
    PastGrows(pol, past, e);
  }

  /** After some calls, a session remembers exactly them and the decisions on them. */
  lemma {:induction false} MemoryIsPast(lib: Library, stages: seq<Stage>, pol: Policy, calls: seq<Timed>, call: Call)
    ensures var m := Ready(lib, stages, pol, calls, call);
            m.history == PastOf(calls, SessionRecords(lib, stages, pol, calls)) && RowTold(pol, m.row, m.history)
  {
    hide DecisionAfter, Charged, RowTold;
    if |calls| == 0 {
      NewRow(pol, call.agent);
    } else {
      var front, last := calls[..|calls| - 1], calls[|calls| - 1];
      MemoryIsPast(lib, stages, pol, front, last.call);
      var action := DecisionAfter(lib, stages, pol, front, last.call).action;
      var m := Ready(lib, stages, pol, front, last.call);
      ChargedTells(pol, m.row, m.history, Entry(last.call.tool, action, last.at));
    }
  }

  lemma RecordAt(lib: Library, stages: seq<Stage>, pol: Policy, calls: seq<Timed>, k: nat)
    requires k < |calls|
    ensures var records := SessionRecords(lib, stages, pol, calls);
            && records[..k] == SessionRecords(lib, stages, pol, calls[..k])
            && records[k] == Record(calls[k].call.session, k + 1, calls[k].call.tool,
                                    DecisionAfter(lib, stages, pol, calls[..k], calls[k].call).action)
  {
    hide DecisionAfter;
    RecordsPrefix(lib, stages, pol, calls, k);
    RecordsPrefix(lib, stages, pol, calls, k + 1);
    assert calls[..k + 1][..k] == calls[..k];
    assert SessionRecords(lib, stages, pol, calls)[k] == SessionRecords(lib, stages, pol, calls)[..k + 1][k];
  }

  /** Each record of a session: its call, its number, and the decision its past gives. */
  lemma RecordMeans(lib: Library, asks: bool, pol: Policy, calls: seq<Timed>, k: nat)
    requires k < |calls|
    ensures var records, call := SessionRecords(lib, OfflineStages(asks), pol, calls), calls[k].call;
            && records[k].session == call.session && records[k].tool == call.tool && records[k].seqNo == k + 1
            && PastGives(lib, pol, asks, call.tool, call.args, call.requestedAt, PastOf(calls[..k], records[..k]),
                 records[k].decision)
  {
    hide SessionRecords, Ready, Pipeline, OfflineStages, PastGives, RowTold;
    RecordAt(lib, OfflineStages(asks), pol, calls, k);
    MemoryIsPast(lib, OfflineStages(asks), pol, calls[..k], calls[k].call);
    var m := Ready(lib, OfflineStages(asks), pol, calls[..k], calls[k].call);
    PastDecides(lib, asks, m.history, calls[k].call, m.row, pol);
  }
}
