/** Escalations (internal/store/escalations.go, internal/engine/escalation.go): resolution races and the
    chain of evidence behind every permitted call that needs approval. */
module Approvals {
  import opened Prelude
  import opened Policies
  import opened Database
  import opened Engine
  import opened ArgumentRules
  import opened Protocol
  import opened Frame
  import opened Recording

  // ---- what a step does to the escalations table

  /** Request i created the record. */
  predicate CreatedBy(r: Request, id: string, row: EscalationRow) {
    && r.pc == Done(Escalated(id)) && r.recorded && r.decision.action == Escalate
    && row.session == r.call.session && row.tool == r.call.tool && row.args == r.call.args && row.seqNo == r.seqNo
  }

  /** Records are never removed; only an operator's verdict changes one, and only from pending. */
  ghost predicate EscalationsKept(db: Db, step: Step, db': Db) {
    forall id :: id in db.escalations ==>
      && id in db'.escalations
      && db'.escalations[id] ==
         if step.Judge? && step.id == id && !step.fail && step.verdict != Pending
            && db.escalations[id].status == Pending
         then db.escalations[id].(status := step.verdict) else db.escalations[id]
  }

  /** A new record is pending and comes from the request that moved. */
  ghost predicate EscalationsNew(s: State, step: Step, s': State) {
    forall id :: id in s'.db.escalations && id !in s.db.escalations ==>
      && s'.db.escalations[id].status == Pending
      && step.Advance? && step.i < |s'.reqs| && CreatedBy(s'.reqs[step.i], id, s'.db.escalations[id])
  }

  lemma SettleEscalations(cfg: Config, s: State, i: nat, fail: bool, id: string)
    requires i < |s.reqs| && s.reqs[i].pc.Settle? && s.reqs[i].recorded
    ensures var s', step := MoveSettle(cfg, s, i, fail, id), Advance(i, fail, 0, id);
            EscalationsKept(s.db, step, s'.db) && EscalationsNew(s, step, s')
  {
  }

  lemma OtherMovesKeepEscalations(cfg: Config, s: State, i: nat, fail: bool, now: int, id: string)
    requires i < |s.reqs| && !s.reqs[i].pc.Settle?
    ensures Move(cfg, s, i, fail, now, id).db.escalations == s.db.escalations
  {
  }

  lemma StepEscalations(cfg: Config, s: State, step: Step)
    requires AllOk(s)
    ensures EscalationsKept(s.db, step, Apply(cfg, s, step).db) && EscalationsNew(s, step, Apply(cfg, s, step))
  {
    if step.Advance? && step.i < |s.reqs| {
      if s.reqs[step.i].pc.Settle? {
        SettleEscalations(cfg, s, step.i, step.fail, step.id);
      } else {
        OtherMovesKeepEscalations(cfg, s, step.i, step.fail, step.now, step.id);
      }
    }
  }

  // ---- resolution races

  /** Step q is the verdict that takes the record out of pending. */
  ghost predicate ResolvesAt(cfg: Config, pol: Policy, steps: seq<Step>, q: nat, id: string, verdict: Status) {
    && q < |steps| && steps[q] == Judge(id, verdict, false) && verdict != Pending
    && id in At(cfg, pol, steps, q).db.escalations
    && At(cfg, pol, steps, q).db.escalations[id].status == Pending
  }

  ghost predicate StatusAt(cfg: Config, pol: Policy, steps: seq<Step>, n: nat, id: string, status: Status) {
    n <= |steps| && id in At(cfg, pol, steps, n).db.escalations
    && At(cfg, pol, steps, n).db.escalations[id].status == status
  }

  lemma OneStep(cfg: Config, pol: Policy, steps: seq<Step>, n: nat)
    requires n < |steps|
    ensures EscalationsKept(At(cfg, pol, steps, n).db, steps[n], At(cfg, pol, steps, n + 1).db)
    ensures EscalationsNew(At(cfg, pol, steps, n), steps[n], At(cfg, pol, steps, n + 1))
  {
    AtSound(cfg, pol, steps, n);
    AtNext(cfg, pol, steps, n);
    StepEscalations(cfg, At(cfg, pol, steps, n), steps[n]);
  }

  /** A resolved record keeps its status, its call and its verdict for ever. */
  lemma {:induction false} StatusIsFinal(cfg: Config, pol: Policy, steps: seq<Step>, m: nat, n: nat, id: string)
    requires m <= n <= |steps| && id in At(cfg, pol, steps, m).db.escalations
    ensures id in At(cfg, pol, steps, n).db.escalations
    ensures var before, after := At(cfg, pol, steps, m).db.escalations[id], At(cfg, pol, steps, n).db.escalations[id];
            && after.(status := before.status) == before
            && (before.status != Pending ==> after == before)
  {
    if m < n {
      StatusIsFinal(cfg, pol, steps, m, n - 1, id);
      OneStep(cfg, pol, steps, n - 1);
    }
  }

  /** A record that has left pending left it by exactly one step. */
  lemma {:induction false} ResolutionStep(cfg: Config, pol: Policy, steps: seq<Step>, n: nat, id: string,
      verdict: Status)
    returns (q: nat)
    requires verdict != Pending && StatusAt(cfg, pol, steps, n, id, verdict)
    ensures q < n && ResolvesAt(cfg, pol, steps, q, id, verdict)
  {
    assert n > 0;
    OneStep(cfg, pol, steps, n - 1);
    if StatusAt(cfg, pol, steps, n - 1, id, verdict) {
      q := ResolutionStep(cfg, pol, steps, n - 1, id, verdict);
    } else {
      q := n - 1;
    }
  }

  lemma ResolvedOnce(cfg: Config, pol: Policy, steps: seq<Step>, id: string, q: nat, v: Status, q': nat, v': Status)
    requires ResolvesAt(cfg, pol, steps, q, id, v) && ResolvesAt(cfg, pol, steps, q', id, v')
    ensures q == q' && v == v'
  {
    var lo, hi := if q <= q' then q else q', if q <= q' then q' else q;
    if lo < hi {
      OneStep(cfg, pol, steps, lo);
      StatusIsFinal(cfg, pol, steps, lo + 1, hi, id);
    }
  }

  /** What the operator is told by one attempt: None is success; a failed attempt on an existing record
      reports the status a later lookup finds. */
  function AttemptReport(before: Db, id: string, verdict: Status, after: Db): Result<Option<Status>> {
    if ResolvePending(before, id, verdict).Some? then Ok(None)
    else if id in after.escalations then Ok(Some(after.escalations[id].status))
    else Error
  }

  /** Resolution races. Take any attempt on a record that exists, and any later lookup. The attempt
      succeeds exactly when it is the one step that takes the record out of pending; otherwise the
      record was resolved before, and the report is the status it has at every later point. */
  lemma ResolutionRace(cfg: Config, pol: Policy, steps: seq<Step>, q: nat, id: string, verdict: Status, look: nat,
      end: nat)
    requires q < |steps| && steps[q] == Judge(id, verdict, false) && verdict != Pending
    requires q <= look <= end <= |steps| && id in At(cfg, pol, steps, q).db.escalations
    ensures id in At(cfg, pol, steps, end).db.escalations
    ensures var report := AttemptReport(At(cfg, pol, steps, q).db, id, verdict, At(cfg, pol, steps, look).db);
            && (report == Ok(None) <==> ResolvesAt(cfg, pol, steps, q, id, verdict))
            && (report == Ok(None) && q < end ==> StatusAt(cfg, pol, steps, end, id, verdict))
            && (report != Ok(None) ==>
                  var final := At(cfg, pol, steps, end).db.escalations[id].status;
                  && report == Ok(Some(final)) && final != Pending
                  && exists p: nat :: p < q && ResolvesAt(cfg, pol, steps, p, id, final))
  {
    StatusIsFinal(cfg, pol, steps, q, look, id);
    StatusIsFinal(cfg, pol, steps, q, end, id);
    if ResolvesAt(cfg, pol, steps, q, id, verdict) {
      if q < end {
        OneStep(cfg, pol, steps, q);
        StatusIsFinal(cfg, pol, steps, q + 1, end, id);
      }
    } else {
      var p := ResolutionStep(cfg, pol, steps, q, id, At(cfg, pol, steps, q).db.escalations[id].status);
    }
  }

  // ---- the approval chain

  const ESCALATION_STAGE := 8

  /** The call's arguments meet its tool's escalate_when condition. */
  ghost predicate NeedsHuman(lib: Library, pol: Policy, call: Call) {
    && call.tool in pol.tools && pol.tools[call.tool].escalateWhen.Some?
    && Judged(lib, call.args, pol.tools[call.tool].escalateWhen.value, true)
  }

  ghost predicate PermittedDespiteRule(lib: Library, r: Request) {
    Decided(r) && r.decision.action == Allow && r.pol.Some? && NeedsHuman(lib, r.pol.value, r.call)
  }

  predicate Approves(lib: Library, db: Db, id: string, call: Call) {
    id in db.escalations && IsApprovalOf(lib, db.escalations[id], call.session, call.tool, lib.sha256(call.args))
  }

  /** Step p runs the escalation stage of request i, which finds the approval `id`. */
  ghost predicate ClearedAt(cfg: Config, pol: Policy, steps: seq<Step>, p: nat, i: nat, id: string) {
    && p < |steps| && steps[p].Advance? && steps[p].i == i
    && var s := At(cfg, pol, steps, p);
    && i < |s.reqs| && s.reqs[i].pc == Evaluating(ESCALATION_STAGE)
    && Approves(cfg.lib, s.db, id, s.reqs[i].call)
  }

  /** Only an approval lets such a call through the last stage. */
  lemma ClearingReads(lib: Library, db: Db, fail: bool, r: Request, k: nat) returns (id: string)
    requires RequestOk(r) && r.pc == Evaluating(k)
    requires PermittedDespiteRule(lib, EvalOne(lib, StoreBackend(db, fail), r, k))
    ensures k == ESCALATION_STAGE && Approves(lib, db, id, r.call)
  {
    var b := StoreBackend(db, fail);
    assert Live()[ESCALATION_STAGE] == Escalation && k == ESCALATION_STAGE;
    assert EvalStage(Escalation, lib, b, r.call, r.sess, r.pol.value) == EvalEscalation(lib, b, r.call, r.pol.value);
    ConditionMeans(lib, r.call.args, r.pol.value.tools[r.call.tool].escalateWhen.value);
    id :| id in db.escalations
        && IsApprovalOf(lib, db.escalations[id], r.call.session, r.call.tool, lib.sha256(r.call.args));
  }

  /** The step that makes a request a permitted one despite its rule is its own escalation stage. */
  lemma ClearingMove(cfg: Config, s: State, step: Step, i: nat) returns (id: string)
    requires AllOk(s) && i < |Apply(cfg, s, step).reqs| && PermittedDespiteRule(cfg.lib, Apply(cfg, s, step).reqs[i])
    requires !(i < |s.reqs| && PermittedDespiteRule(cfg.lib, s.reqs[i]))
    ensures step.Advance? && step.i == i && i < |s.reqs| && s.reqs[i].pc == Evaluating(ESCALATION_STAGE)
    ensures Approves(cfg.lib, s.db, id, s.reqs[i].call) && Apply(cfg, s, step).reqs[i].call == s.reqs[i].call
  {
    hide EvalOne, EvalStage, Settled, Approves, NeedsHuman, MaxSeq;
    StepFrame(cfg, s, step);
    assert i < |s.reqs| && step.Advance? && step.i == i;
    assert s.reqs[i].pc.Evaluating?;
    id := ClearingReads(cfg.lib, s.db, step.fail, s.reqs[i], s.reqs[i].pc.k);
  }

  /** A permitted call that needed approval was cleared by one, at some step of the schedule. */
  lemma {:induction false} ClearingStep(cfg: Config, pol: Policy, steps: seq<Step>, n: nat, i: nat)
      returns (p: nat, id: string)
    requires n <= |steps| && i < |At(cfg, pol, steps, n).reqs|
    requires PermittedDespiteRule(cfg.lib, At(cfg, pol, steps, n).reqs[i])
    ensures p < n && ClearedAt(cfg, pol, steps, p, i, id)
    ensures At(cfg, pol, steps, p).reqs[i].call == At(cfg, pol, steps, n).reqs[i].call
  {
    hide Apply, At, Run, PermittedDespiteRule, Approves, RequestOk, Wrote;
    AtStart(cfg, pol, steps);
    assert n > 0;
    AtSound(cfg, pol, steps, n - 1);
    AtNext(cfg, pol, steps, n - 1);
    var s, step := At(cfg, pol, steps, n - 1), steps[n - 1];
    if i < |s.reqs| && PermittedDespiteRule(cfg.lib, s.reqs[i]) {
      AtPrecedes(cfg, pol, steps, n - 1, n);
      p, id := ClearingStep(cfg, pol, steps, n - 1, i);
    } else {
      p := n - 1;
      id := ClearingMove(cfg, s, step, i);
    }
  }

  /** Every record has its creator, whose escalate event is in the table. */
  ghost predicate Documented(s: State)
    requires RowsOk(s)
  {
    forall id :: id in s.db.escalations ==>
      exists j :: 0 <= j < |s.writers| && CreatedBy(s.reqs[s.writers[j]], id, s.db.escalations[id])
  }

  /** A recorded request has a row. */
  ghost predicate RecordedHaveRows(s: State) {
    forall i :: 0 <= i < |s.reqs| && s.reqs[i].recorded ==> i in s.writers
  }

  lemma RowsFollow(s: State, step: Step, s': State)
    requires Sound(s) && Stepped(s, step, s') && RecordedHaveRows(s)
    ensures RecordedHaveRows(s')
  {
    forall i | 0 <= i < |s'.reqs| && s'.reqs[i].recorded
      ensures i in s'.writers
    {
      if step.Advance? && step.i < |s.reqs| && Records(s, step.i, s') {
        assert s'.writers[|s.writers|] == step.i;
      }
      if i < |s.reqs| && s.reqs[i].recorded {
        var j :| 0 <= j < |s.writers| && s.writers[j] == i;
        assert s'.writers[j] == i;
      }
    }
  }

  lemma DocumentsFollow(s: State, step: Step, s': State)
    requires Sound(s) && Sound(s') && Grows(s, s') && RecordedHaveRows(s') && Documented(s)
    requires EscalationsKept(s.db, step, s'.db) && EscalationsNew(s, step, s')
    ensures Documented(s')
  {
    hide RequestOk, SeqDense, Wrote;
    forall id | id in s'.db.escalations
      ensures exists j :: 0 <= j < |s'.writers| && CreatedBy(s'.reqs[s'.writers[j]], id, s'.db.escalations[id])
    {
      if id in s.db.escalations {
        var j :| 0 <= j < |s.writers| && CreatedBy(s.reqs[s.writers[j]], id, s.db.escalations[id]);
        assert s'.writers[..|s.writers|][j] == s.writers[j];
        assert Keeps(s.reqs[s.writers[j]], s'.reqs[s.writers[j]]);
        assert CreatedBy(s'.reqs[s'.writers[j]], id, s'.db.escalations[id]);
      } else {
        var j :| 0 <= j < |s'.writers| && s'.writers[j] == step.i;
        assert CreatedBy(s'.reqs[s'.writers[j]], id, s'.db.escalations[id]);
      }
    }
  }

  lemma StartsDocumented(pol: Policy)
    ensures Sound(Initial(pol)) && RecordedHaveRows(Initial(pol)) && Documented(Initial(pol))
  {
  }

  lemma {:induction false} AtDocumented(cfg: Config, pol: Policy, steps: seq<Step>, n: nat)
    requires n <= |steps|
    ensures var s := At(cfg, pol, steps, n); Sound(s) && RecordedHaveRows(s) && Documented(s)
  {
    hide Apply, At, Run, Documented, RecordedHaveRows, Grows, Stepped, EscalationsKept, EscalationsNew, RequestOk,
        SeqDense;
    AtStart(cfg, pol, steps);
    StartsDocumented(pol);
    AtSound(cfg, pol, steps, n);
    if n > 0 {
      AtDocumented(cfg, pol, steps, n - 1);
      AtNext(cfg, pol, steps, n - 1);
      var s, step, s' := At(cfg, pol, steps, n - 1), steps[n - 1], At(cfg, pol, steps, n);
      StepFrame(cfg, s, step);
      OneStep(cfg, pol, steps, n - 1);
      RowsFollow(s, step, s');
      SteppedGrows(s, step, s');
      DocumentsFollow(s, step, s');
    }
  }

  /** At the clearing step, the escalate event of the record is already in the table. */
  lemma ClearingRow(cfg: Config, pol: Policy, steps: seq<Step>, p: nat, i: nat, id: string) returns (e: nat)
    requires ClearedAt(cfg, pol, steps, p, i, id)
    ensures var s := At(cfg, pol, steps, p);
            && e < |s.db.events| && e < |s.writers| && s.writers[e] < |s.reqs|
            && var row := s.db.events[e];
            && row.decision == Escalate && row.session == s.reqs[i].call.session && row.tool == s.reqs[i].call.tool
            && cfg.lib.sha256(row.args) == cfg.lib.sha256(s.reqs[i].call.args)
            && row.seqNo == s.db.escalations[id].seqNo
  {
    AtDocumented(cfg, pol, steps, p);
    var s := At(cfg, pol, steps, p);
    e :| 0 <= e < |s.writers| && CreatedBy(s.reqs[s.writers[e]], id, s.db.escalations[id]);
    assert Wrote(s.reqs[s.writers[e]], s.db.events[e]);
  }

  /** A request still in evaluation at p writes its row after everything in the table at p. */
  lemma RowComesLater(cfg: Config, pol: Policy, steps: seq<Step>, p: nat, i: nat, j: nat)
    requires p <= |steps| && i < |At(cfg, pol, steps, p).reqs| && At(cfg, pol, steps, p).reqs[i].pc.Evaluating?
    requires j < |At(cfg, pol, steps, |steps|).writers| && At(cfg, pol, steps, |steps|).writers[j] == i
    ensures |At(cfg, pol, steps, p).db.events| <= j
  {
    AtSound(cfg, pol, steps, p);
    AtPrecedes(cfg, pol, steps, p, |steps|);
    var s := At(cfg, pol, steps, p);
    forall x | 0 <= x < |s.writers|
      ensures s.writers[x] != i
    {
      assert Wrote(s.reqs[s.writers[x]], s.db.events[x]);
    }
    assert forall x :: 0 <= x < |s.writers| ==> At(cfg, pol, steps, |steps|).writers[x] == s.writers[x];
  }

  /** Approval chain. In every schedule and every mode, behind every permitted call whose arguments meet
      escalate_when stands a record `id`: an escalate event e, earlier in the table, for the same session,
      tool and argument hash, carries the record's seq; step p evaluated the call and found the record
      approved; and exactly one step of the whole schedule, q, before p, approved it. */
  lemma ApprovalChain(cfg: Config, pol: Policy, steps: seq<Step>, j: nat) returns (id: string, e: nat, q: nat, p: nat)
    requires var s := At(cfg, pol, steps, |steps|);
             && j < |s.db.events| && j < |s.writers| && s.writers[j] < |s.reqs| && s.db.events[j].decision == Allow
             && s.reqs[s.writers[j]].pol.Some?
             && NeedsHuman(cfg.lib, s.reqs[s.writers[j]].pol.value, s.reqs[s.writers[j]].call)
    ensures var s := At(cfg, pol, steps, |steps|);
            && q < p < |steps| && ClearedAt(cfg, pol, steps, p, s.writers[j], id)
            && ResolvesAt(cfg, pol, steps, q, id, Approved)
            && (forall q': nat, v :: ResolvesAt(cfg, pol, steps, q', id, v) ==> q' == q)
            && e < j && s.db.events[e].decision == Escalate
            && s.db.events[e].session == s.db.events[j].session && s.db.events[e].tool == s.db.events[j].tool
            && cfg.lib.sha256(s.db.events[e].args) == cfg.lib.sha256(s.db.events[j].args)
            && id in s.db.escalations && s.db.escalations[id].seqNo == s.db.events[e].seqNo
  {
    var n := |steps|;
    AtSound(cfg, pol, steps, n);
    var s := At(cfg, pol, steps, n);
    var i := s.writers[j];
    assert Wrote(s.reqs[i], s.db.events[j]);
    p, id := ClearingStep(cfg, pol, steps, n, i);
    q := ResolutionStep(cfg, pol, steps, p, id, Approved);
    forall q': nat, v | ResolvesAt(cfg, pol, steps, q', id, v)
      ensures q' == q
    {
      ResolvedOnce(cfg, pol, steps, id, q', v, q, Approved);
    }
    e := ClearingRow(cfg, pol, steps, p, i, id);
    RowComesLater(cfg, pol, steps, p, i, j);
    AtPrecedes(cfg, pol, steps, p, n);
    StatusIsFinal(cfg, pol, steps, p, n, id);
    assert s.db.events[..|At(cfg, pol, steps, p).db.events|][e] == s.db.events[e];
  }
}
