/** The audit log and the answers it stands behind (internal/proxy/proxy.go): what each answer says about the
    decision, when audit-strict refuses, and that audit records and events correspond, in every schedule. */
module AuditTrail {
  import opened Policies
  import opened Database
  import opened Engine
  import opened Recency
  import opened Protocol
  import opened Frame
  import opened Recording
  import opened Approvals
  import opened HandlerRuns

  /** The handler has come past its audit write. */
  predicate PastAudit(pc: Pc) {
    pc.PersistTaint? || pc.Settle? || (pc.Done? && Answered(pc.outcome))
  }

  /** What an answer says about the decision and about the audit write. */
  predicate AnswerOk(cfg: Config, r: Request) {
    && (r.auditFailed ==> cfg.signing && r.recorded && !r.pc.Audit?)
    && (r.pc.Done? ==>
          match r.pc.outcome
          case Denied => r.decision.action == Deny
          case Escalated(_) => r.decision.action == Escalate
          case EscalationUnrecorded => r.decision.action == Escalate
          case AuditRefused => Executed(r.decision.action) && r.auditFailed && cfg.strict
          case Forwarded(_) => Executed(r.decision.action) && !(r.auditFailed && cfg.strict)
          case _ => true)
  }

  /** The row is the request's audit record. */
  predicate Audits(r: Request, a: AuditRow) {
    && r.recorded && a.session == r.call.session && a.seqNo == r.seqNo && a.agent == r.call.agent
    && a.tool == r.call.tool && a.decision == r.decision.action
    && r.pol.Some? && a.fingerprint == r.pol.value.fingerprint
  }

  // ---- one step of one request

  /** What a step of request i does to the audit log: a record is added exactly by a working audit write. */
  ghost predicate AuditMove(cfg: Config, s: State, i: nat, s': State)
    requires i < |s.reqs|
  {
    && |s'.reqs| == |s.reqs| && s'.reqs == s.reqs[i := s'.reqs[i]]
    && AnswerOk(cfg, s'.reqs[i])
    && var r, r' := s.reqs[i], s'.reqs[i];
       && (if r.pc.Audit? && cfg.signing && !r'.auditFailed
           then |s'.audit| == |s.audit| + 1 && s'.audit[..|s.audit|] == s.audit && Audits(r', s'.audit[|s.audit|])
           else s'.audit == s.audit)
       && (PastAudit(r'.pc) ==> PastAudit(r.pc) || r.pc.Audit?)
       && (!r.pc.Audit? ==> r'.auditFailed == r.auditFailed)
  }

  lemma AuditAudits(cfg: Config, s: State, i: nat, fail: bool, now: int)
    requires i < |s.reqs| && s.reqs[i].pc.Audit? && RequestOk(s.reqs[i]) && AnswerOk(cfg, s.reqs[i])
    ensures AuditMove(cfg, s, i, MoveAudit(cfg, s, i, fail, now))
    ensures MoveAudit(cfg, s, i, fail, now).reqs[i].auditFailed == (cfg.signing && fail)
    ensures var log := MoveAudit(cfg, s, i, fail, now).audit; |log| > |s.audit| ==> log[|s.audit|].recordedAt == now
  {
  }

  lemma SettleAnswers(cfg: Config, s: State, i: nat, fail: bool, id: string)
    requires i < |s.reqs| && s.reqs[i].pc.Settle? && RequestOk(s.reqs[i]) && AnswerOk(cfg, s.reqs[i])
    ensures AuditMove(cfg, s, i, MoveSettle(cfg, s, i, fail, id))
  {
    hide InsertEscalation, AddCall, TaintAfter, EffectiveMode;
  }

  lemma TaintAnswers(cfg: Config, s: State, i: nat, fail: bool)
    requires i < |s.reqs| && s.reqs[i].pc.PersistTaint? && RequestOk(s.reqs[i]) && AnswerOk(cfg, s.reqs[i])
    ensures AuditMove(cfg, s, i, MoveTaint(s, i, fail))
  {
    hide SetTaint, TaintAfter, EffectiveMode;
  }

  /** Neither the log nor the request's audit flag changes. */
  predicate KeepsAudit(s: State, i: nat, s': State)
    requires i < |s.reqs|
  {
    s'.audit == s.audit && |s'.reqs| == |s.reqs| && s'.reqs[i].auditFailed == s.reqs[i].auditFailed
  }

  lemma OpeningKeepsAudit(s: State, i: nat, fail: bool)
    requires i < |s.reqs|
    ensures KeepsAudit(s, i, MoveLoad(s, i, fail)) && KeepsAudit(s, i, MoveCreate(s, i, fail))
  {
  }

  lemma ResolveKeepsAudit(s: State, i: nat)
    requires i < |s.reqs|
    ensures KeepsAudit(s, i, MoveResolve(s, i))
  {
    hide AfterGet, Lookup;
  }

  lemma AppendKeepsAudit(s: State, i: nat, fail: bool, now: int)
    requires i < |s.reqs|
    ensures KeepsAudit(s, i, MoveAppend(s, i, fail, now))
  {
    hide MaxSeq;
  }

  lemma EvalKeepsAudit(lib: Library, b: Backend, r: Request, k: nat)
    requires r.pol.Some? && k < |Live()|
    ensures EvalOne(lib, b, r, k).auditFailed == r.auditFailed
  {
    hide EvalStage, Settled, TaintAfter;
  }

  lemma EarlyKeeps(cfg: Config, s: State, i: nat, fail: bool, now: int, id: string)
    requires i < |s.reqs| && !s.reqs[i].pc.Audit? && !s.reqs[i].pc.PersistTaint? && !s.reqs[i].pc.Settle?
    ensures KeepsAudit(s, i, Move(cfg, s, i, fail, now, id))
  {
    hide MoveLoad, MoveCreate, MoveResolve, MoveAppend, MoveAudit, MoveTaint, MoveSettle, EvalOne;
    match s.reqs[i].pc
    case Load => OpeningKeepsAudit(s, i, fail);
    case Create => OpeningKeepsAudit(s, i, fail);
    case Resolve => ResolveKeepsAudit(s, i);
    case Evaluating(k) =>
      if s.reqs[i].pol.Some? && k < |Live()| {
        EvalKeepsAudit(cfg.lib, StoreBackend(s.db, fail), s.reqs[i], k);
      }
    case Append => AppendKeepsAudit(s, i, fail, now);
    case _ =>
  }

  /** Before the audit write there is nothing to be said. */
  lemma EarlyAnswers(cfg: Config, s: State, i: nat, fail: bool, now: int, id: string)
    requires i < |s.reqs| && RequestOk(s.reqs[i]) && AnswerOk(cfg, s.reqs[i])
    requires !s.reqs[i].pc.Audit? && !s.reqs[i].pc.PersistTaint? && !s.reqs[i].pc.Settle?
    ensures AuditMove(cfg, s, i, Move(cfg, s, i, fail, now, id))
  {
    hide Move, MaxSeq, TaintAfter, EffectiveMode;
    EarlyKeeps(cfg, s, i, fail, now, id);
    MoveMoves(cfg, s, i, fail, now, id);
  }

  lemma MoveAnswers(cfg: Config, s: State, i: nat, fail: bool, now: int, id: string)
    requires i < |s.reqs| && RequestOk(s.reqs[i]) && AnswerOk(cfg, s.reqs[i])
    ensures AuditMove(cfg, s, i, Move(cfg, s, i, fail, now, id))
  {
    hide MoveLoad, MoveCreate, MoveResolve, MoveAppend, MoveAudit, MoveTaint, MoveSettle, EvalOne, AuditMove, AnswerOk;
    match s.reqs[i].pc
    case Audit =>
      assert s.reqs[i].pol.Some?;
      AuditAudits(cfg, s, i, fail, now);
    case PersistTaint => TaintAnswers(cfg, s, i, fail);
    case Settle => SettleAnswers(cfg, s, i, fail, id);
    case _ => EarlyAnswers(cfg, s, i, fail, now, id);
  }

  // ---- every schedule

  /** Every answer is in order, every audit record is of a request, and every request that has come past a working
      audit write has a record. */
  ghost predicate AuditOk(cfg: Config, s: State) {
    && (forall i :: 0 <= i < |s.reqs| ==> AnswerOk(cfg, s.reqs[i]))
    && (forall a :: 0 <= a < |s.audit| ==> OfRequest(s, s.audit[a]))
    && (forall i :: 0 <= i < |s.reqs| && cfg.signing && PastAudit(s.reqs[i].pc) && !s.reqs[i].auditFailed ==>
          HasAudit(s, s.reqs[i]))
  }

  ghost predicate OfRequest(s: State, a: AuditRow) {
    exists i :: 0 <= i < |s.reqs| && Audits(s.reqs[i], a)
  }

  ghost predicate HasAudit(s: State, r: Request) {
    exists a :: 0 <= a < |s.audit| && Audits(r, s.audit[a])
  }

  /** No two records are of one event, and an event whose audit write is still to come, or failed, has none. */
  ghost predicate AuditApart(s: State) {
    && (forall a, b :: 0 <= a < b < |s.audit| ==>
          s.audit[a].session != s.audit[b].session || s.audit[a].seqNo != s.audit[b].seqNo)
    && (forall a, i :: 0 <= a < |s.audit| && 0 <= i < |s.reqs| && Unaudited(s.reqs[i]) ==>
          s.audit[a].session != s.reqs[i].call.session || s.audit[a].seqNo != s.reqs[i].seqNo)
  }

  predicate Unaudited(r: Request) {
    r.recorded && (r.pc.Audit? || r.auditFailed)
  }

  lemma AuditsKept(r: Request, r': Request, a: AuditRow)
    requires RequestOk(r) && Keeps(r, r') && Audits(r, a)
    ensures Audits(r', a)
  {
  }

  lemma MovedAuditOk(cfg: Config, s: State, i: nat, s': State)
    requires AllOk(s) && AuditOk(cfg, s) && i < |s.reqs| && Moved(s, i, s') && AuditMove(cfg, s, i, s')
    ensures AuditOk(cfg, s')
  {
    hide Flow, Records, RequestOk, Keeps, AnswerOk, Audits;
    var r, r' := s.reqs[i], s'.reqs[i];
    forall a | 0 <= a < |s'.audit|
      ensures OfRequest(s', s'.audit[a])
    {
      if a < |s.audit| {
        assert s'.audit[a] == s.audit[a];
        var j :| 0 <= j < |s.reqs| && Audits(s.reqs[j], s.audit[a]);
        if j == i {
          AuditsKept(r, r', s.audit[a]);
        }
        assert Audits(s'.reqs[j], s'.audit[a]);
      } else {
        assert Audits(s'.reqs[i], s'.audit[a]);
      }
    }
    forall j | 0 <= j < |s'.reqs| && cfg.signing && PastAudit(s'.reqs[j].pc) && !s'.reqs[j].auditFailed
      ensures HasAudit(s', s'.reqs[j])
    {
      if j == i && r.pc.Audit? {
        assert Audits(r', s'.audit[|s.audit|]);
      } else {
        var a :| 0 <= a < |s.audit| && Audits(s.reqs[j], s.audit[a]);
        if j == i {
          AuditsKept(r, r', s.audit[a]);
        }
        assert s'.audit[a] == s.audit[a] && Audits(s'.reqs[j], s'.audit[a]);
      }
    }
  }

  /** Different requests have different events. */
  lemma EventsApart(s: State, i: nat, j: nat)
    requires Sound(s) && RecordedHaveRows(s) && i < |s.reqs| && j < |s.reqs| && i != j
    requires s.reqs[i].recorded && s.reqs[j].recorded && s.reqs[i].call.session == s.reqs[j].call.session
    ensures s.reqs[i].seqNo != s.reqs[j].seqNo
  {
    hide RequestOk, SeqDense;
    var x :| 0 <= x < |s.writers| && s.writers[x] == i;
    var y :| 0 <= y < |s.writers| && s.writers[y] == j;
    assert Wrote(s.reqs[i], s.db.events[x]) && Wrote(s.reqs[j], s.db.events[y]);
    if x < y {
      EarlierRowSmallerSeq(s.db.events, x, y);
    } else {
      EarlierRowSmallerSeq(s.db.events, y, x);
    }
  }

  lemma UnauditedBefore(r: Request, r': Request)
    requires RequestOk(r) && Keeps(r, r') && Flow(r.pc, r'.pc) && (!r.pc.Audit? ==> r'.auditFailed == r.auditFailed)
    ensures r.pc.Audit? ==> r.recorded
    ensures r.recorded && Unaudited(r') ==> Unaudited(r)
    ensures r.pc.Audit? && !r'.auditFailed ==> !Unaudited(r')
  {
  }

  lemma MovedAuditApart(cfg: Config, s: State, i: nat, s': State)
    requires Sound(s) && Sound(s') && RecordedHaveRows(s') && AuditOk(cfg, s) && AuditApart(s)
    requires i < |s.reqs| && Moved(s, i, s') && AuditMove(cfg, s, i, s')
    ensures AuditApart(s')
  {
    hide Flow, Records, RequestOk, SeqDense, RecordedHaveRows, RowsOk, AnswerOk;
    var r, r', n := s.reqs[i], s'.reqs[i], |s.audit|;
    UnauditedBefore(r, r');
    forall a, j | 0 <= a < |s'.audit| && 0 <= j < |s'.reqs| && Unaudited(s'.reqs[j])
      ensures s'.audit[a].session != s'.reqs[j].call.session || s'.audit[a].seqNo != s'.reqs[j].seqNo
    {
      var k := i;
      if a < n {
        assert s'.audit[a] == s.audit[a];
        k :| 0 <= k < |s.reqs| && Audits(s.reqs[k], s.audit[a]);
      }
      assert s'.reqs[k].recorded && s'.reqs[k].call.session == s'.audit[a].session
        && s'.reqs[k].seqNo == s'.audit[a].seqNo;
      if k != j && s'.audit[a].session == s'.reqs[j].call.session {
        EventsApart(s', k, j);
      }
    }
    if n < |s'.audit| {
      assert forall a :: 0 <= a < n ==> s'.audit[a] == s.audit[a];
    }
  }

  lemma AsideAudit(cfg: Config, s: State, step: Step)
    requires !step.Advance?
    ensures Apply(cfg, s, step).audit == s.audit
  {
    hide AfterSet;
  }

  /** A request that a step leaves aside stays as it is, or crashes; a new one has written nothing. */
  predicate LeftAside(s: State, s': State) {
    && |s.reqs| <= |s'.reqs|
    && (forall j :: 0 <= j < |s.reqs| ==> s'.reqs[j] == s.reqs[j] || s'.reqs[j] == s.reqs[j].(pc := Done(Crashed)))
    && (forall j :: |s.reqs| <= j < |s'.reqs| ==>
          !s'.reqs[j].recorded && !s'.reqs[j].auditFailed
          && (s'.reqs[j].pc.Load? || s'.reqs[j].pc == Done(VirtualAnswered)))
  }

  lemma AsideLeaves(s: State, step: Step, s': State)
    requires !step.Advance? && Aside(s, step, s')
    ensures LeftAside(s, s')
  {
    hide IsVirtual;
  }

  lemma CrashAnswers(cfg: Config, r: Request)
    ensures AnswerOk(cfg, r) ==> AnswerOk(cfg, r.(pc := Done(Crashed)))
    ensures !r.auditFailed && (r.pc.Load? || r.pc == Done(VirtualAnswered)) ==> AnswerOk(cfg, r) && !PastAudit(r.pc)
    ensures !PastAudit(Done(Crashed))
    ensures forall a :: Audits(r, a) ==> Audits(r.(pc := Done(Crashed)), a)
  {
  }

  lemma AsideAuditOk(cfg: Config, s: State, s': State)
    requires AuditOk(cfg, s) && LeftAside(s, s') && s'.audit == s.audit
    ensures AuditOk(cfg, s')
  {
    hide AnswerOk, Audits, PastAudit;
    forall j | 0 <= j < |s'.reqs|
      ensures AnswerOk(cfg, s'.reqs[j]) && (PastAudit(s'.reqs[j].pc) ==> j < |s.reqs| && s'.reqs[j] == s.reqs[j])
    {
      CrashAnswers(cfg, if j < |s.reqs| then s.reqs[j] else s'.reqs[j]);
    }
    forall a | 0 <= a < |s'.audit|
      ensures OfRequest(s', s'.audit[a])
    {
      var j :| 0 <= j < |s.reqs| && Audits(s.reqs[j], s.audit[a]);
      CrashAnswers(cfg, s.reqs[j]);
      assert Audits(s'.reqs[j], s'.audit[a]);
    }
    forall j | 0 <= j < |s'.reqs| && cfg.signing && PastAudit(s'.reqs[j].pc) && !s'.reqs[j].auditFailed
      ensures HasAudit(s', s'.reqs[j])
    {
      var a :| 0 <= a < |s.audit| && Audits(s.reqs[j], s.audit[a]);
    }
  }

  lemma AsideAuditApart(s: State, s': State)
    requires AuditApart(s) && LeftAside(s, s') && s'.audit == s.audit
    ensures AuditApart(s')
  {
    assert forall j :: 0 <= j < |s'.reqs| && Unaudited(s'.reqs[j]) ==> j < |s.reqs| && Unaudited(s.reqs[j]);
  }

  lemma StartsAudit(cfg: Config, pol: Policy)
    ensures AuditOk(cfg, Initial(pol)) && AuditApart(Initial(pol))
  {
  }

  lemma {:induction false} AtAudited(cfg: Config, pol: Policy, steps: seq<Step>, n: nat)
    requires n <= |steps|
    ensures AuditOk(cfg, At(cfg, pol, steps, n)) && AuditApart(At(cfg, pol, steps, n))
  {
    hide Apply, At, Run, AuditOk, AuditApart, RequestOk, AuditMove, Moved, Aside, RecordedHaveRows, RowsOk, SeqDense,
        Documented;
    AtStart(cfg, pol, steps);
    StartsAudit(cfg, pol);
    if n > 0 {
      AtAudited(cfg, pol, steps, n - 1);
      AtNext(cfg, pol, steps, n - 1);
      AtDocumented(cfg, pol, steps, n - 1);
      AtDocumented(cfg, pol, steps, n);
      StepAudit(cfg, At(cfg, pol, steps, n - 1), steps[n - 1]);
    }
  }

  lemma StepAudit(cfg: Config, s: State, step: Step)
    requires Sound(s) && AuditOk(cfg, s) && AuditApart(s)
    requires Sound(Apply(cfg, s, step)) && RecordedHaveRows(Apply(cfg, s, step))
    ensures AuditOk(cfg, Apply(cfg, s, step)) && AuditApart(Apply(cfg, s, step))
  {
    hide Apply, Move, AuditApart, RequestOk, AnswerOk, AuditMove, Moved, Aside, RecordedHaveRows, RowsOk, SeqDense;
    var s' := Apply(cfg, s, step);
    StepFrame(cfg, s, step);
    if step.Advance? {
      if step.i < |s.reqs| {
        MoveAnswers(cfg, s, step.i, step.fail, step.now, step.id);
        MovedAuditOk(cfg, s, step.i, s');
        MovedAuditApart(cfg, s, step.i, s');
      }
    } else {
      AsideAudit(cfg, s, step);
      AsideLeaves(s, step, s');
      AsideAuditOk(cfg, s, s');
      AsideAuditApart(s, s');
    }
  }

  /** Who is the one record of a request. */
  ghost predicate OnlyAudit(s: State, r: Request, a: nat) {
    && a < |s.audit| && Audits(r, s.audit[a])
    && forall b :: 0 <= b < |s.audit| && s.audit[b].session == r.call.session && s.audit[b].seqNo == r.seqNo ==> b == a
  }

  /** Audit-strict. In every schedule a call is refused for its audit record only if its decision was to let it
      through, its audit write failed, and audit-strict is on; a call whose audit write failed is forwarded only
      without audit-strict. With a signing key, every answered call whose audit write worked has exactly one
      record, with its session, seq, agent, tool, decision and policy, and one whose write failed has none: so
      audit-strict leaves no forwarded call without a record. */
  lemma AuditStrict(cfg: Config, pol: Policy, steps: seq<Step>, i: nat)
    requires i < |At(cfg, pol, steps, |steps|).reqs| && At(cfg, pol, steps, |steps|).reqs[i].pc.Done?
    ensures var s := At(cfg, pol, steps, |steps|);
            var r := s.reqs[i];
            && (r.pc.outcome.AuditRefused? ==>
                  Executed(r.decision.action) && r.auditFailed && cfg.signing && cfg.strict)
            && (r.pc.outcome.Forwarded? ==> Executed(r.decision.action) && !(r.auditFailed && cfg.strict))
            && (cfg.signing && Answered(r.pc.outcome) && !r.auditFailed ==> exists a: nat :: OnlyAudit(s, r, a))
            && (r.auditFailed ==> forall b :: 0 <= b < |s.audit| ==>
                  s.audit[b].session != r.call.session || s.audit[b].seqNo != r.seqNo)
            && (cfg.signing && cfg.strict && r.pc.outcome.Forwarded? ==> exists a: nat :: OnlyAudit(s, r, a))
  {
    hide At, Audits;
    AtAudited(cfg, pol, steps, |steps|);
    var s := At(cfg, pol, steps, |steps|);
    var r := s.reqs[i];
    if cfg.signing && Answered(r.pc.outcome) && !r.auditFailed {
      var a :| 0 <= a < |s.audit| && Audits(r, s.audit[a]);
      AuditOf(r, s.audit[a]);
      assert OnlyAudit(s, r, a);
    }
  }

  lemma AuditOf(r: Request, a: AuditRow)
    requires Audits(r, a)
    ensures a.session == r.call.session && a.seqNo == r.seqNo
  {
  }

  /** Every audit record is of an event in the table: same session, seq, tool and decision; no event has two. */
  lemma AuditsAreEvents(cfg: Config, pol: Policy, steps: seq<Step>, a: nat) returns (j: nat)
    requires a < |At(cfg, pol, steps, |steps|).audit|
    ensures var s := At(cfg, pol, steps, |steps|);
            && j < |s.db.events|
            && s.db.events[j].session == s.audit[a].session && s.db.events[j].seqNo == s.audit[a].seqNo
            && s.db.events[j].tool == s.audit[a].tool && s.db.events[j].decision == s.audit[a].decision
            && forall b :: 0 <= b < |s.audit| && b != a ==>
                 s.audit[b].session != s.audit[a].session || s.audit[b].seqNo != s.audit[a].seqNo
  {
    hide At, SeqDense, RequestOk, AnswerOk, Documented;
    AtAudited(cfg, pol, steps, |steps|);
    AtDocumented(cfg, pol, steps, |steps|);
    var s := At(cfg, pol, steps, |steps|);
    var i :| 0 <= i < |s.reqs| && Audits(s.reqs[i], s.audit[a]);
    j :| 0 <= j < |s.writers| && s.writers[j] == i;
    assert Wrote(s.reqs[i], s.db.events[j]);
  }

  // ---- one handler

  /** What an answer says about the audit log, given whether the audit write would fail. */
  predicate AnswerAudited(
    cfg: Config, failed: bool, now: int, call: Call, outcome: Outcome, before: seq<AuditRow>, after: seq<AuditRow>) {
    && (outcome.AuditRefused? ==> cfg.strict && cfg.signing && failed)
    && (outcome.Forwarded? ==> !(cfg.strict && cfg.signing && failed))
    && (!cfg.signing || failed || !Answered(outcome) ==> after == before)
    && (cfg.signing && !failed && Answered(outcome) ==>
          && |after| == |before| + 1 && after[..|before|] == before
          && var row := after[|before|];
             && row.session == call.session && row.agent == call.agent && row.tool == call.tool && row.recordedAt == now
             && (outcome.Forwarded? || outcome.AuditRefused? ==> Executed(row.decision))
             && (outcome.Denied? ==> row.decision == Deny)
             && (outcome.Escalated? || outcome.EscalationUnrecorded? ==> row.decision == Escalate))
  }

  /** Where request turn.k stands with its audit write. */
  ghost predicate Underway(cfg: Config, turn: Turn, before: seq<AuditRow>, s: State) {
    && turn.k < |s.reqs| && RequestOk(s.reqs[turn.k]) && AnswerOk(cfg, s.reqs[turn.k])
    && var r := s.reqs[turn.k];
       if PastAudit(r.pc) then
         && r.auditFailed == (cfg.signing && turn.faults.audit)
         && (if cfg.signing && !turn.faults.audit
             then |s.audit| == |before| + 1 && s.audit[..|before|] == before && Audits(r, s.audit[|before|])
                  && s.audit[|before|].recordedAt == turn.now
             else s.audit == before)
       else s.audit == before
  }

  lemma PastAuditStays(r: Request, r': Request)
    requires Flow(r.pc, r'.pc) && PastAudit(r.pc)
    ensures PastAudit(r'.pc) && !r.pc.Audit?
  {
  }

  lemma AuditedNext(r: Request, r': Request)
    requires Flow(r.pc, r'.pc) && r.pc.Audit?
    ensures PastAudit(r'.pc)
  {
  }

  lemma StaysUnderway(cfg: Config, turn: Turn, before: seq<AuditRow>, s: State)
    requires Underway(cfg, turn, before, s)
    ensures var fail := FailAt(turn.faults, s.reqs[turn.k].pc);
            Underway(cfg, turn, before, Move(cfg, s, turn.k, fail, turn.now, turn.id))
  {
    hide Move, RequestOk, AnswerOk, PastAudit, Flow, Keeps, Records, Audits;
    var i, fail := turn.k, FailAt(turn.faults, s.reqs[turn.k].pc);
    var s' := Move(cfg, s, i, fail, turn.now, turn.id);
    MoveMoves(cfg, s, i, fail, turn.now, turn.id);
    MoveAnswers(cfg, s, i, fail, turn.now, turn.id);
    var r, r' := s.reqs[i], s'.reqs[i];
    if r.pc.Audit? {
      AuditedNext(r, r');
      AuditFlag(cfg, s, i, fail, turn.now, turn.id);
    } else if PastAudit(r.pc) {
      PastAuditStays(r, r');
      if cfg.signing && !turn.faults.audit {
        AuditsKept(r, r', s.audit[|before|]);
      }
    }
  }

  lemma AuditFlag(cfg: Config, s: State, i: nat, fail: bool, now: int, id: string)
    requires i < |s.reqs| && s.reqs[i].pc.Audit? && RequestOk(s.reqs[i]) && AnswerOk(cfg, s.reqs[i])
    ensures Move(cfg, s, i, fail, now, id).reqs[i].auditFailed == (cfg.signing && fail)
    ensures var log := Move(cfg, s, i, fail, now, id).audit; |log| > |s.audit| ==> log[|s.audit|].recordedAt == now
    ensures !PastAudit(s.reqs[i].pc)
  {
    hide MoveAudit;
    assert s.reqs[i].pol.Some?;
    AuditAudits(cfg, s, i, fail, now);
  }

  lemma {:induction false} DriveUnderway(cfg: Config, turn: Turn, before: seq<AuditRow>, s: State, n: nat)
    requires Underway(cfg, turn, before, s)
    ensures Underway(cfg, turn, before, Drive(cfg, s, n, turn))
    decreases n
  {
    hide Move, Underway;
    if n > 0 {
      StaysUnderway(cfg, turn, before, s);
      assert turn.k < |s.reqs| by {
        UnderwayHas(cfg, turn, before, s);
      }
      var fail := FailAt(turn.faults, s.reqs[turn.k].pc);
      DriveUnderway(cfg, turn, before, Move(cfg, s, turn.k, fail, turn.now, turn.id), n - 1);
    }
  }

  lemma UnderwayHas(cfg: Config, turn: Turn, before: seq<AuditRow>, s: State)
    requires Underway(cfg, turn, before, s)
    ensures turn.k < |s.reqs|
  {
  }

  /** A handler that runs alone answers as the audit log allows. */
  lemma HandlerAudited(cfg: Config, turn: Turn, s: State, call: Call, n: nat)
    requires turn.k < |s.reqs| && s.reqs[turn.k] == NewRequest(call)
    ensures var t := Drive(cfg, s, n, turn);
            && turn.k < |t.reqs| && t.reqs[turn.k].call == call
            && (t.reqs[turn.k].pc.Done? ==>
                  AnswerAudited(cfg, turn.faults.audit, turn.now, call, t.reqs[turn.k].pc.outcome, s.audit, t.audit))
  {
    hide Drive, RequestOk;
    NewRequestOk();
    DriveUnderway(cfg, turn, s.audit, s, n);
    DriveKeepsCall(cfg, turn, s, n);
  }

  lemma {:induction false} DriveKeepsCall(cfg: Config, turn: Turn, s: State, n: nat)
    requires turn.k < |s.reqs| && RequestOk(s.reqs[turn.k])
    ensures var t := Drive(cfg, s, n, turn); turn.k < |t.reqs| && t.reqs[turn.k].call == s.reqs[turn.k].call
    decreases n
  {
    hide Move, RequestOk, Flow, Records;
    if n > 0 {
      var fail := FailAt(turn.faults, s.reqs[turn.k].pc);
      MoveMoves(cfg, s, turn.k, fail, turn.now, turn.id);
      DriveKeepsCall(cfg, turn, Move(cfg, s, turn.k, fail, turn.now, turn.id), n - 1);
    }
  }
}
