/** The two query backends (internal/engine/membackend.go, storebackend.go) and when they agree. */
module Backends {
  import opened Prelude
  import opened Policies
  import opened Database
  import opened Engine
  import opened PipelineLaws

  // ---- the in-memory queries

  /** MemBackend.CountSessionEventsSince: a counting loop. */
  method CountEntriesSince(events: seq<Entry>, tool: string, since: int) returns (count: nat)
    ensures count == Count(events, ExecutedOfSince(tool, since))
  {
    count := 0;
    for i := 0 to |events|
      invariant count == Count(events[..i], ExecutedOfSince(tool, since))
    {
      CountSnoc(events[..i], events[i], ExecutedOfSince(tool, since));
      assert events[..i] + [events[i]] == events[..i + 1];
      if events[i].tool != tool {
        continue;
      }
      if events[i].decision != Allow && events[i].decision != ShadowDeny {
        continue;
      }
      if events[i].recordedAt >= since {
        count := count + 1;
      }
    }
    assert events[..|events|] == events;
  }

  /** MemBackend.HasApprovedEscalation: a search loop. */
  method FindApproval(approved: seq<Approval>, tool: string, hash: string) returns (found: bool)
    ensures found <==> Approval(tool, hash) in approved
  {
    for i := 0 to |approved|
      invariant forall k :: 0 <= k < i ==> approved[k] != Approval(tool, hash)
    {
      if approved[i].tool == tool && approved[i].argsHash == hash {
        return true;
      }
    }
    return false;
  }

  // ---- agreement

  /** A tool list that the store has for the agent; empty when it has none. */
  function StoredTools(db: Db, agent: string): seq<string> {
    if agent in db.agents && db.agents[agent].allowedTools.Some? then db.agents[agent].allowedTools.value else []
  }

  /** The in-memory backend was filled from the store, for this call's session and parent. */
  ghost predicate FilledFrom(lib: Library, db: Db, call: Call, mem: Backend) {
    && mem.MemBackend?
    && mem.events == Map(SessionRows(db.events, call.session), ToEntry)
    && (call.parent != "" ==> mem.parentTools == StoredTools(db, call.parent))
    && (forall tool, hash :: Approval(tool, hash) in mem.approved <==>
          exists id :: id in db.escalations && IsApprovalOf(lib, db.escalations[id], call.session, tool, hash))
  }

  /** The parent is registered with an empty tool list. */
  predicate EmptyParent(db: Db, call: Call) {
    call.parent != "" && call.parent in db.agents && db.agents[call.parent].allowedTools == Some([])
  }

  /** Counting over a session's projected rows is counting over the table, also from a point in time. */
  lemma {:induction false} ProjectionCountsSince(events: seq<EventRow>, sid: string, tool: string, since: int)
    ensures Count(Map(SessionRows(events, sid), ToEntry), ExecutedOfSince(tool, since))
            == Count(events, ExecutedSince(sid, tool, since))
  {
    if |events| != 0 {
      var front, last := events[..|events| - 1], events[|events| - 1];
      ProjectionCountsSince(front, sid, tool, since);
      if last.session == sid {
        MapSnoc(SessionRows(front, sid), last, ToEntry);
        CountSnoc(Map(SessionRows(front, sid), ToEntry), ToEntry(last), ExecutedOfSince(tool, since));
      } else {
        assert SessionRows(events, sid) == SessionRows(front, sid);
      }
    }
  }

  lemma RateAgrees(db: Db, mem: Backend, call: Call, pol: Policy)
    requires mem.MemBackend? && mem.events == Map(SessionRows(db.events, call.session), ToEntry)
    ensures EvalRate(StoreBackend(db, false), call, pol) == EvalRate(mem, call, pol)
  {
    if call.tool in pol.tools && pol.tools[call.tool].rateLimit.Some? {
      ProjectionCountsSince(db.events, call.session, call.tool,
          WindowStart(call, pol.tools[call.tool].rateLimit.value));
    }
  }

  lemma SequenceAgrees(db: Db, mem: Backend, call: Call, pol: Policy)
    requires mem.MemBackend? && mem.events == Map(SessionRows(db.events, call.session), ToEntry)
    ensures EvalSequence(StoreBackend(db, false), call, pol) == EvalSequence(mem, call, pol)
  {
    hide SequenceDecision;
  }

  lemma EscalationAgrees(lib: Library, db: Db, mem: Backend, call: Call, pol: Policy)
    requires FilledFrom(lib, db, call, mem)
    ensures EvalEscalation(lib, StoreBackend(db, false), call, pol) == EvalEscalation(lib, mem, call, pol)
  {
    hide Triggered;
    assert HasApproval(lib, StoreBackend(db, false), call.session, call.tool, lib.sha256(call.args))
      == HasApproval(lib, mem, call.session, call.tool, lib.sha256(call.args));
  }

  /** The delegation stages agree unless the parent is registered with an empty list: then the store's
      says "not in the parent's tools", and the in-memory one says "no such parent". */
  lemma DelegationAgrees(db: Db, mem: Backend, call: Call)
    requires mem.MemBackend? && (call.parent != "" ==> mem.parentTools == StoredTools(db, call.parent))
    ensures !EmptyParent(db, call) ==> EvalDelegation(StoreBackend(db, false), call) == EvalDelegation(mem, call)
    ensures EmptyParent(db, call) ==>
      EvalDelegation(StoreBackend(db, false), call) == Ok(DenyBy(ExceedsParent)) && EvalDelegation(mem, call) == Error
  {
  }

  lemma StageAgrees(stage: Stage, lib: Library, db: Db, mem: Backend, call: Call, sess: Session, pol: Policy)
    requires FilledFrom(lib, db, call, mem) && (stage == Delegation ==> !EmptyParent(db, call))
    ensures EvalStage(stage, lib, StoreBackend(db, false), call, sess, pol)
        == EvalStage(stage, lib, mem, call, sess, pol)
  {
    hide EvalEnv, EvalMayUse, EvalDelegation, EvalBudget, EvalTaint, EvalSequence, EvalContent, EvalRate,
        EvalEscalation;
    hide EmptyParent;
    match stage
    case Delegation => DelegationAgrees(db, mem, call);
    case Sequence => SequenceAgrees(db, mem, call, pol);
    case Rate => RateAgrees(db, mem, call, pol);
    case Escalation => EscalationAgrees(lib, db, mem, call, pol);
    case _ =>
  }

  /** Any pipeline decides alike on both backends, if no parent is registered with an empty list. */
  lemma PipelineAgrees(
    stages: seq<Stage>, lib: Library, db: Db, mem: Backend, call: Call, sess: Session, pol: Policy)
    requires FilledFrom(lib, db, call, mem) && (EmptyParent(db, call) ==> Delegation !in stages)
    ensures Pipeline(stages, lib, StoreBackend(db, false), call, sess, pol)
        == Pipeline(stages, lib, mem, call, sess, pol)
  {
    hide EvalStage, FilledFrom, EmptyParent;
    forall i | 0 <= i < |stages|
      ensures EvalStage(stages[i], lib, StoreBackend(db, false), call, sess, pol)
              == EvalStage(stages[i], lib, mem, call, sess, pol)
    {
      StageAgrees(stages[i], lib, db, mem, call, sess, pol);
    }
    SameAnswers(stages, lib, StoreBackend(db, false), mem, call, call, sess, sess, pol);
  }

  /** The call gets as far as the delegation stage. */
  predicate ReachesDelegation(call: Call, pol: Policy) {
    EvalEnv(call, pol).action == Allow && EvalMayUse(call, pol).action == Allow
  }

  /** Backend agreement. Over a backend filled from the store, the live pipeline decides as over the
      store, except exactly for a call that reaches the delegation stage with a parent registered with an
      empty tool list. That call is refused by both; the store names the parent's scope and the mode may
      turn it into a shadow denial, memory reports an internal error and always denies. */
  lemma BackendAgreement(lib: Library, db: Db, mem: Backend, call: Call, sess: Session, pol: Policy)
    requires FilledFrom(lib, db, call, mem)
    ensures var d, d' := Pipeline(Live(), lib, StoreBackend(db, false), call, sess, pol),
                         Pipeline(Live(), lib, mem, call, sess, pol);
            var special := EmptyParent(db, call) && ReachesDelegation(call, pol);
            && (d == d' <==> !special)
            && (special ==> d.rule == ExceedsParent && d' == FailClosed())
            && (d.action == d'.action <==> !(special && EffectiveMode(pol, call.tool) == Shadow))
  {
    if EmptyParent(db, call) {
      EmptyParentDecides(lib, db, mem, call, sess, pol);
    } else {
      PipelineAgrees(Live(), lib, db, mem, call, sess, pol);
    }
  }

  lemma EmptyParentDecides(lib: Library, db: Db, mem: Backend, call: Call, sess: Session, pol: Policy)
    requires FilledFrom(lib, db, call, mem) && EmptyParent(db, call)
    ensures var d, d' := Pipeline(Live(), lib, StoreBackend(db, false), call, sess, pol),
                         Pipeline(Live(), lib, mem, call, sess, pol);
            if ReachesDelegation(call, pol)
            then d == DenyBy(ExceedsParent).(
                action := if EffectiveMode(pol, call.tool) == Shadow then ShadowDeny else Deny)
                 && d' == FailClosed()
            else d == d'
  {
    hide EvalStage, EvalDelegation, EffectiveMode, FilledFrom;
    var b := StoreBackend(db, false);
    var back := [BudgetLimit, TaintGuard, Sequence, Content, Rate, Escalation];
    assert Live() == [Env, MayUse] + ([Delegation] + back);
    PipelineAppend([Env, MayUse], [Delegation] + back, lib, b, call, sess, pol);
    PipelineAppend([Env, MayUse], [Delegation] + back, lib, mem, call, sess, pol);
    PipelineAppend([Delegation], back, lib, b, call, sess, pol);
    PipelineAppend([Delegation], back, lib, mem, call, sess, pol);
    PermittedIffAllPass([Env, MayUse], lib, b, call, sess, pol);
    PipelineAgrees([Env, MayUse], lib, db, mem, call, sess, pol);
    OneStage(Delegation, lib, b, call, sess, pol);
    OneStage(Delegation, lib, mem, call, sess, pol);
    DelegationRefuses(lib, db, mem, call, sess, pol);
  }

  lemma DelegationRefuses(lib: Library, db: Db, mem: Backend, call: Call, sess: Session, pol: Policy)
    requires FilledFrom(lib, db, call, mem) && EmptyParent(db, call)
    ensures EvalStage(Delegation, lib, StoreBackend(db, false), call, sess, pol) == Ok(DenyBy(ExceedsParent))
    ensures EvalStage(Delegation, lib, mem, call, sess, pol) == Error
    ensures var pre := [Env, MayUse];
            ReachesDelegation(call, pol) <==>
            forall i :: 0 <= i < |pre| ==> Passes(pre[i], lib, StoreBackend(db, false), call, sess, pol)
  {
    hide EvalEnv, EvalMayUse, EvalDelegation;
    DelegationAgrees(db, mem, call);
    var pre, b := [Env, MayUse], StoreBackend(db, false);
    assert pre[0] == Env && pre[1] == MayUse;
    assert Passes(Env, lib, b, call, sess, pol) <==> EvalEnv(call, pol).action == Allow;
    assert Passes(MayUse, lib, b, call, sess, pol) <==> EvalMayUse(call, pol).action == Allow;
    assert forall i :: 0 <= i < |pre| ==> pre[i] == Env || pre[i] == MayUse;
  }
}
