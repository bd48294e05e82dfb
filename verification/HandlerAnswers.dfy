/** What one call does to the tables and how it is answered (internal/proxy/proxy.go), as one function of the store
    calls that fail, and what that promises: nothing is forwarded that has not been loaded, recorded and saved. */
module HandlerAnswers {
  import opened Prelude
  import opened Policies
  import opened Database
  import opened Engine
  import opened Recency
  import opened Protocol
  import opened HandlerRuns
  import opened Sequential

  datatype Ending = Ending(outcome: Outcome, db: Db)

  /** The cached policy of the session's fingerprint, or the live one. */
  function BoundPolicy(live: Policy, cache: seq<Cached>, row: Session): Policy {
    match Lookup(cache, row.fingerprint)
    case Some(pol) => pol
    case None => live
  }

  function FlagAfter(row: Session, pol: Policy, tool: string, d: Decision): bool {
    if d.action == Allow then TaintAfter(row.tainted, pol, tool) else row.tainted
  }

  /** The decision, each stage on its own view of the store. */
  function DecisionOn(lib: Library, f: Faults, db: Db, call: Call, row: Session, pol: Policy): Decision {
    PipelineOn(Live(), 0, lib, StageViews(db, f), call, row, pol)
  }

  // ---- the answer

  function WithEvent(db: Db, call: Call, d: Decision, now: int): Db {
    var n := Count(db.events, OfSession(call.session)) + 1;
    db.(events := db.events + [EventRow(n, call.session, call.tool, call.args, d.action, d.rule, now)])
  }

  function WithFlag(db: Db, sid: string, tainted: bool): Db
    requires sid in db.sessions
  {
    db.(sessions := db.sessions[sid := db.sessions[sid].(tainted := tainted)])
  }

  function WithCount(db: Db, sid: string): Db
    requires sid in db.sessions
  {
    var row := db.sessions[sid];
    db.(sessions := db.sessions[sid := row.(calls := row.calls + 1, cost := row.cost + COST_PER_CALL)])
  }

  /** The answer to a recorded call, whose taint flag is saved. `auditFailed` says that its audit write failed. */
  function Answer(cfg: Config, f: Faults, db: Db, call: Call, d: Decision, seqNo: nat, auditFailed: bool, id: string)
    : Ending
    requires call.session in db.sessions
  {
    match d.action
    case Deny => Ending(Denied, db)
    case Escalate =>
      if f.settle || id in db.escalations then Ending(EscalationUnrecorded, db)
      else
        var record := EscalationRow(call.session, seqNo, call.tool, call.args, Pending);
        Ending(Escalated(id), db.(escalations := db.escalations[id := record]))
    case _ =>
      if auditFailed && cfg.strict then Ending(AuditRefused, db)
      else if f.settle then Ending(Forwarded(false), db)
      else Ending(Forwarded(true), WithCount(db, call.session))
  }

  /** From the decision on: the event, the audit record, the taint flag if it changed, and the answer. */
  function Conclusion(
    cfg: Config, f: Faults, db: Db, call: Call, before: bool, after: bool, d: Decision, now: int, id: string): Ending
    requires call.session in db.sessions
  {
    if f.append then Ending(BadRequest, db)
    else
      var recorded := WithEvent(db, call, d, now);
      if after != before && f.taint then Ending(TaintWriteFailed, recorded)
      else
        Answer(cfg, f, if after != before then WithFlag(recorded, call.session, after) else recorded, call, d,
               Count(db.events, OfSession(call.session)) + 1, cfg.signing && f.audit, id)
  }

  /** The whole call. */
  function Handled(
    cfg: Config, f: Faults, db: Db, live: Policy, cache: seq<Cached>, call: Call, now: int, id: string): Ending
  {
    if IsVirtual(call.tool) then Ending(VirtualAnswered, db) else Served(cfg, f, db, live, cache, call, now, id)
  }

  /** A call that the proxy does not answer itself. */
  function Served(
    cfg: Config, f: Faults, db: Db, live: Policy, cache: seq<Cached>, call: Call, now: int, id: string): Ending
  {
    if f.load || (f.create && call.session !in db.sessions) then Ending(BadRequest, db)
    else
      var row, known := Loaded(db, live, call), Opened(db, live, call);
      var pol := BoundPolicy(live, cache, row);
      if row.terminated then Ending(Gone, known)
      else
        var d := DecisionOn(cfg.lib, f, known, call, row, pol);
        Conclusion(cfg, f, known, call, row.tainted, FlagAfter(row, pol, call.tool, d), d, now, id)
  }

  lemma OpenedHas(db: Db, live: Policy, call: Call)
    ensures var known := Opened(db, live, call);
            call.session in known.sessions && known.sessions[call.session] == Loaded(db, live, call)
  {
  }

  // ---- what it promises

  /** Only what is saved is forwarded. If a call is forwarded, its session was loaded and is not terminated; its
      decision, on the store as it was, let it through; its event, with that decision, is the last row of the
      table; the stored taint flag is the one after the decision; and its audit record did not fail under
      audit-strict. So a failed load, creation, event write or flag write lets nothing through. */
  lemma OnlySavedIsForwarded(
    cfg: Config, f: Faults, db: Db, live: Policy, cache: seq<Cached>, call: Call, now: int, id: string)
    requires Handled(cfg, f, db, live, cache, call, now, id).outcome.Forwarded?
    ensures var after, row := Handled(cfg, f, db, live, cache, call, now, id).db, Loaded(db, live, call);
            var pol := BoundPolicy(live, cache, row);
            var d := DecisionOn(cfg.lib, f, Opened(db, live, call), call, row, pol);
            && !f.load && (call.session in db.sessions || !f.create) && !row.terminated && !f.append
            && (d.action == Allow || d.action == ShadowDeny)
            && |after.events| == |db.events| + 1 && after.events[..|db.events|] == db.events
            && var e := after.events[|db.events|];
            && e.session == call.session && e.tool == call.tool && e.args == call.args && e.decision == d.action
            && e.rule == d.rule && e.recordedAt == now
            && call.session in after.sessions
            && after.sessions[call.session].tainted == FlagAfter(row, pol, call.tool, d)
            && (FlagAfter(row, pol, call.tool, d) != row.tainted ==> !f.taint)
            && !(cfg.strict && cfg.signing && f.audit)
  {
    hide PipelineOn, Lookup, FlagAfter, Conclusion;
    if !IsVirtual(call.tool) {
      var row, known := Loaded(db, live, call), Opened(db, live, call);
      var pol := BoundPolicy(live, cache, row);
      var d := DecisionOn(cfg.lib, f, known, call, row, pol);
      ForwardedConclusion(cfg, f, known, call, row.tainted, FlagAfter(row, pol, call.tool, d), d, now, id);
    }
  }

  lemma ForwardedConclusion(
    cfg: Config, f: Faults, db: Db, call: Call, before: bool, after: bool, d: Decision, now: int, id: string)
    requires call.session in db.sessions && db.sessions[call.session].tainted == before
    requires Conclusion(cfg, f, db, call, before, after, d, now, id).outcome.Forwarded?
    ensures var db' := Conclusion(cfg, f, db, call, before, after, d, now, id).db;
            && !f.append && (d.action == Allow || d.action == ShadowDeny) && (after != before ==> !f.taint)
            && !(cfg.strict && cfg.signing && f.audit)
            && |db'.events| == |db.events| + 1 && db'.events[..|db.events|] == db.events
            && var e := db'.events[|db.events|];
            && e.session == call.session && e.tool == call.tool && e.args == call.args && e.decision == d.action
            && e.rule == d.rule && e.recordedAt == now
            && call.session in db'.sessions && db'.sessions[call.session].tainted == after
  {
  }

  /** A stage whose query fails lets nothing through in any enforcement mode, if it needs the query. */
  lemma FailedQueryIsNotForwarded(
    cfg: Config, f: Faults, db: Db, live: Policy, cache: seq<Cached>, call: Call, now: int, id: string, k: nat)
    requires k < |Live()| && f.query(k)
    requires var row := Loaded(db, live, call);
             EvalStage(Live()[k], cfg.lib, StoreBackend(Opened(db, live, call), true), call, row,
               BoundPolicy(live, cache, row)).Error?
    ensures !Handled(cfg, f, db, live, cache, call, now, id).outcome.Forwarded?
            || PipelineOn(Live()[..k], 0, cfg.lib, StageViews(Opened(db, live, call), f), call,
                 Loaded(db, live, call), BoundPolicy(live, cache, Loaded(db, live, call))).action == ShadowDeny
  {
    hide Lookup, EvalStage, TaintAfter;
    if Handled(cfg, f, db, live, cache, call, now, id).outcome.Forwarded? {
      OnlySavedIsForwarded(cfg, f, db, live, cache, call, now, id);
      var row, known := Loaded(db, live, call), Opened(db, live, call);
      var pol := BoundPolicy(live, cache, row);
      FailingStage(Live(), 0, cfg.lib, StageViews(known, f), call, row, pol, k);
    }
  }

  /** A stage that fails is passed over only if one before it has refused. */
  lemma {:induction false} FailingStage(
    stages: seq<Stage>, first: nat, lib: Library, views: nat -> Backend, call: Call, sess: Session, pol: Policy, k: nat)
    requires k < |stages| && EvalStage(stages[k], lib, views(first + k), call, sess, pol).Error?
    ensures var d, early := PipelineOn(stages, first, lib, views, call, sess, pol),
                            PipelineOn(stages[..k], first, lib, views, call, sess, pol);
            d.action != Allow && (d.action == ShadowDeny ==> early.action == ShadowDeny)
  {
    hide EvalStage, EffectiveMode;
    if k > 0 {
      assert stages[1..][k - 1] == stages[k] && first + 1 + (k - 1) == first + k;
      assert stages[..k][1..] == stages[1..][..k - 1];
      FailingStage(stages[1..], first + 1, lib, views, call, sess, pol, k - 1);
    }
  }
}
