/** One-at-a-time runs of the state machine: a schedule that finishes every call before the next one arrives,
    on one policy and without failures, computes what the sequential description says. */
module OneAtATimeRuns {
  import opened Prelude
  import opened Policies
  import opened Database
  import opened Engine
  import opened Recency
  import opened Protocol
  import opened HandlerRuns
  import opened PipelineLaws
  import opened Sequential
  import opened Simulate
  import opened Replay
  import opened PlainPolicies
  import opened ThreeExecutions
  import opened TaintRuns

  /** Request k takes its turn, and no store call fails. */
  function Smooth(k: nat, now: int, id: string): Turn {
    Turn(k, now, id, NoFaults())
  }

  function Repeat(step: Step, n: nat): (r: seq<Step>)
    ensures |r| == n
  {
    seq(n, i => step)
  }

  lemma SmoothFails(k: nat, now: int, id: string, pc: Pc)
    ensures !FailAt(Smooth(k, now, id).faults, pc)
  {
  }

  lemma {:induction false} SmoothSteps(cfg: Config, s: State, k: nat, n: nat, now: int, id: string)
    requires k < |s.reqs|
    ensures Steps(cfg, s, n, Smooth(k, now, id)) == Repeat(Advance(k, false, now, id), n)
    decreases n
  {
    hide Move, FailAt;
    if n > 0 {
      SmoothFails(k, now, id, s.reqs[k].pc);
      MoveKeepsRequests(cfg, s, k, now, id);
      SmoothSteps(cfg, Move(cfg, s, k, false, now, id), k, n - 1, now, id);
      assert Repeat(Advance(k, false, now, id), n)
          == [Advance(k, false, now, id)] + Repeat(Advance(k, false, now, id), n - 1);
    }
  }

  lemma MoveKeepsRequests(cfg: Config, s: State, k: nat, now: int, id: string)
    requires k < |s.reqs|
    ensures |Move(cfg, s, k, false, now, id).reqs| == |s.reqs|
  {
    hide EvalOne, MaxSeq, AfterGet, Lookup;
  }

  // ---- the last four steps

  /** What is left of request k's run once its decision is made. */
  function Tail(cfg: Config, s: State, k: nat, now: int, id: string): State
    requires k < |s.reqs|
  {
    var s1 := MoveAppend(s, k, false, now);
    if k >= |s1.reqs| || s1.reqs[k].pol.None? then s1
    else
      var s2 := MoveAudit(cfg, s1, k, false, now);
      if k >= |s2.reqs| then s2
      else
        var s3 := MoveTaint(s2, k, false);
        if k >= |s3.reqs| then s3 else MoveSettle(cfg, s3, k, false, id)
  }

  /** A decided request, on a store that holds its session as it was loaded. */
  ghost predicate ReadyToRecord(s: State, k: nat, pol: Policy) {
    && k < |s.reqs|
    && var r := s.reqs[k];
       && r.pc.Append? && r.pol == Some(pol) && !r.auditFailed
       && r.call.session in s.db.sessions && s.db.sessions[r.call.session] == r.sess
       && r.tainted ==
          if r.decision.action == Allow then TaintAfter(r.sess.tainted, pol, r.call.tool) else r.sess.tainted
  }

  /** Nothing but the tables, the audit log and the requests differs. */
  predicate SameElsewhere(s: State, t: State) {
    t.live == s.live && t.cache == s.cache && t.pending == s.pending && t.trace == s.trace && |t.reqs| == |s.reqs|
  }

  lemma TailSteps(cfg: Config, s: State, k: nat, n: nat, now: int, id: string, pol: Policy)
    requires ReadyToRecord(s, k, pol) && n >= 4
    ensures Drive(cfg, s, n, Smooth(k, now, id)) == Tail(cfg, s, k, now, id)
  {
    hide Move, MaxSeq, TaintAfter, Drive, MoveAppend, MoveAudit, MoveTaint, MoveSettle;
    var s1 := MoveAppend(s, k, false, now);
    AppendTo(s, k, now, pol);
    var s2 := MoveAudit(cfg, s1, k, false, now);
    AuditTo(cfg, s1, k, now);
    var s3 := MoveTaint(s2, k, false);
    TaintTo(s2, k);
    var s4 := MoveSettle(cfg, s3, k, false, id);
    SettleTo(cfg, s3, k, id);
    AtAppend(cfg, s, n, Smooth(k, now, id));
    AtAudit(cfg, s1, n - 1, Smooth(k, now, id));
    AtPersistTaint(cfg, s2, n - 2, Smooth(k, now, id));
    AtSettle(cfg, s3, n - 3, Smooth(k, now, id));
    DoneStays(cfg, s4, n - 4, Smooth(k, now, id));
  }

  lemma AppendTo(s: State, k: nat, now: int, pol: Policy)
    requires ReadyToRecord(s, k, pol)
    ensures var t, r := MoveAppend(s, k, false, now), s.reqs[k];
            && SameElsewhere(s, t) && t.audit == s.audit
            && t.reqs[k] == r.(pc := Audit, recorded := true, seqNo := MaxSeq(s.db.events, r.call.session) + 1)
            && t.db == s.db.(events := s.db.events + [Row(r, now).(seqNo := MaxSeq(s.db.events, r.call.session) + 1)])
  {
    hide MaxSeq, TaintAfter;
  }

  lemma AuditTo(cfg: Config, s: State, k: nat, now: int)
    requires k < |s.reqs| && s.reqs[k].pol.Some? && !s.reqs[k].auditFailed
    ensures var t, r := MoveAudit(cfg, s, k, false, now), s.reqs[k];
            && SameElsewhere(s, t) && t.db == s.db && t.reqs[k] == r.(pc := PersistTaint)
            && t.audit == s.audit + if cfg.signing
               then [AuditRow(r.call.session, r.seqNo, r.call.agent, r.call.tool, r.decision.action,
                   r.pol.value.fingerprint, now)]
               else []
  {
  }

  lemma TaintTo(s: State, k: nat)
    requires k < |s.reqs| && s.reqs[k].call.session in s.db.sessions
        && s.db.sessions[s.reqs[k].call.session] == s.reqs[k].sess
    ensures var t, r := MoveTaint(s, k, false), s.reqs[k];
            && SameElsewhere(s, t) && t.audit == s.audit && t.reqs[k] == r.(pc := Settle)
            && t.db == WithSession(s.db, r.call.session, r.sess.(tainted := r.tainted))
  {
  }

  lemma SettleTo(cfg: Config, s: State, k: nat, id: string)
    requires k < |s.reqs| && s.reqs[k].call.session in s.db.sessions && !s.reqs[k].auditFailed
    ensures var t, r := MoveSettle(cfg, s, k, false, id), s.reqs[k];
            var row := s.db.sessions[r.call.session];
            && SameElsewhere(s, t) && t.audit == s.audit && t.reqs[k].pc.Done?
            && t.db == Escalating(
                 WithSession(s.db, r.call.session,
                             if Executed(r.decision.action)
                             then row.(calls := row.calls + 1, cost := row.cost + COST_PER_CALL) else row),
                 r.call, r.decision, r.seqNo, id)
  {
  }

  /** The last four steps conclude the call as the sequential description does. */
  lemma TailConcludes(cfg: Config, s: State, k: nat, now: int, id: string, pol: Policy)
    requires ReadyToRecord(s, k, pol)
    ensures var t, r := Tail(cfg, s, k, now, id), s.reqs[k];
            var n := MaxSeq(s.db.events, r.call.session) + 1;
            && SameElsewhere(s, t) && t.reqs[k].pc.Done?
            && t.db == Concluded(pol, s.db, r.call, r.decision, now, id)
            && t.audit == s.audit + if cfg.signing
               then [AuditRow(r.call.session, n, r.call.agent, r.call.tool, r.decision.action, pol.fingerprint, now)]
               else []
  {
    hide MaxSeq, TaintAfter, MoveAppend, MoveAudit, MoveTaint, MoveSettle;
    var s1 := MoveAppend(s, k, false, now);
    AppendTo(s, k, now, pol);
    var s2 := MoveAudit(cfg, s1, k, false, now);
    AuditTo(cfg, s1, k, now);
    TaintTo(s2, k);
    SettleTo(cfg, MoveTaint(s2, k, false), k, id);
  }

  // ---- the evaluation

  /** A request about to run stage j, on a store that holds its session as it was loaded. */
  ghost predicate ReadyToEvaluate(s: State, k: nat, pol: Policy, j: nat) {
    && k < |s.reqs| && j < |Live()|
    && var r := s.reqs[k];
       && r.pc == Evaluating(j) && r.pol == Some(pol) && !r.auditFailed && r.tainted == r.sess.tainted
       && r.call.session in s.db.sessions && s.db.sessions[r.call.session] == r.sess
  }

  lemma EvaluationThenTail(cfg: Config, s: State, k: nat, n: nat, now: int, id: string, pol: Policy)
    requires ReadyToEvaluate(s, k, pol, 0) && n >= |Live()| + 4
    ensures var r := s.reqs[k];
            var d := Pipeline(Live(), cfg.lib, StoreBackend(s.db, false), r.call, r.sess, pol);
            && ReadyToRecord(DecidedAs(s, k, pol, d), k, pol)
            && Drive(cfg, s, n, Smooth(k, now, id)) == Tail(cfg, DecidedAs(s, k, pol, d), k, now, id)
  {
    hide Drive, Tail, Pipeline, PipelineOn, TaintAfter;
    var n' := EvaluationRuns(cfg, s, n, Smooth(k, now, id), pol, 0);
    assert Live()[0..] == Live();
    var views, b := StageViews(s.db, NoFaults()), StoreBackend(s.db, false);
    UniformViews(Live(), 0, cfg.lib, views, b, s.reqs[k].call, s.reqs[k].sess, pol);
    var d := Pipeline(Live(), cfg.lib, StoreBackend(s.db, false), s.reqs[k].call, s.reqs[k].sess, pol);
    TailSteps(cfg, DecidedAs(s, k, pol, d), k, n', now, id, pol);
  }

  // ---- opening the session

  /** One policy throughout: it is live, cached, and the one every session is bound to. */
  ghost predicate OnePolicy(s: State, pol: Policy) {
    && s.live == pol && s.cache == [Cached(pol.fingerprint, pol)] && s.pending.None?
    && forall sid :: sid in s.db.sessions ==> s.db.sessions[sid].fingerprint == pol.fingerprint
  }

  /** Request k once its session is loaded or created, and its policy resolved. */
  function OpenedState(s: State, k: nat, pol: Policy): State
    requires k < |s.reqs|
  {
    var r := s.reqs[k];
    Put(s, k, Admit(r.(sess := Loaded(s.db, pol, r.call)), pol)).(db := Opened(s.db, pol, r.call))
  }

  lemma ResolveHits(s: State, k: nat, pol: Policy)
    requires k < |s.reqs| && s.cache == [Cached(pol.fingerprint, pol)] && s.reqs[k].sess.fingerprint == pol.fingerprint
    ensures MoveResolve(s, k) == Put(s, k, Admit(s.reqs[k], pol))
  {
    assert s.cache[0].fp == pol.fingerprint;
    assert [s.cache[0]] + Without(s.cache, 0) == s.cache;
  }

  lemma OpeningRuns(cfg: Config, s: State, k: nat, n: nat, now: int, id: string, pol: Policy) returns (m: nat)
    requires k < |s.reqs| && OnePolicy(s, pol) && n >= 4 && s.reqs[k] == NewRequest(s.reqs[k].call)
        && s.reqs[k].pc.Load?
    ensures m <= 4 && Drive(cfg, s, n, Smooth(k, now, id))
        == Drive(cfg, OpenedState(s, k, pol), n - m, Smooth(k, now, id))
  {
    hide Drive, Move, MoveResolve;
    var r, turn := s.reqs[k], Smooth(k, now, id);
    AtLoad(cfg, s, n, turn);
    var s1 := MoveLoad(s, k, false);
    if r.call.session in s.db.sessions {
      m := 2;
      AtResolve(cfg, s1, n - 1, turn);
      ResolveHits(s1, k, pol);
      assert s.db.sessions == s.db.sessions[r.call.session := s.db.sessions[r.call.session]];
      assert MoveResolve(s1, k) == OpenedState(s, k, pol);
    } else {
      m := 4;
      AtBind(cfg, s1, n - 1, turn);
      var s2 := Put(s1, k, s1.reqs[k].(pc := Create, sess := NewSession(r.call.agent, pol.fingerprint)));
      AtCreate(cfg, s2, n - 2, turn);
      var s3 := MoveCreate(s2, k, false);
      AtResolve(cfg, s3, n - 3, turn);
      ResolveHits(s3, k, pol);
      assert MoveResolve(s3, k) == OpenedState(s, k, pol);
    }
  }

  // ---- one call

  /** The audit records of one item; without a signing key there are none. */
  function ItemAudit(cfg: Config, pol: Policy, db: Db, item: Item): seq<AuditRow> {
    if cfg.signing then AuditOf(cfg.lib, pol, db, item) else []
  }

  /** From an opened session that is not terminated, a handler running alone evaluates and concludes. */
  lemma OpenedServes(cfg: Config, s: State, k: nat, n: nat, now: int, id: string, pol: Policy)
    requires k < |s.reqs| && n >= |Live()| + 4 && s.reqs[k] == NewRequest(s.reqs[k].call)
    requires !Loaded(s.db, pol, s.reqs[k].call).terminated
    ensures var t, call := Drive(cfg, OpenedState(s, k, pol), n, Smooth(k, now, id)), s.reqs[k].call;
            var d := Decide(cfg.lib, Live(), pol, s.db, call);
            && SameElsewhere(s, t) && t.reqs[k].pc.Done?
            && t.db == Concluded(pol, s.db, call, d, now, id)
            && t.audit == s.audit + if cfg.signing then [AuditRecord(s.db, call, d, pol, now)] else []
  {
    hide Drive, Tail, Pipeline, MaxSeq, TaintAfter, Concluded, IsVirtual, Charged;
    var s1, call, d := OpenedState(s, k, pol), s.reqs[k].call, Decide(cfg.lib, Live(), pol, s.db, s.reqs[k].call);
    EvaluationThenTail(cfg, s1, k, n, now, id, pol);
    TailConcludes(cfg, DecidedAs(s1, k, pol, d), k, now, id, pol);
    OpenedConcludes(pol, s.db, call, d, now, id);
  }

  /** A handler that runs alone does to the tables and the audit log what the sequential description says. */
  lemma HandlerServes(cfg: Config, s: State, k: nat, now: int, id: string, pol: Policy)
    requires k < |s.reqs| && OnePolicy(s, pol) && s.reqs[k] == NewRequest(s.reqs[k].call)
    ensures var t, call := Drive(cfg, s, ENOUGH, Smooth(k, now, id)), s.reqs[k].call;
            && SameElsewhere(s, t) && t.reqs[k].pc.Done?
            && t.db == ServeDb(cfg.lib, Live(), pol, s.db, call, now, id)
            && t.audit == s.audit + ItemAudit(cfg, pol, s.db, Serve(call, now, id))
  {
    hide Drive, Pipeline, MaxSeq, Concluded, IsVirtual, Decide;
    var call := s.reqs[k].call;
    if IsVirtual(call.tool) {
      DoneStays(cfg, s, ENOUGH, Smooth(k, now, id));
    } else {
      var m := OpeningRuns(cfg, s, k, ENOUGH, now, id, pol);
      if Loaded(s.db, pol, call).terminated {
        DoneStays(cfg, OpenedState(s, k, pol), ENOUGH - m, Smooth(k, now, id));
      } else {
        OpenedServes(cfg, s, k, ENOUGH - m, now, id, pol);
      }
    }
  }

  /** Concluding on the opened database is concluding on the one before. */
  lemma OpenedConcludes(pol: Policy, db: Db, call: Call, d: Decision, now: int, id: string)
    ensures Concluded(pol, Opened(db, pol, call), call, d, now, id) == Concluded(pol, db, call, d, now, id)
  {
    hide MaxSeq, Charged;
    var row := Charged(Loaded(db, pol, call), pol, call.tool, d.action);
    assert Opened(db, pol, call).sessions[call.session := row] == db.sessions[call.session := row];
  }

  lemma ServeKeepsPolicy(lib: Library, pol: Policy, db: Db, call: Call, now: int, id: string)
    requires forall sid :: sid in db.sessions ==> db.sessions[sid].fingerprint == pol.fingerprint
    ensures var db' := ServeDb(lib, Live(), pol, db, call, now, id);
            forall sid :: sid in db'.sessions ==> db'.sessions[sid].fingerprint == pol.fingerprint
  {
    hide MaxSeq, Decide, TaintAfter, IsVirtual;
  }

  // ---- whole runs

  function Arrivals(items: seq<Item>): nat {
    if |items| == 0 then 0 else Arrivals(items[..|items| - 1]) + if items[|items| - 1].Serve? then 1 else 0
  }

  /** The steps of one item; a call becomes request k and runs to its end at once. */
  function ItemSteps(item: Item, k: nat): seq<Step> {
    match item
    case Serve(call, now, id) => [Arrive(call)] + Repeat(Advance(k, false, now, id), ENOUGH)
    case Verdict(esc, verdict) => [Judge(esc, verdict, false)]
    case Register(name, row) => [PutAgent(name, row)]
    case Close(sid) => [Terminate(sid)]
  }

  /** The schedule of a one-at-a-time run. */
  function Schedule(items: seq<Item>): seq<Step> {
    if |items| == 0 then []
    else Schedule(items[..|items| - 1]) + ItemSteps(items[|items| - 1], Arrivals(items[..|items| - 1]))
  }

  lemma OneStepRun(cfg: Config, s: State, step: Step)
    ensures Run(cfg, s, [step]) == Apply(cfg, s, step)
  {
    hide Apply;
    assert [step][..0] == [];
  }

  lemma ServeRuns(cfg: Config, s: State, pol: Policy, call: Call, now: int, id: string)
    requires OnePolicy(s, pol)
    ensures var t := Run(cfg, s, ItemSteps(Serve(call, now, id), |s.reqs|));
            && OnePolicy(t, pol) && |t.reqs| == |s.reqs| + 1 && t.reqs[|s.reqs|].pc.Done?
            && t.db == ServeDb(cfg.lib, Live(), pol, s.db, call, now, id)
            && t.audit == s.audit + ItemAudit(cfg, pol, s.db, Serve(call, now, id))
            && t.trace == if IsVirtual(call.tool) then s.trace else s.trace + [call]
  {
    hide Move, ServeDb, ItemAudit, IsVirtual, Drive, Run;
    var k := |s.reqs|;
    RunAppend(cfg, s, [Arrive(call)], Repeat(Advance(k, false, now, id), ENOUGH));
    OneStepRun(cfg, s, Arrive(call));
    var s1 := Apply(cfg, s, Arrive(call));
    DriveIsARun(cfg, s1, ENOUGH, Smooth(k, now, id));
    SmoothSteps(cfg, s1, k, ENOUGH, now, id);
    HandlerServes(cfg, s1, k, now, id, pol);
    ServeKeepsPolicy(cfg.lib, pol, s.db, call, now, id);
  }

  lemma OperatorRuns(cfg: Config, s: State, pol: Policy, item: Item)
    requires OnePolicy(s, pol) && !item.Serve?
    ensures var t := Run(cfg, s, ItemSteps(item, |s.reqs|));
            && OnePolicy(t, pol) && |t.reqs| == |s.reqs| && t.audit == s.audit && t.trace == s.trace
            && t.db == ItemDb(cfg.lib, Live(), pol, s.db, item)
  {
    hide Run, Move, ServeDb, AfterSet;
    match item
    case Verdict(esc, verdict) => OneStepRun(cfg, s, Judge(esc, verdict, false));
    case Register(name, row) => OneStepRun(cfg, s, PutAgent(name, row));
    case Close(sid) => OneStepRun(cfg, s, Terminate(sid));
    case Serve(_, _, _) =>
  }

  lemma ItemRuns(cfg: Config, s: State, pol: Policy, item: Item)
    requires OnePolicy(s, pol)
    ensures var t := Run(cfg, s, ItemSteps(item, |s.reqs|));
            && OnePolicy(t, pol) && |t.reqs| == |s.reqs| + (if item.Serve? then 1 else 0)
            && t.db == ItemDb(cfg.lib, Live(), pol, s.db, item)
            && t.audit == s.audit + ItemAudit(cfg, pol, s.db, item)
            && Map(t.trace, TraceLine()) == Map(s.trace, TraceLine()) + TraceOf(item)
  {
    hide Run, ItemSteps, ServeDb, IsVirtual, OnePolicy, Decide, Loaded;
    if item.Serve? {
      ServeRuns(cfg, s, pol, item.call, item.now, item.id);
      MapSnoc(s.trace, item.call, TraceLine());
    } else {
      OperatorRuns(cfg, s, pol, item);
    }
  }

  lemma AuditSnoc(cfg: Config, pol: Policy, items: seq<Item>)
    requires |items| > 0
    ensures var front, item := items[..|items| - 1], items[|items| - 1];
            && LiveTrace(items) == LiveTrace(front) + TraceOf(item)
            && (cfg.signing ==> LiveAudit(cfg.lib, pol, items)
                                == LiveAudit(cfg.lib, pol, front)
                                   + ItemAudit(cfg, pol, RunDb(cfg.lib, Live(), pol, front), item))
            && (!cfg.signing ==> ItemAudit(cfg, pol, RunDb(cfg.lib, Live(), pol, front), item) == [])
  {
    hide RunDb, AuditOf, TraceOf;
  }

  /** One-at-a-time runs of the machine. For every sequence of calls, verdicts and registrations, the schedule
      that handles each call to its end computes the database of the sequential description, and the trace
      and the audit log that go with it. */
  lemma {:induction false} SequentialIsARun(cfg: Config, pol: Policy, items: seq<Item>)
    ensures var s := Run(cfg, Initial(pol), Schedule(items));
            && OnePolicy(s, pol) && |s.reqs| == Arrivals(items)
            && s.db == RunDb(cfg.lib, Live(), pol, items)
            && s.audit == (if cfg.signing then LiveAudit(cfg.lib, pol, items) else [])
            && Map(s.trace, TraceLine()) == LiveTrace(items)
  {
    hide Run, ItemDb, ItemSteps, ItemAudit, TraceOf, LiveAudit, LiveTrace, OnePolicy, Map, Initial;
    if |items| == 0 {
      StartsWithOnePolicy(cfg, pol);
    } else {
      var front, item := items[..|items| - 1], items[|items| - 1];
      SequentialIsARun(cfg, pol, front);
      RunAppend(cfg, Initial(pol), Schedule(front), ItemSteps(item, Arrivals(front)));
      ItemRuns(cfg, Run(cfg, Initial(pol), Schedule(front)), pol, item);
      AuditSnoc(cfg, pol, items);
    }
  }

  lemma StartsWithOnePolicy(cfg: Config, pol: Policy)
    ensures OnePolicy(Initial(pol), pol) && Run(cfg, Initial(pol), []) == Initial(pol)
    ensures Initial(pol).db == RunDb(cfg.lib, Live(), pol, []) && Initial(pol).reqs == []
    ensures Initial(pol).audit == LiveAudit(cfg.lib, pol, []) == []
    ensures Map(Initial(pol).trace, TraceLine()) == LiveTrace([]) == []
  {
  }

  /** The three executions of a run of the machine: replaying the log that a one-at-a-time run of the proxy
      wrote gives the decisions in its event table, and simulating the trace it wrote gives them too, followed
      by decisions on the calls that arrived after their session's termination. */
  lemma ThreeExecutionsOfARun(
    cfg: Config, pol: Policy, items: seq<Item>, sid: string,
    simulated: seq<SimulateResult>, log: seq<AuditRow>, replayed: seq<ReplayEntry>)
    requires IsPlain(pol) && cfg.signing && forall item :: item in items ==> RootItem(item)
    requires var s := Run(cfg, Initial(pol), Schedule(items));
             && Filter(simulated, ResultOf(sid)) == SimulatedAlone(cfg.lib, pol, Map(s.trace, TraceLine()), sid)
             && multiset(log) == multiset(s.audit) && ReplayOf(cfg.lib, pol, log, sid, replayed)
    ensures var live := Map(SessionRows(Run(cfg, Initial(pol), Schedule(items)).db.events, sid), Logged());
            var decisions := Map(Filter(simulated, ResultOf(sid)), Simulated());
            && Map(Filter(replayed, EntryOf(sid)), Replayed()) == live
            && (forall e :: e in Filter(replayed, EntryOf(sid)) ==> !e.changed)
            && |live| <= |decisions| && decisions[..|live|] == live
            && (decisions == live <==> !CalledAfterClose(items, sid))
  {
    hide Run, RunDb, LiveAudit, LiveTrace, ReplayOf, SimulatedAlone, IsPlain, CalledAfterClose;
    SequentialIsARun(cfg, pol, items);
    ThreeExecutionsAgree(cfg.lib, pol, items, sid, simulated, log, replayed);
  }

  /** The stored taint flag of a one-at-a-time run of the machine is the fold over the session's rows. */
  lemma TaintOfARun(cfg: Config, pol: Policy, items: seq<Item>, sid: string)
    requires sid in Run(cfg, Initial(pol), Schedule(items)).db.sessions
    ensures var db := Run(cfg, Initial(pol), Schedule(items)).db;
            db.sessions[sid].tainted <==> TaintedBy(pol, db.events, sid)
  {
    hide Run, RunDb, TaintedBy, LiveAudit, LiveTrace;
    SequentialIsARun(cfg, pol, items);
    TaintIsAFold(cfg.lib, Live(), pol, items);
  }
}
