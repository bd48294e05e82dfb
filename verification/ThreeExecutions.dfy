/** Three executions of one semantics: the live proxy, `simulate` of its trace, and `replay` of its audit log
    decide alike under plain policies. */
module ThreeExecutions {
  import opened Prelude
  import opened Policies
  import opened Database
  import opened Engine
  import opened Backends
  import opened Protocol
  import opened Sequential
  import opened SessionRuns
  import opened Grouping
  import opened Simulate
  import opened Replay
  import opened PlainPolicies

  // ---- what a one-at-a-time live run leaves behind

  /** The calls that reach the pipeline, with the times of their events: those of terminated sessions do not. */
  function LiveCalls(items: seq<Item>): seq<Timed> {
    if |items| == 0 then []
    else
      var front, item := items[..|items| - 1], items[|items| - 1];
      LiveCalls(front)
      + if item.Serve? && !IsVirtual(item.call.tool) && !ClosedBy(front, item.call.session)
        then [Timed(item.call, item.now)] else []
  }

  /** The trace file: every call but those of the virtual tool, written before the session is even loaded. */
  function LiveTrace(items: seq<Item>): seq<TraceEntry> {
    if |items| == 0 then [] else LiveTrace(items[..|items| - 1]) + TraceOf(items[|items| - 1])
  }

  function TraceOf(item: Item): seq<TraceEntry> {
    if item.Serve? && !IsVirtual(item.call.tool) then [TraceLine()(item.call)] else []
  }

  function TraceLine(): Call -> TraceEntry {
    (c: Call) => TraceEntry(c.session, c.agent, c.tool, c.args, c.requestedAt)
  }

  /** The audit log: one record per event. */
  function LiveAudit(lib: Library, pol: Policy, items: seq<Item>): seq<AuditRow> {
    if |items| == 0 then []
    else
      var front := items[..|items| - 1];
      LiveAudit(lib, pol, front) + AuditOf(lib, pol, RunDb(lib, Live(), pol, front), items[|items| - 1])
  }

  function AuditOf(lib: Library, pol: Policy, db: Db, item: Item): seq<AuditRow> {
    if item.Serve? && !IsVirtual(item.call.tool) && !Loaded(db, pol, item.call).terminated
    then [AuditRecord(db, item.call, Decide(lib, Live(), pol, db, item.call), pol, item.now)]
    else []
  }

  function AuditRecord(db: Db, call: Call, d: Decision, pol: Policy, now: int): AuditRow {
    AuditRow(call.session, MaxSeq(db.events, call.session) + 1, call.agent, call.tool, d.action, pol.fingerprint, now)
  }

  predicate RootItem(item: Item) {
    item.Serve? ==> item.call.parent == ""
  }

  // ---- the live run follows the reference

  function Latest(lib: Library, pol: Policy, mine: seq<Timed>): Memory {
    if |mine| > 0 then MemoryAfter(lib, Live(), pol, mine) else Memory(NewSession("", ""), [])
  }

  /** Audit records, rows and reference records of one session say the same about its calls, in order. */
  ghost predicate Alike(own: seq<AuditRow>, rows: seq<EventRow>, records: seq<Record>, mine: seq<Timed>, sid: string) {
    && |own| == |rows| == |records| == |mine|
    && forall i :: 0 <= i < |mine| ==>
         && own[i].session == sid && own[i].seqNo == i + 1
         && own[i].agent == mine[i].call.agent && own[i].tool == mine[i].call.tool
         && own[i].decision == rows[i].decision == records[i].decision
  }

  lemma AlikeSnoc(
    own: seq<AuditRow>, rows: seq<EventRow>, records: seq<Record>, mine: seq<Timed>, sid: string,
    a: AuditRow, e: EventRow, r: Record, t: Timed)
    requires Alike(own, rows, records, mine, sid)
    requires a.session == sid && a.seqNo == |mine| + 1 && a.agent == t.call.agent && a.tool == t.call.tool
    requires a.decision == e.decision == r.decision
    ensures Alike(own + [a], rows + [e], records + [r], mine + [t], sid)
  {
  }

  /** The session's rows, its state and its audit records are what its own calls amount to; `closed` says that
      it has been terminated. */
  ghost predicate Follows(lib: Library, pol: Policy, db: Db, log: seq<AuditRow>, mine: seq<Timed>, sid: string,
      closed: bool) {
    var rows := SessionRows(db.events, sid);
    && Map(rows, ToEntry) == Latest(lib, pol, mine).history
    && (|mine| > 0 <==> sid in db.sessions)
    && (|mine| > 0 ==> db.sessions[sid] == Latest(lib, pol, mine).row.(terminated := closed))
    && (|mine| > 0 ==> !Latest(lib, pol, mine).row.terminated)
    && Alike(LoggedOf(log, sid), rows, SessionRecords(lib, Live(), pol, mine), mine, sid)
  }

  ghost predicate Quiet(db: Db) {
    db.escalations == map[] && SeqDense(db.events)
  }

  lemma PlainNeverEscalates(lib: Library, b: Backend, call: Call, row: Session, pol: Policy)
    requires IsPlain(pol) && call.parent == ""
    ensures Pipeline(Live(), lib, b, call, row, pol).action != Escalate
  {
    hide IsPlain, Pipeline;
    SharedCore();
    CoreDecides(Live(), lib, b, call, row, pol);
    NoEscalation(CoreStages(), lib, b, call, row, pol);
  }

  lemma {:induction false} NoEscalation(stages: seq<Stage>, lib: Library, b: Backend, call: Call, row: Session,
      pol: Policy)
    requires Escalation !in stages
    ensures Pipeline(stages, lib, b, call, row, pol).action != Escalate
  {
    hide EvalEnv, EvalMayUse, EvalDelegation, EvalBudget, EvalTaint, EvalSequence, EvalContent, EvalRate,
        EvalEscalation;
    if |stages| > 0 {
      NoEscalation(stages[1..], lib, b, call, row, pol);
    }
  }

  lemma ServeQuiet(lib: Library, pol: Policy, db: Db, call: Call, now: int, id: string)
    requires IsPlain(pol) && call.parent == "" && Quiet(db) && !IsVirtual(call.tool)
        && !Loaded(db, pol, call).terminated
    ensures var db', d := ServeDb(lib, Live(), pol, db, call, now, id), Decide(lib, Live(), pol, db, call);
            && Quiet(db')
            && db'.events == db.events + [NewRow(db, call, d, now)]
            && db'.sessions == db.sessions[call.session := Charged(Loaded(db, pol, call), pol, call.tool, d.action)]
  {
    hide Pipeline, IsPlain, MaxSeq, IsVirtual, SeqDense;
    var d := Decide(lib, Live(), pol, db, call);
    PlainNeverEscalates(lib, StoreBackend(Opened(db, pol, call), false), call, Loaded(db, pol, call), pol);
    SeqDenseSnoc(db.events, NewRow(db, call, d, now));
  }

  /** What the reference decides for the session's next call is what the live proxy decides. */
  lemma LiveDecides(lib: Library, pol: Policy, db: Db, log: seq<AuditRow>, mine: seq<Timed>, call: Call)
    requires Quiet(db) && call.parent == "" && Follows(lib, pol, db, log, mine, call.session, false)
    ensures Loaded(db, pol, call) == Ready(lib, Live(), pol, mine, call).row
    ensures Decide(lib, Live(), pol, db, call) == DecisionAfter(lib, Live(), pol, mine, call)
  {
    hide Pipeline, MemoryAfter, SessionRecords;
    var m := Ready(lib, Live(), pol, mine, call);
    PipelineAgrees(Live(), lib, Opened(db, pol, call), MemBackend(m.history, [], []), call, m.row, pol);
  }

  lemma OwnServe(lib: Library, pol: Policy, db: Db, log: seq<AuditRow>, mine: seq<Timed>, call: Call, now: int, db': Db)
    requires Quiet(db) && call.parent == "" && Follows(lib, pol, db, log, mine, call.session, false)
    requires var d := Decide(lib, Live(), pol, db, call);
             && db'.events == db.events + [NewRow(db, call, d, now)]
             && db'.sessions == db.sessions[call.session := Charged(Loaded(db, pol, call), pol, call.tool, d.action)]
    ensures var d := Decide(lib, Live(), pol, db, call);
            Follows(lib, pol, db', log + [AuditRecord(db, call, d, pol, now)], mine + [Timed(call, now)], call.session,
                false)
  {
    hide Decide, DecisionAfter, Charged, Loaded, Alike, MaxSeq, Filter;
    var sid, d, mine' := call.session, Decide(lib, Live(), pol, db, call), mine + [Timed(call, now)];
    AlikeLengths(LoggedOf(log, sid), SessionRows(db.events, sid), SessionRecords(lib, Live(), pol, mine), mine, sid);
    LiveDecides(lib, pol, db, log, mine, call);
    assert mine'[..|mine|] == mine;
    MaxSeqIsCount(db.events, sid);
    FilterMembers(db.events, OfSession(sid));
    FilterSnoc(db.events, NewRow(db, call, d, now), OfSession(sid));
    FilterSnoc(log, AuditRecord(db, call, d, pol, now), Keyed(LoggedSession(), sid));
    MapSnoc(SessionRows(db.events, sid), NewRow(db, call, d, now), ToEntry);
    AlikeSnoc(LoggedOf(log, sid), SessionRows(db.events, sid), SessionRecords(lib, Live(), pol, mine), mine, sid,
              AuditRecord(db, call, d, pol, now), NewRow(db, call, d, now), Record(sid, |mine'|, call.tool, d.action),
              Timed(call, now));
    ChargedStaysOpen(Ready(lib, Live(), pol, mine, call).row, pol, call.tool, d.action);
  }

  lemma ChargedStaysOpen(row: Session, pol: Policy, tool: string, action: Action)
    ensures Charged(row, pol, tool, action).terminated == row.terminated
  {
  }

  lemma AlikeLengths(own: seq<AuditRow>, rows: seq<EventRow>, records: seq<Record>, mine: seq<Timed>, sid: string)
    requires Alike(own, rows, records, mine, sid)
    ensures |rows| == |mine|
  {
  }

  lemma OtherServe(
    lib: Library, pol: Policy, db: Db, log: seq<AuditRow>, mine: seq<Timed>, sid: string, closed: bool, row: EventRow,
    audit: AuditRow, db': Db, state: Session)
    requires Follows(lib, pol, db, log, mine, sid, closed) && row.session == audit.session != sid
    requires db'.events == db.events + [row] && db'.sessions == db.sessions[row.session := state]
    ensures Follows(lib, pol, db', log + [audit], mine, sid, closed)
  {
    hide SessionRecords, Latest, Alike;
    FilterSnoc(db.events, row, OfSession(sid));
    FilterSnoc(log, audit, Keyed(LoggedSession(), sid));
    assert SessionRows(db'.events, sid) == SessionRows(db.events, sid);
    assert LoggedOf(log + [audit], sid) == LoggedOf(log, sid);
  }

  /** A call that reaches the pipeline. */
  lemma ServeFollows(lib: Library, pol: Policy, front: seq<Item>, item: Item, sid: string)
    requires IsPlain(pol) && RootItem(item) && item.Serve? && !IsVirtual(item.call.tool)
    requires !ClosedBy(front, item.call.session)
    requires var db := RunDb(lib, Live(), pol, front);
             && Quiet(db)
             && Follows(lib, pol, db, LiveAudit(lib, pol, front), Filter(LiveCalls(front), CallOf(sid)), sid,
                 ClosedBy(front, sid))
    ensures var db' := ItemDb(lib, Live(), pol, RunDb(lib, Live(), pol, front), item);
            var log := LiveAudit(lib, pol, front) + AuditOf(lib, pol, RunDb(lib, Live(), pol, front), item);
            && Quiet(db')
            && Follows(lib, pol, db', log, Filter(LiveCalls(front) + [Timed(item.call, item.now)], CallOf(sid)), sid,
                ClosedBy(front, sid))
  {
    hide IsPlain, ServeDb, Decide, Charged, IsVirtual, Latest, SessionRecords, Alike, Follows, Quiet, RunDb, LiveAudit,
        ClosedBy;
    var db, log, calls := RunDb(lib, Live(), pol, front), LiveAudit(lib, pol, front), LiveCalls(front);
    var call, now := item.call, item.now;
    ItemsTellSessions(lib, Live(), pol, front, call.session);
    var d, mine := Decide(lib, Live(), pol, db, call), Filter(calls, CallOf(sid));
    ServeQuiet(lib, pol, db, call, now, item.id);
    FilterSnoc(calls, Timed(call, now), CallOf(sid));
    var db' := ServeDb(lib, Live(), pol, db, call, now, item.id);
    if call.session == sid {
      OwnServe(lib, pol, db, log, mine, call, now, db');
    } else {
      OtherServe(lib, pol, db, log, mine, sid, ClosedBy(front, sid), NewRow(db, call, d, now),
          AuditRecord(db, call, d, pol, now), db', Charged(Loaded(db, pol, call), pol, call.tool, d.action));
      assert mine + [] == mine;
    }
  }

  /** Every other item: a virtual call, a call of a terminated session, a verdict that finds nothing to
      resolve, a registration, or a termination. */
  lemma IdleItem(lib: Library, pol: Policy, db: Db, item: Item)
    requires Quiet(db)
    requires item.Serve? && !IsVirtual(item.call.tool) ==>
               item.call.session in db.sessions && db.sessions[item.call.session].terminated
    ensures var db' := ItemDb(lib, Live(), pol, db, item);
            && Quiet(db') && db'.events == db.events && AuditOf(lib, pol, db, item) == []
            && db'.sessions == if item.Close? && item.sid in db.sessions
                               then db.sessions[item.sid := db.sessions[item.sid].(terminated := true)] else db.sessions
  {
    hide IsVirtual, Decide, SeqDense;
    if item.Serve? && !IsVirtual(item.call.tool) {
      assert db.sessions[item.call.session := db.sessions[item.call.session]] == db.sessions;
    }
  }

  lemma IdleFollows(lib: Library, pol: Policy, front: seq<Item>, item: Item, sid: string)
    requires item.Serve? && !IsVirtual(item.call.tool) ==> ClosedBy(front, item.call.session)
    requires var db := RunDb(lib, Live(), pol, front);
             && Quiet(db)
             && Follows(lib, pol, db, LiveAudit(lib, pol, front), Filter(LiveCalls(front), CallOf(sid)), sid,
                 ClosedBy(front, sid))
    ensures var db' := ItemDb(lib, Live(), pol, RunDb(lib, Live(), pol, front), item);
            && Quiet(db') && AuditOf(lib, pol, RunDb(lib, Live(), pol, front), item) == []
            && Follows(lib, pol, db', LiveAudit(lib, pol, front), Filter(LiveCalls(front), CallOf(sid)), sid,
                ClosedBy(front + [item], sid))
  {
    hide IsVirtual, Latest, SessionRecords, Alike, Quiet, RunDb, LiveAudit, ClosedBy, OpenedBy, ItemDb, AuditOf;
    var db := RunDb(lib, Live(), pol, front);
    ItemsTellSessions(lib, Live(), pol, front, sid);
    ClosedSnoc(front, item, sid);
    if item.Serve? {
      ItemsTellSessions(lib, Live(), pol, front, item.call.session);
    }
    IdleItem(lib, pol, db, item);
  }

  /** The live database shows a session, at every point of a one-at-a-time run, what its own calls amount to. */
  lemma {:induction false} LiveFollows(lib: Library, pol: Policy, items: seq<Item>, sid: string)
    requires IsPlain(pol) && forall item :: item in items ==> RootItem(item)
    ensures var db := RunDb(lib, Live(), pol, items);
            && Quiet(db)
            && Follows(lib, pol, db, LiveAudit(lib, pol, items), Filter(LiveCalls(items), CallOf(sid)), sid,
                ClosedBy(items, sid))
  {
    hide IsPlain, ItemDb, AuditOf, IsVirtual, Follows, Quiet, ClosedBy;
    if |items| == 0 {
      NothingFollows(lib, pol, sid);
      NothingOpened(sid);
    } else {
      var front, item := items[..|items| - 1], items[|items| - 1];
      assert items == front + [item];
      assert forall x :: x in front ==> x in items;
      LiveFollows(lib, pol, front, sid);
      ClosedSnoc(front, item, sid);
      assert RootItem(item);
      if item.Serve? && !IsVirtual(item.call.tool) && !ClosedBy(front, item.call.session) {
        ServeFollows(lib, pol, front, item, sid);
      } else {
        IdleFollows(lib, pol, front, item, sid);
        assert LiveAudit(lib, pol, front) + [] == LiveAudit(lib, pol, front);
        assert LiveCalls(front) + [] == LiveCalls(front);
      }
    }
  }

  lemma NothingFollows(lib: Library, pol: Policy, sid: string)
    ensures Quiet(EMPTY) && Follows(lib, pol, EMPTY, [], [], sid, false) && Filter([], CallOf(sid)) == []
  {
  }

  // ---- agreement

  function Logged(): EventRow -> Action {
    (e: EventRow) => e.decision
  }

  function Simulated(): SimulateResult -> Action {
    (r: SimulateResult) => r.newDecision
  }

  function Replayed(): ReplayEntry -> Action {
    (e: ReplayEntry) => e.newDecision
  }

  lemma SameToolsSnoc(a: seq<Timed>, b: seq<Timed>, x: Timed, y: Timed)
    requires SameTools(a, b)
    requires x.call.session == y.call.session && x.call.agent == y.call.agent && x.call.tool == y.call.tool
    ensures SameTools(a + [x], b + [y])
  {
  }

  /** The calls of a session in the trace are those that reached the pipeline, followed by those that arrived
      after its termination. */
  lemma {:induction false} TraceOfCalls(items: seq<Item>, sid: string)
    requires forall item :: item in items ==> RootItem(item)
    ensures var mine, traced := Filter(LiveCalls(items), CallOf(sid)), TracedCalls(items, sid);
            && |mine| <= |traced| && SameTools(traced[..|mine|], mine)
            && (|mine| == |traced| <==> !CalledAfterClose(items, sid))
    ensures CalledAfterClose(items, sid) ==> ClosedBy(items, sid)
    ensures forall t :: t in Filter(LiveCalls(items), CallOf(sid)) ==> Root(t)
  {
    hide IsVirtual, SameTools, Filter, Map, ClosedBy, CalledAfterClose, OpenedBy;
    FilterAll<TraceEntry>([], Keyed(SessionOf(), sid));
    FilterAll<Timed>([], CallOf(sid));
    if |items| == 0 {
      NoTools();
      NothingOpened(sid);
    } else {
      var front, item := items[..|items| - 1], items[|items| - 1];
      assert items == front + [item];
      assert forall x :: x in front ==> x in items;
      TraceOfCalls(front, sid);
      ClosedSnoc(front, item, sid);
      CalledAfterSnoc(front, item, sid);
      assert RootItem(item);
      TracedSnoc(front, item, sid);
      LiveCallsSnoc(front, item, sid);
      var mine, traced := Filter(LiveCalls(front), CallOf(sid)), TracedCalls(front, sid);
      assert mine + [] == mine && traced + [] == traced;
      if CallsIn(item, sid) {
        var x := ToTimed()(TraceLine()(item.call));
        if ClosedBy(front, sid) {
          assert (traced + [x])[..|mine|] == traced[..|mine|];
        } else {
          assert traced[..|mine|] == traced;
          SameToolsSnoc(traced, mine, x, Timed(item.call, item.now));
          assert (traced + [x])[..|mine| + 1] == traced + [x];
        }
      }
    }
  }

  /** The session's entries of the trace, as calls. */
  function TracedCalls(items: seq<Item>, sid: string): seq<Timed> {
    Map(Filter(LiveTrace(items), Keyed(SessionOf(), sid)), ToTimed())
  }

  lemma TracedSnoc(front: seq<Item>, item: Item, sid: string)
    ensures TracedCalls(front + [item], sid)
            == TracedCalls(front, sid) + if CallsIn(item, sid) then [ToTimed()(TraceLine()(item.call))] else []
  {
    hide IsVirtual, Map, Filter;
    assert (front + [item])[..|front|] == front;
    if item.Serve? && !IsVirtual(item.call.tool) {
      FilterSnoc(LiveTrace(front), TraceLine()(item.call), Keyed(SessionOf(), sid));
      MapSnoc(Filter(LiveTrace(front), Keyed(SessionOf(), sid)), TraceLine()(item.call), ToTimed());
      assert Filter(LiveTrace(front), Keyed(SessionOf(), sid)) + []
          == Filter(LiveTrace(front), Keyed(SessionOf(), sid));
    } else {
      assert LiveTrace(front) + [] == LiveTrace(front);
    }
  }

  lemma LiveCallsSnoc(front: seq<Item>, item: Item, sid: string)
    ensures Filter(LiveCalls(front + [item]), CallOf(sid))
            == Filter(LiveCalls(front), CallOf(sid))
               + if CallsIn(item, sid) && !ClosedBy(front, sid) then [Timed(item.call, item.now)] else []
  {
    hide IsVirtual, Filter, ClosedBy;
    assert (front + [item])[..|front|] == front;
    if item.Serve? && !IsVirtual(item.call.tool) && !ClosedBy(front, item.call.session) {
      FilterSnoc(LiveCalls(front), Timed(item.call, item.now), CallOf(sid));
      assert Filter(LiveCalls(front), CallOf(sid)) + [] == Filter(LiveCalls(front), CallOf(sid));
    } else {
      assert LiveCalls(front) + [] == LiveCalls(front);
    }
  }

  lemma NoTools()
    ensures SameTools(Map([], ToTimed()), [])
  {
  }

  /** Both offline commands give a session of the live run the records that the live proxy gave it. */
  lemma SameRecords(lib: Library, stages: seq<Stage>, pol: Policy, live: seq<Timed>, offline: seq<Timed>)
    requires IsPlain(pol) && SameTools(offline, live) && Filter(stages, IsCore()) == CoreStages()
    requires (forall t :: t in live ==> Root(t)) && (forall t :: t in offline ==> Root(t))
    ensures SessionRecords(lib, stages, pol, offline) == SessionRecords(lib, Live(), pol, live)
  {
    SharedCore();
    CoreRecords(lib, stages, pol, offline);
    CoreRecords(lib, Live(), pol, live);
    ToolsDecide(lib, pol, offline, live);
  }

  /** Permuting the lines of a log permutes each session's records. */
  lemma LinesPermute(log: seq<AuditRow>, complete: seq<AuditRow>, sid: string)
    requires multiset(log) == multiset(complete)
    ensures multiset(LoggedOf(log, sid)) == multiset(LoggedOf(complete, sid))
  {
    var p := Keyed(LoggedSession(), sid);
    forall x
      ensures multiset(Filter(log, p))[x] == multiset(Filter(complete, p))[x]
    {
      if p(x) {
        Multiplicity(log, p, x);
        Multiplicity(complete, p, x);
      } else {
        if x in Filter(log, p) {
          FilterMember(log, p, x);
        }
        if x in Filter(complete, p) {
          FilterMember(complete, p, x);
        }
      }
    }
    EqualMultisets(multiset(Filter(log, p)), multiset(Filter(complete, p)));
  }

  lemma AlikeReplays(own: seq<AuditRow>, rows: seq<EventRow>, records: seq<Record>, mine: seq<Timed>, sid: string)
    requires Alike(own, rows, records, mine, sid) && forall t :: t in mine ==> t.call.session == sid
    ensures StrictlyAscending(own) && SameTools(Map(own, AsCall()), mine)
    ensures Map(Map(records, ToResult()), Simulated()) == Map(rows, Logged())
    ensures Map(Compare(own, records), Replayed()) == Map(rows, Logged())
    ensures forall e :: e in Compare(own, records) ==> !e.changed
  {
    assert forall i :: 0 <= i < |mine| ==> mine[i] in mine;
  }

  /** What the traced calls of a session simulate to: the live decisions, then those of the late calls. */
  lemma SimulationExtends(
    lib: Library, pol: Policy, mine: seq<Timed>, traced: seq<Timed>, rows: seq<EventRow>, sid: string,
        own: seq<AuditRow>)
    requires IsPlain(pol) && |mine| <= |traced| && SameTools(traced[..|mine|], mine)
    requires (forall t :: t in mine ==> Root(t) && t.call.session == sid) && (forall t :: t in traced ==> Root(t))
    requires Alike(own, rows, SessionRecords(lib, Live(), pol, mine), mine, sid)
    ensures var simulated := Map(Map(SessionRecords(lib, SimulateStages(), pol, traced), ToResult()), Simulated());
            && |simulated| == |traced| && |rows| == |mine| && simulated[..|mine|] == Map(rows, Logged())
  {
    hide IsPlain, SessionRecords, SameTools, Alike;
    SharedCore();
    var n := |mine|;
    SameRecords(lib, SimulateStages(), pol, mine, traced[..n]);
    RecordsPrefix(lib, SimulateStages(), pol, traced, n);
    var records := SessionRecords(lib, SimulateStages(), pol, traced);
    AlikeLengths(own, rows, SessionRecords(lib, Live(), pol, mine), mine, sid);
    AlikeReplays(own, rows, SessionRecords(lib, Live(), pol, mine), mine, sid);
    MapPrefix(records, n);
  }

  lemma MapPrefix(records: seq<Record>, n: nat)
    requires n <= |records|
    ensures Map(Map(records, ToResult()), Simulated())[..n] == Map(Map(records[..n], ToResult()), Simulated())
  {
  }

  /** Three executions. Take a plain policy, and any one-at-a-time, failure-free live run of root agents' calls
      on it, with verdicts, registrations and session terminations in between. Replaying its audit log, with the
      lines in any order, gives every session the decisions the live proxy gave it, so the replay reports no
      change. Simulating its trace gives those decisions too, in the same order, followed by the decisions on
      the calls that arrived after the session's termination, which the trace holds and the proxy turned away:
      the two agree exactly if there are no such calls. */
  lemma ThreeExecutionsAgree(
    lib: Library, pol: Policy, items: seq<Item>, sid: string,
    simulated: seq<SimulateResult>, log: seq<AuditRow>, replayed: seq<ReplayEntry>)
    requires IsPlain(pol) && forall item :: item in items ==> RootItem(item)
    requires Filter(simulated, ResultOf(sid)) == SimulatedAlone(lib, pol, LiveTrace(items), sid)
    requires multiset(log) == multiset(LiveAudit(lib, pol, items)) && ReplayOf(lib, pol, log, sid, replayed)
    ensures var live := Map(SessionRows(RunDb(lib, Live(), pol, items).events, sid), Logged());
            var decisions := Map(Filter(simulated, ResultOf(sid)), Simulated());
            && Map(Filter(replayed, EntryOf(sid)), Replayed()) == live
            && (forall e :: e in Filter(replayed, EntryOf(sid)) ==> !e.changed)
            && |live| <= |decisions| && decisions[..|live|] == live
            && (decisions == live <==> !CalledAfterClose(items, sid))
  {
    hide IsPlain, SessionRecords, RunDb, LiveAudit, LiveTrace, LiveCalls, Filter, Compare, Map;
    hide StrictlyAscending, SameTools, Alike, ReplayOf, CalledAfterClose, ClosedBy;
    var mine, own := Filter(LiveCalls(items), CallOf(sid)), LoggedOf(LiveAudit(lib, pol, items), sid);
    var rows, traced := SessionRows(RunDb(lib, Live(), pol, items).events, sid), TracedCalls(items, sid);
    LiveFollows(lib, pol, items, sid);
    forall t | t in mine
      ensures t.call.session == sid
    {
      FilterMember(LiveCalls(items), CallOf(sid), t);
    }
    TraceOfCalls(items, sid);
    AlikeReplays(own, rows, SessionRecords(lib, Live(), pol, mine), mine, sid);
    MappedRoots(Filter(LiveTrace(items), Keyed(SessionOf(), sid)), own);
    SimulationExtends(lib, pol, mine, traced, rows, sid, own);
    SharedCore();
    SameRecords(lib, ReplayStages(), pol, mine, Map(own, AsCall()));
    LinesPermute(log, LiveAudit(lib, pol, items), sid);
    ReplayIgnoresLineOrder(lib, pol, log, sid, replayed, own);
  }

  /** A session that calls, is terminated, and calls again. */
  function LateCall(call: Call, now: int, id: string): seq<Item> {
    [Serve(call, now, id), Close(call.session), Serve(call, now, id)]
  }

  lemma LateCallIsLate(call: Call, now: int, id: string)
    requires !IsVirtual(call.tool)
    ensures var items := LateCall(call, now, id);
            && CalledAfterClose(items, call.session)
            && !ClosedBy([], call.session) && !ClosedBy(items[..1], call.session) && ClosedBy(items[..2], call.session)
  {
    var items, sid := LateCall(call, now, id), call.session;
    assert items[..2][..1] == items[..1];
    assert CallsIn(items[..1][0], sid);
    assert OpenedBy(items[..2][..1], sid) && items[..2][1] == Close(sid);
    assert ClosedBy(items[..2], sid) && CallsIn(items[2], sid);
  }

  lemma LateCallCounts(call: Call, now: int, id: string)
    requires !IsVirtual(call.tool)
    ensures var items := LateCall(call, now, id);
            |Filter(LiveCalls(items), CallOf(call.session))| == 1 && |TracedCalls(items, call.session)| == 2
  {
    hide IsVirtual, Filter, Map, ClosedBy, LiveTrace, LiveCalls;
    var items, sid := LateCall(call, now, id), call.session;
    LateCallIsLate(call, now, id);
    StartsEmptyHanded(sid);
    forall k | 0 <= k < 3
      ensures items[..k] + [items[k]] == items[..k + 1]
      ensures |Filter(LiveCalls(items[..k + 1]), CallOf(sid))|
              == |Filter(LiveCalls(items[..k]), CallOf(sid))|
                 + if CallsIn(items[k], sid) && !ClosedBy(items[..k], sid) then 1 else 0
      ensures |TracedCalls(items[..k + 1], sid)|
          == |TracedCalls(items[..k], sid)| + if CallsIn(items[k], sid) then 1 else 0
    {
      assert items[..k] + [items[k]] == items[..k + 1];
      LiveCallsSnoc(items[..k], items[k], sid);
      TracedSnoc(items[..k], items[k], sid);
    }
    assert items[..0] == [] && items[..3] == items && items[..0 + 1] == items[..1] && items[..1 + 1] == items[..2];
    assert items[..2 + 1] == items[..3];
  }

  /** The failing input: the live proxy has decided one call; the simulation of its trace decides two. */
  lemma LateCallIsSimulated(lib: Library, pol: Policy, call: Call, now: int, id: string)
    requires IsPlain(pol) && call.parent == "" && !IsVirtual(call.tool)
    ensures var items := LateCall(call, now, id);
            && CalledAfterClose(items, call.session)
            && |SessionRows(RunDb(lib, Live(), pol, items).events, call.session)| == 1
            && |SimulatedAlone(lib, pol, LiveTrace(items), call.session)| == 2
  {
    hide IsPlain, SessionRecords, RunDb, LiveAudit, IsVirtual, Filter, Alike, LiveTrace, LiveCalls, ClosedBy,
        CalledAfterClose;
    var sid, items := call.session, LateCall(call, now, id);
    LateCallIsLate(call, now, id);
    LateCallCounts(call, now, id);
    forall item | item in items
      ensures RootItem(item)
    {
    }
    LiveFollows(lib, pol, items, sid);
    AlikeLengths(LoggedOf(LiveAudit(lib, pol, items), sid), SessionRows(RunDb(lib, Live(), pol, items).events, sid),
                 SessionRecords(lib, Live(), pol, Filter(LiveCalls(items), CallOf(sid))),
                     Filter(LiveCalls(items), CallOf(sid)), sid);
  }

  lemma StartsEmptyHanded(sid: string)
    ensures Filter(LiveCalls([]), CallOf(sid)) == [] && TracedCalls([], sid) == []
  {
  }

  lemma MappedRoots(trace: seq<TraceEntry>, own: seq<AuditRow>)
    ensures forall t :: t in Map(trace, ToTimed()) ==> Root(t)
    ensures forall t :: t in Map(own, AsCall()) ==> Root(t)
  {
  }
}
