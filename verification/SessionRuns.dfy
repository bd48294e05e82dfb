/** Offline evaluation of recorded calls (cmd/simulate.go, cmd/audit/replay.go): the shared database with
    every session's events, against a reference in which a session knows nothing but its own past. */
module SessionRuns {
  import opened Prelude
  import opened Policies
  import opened Database
  import opened Engine
  import opened Backends
  import opened Sequential

  /** A recorded call, and the time its event is stored with. */
  datatype Timed = Timed(call: Call, at: int)

  datatype Record = Record(session: string, seqNo: nat, tool: string, decision: Action)

  function CallOf(sid: string): Timed -> bool {
    (t: Timed) => t.call.session == sid
  }

  function RecordOf(sid: string): Record -> bool {
    (o: Record) => o.session == sid
  }

  // ---- the reference: one session, no database

  /** What a session remembers: its state, and its own events. */
  datatype Memory = Memory(row: Session, history: seq<Entry>)

  /** The memory on which `call` is decided after the session's earlier calls. */
  function Ready(lib: Library, stages: seq<Stage>, pol: Policy, past: seq<Timed>, call: Call): Memory
    decreases |past|, 0
  {
    if |past| == 0 then Memory(NewSession(call.agent, pol.fingerprint), [])
    else MemoryAfter(lib, stages, pol, past)
  }

  function MemoryAfter(lib: Library, stages: seq<Stage>, pol: Policy, past: seq<Timed>): Memory
    requires |past| > 0
    decreases |past| - 1, 2
  {
    var front, last := past[..|past| - 1], past[|past| - 1];
    var m := Ready(lib, stages, pol, front, last.call);
    var action := DecisionAfter(lib, stages, pol, front, last.call).action;
    Memory(Charged(m.row, pol, last.call.tool, action), m.history + [Entry(last.call.tool, action, last.at)])
  }

  function DecisionAfter(lib: Library, stages: seq<Stage>, pol: Policy, past: seq<Timed>, call: Call): Decision
    decreases |past|, 1
  {
    var m := Ready(lib, stages, pol, past, call);
    Pipeline(stages, lib, MemBackend(m.history, [], []), call, m.row, pol)
  }

  /** The records of one session's calls. */
  function SessionRecords(lib: Library, stages: seq<Stage>, pol: Policy, calls: seq<Timed>): (r: seq<Record>)
    ensures |r| == |calls|
  {
    if |calls| == 0 then []
    else
      var front, last := calls[..|calls| - 1], calls[|calls| - 1];
      SessionRecords(lib, stages, pol, front)
      + [Record(last.call.session, |calls|, last.call.tool, DecisionAfter(lib, stages, pol, front, last.call).action)]
  }

  /** Later calls change no earlier record. */
  lemma {:induction false} RecordsPrefix(lib: Library, stages: seq<Stage>, pol: Policy, calls: seq<Timed>, n: nat)
    requires n <= |calls|
    ensures SessionRecords(lib, stages, pol, calls)[..n] == SessionRecords(lib, stages, pol, calls[..n])
  {
    hide DecisionAfter;
    if n == |calls| {
      assert calls[..n] == calls;
    } else {
      RecordsPrefix(lib, stages, pol, calls[..|calls| - 1], n);
      assert calls[..|calls| - 1][..n] == calls[..n];
    }
  }

  // ---- the shared database

  /** The in-memory store, the session states the evaluation loops keep, and the records so far. */
  datatype World = World(db: Db, rows: map<string, Session>, records: seq<Record>)

  const FRESH := World(EMPTY, map[], [])

  function WorldRow(w: World, pol: Policy, call: Call): Session {
    if call.session in w.rows then w.rows[call.session] else NewSession(call.agent, pol.fingerprint)
  }

  /** The store once the session's row exists. */
  function Known(db: Db, pol: Policy, call: Call): Db {
    if call.session in db.sessions then db
    else db.(sessions := db.sessions[call.session := NewSession(call.agent, pol.fingerprint)])
  }

  function WorldDecision(lib: Library, stages: seq<Stage>, pol: Policy, w: World, call: Call): Decision {
    Pipeline(stages, lib, StoreBackend(Known(w.db, pol, call), false), call, WorldRow(w, pol, call), pol)
  }

  function OfflineRow(w: World, t: Timed, d: Decision): EventRow {
    EventRow(|SessionRows(w.db.events, t.call.session)| + 1, t.call.session, t.call.tool, "", d.action, d.rule, t.at)
  }

  /** One recorded call: a session row on first sight, a decision, an event, and the updated state. */
  function WorldStep(lib: Library, stages: seq<Stage>, pol: Policy, w: World, t: Timed): World {
    var sid := t.call.session;
    var d := WorldDecision(lib, stages, pol, w, t.call);
    var row := OfflineRow(w, t, d);
    World(
      Known(w.db, pol, t.call).(events := w.db.events + [row]),
      w.rows[sid := Charged(WorldRow(w, pol, t.call), pol, t.call.tool, d.action)],
      w.records + [Record(sid, row.seqNo, t.call.tool, d.action)])
  }

  function Evaluated(lib: Library, stages: seq<Stage>, pol: Policy, w: World, calls: seq<Timed>): World {
    if |calls| == 0 then w
    else WorldStep(lib, stages, pol, Evaluated(lib, stages, pol, w, calls[..|calls| - 1]), calls[|calls| - 1])
  }

  lemma EvaluatedAppend(lib: Library, stages: seq<Stage>, pol: Policy, w: World, a: seq<Timed>, b: seq<Timed>)
    ensures Evaluated(lib, stages, pol, w, a + b) == Evaluated(lib, stages, pol, Evaluated(lib, stages, pol, w, a), b)
  {
    hide WorldStep;
    if |b| == 0 {
      assert a + b == a;
    } else {
      assert (a + b)[..|a + b| - 1] == a + b[..|b| - 1];
      EvaluatedAppend(lib, stages, pol, w, a, b[..|b| - 1]);
    }
  }

  // ---- non-interference

  /** Offline calls have no parent agent: the recordings do not carry one. */
  predicate Root(t: Timed) {
    t.call.parent == ""
  }

  /** The database shows a session exactly its own memory. */
  ghost predicate Mirrors(w: World, sid: string, pol: Policy, m: Memory, seen: bool) {
    && w.db.escalations == map[]
    && Map(SessionRows(w.db.events, sid), ToEntry) == m.history
    && (seen <==> sid in w.rows)
    && (seen ==> w.rows[sid] == m.row)
  }

  lemma SameDecision(lib: Library, stages: seq<Stage>, pol: Policy, w: World, call: Call, m: Memory, seen: bool)
    requires Mirrors(w, call.session, pol, m, seen) && call.parent == ""
    requires !seen ==> m.row == NewSession(call.agent, pol.fingerprint)
    ensures WorldDecision(lib, stages, pol, w, call)
        == Pipeline(stages, lib, MemBackend(m.history, [], []), call, m.row, pol)
  {
    hide Pipeline;
    var mem := MemBackend(m.history, [], []);
    PipelineAgrees(stages, lib, Known(w.db, pol, call), mem, call, m.row, pol);
  }

  lemma OwnStep(lib: Library, stages: seq<Stage>, pol: Policy, w: World, t: Timed, past: seq<Timed>)
    requires Root(t) && Mirrors(w, t.call.session, pol, Ready(lib, stages, pol, past, t.call), |past| > 0)
    requires |SessionRows(w.db.events, t.call.session)| == |past|
    ensures var w' := WorldStep(lib, stages, pol, w, t);
            && Mirrors(w', t.call.session, pol, MemoryAfter(lib, stages, pol, past + [t]), true)
            && w'.records == w.records
               + [Record(t.call.session, |past| + 1, t.call.tool, DecisionAfter(lib, stages, pol, past, t.call).action)]
  {
    hide Pipeline, WorldDecision;
    var sid, d := t.call.session, WorldDecision(lib, stages, pol, w, t.call);
    var row := OfflineRow(w, t, d);
    SameDecision(lib, stages, pol, w, t.call, Ready(lib, stages, pol, past, t.call), |past| > 0);
    assert (past + [t])[..|past|] == past;
    FilterSnoc(w.db.events, row, OfSession(sid));
    MapSnoc(SessionRows(w.db.events, sid), row, ToEntry);
  }

  lemma OtherStep(lib: Library, stages: seq<Stage>, pol: Policy, w: World, t: Timed, sid: string)
    requires t.call.session != sid
    ensures var w' := WorldStep(lib, stages, pol, w, t);
            && w'.db.escalations == w.db.escalations && SessionRows(w'.db.events, sid) == SessionRows(w.db.events, sid)
            && (sid in w'.rows <==> sid in w.rows) && (sid in w.rows ==> w'.rows[sid] == w.rows[sid])
            && Filter(w'.records, RecordOf(sid)) == Filter(w.records, RecordOf(sid))
  {
    hide WorldDecision;
    var d := WorldDecision(lib, stages, pol, w, t.call);
    var row := OfflineRow(w, t, d);
    FilterSnoc(w.db.events, row, OfSession(sid));
    FilterSnoc(w.records, Record(t.call.session, row.seqNo, t.call.tool, d.action), RecordOf(sid));
  }

  /** Session non-interference. However the calls of many sessions interleave, a session's records are
      those of its own calls evaluated alone: every decision is a function of the session's own past. */
  lemma {:induction false} NonInterference(lib: Library, stages: seq<Stage>, pol: Policy, calls: seq<Timed>,
      sid: string)
    requires forall t :: t in calls ==> Root(t)
    ensures var w, mine := Evaluated(lib, stages, pol, FRESH, calls), Filter(calls, CallOf(sid));
            && Filter(w.records, RecordOf(sid)) == SessionRecords(lib, stages, pol, mine)
            && |SessionRows(w.db.events, sid)| == |mine|
            && Mirrors(w, sid, pol,
                if |mine| > 0 then MemoryAfter(lib, stages, pol, mine) else Memory(NewSession("", ""), []), |mine| > 0)
  {
    hide WorldStep, DecisionAfter, MemoryAfter, Pipeline;
    if |calls| > 0 {
      var front, last := calls[..|calls| - 1], calls[|calls| - 1];
      assert calls == front + [last];
      NonInterference(lib, stages, pol, front, sid);
      var w, past := Evaluated(lib, stages, pol, FRESH, front), Filter(front, CallOf(sid));
      FilterSnoc(front, last, CallOf(sid));
      if last.call.session == sid {
        OwnStep(lib, stages, pol, w, last, past);
        assert (past + [last])[..|past|] == past;
        var o := Record(sid, |past| + 1, last.call.tool, DecisionAfter(lib, stages, pol, past, last.call).action);
        FilterSnoc(w.records, o, RecordOf(sid));
        HistoryLength(lib, stages, pol, past + [last]);
      } else {
        OtherStep(lib, stages, pol, w, last, sid);
        assert Filter(calls, CallOf(sid)) == past;
      }
    }
  }

  lemma {:induction false} HistoryLength(lib: Library, stages: seq<Stage>, pol: Policy, calls: seq<Timed>)
    requires |calls| > 0
    ensures |MemoryAfter(lib, stages, pol, calls).history| == |calls|
  {
    hide DecisionAfter;
    if |calls| > 1 {
      HistoryLength(lib, stages, pol, calls[..|calls| - 1]);
    }
  }
}
