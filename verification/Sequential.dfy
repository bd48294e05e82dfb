/** One call served without interleaving or failure, as a function on the database: what a handler run
    alone does. `stages` is the pipeline; the live proxy runs Live(). */
module Sequential {
  import opened Policies
  import opened Database
  import opened Engine
  import opened Protocol

  /** One call, or what can happen between calls: an operator's verdict, an agent registration, or the
      termination of a session. */
  datatype Item =
    | Serve(call: Call, now: int, id: string)
    | Verdict(esc: string, verdict: Status)
    | Register(name: string, row: AgentRow)
    | Close(sid: string)

  /** The session row the handler works on: the stored one, or a new one bound to the policy. */
  function Loaded(db: Db, pol: Policy, call: Call): Session {
    if call.session in db.sessions then db.sessions[call.session] else NewSession(call.agent, pol.fingerprint)
  }

  function WithSession(db: Db, sid: string, row: Session): Db {
    db.(sessions := db.sessions[sid := row])
  }

  function Opened(db: Db, pol: Policy, call: Call): Db {
    WithSession(db, call.session, Loaded(db, pol, call))
  }

  function Decide(lib: Library, stages: seq<Stage>, pol: Policy, db: Db, call: Call): Decision {
    Pipeline(stages, lib, StoreBackend(Opened(db, pol, call), false), call, Loaded(db, pol, call), pol)
  }

  /** The session row after a decision: the taint flag, and the counters for an executed call. */
  function Charged(row: Session, pol: Policy, tool: string, action: Action): Session {
    var tainted := if action == Allow then TaintAfter(row.tainted, pol, tool) else row.tainted;
    if Executed(action) then row.(tainted := tainted, calls := row.calls + 1, cost := row.cost + COST_PER_CALL)
    else row.(tainted := tainted)
  }

  function NewRow(db: Db, call: Call, d: Decision, now: int): EventRow {
    EventRow(MaxSeq(db.events, call.session) + 1, call.session, call.tool, call.args, d.action, d.rule, now)
  }

  function Recorded(db: Db, call: Call, d: Decision, now: int): Db {
    db.(events := db.events + [NewRow(db, call, d, now)])
  }

  function Escalating(db: Db, call: Call, d: Decision, seqNo: nat, id: string): Db {
    if d.action == Escalate && id !in db.escalations
    then db.(escalations := db.escalations[id := EscalationRow(call.session, seqNo, call.tool, call.args, Pending)])
    else db
  }

  /** Everything that follows the decision: event, taint flag, counters, escalation record. */
  function Concluded(pol: Policy, db: Db, call: Call, d: Decision, now: int, id: string): Db {
    var row := Charged(Loaded(db, pol, call), pol, call.tool, d.action);
    Escalating(WithSession(Recorded(db, call, d, now), call.session, row),
               call, d, MaxSeq(db.events, call.session) + 1, id)
  }

  function ServeDb(lib: Library, stages: seq<Stage>, pol: Policy, db: Db, call: Call, now: int, id: string): Db {
    if IsVirtual(call.tool) then db
    else if Loaded(db, pol, call).terminated then Opened(db, pol, call)
    else Concluded(pol, db, call, Decide(lib, stages, pol, db, call), now, id)
  }

  function ItemDb(lib: Library, stages: seq<Stage>, pol: Policy, db: Db, item: Item): Db {
    match item
    case Serve(call, now, id) => ServeDb(lib, stages, pol, db, call, now, id)
    case Verdict(id, verdict) =>
      if verdict == Pending then db
      else (match ResolvePending(db, id, verdict) case None => db case Some(after) => after)
    case Register(name, row) => db.(agents := db.agents[name := row])
    case Close(sid) => (match EndSession(db, sid) case Error => db case Ok(after) => after)
  }

  const EMPTY := Db(map[], [], map[], map[])

  /** The database after a one-at-a-time, failure-free run on one policy. */
  function RunDb(lib: Library, stages: seq<Stage>, pol: Policy, items: seq<Item>): Db {
    if |items| == 0 then EMPTY
    else ItemDb(lib, stages, pol, RunDb(lib, stages, pol, items[..|items| - 1]), items[|items| - 1])
  }

  // ---- terminated sessions, as the items tell

  /** The item is a call of the session that reaches the store. */
  predicate CallsIn(item: Item, sid: string) {
    item.Serve? && item.call.session == sid && !IsVirtual(item.call.tool)
  }

  /** The session exists after these items. */
  predicate OpenedBy(items: seq<Item>, sid: string) {
    exists i :: 0 <= i < |items| && CallsIn(items[i], sid)
  }

  /** The session has been terminated after these items: terminating a session that does not exist yet has
      no effect. */
  predicate ClosedBy(items: seq<Item>, sid: string) {
    exists j :: 0 <= j < |items| && items[j] == Close(sid) && OpenedBy(items[..j], sid)
  }

  /** Some call of the session arrives after the session has been terminated. */
  predicate CalledAfterClose(items: seq<Item>, sid: string) {
    exists i :: 0 <= i < |items| && CallsIn(items[i], sid) && ClosedBy(items[..i], sid)
  }

  lemma OpenedSnoc(items: seq<Item>, item: Item, sid: string)
    ensures OpenedBy(items + [item], sid) <==> OpenedBy(items, sid) || CallsIn(item, sid)
  {
    var after := items + [item];
    assert after[|items|] == item && forall i :: 0 <= i < |items| ==> after[i] == items[i];
  }

  lemma ClosedSnoc(items: seq<Item>, item: Item, sid: string)
    ensures ClosedBy(items + [item], sid) <==> ClosedBy(items, sid) || (item == Close(sid) && OpenedBy(items, sid))
  {
    var after := items + [item];
    assert after[..|items|] == items;
    assert forall j :: 0 <= j < |items| ==> after[j] == items[j] && after[..j] == items[..j];
    if ClosedBy(items, sid) {
      var j :| 0 <= j < |items| && items[j] == Close(sid) && OpenedBy(items[..j], sid);
      assert after[j] == Close(sid);
    }
  }

  lemma CalledAfterSnoc(items: seq<Item>, item: Item, sid: string)
    ensures CalledAfterClose(items + [item], sid) <==>
            CalledAfterClose(items, sid) || (CallsIn(item, sid) && ClosedBy(items, sid))
  {
    var after := items + [item];
    assert after[..|items|] == items;
    assert forall i :: 0 <= i < |items| ==> after[i] == items[i] && after[..i] == items[..i];
    if CalledAfterClose(items, sid) {
      var i :| 0 <= i < |items| && CallsIn(items[i], sid) && ClosedBy(items[..i], sid);
      assert CallsIn(after[i], sid);
    }
    if CallsIn(item, sid) && ClosedBy(items, sid) {
      assert CallsIn(after[|items|], sid);
    }
  }

  /** A served call touches its own session's row and nothing of other sessions. */
  lemma ServeSessions(lib: Library, stages: seq<Stage>, pol: Policy, db: Db, call: Call, now: int, id: string,
      sid: string)
    ensures var db' := ServeDb(lib, stages, pol, db, call, now, id);
            && (sid in db'.sessions <==> sid in db.sessions || (call.session == sid && !IsVirtual(call.tool)))
            && (sid in db.sessions ==> db'.sessions[sid].terminated == db.sessions[sid].terminated)
            && (sid in db'.sessions && sid !in db.sessions ==> !db'.sessions[sid].terminated)
  {
    hide Decide, MaxSeq, IsVirtual, TaintAfter;
  }

  /** The items say which sessions exist and which of them are terminated. */
  lemma {:induction false} ItemsTellSessions(lib: Library, stages: seq<Stage>, pol: Policy, items: seq<Item>,
      sid: string)
    ensures var db := RunDb(lib, stages, pol, items);
            && (sid in db.sessions <==> OpenedBy(items, sid))
            && (sid in db.sessions ==> (db.sessions[sid].terminated <==> ClosedBy(items, sid)))
    ensures ClosedBy(items, sid) ==> OpenedBy(items, sid)
  {
    hide ServeDb, OpenedBy, ClosedBy, CallsIn, IsVirtual;
    if |items| == 0 {
      NothingOpened(sid);
    } else {
      var front, item := items[..|items| - 1], items[|items| - 1];
      assert items == front + [item];
      ItemsTellSessions(lib, stages, pol, front, sid);
      OpenedSnoc(front, item, sid);
      ClosedSnoc(front, item, sid);
      CallsInMeans(item, sid);
      if item.Serve? {
        ServeSessions(lib, stages, pol, RunDb(lib, stages, pol, front), item.call, item.now, item.id, sid);
      }
    }
  }

  lemma CallsInMeans(item: Item, sid: string)
    ensures CallsIn(item, sid) <==> item.Serve? && item.call.session == sid && !IsVirtual(item.call.tool)
  {
  }

  lemma NothingOpened(sid: string)
    ensures !OpenedBy([], sid) && !ClosedBy([], sid) && !CalledAfterClose([], sid)
  {
  }
}
