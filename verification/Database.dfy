/** The store (internal/store): its tables as values and each store call as one atomic operation. */
module Database {
  import opened Prelude
  import opened Policies

  datatype Action = Allow | Deny | Escalate | ShadowDeny

  /** The rule a decision names (Decision.RuleID). */
  datatype Rule =
    | NoRule | InternalError | EnvMismatch | NotInMayUse | ExceedsParent | MaxToolCalls | MaxCost
    | SessionTainted | SequenceBroken | ContentFired(argument: string, test: Test) | ContentAllFired
    | RateLimited(tool: string) | NeedsApproval

  /** The call reached the upstream server as far as the engine is concerned. */
  predicate Executed(a: Action) {
    a == Allow || a == ShadowDeny
  }

  /** One sessions row; its primary key is the key of Db.sessions. Cost is in thousandths of a dollar. */
  datatype Session = Session(
    agent: string, fingerprint: string, tainted: bool, calls: nat, cost: nat, terminated: bool)

  datatype EventRow = EventRow(
    seqNo: nat, session: string, tool: string, args: string, decision: Action, rule: Rule, recordedAt: int)

  datatype Status = Pending | Approved | Rejected

  datatype EscalationRow = EscalationRow(session: string, seqNo: nat, tool: string, args: string, status: Status)

  /** allowedTools is None when the stored JSON does not decode. */
  datatype AgentRow = AgentRow(allowedTools: Option<seq<string>>)

  datatype Db = Db(
    sessions: map<string, Session>,
    events: seq<EventRow>,
    escalations: map<string, EscalationRow>,
    agents: map<string, AgentRow>)

  function NewSession(agent: string, fingerprint: string): Session {
    Session(agent, fingerprint, false, 0, 0, false)
  }

  // ---- queries

  function OfSession(sid: string): EventRow -> bool {
    (e: EventRow) => e.session == sid
  }

  function ExecutedRow(sid: string, tool: string): EventRow -> bool {
    (e: EventRow) => e.session == sid && e.tool == tool && Executed(e.decision)
  }

  function ExecutedSince(sid: string, tool: string, since: int): EventRow -> bool {
    (e: EventRow) => e.session == sid && e.tool == tool && Executed(e.decision) && e.recordedAt >= since
  }

  /** How many executed calls of `tool` the session has recorded. */
  function ExecutedCount(events: seq<EventRow>, sid: string, tool: string): nat {
    Count(events, ExecutedRow(sid, tool))
  }

  function SessionRows(events: seq<EventRow>, sid: string): seq<EventRow> {
    Filter(events, OfSession(sid))
  }

  /** SELECT COALESCE(MAX(seq), 0) over the rows of one session. */
  function MaxSeq(events: seq<EventRow>, sid: string): (m: nat)
    ensures forall e :: e in events && e.session == sid ==> e.seqNo <= m
  {
    if |events| == 0 then 0
    else
      var last := events[|events| - 1];
      var m := MaxSeq(events[..|events| - 1], sid);
      assert events == events[..|events| - 1] + [last];
      if last.session == sid && last.seqNo > m then last.seqNo else m
  }

  // ---- updates; each returns the table state after the call

  function InsertSession(db: Db, sid: string, agent: string, fingerprint: string): Result<Db> {
    if sid in db.sessions then Error
    else Ok(db.(sessions := db.sessions[sid := NewSession(agent, fingerprint)]))
  }

  /** Inserts the row under the session's next seq; the foreign key demands that the session exists. */
  function InsertEvent(db: Db, row: EventRow): Result<(Db, nat)> {
    if row.session !in db.sessions then Error
    else
      var n := MaxSeq(db.events, row.session) + 1;
      Ok((db.(events := db.events + [row.(seqNo := n)]), n))
  }

  function SetTaint(db: Db, sid: string, tainted: bool): Result<Db> {
    if sid !in db.sessions then Error
    else Ok(db.(sessions := db.sessions[sid := db.sessions[sid].(tainted := tainted)]))
  }

  function AddCall(db: Db, sid: string, cost: nat): Result<Db> {
    if sid !in db.sessions then Error
    else
      var row := db.sessions[sid];
      Ok(db.(sessions := db.sessions[sid := row.(calls := row.calls + 1, cost := row.cost + cost)]))
  }

  function EndSession(db: Db, sid: string): Result<Db> {
    if sid !in db.sessions then Error
    else Ok(db.(sessions := db.sessions[sid := db.sessions[sid].(terminated := true)]))
  }

  function InsertEscalation(db: Db, id: string, row: EscalationRow): Result<Db> {
    if id in db.escalations then Error
    else Ok(db.(escalations := db.escalations[id := row]))
  }

  /** UPDATE ... WHERE id = ? AND status = 'pending'; None when no row matched. */
  function ResolvePending(db: Db, id: string, verdict: Status): Option<Db> {
    if id in db.escalations && db.escalations[id].status == Pending
    then Some(db.(escalations := db.escalations[id := db.escalations[id].(status := verdict)]))
    else None
  }

  // ---- lemmas

  /** Seqs are exactly 1..n: row j carries one more than the number of earlier rows of its session. */
  ghost predicate SeqDense(events: seq<EventRow>) {
    forall j :: 0 <= j < |events| ==>
      events[j].seqNo == Count(events[..j], OfSession(events[j].session)) + 1
  }

  lemma {:induction false} MaxSeqIsCount(events: seq<EventRow>, sid: string)
    requires SeqDense(events)
    ensures MaxSeq(events, sid) == Count(events, OfSession(sid))
  {
    if |events| != 0 {
      var front := events[..|events| - 1];
      assert forall j :: 0 <= j < |front| ==> front[..j] == events[..j];
      MaxSeqIsCount(front, sid);
    }
  }

  lemma SeqDenseSnoc(events: seq<EventRow>, row: EventRow)
    requires SeqDense(events)
    requires row.seqNo == MaxSeq(events, row.session) + 1
    ensures SeqDense(events + [row])
  {
    MaxSeqIsCount(events, row.session);
    var after := events + [row];
    forall j | 0 <= j < |after|
      ensures after[j].seqNo == Count(after[..j], OfSession(after[j].session)) + 1
    {
      assert after[..j] == events[..j];
      assert events[..|events|] == events;
    }
  }

  /** The k-th row of a session, in insertion order, has seq k + 1: insertion order is ORDER BY seq. */
  lemma {:induction false} RowsAreOneToN(events: seq<EventRow>, sid: string)
    requires SeqDense(events)
    ensures forall k :: 0 <= k < |SessionRows(events, sid)| ==> SessionRows(events, sid)[k].seqNo == k + 1
  {
    if |events| != 0 {
      var front, last := events[..|events| - 1], events[|events| - 1];
      assert forall j :: 0 <= j < |front| ==> front[..j] == events[..j];
      RowsAreOneToN(front, sid);
      FilterMembers(front, OfSession(sid));
      var rows, before := SessionRows(events, sid), SessionRows(front, sid);
      assert rows == before + if last.session == sid then [last] else [];
      forall k | 0 <= k < |rows|
        ensures rows[k].seqNo == k + 1
      {
        if k < |before| {
          assert rows[k] == before[k];
        } else {
          assert rows[k] == last && last.seqNo == Count(front, OfSession(sid)) + 1;
        }
      }
    }
  }

  /** Within one session, an earlier row has the smaller seq. */
  lemma EarlierRowSmallerSeq(events: seq<EventRow>, i: nat, j: nat)
    requires SeqDense(events) && i < j < |events| && events[i].session == events[j].session
    ensures events[i].seqNo < events[j].seqNo
  {
    var p := OfSession(events[j].session);
    CountSnoc(events[..i], events[i], p);
    assert events[..i] + [events[i]] == events[..i + 1];
    CountPrefix(events[..j], i + 1, p);
    assert events[..j][..i + 1] == events[..i + 1];
  }
}
