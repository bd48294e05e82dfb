/** The live proxy as a state machine (internal/proxy/proxy.go). Every request handler is a
    sequence of atomic steps on shared state; a schedule interleaves the steps of all requests
    with the operators' actions, reloads, store failures and crashes. */
module Protocol {
  import opened Prelude
  import opened Policies
  import opened Database
  import opened Engine
  import opened Recency

  /** Thousandths of a dollar charged for a forwarded call. */
  const COST_PER_CALL := 1

  datatype Outcome =
    | BadRequest
    | VirtualAnswered
    | Gone
    | Denied
    | Escalated(id: string)
    | EscalationUnrecorded
    | AuditRefused
    | TaintWriteFailed
    | Forwarded(counted: bool)
    | Crashed

  /** Where a request's handler stands; each value but Done names the next shared operation. */
  datatype Pc =
    | Load                 // GetSession
    | Bind                 // currentPolicy, for a session that does not exist yet
    | Create               // CreateSession
    | Resolve              // policyForFingerprint
    | Fallback             // currentPolicy, after a cache miss
    | Evaluating(k: nat)   // stage k of the pipeline
    | Append               // AppendEvent
    | Audit                // writeAuditRecord
    | PersistTaint         // UpdateSessionTaint, when the flag changed
    | Settle               // IncrementSessionCounters or CreateEscalation, then the response
    | Done(outcome: Outcome)

  /** `sess` is the snapshot the handler loaded; `tainted` is its flag after evaluation.
      `recorded` says that the request's event row exists and carries `seqNo`. */
  datatype Request = Request(
    call: Call,
    pc: Pc,
    sess: Session,
    pol: Option<Policy>,
    decision: Decision,
    tainted: bool,
    recorded: bool,
    seqNo: nat,
    auditFailed: bool)

  /** What replay reads of an audit_log row. */
  datatype AuditRow = AuditRow(
    session: string, seqNo: nat, agent: string, tool: string, decision: Action, fingerprint: string, recordedAt: int)

  /** `writers[j]` is the request that wrote db.events[j]. `pending` is a reload between its two steps. */
  datatype State = State(
    db: Db,
    reqs: seq<Request>,
    writers: seq<nat>,
    live: Policy,
    cache: seq<Cached>,
    pending: Option<Policy>,
    trace: seq<Call>,
    audit: seq<AuditRow>)

  /** `strict` is --audit-strict; `signing` says that a signing key is loaded. */
  datatype Config = Config(lib: Library, capacity: nat, strict: bool, signing: bool)

  datatype Step =
    | Arrive(call: Call)
    | Advance(i: nat, fail: bool, now: int, id: string)
    | Crash(i: nat)
    | Restart(pol: Policy)
    | Judge(id: string, verdict: Status, fail: bool)
    | Terminate(session: string)
    | PutAgent(name: string, row: AgentRow)
    | ReloadCache(pol: Policy, accepted: bool)
    | ReloadPublish

  function Initial(pol: Policy): State {
    State(Db(map[], [], map[], map[]), [], [], pol, [Cached(pol.fingerprint, pol)], None, [], [])
  }

  function NewRequest(call: Call): Request {
    var pc := if IsVirtual(call.tool) then Done(VirtualAnswered) else Load;
    Request(call, pc, NewSession(call.agent, ""), None, Permit(), false, false, 0, false)
  }

  // ---- one step of one request

  function Put(s: State, i: nat, r: Request): State
    requires i < |s.reqs|
  {
    s.(reqs := s.reqs[i := r])
  }

  function Goto(s: State, i: nat, pc: Pc): State
    requires i < |s.reqs|
  {
    Put(s, i, s.reqs[i].(pc := pc))
  }

  /** The policy is known: a terminated session stops here, any other enters the pipeline. */
  function Admit(r: Request, pol: Policy): Request {
    if r.sess.terminated then r.(pol := Some(pol), pc := Done(Gone))
    else r.(pol := Some(pol), pc := Evaluating(0), tainted := r.sess.tainted)
  }

  function MoveLoad(s: State, i: nat, fail: bool): State
    requires i < |s.reqs|
  {
    var r := s.reqs[i];
    if fail then Goto(s, i, Done(BadRequest))
    else if r.call.session in s.db.sessions
    then Put(s, i, r.(pc := Resolve, sess := s.db.sessions[r.call.session]))
    else Goto(s, i, Bind)
  }

  function MoveCreate(s: State, i: nat, fail: bool): State
    requires i < |s.reqs|
  {
    var r := s.reqs[i];
    match InsertSession(s.db, r.call.session, r.call.agent, r.sess.fingerprint)
    case Error => Goto(s, i, Done(BadRequest))
    case Ok(db) => if fail then Goto(s, i, Done(BadRequest)) else Goto(s, i, Resolve).(db := db)
  }

  function MoveResolve(s: State, i: nat): State
    requires i < |s.reqs|
  {
    var r := s.reqs[i];
    match Lookup(s.cache, r.sess.fingerprint)
    case Some(pol) => Put(s, i, Admit(r, pol)).(cache := AfterGet(s.cache, r.sess.fingerprint))
    case None => Goto(s, i, Fallback)
  }

  /** Stage k on the store as it is now; the last stage to permit also moves the taint flag. */
  function EvalOne(lib: Library, b: Backend, r: Request, k: nat): Request
    requires r.pol.Some? && k < |Live()|
  {
    var pol := r.pol.value;
    match Settled(EvalStage(Live()[k], lib, b, r.call, r.sess, pol), pol, r.call.tool)
    case Some(d) => r.(pc := Append, decision := d)
    case None =>
      if k + 1 < |Live()| then r.(pc := Evaluating(k + 1))
      else r.(pc := Append, decision := Permit(), tainted := TaintAfter(r.sess.tainted, pol, r.call.tool))
  }

  function Row(r: Request, now: int): EventRow {
    EventRow(0, r.call.session, r.call.tool, r.call.args, r.decision.action, r.decision.rule, now)
  }

  function MoveAppend(s: State, i: nat, fail: bool, now: int): State
    requires i < |s.reqs|
  {
    var r := s.reqs[i];
    match InsertEvent(s.db, Row(r, now))
    case Error => Goto(s, i, Done(BadRequest))
    case Ok((db, n)) =>
      if fail then Goto(s, i, Done(BadRequest))
      else Put(s, i, r.(pc := Audit, recorded := true, seqNo := n)).(db := db, writers := s.writers + [i])
  }

  function MoveAudit(cfg: Config, s: State, i: nat, fail: bool, now: int): State
    requires i < |s.reqs| && s.reqs[i].pol.Some?
  {
    var r := s.reqs[i];
    if !cfg.signing then Goto(s, i, PersistTaint)
    else if fail then Put(s, i, r.(pc := PersistTaint, auditFailed := true))
    else
      var row := AuditRow(r.call.session, r.seqNo, r.call.agent, r.call.tool, r.decision.action,
                          r.pol.value.fingerprint, now);
      Goto(s, i, PersistTaint).(audit := s.audit + [row])
  }

  function MoveTaint(s: State, i: nat, fail: bool): State
    requires i < |s.reqs|
  {
    var r := s.reqs[i];
    if r.tainted == r.sess.tainted then Goto(s, i, Settle)
    else
      match SetTaint(s.db, r.call.session, r.tainted)
      case Error => Goto(s, i, Done(TaintWriteFailed))
      case Ok(db) => if fail then Goto(s, i, Done(TaintWriteFailed)) else Goto(s, i, Settle).(db := db)
  }

  function MoveEscalate(s: State, i: nat, fail: bool, id: string): State
    requires i < |s.reqs|
  {
    var r := s.reqs[i];
    var row := EscalationRow(r.call.session, r.seqNo, r.call.tool, r.call.args, Pending);
    match InsertEscalation(s.db, id, row)
    case Error => Goto(s, i, Done(EscalationUnrecorded))
    case Ok(db) =>
      if fail then Goto(s, i, Done(EscalationUnrecorded)) else Goto(s, i, Done(Escalated(id))).(db := db)
  }

  /** A failed counter write is logged, and the call goes through. */
  function MoveForward(s: State, i: nat, fail: bool): State
    requires i < |s.reqs|
  {
    match AddCall(s.db, s.reqs[i].call.session, COST_PER_CALL)
    case Error => Goto(s, i, Done(Forwarded(false)))
    case Ok(db) =>
      if fail then Goto(s, i, Done(Forwarded(false))) else Goto(s, i, Done(Forwarded(true))).(db := db)
  }

  function MoveSettle(cfg: Config, s: State, i: nat, fail: bool, id: string): State
    requires i < |s.reqs|
  {
    var r := s.reqs[i];
    match r.decision.action
    case Deny => Goto(s, i, Done(Denied))
    case Escalate => MoveEscalate(s, i, fail, id)
    case _ => if r.auditFailed && cfg.strict then Goto(s, i, Done(AuditRefused)) else MoveForward(s, i, fail)
  }

  function Move(cfg: Config, s: State, i: nat, fail: bool, now: int, id: string): State
    requires i < |s.reqs|
  {
    var r := s.reqs[i];
    match r.pc
    case Load => MoveLoad(s, i, fail)
    case Bind => Put(s, i, r.(pc := Create, sess := NewSession(r.call.agent, s.live.fingerprint)))
    case Create => MoveCreate(s, i, fail)
    case Resolve => MoveResolve(s, i)
    case Fallback => Put(s, i, Admit(r, s.live))
    case Evaluating(k) =>
      if r.pol.Some? && k < |Live()| then Put(s, i, EvalOne(cfg.lib, StoreBackend(s.db, fail), r, k)) else s
    case Append => MoveAppend(s, i, fail, now)
    case Audit => if r.pol.Some? then MoveAudit(cfg, s, i, fail, now) else s
    case PersistTaint => MoveTaint(s, i, fail)
    case Settle => MoveSettle(cfg, s, i, fail, id)
    case Done(_) => s
  }

  // ---- one step of the system; a step that is not enabled changes nothing

  function Apply(cfg: Config, s: State, step: Step): State {
    match step
    case Arrive(call) =>
      s.(reqs := s.reqs + [NewRequest(call)],
         trace := if IsVirtual(call.tool) then s.trace else s.trace + [call])
    case Advance(i, fail, now, id) => if i < |s.reqs| then Move(cfg, s, i, fail, now, id) else s
    case Crash(i) => if i < |s.reqs| && !s.reqs[i].pc.Done? then Goto(s, i, Done(Crashed)) else s
    case Restart(pol) => s.(live := pol, cache := [Cached(pol.fingerprint, pol)], pending := None)
    case Judge(id, verdict, fail) =>
      if fail || verdict == Pending then s
      else (match ResolvePending(s.db, id, verdict) case None => s case Some(db) => s.(db := db))
    case Terminate(sid) => (match EndSession(s.db, sid) case Error => s case Ok(db) => s.(db := db))
    case PutAgent(name, row) => s.(db := s.db.(agents := s.db.agents[name := row]))
    case ReloadCache(pol, accepted) =>
      if accepted && s.pending.None?
      then s.(cache := AfterSet(cfg.capacity, s.cache, pol.fingerprint, pol), pending := Some(pol))
      else s
    case ReloadPublish => if s.pending.Some? then s.(live := s.pending.value, pending := None) else s
  }

  /** The state after a schedule. */
  function Run(cfg: Config, s0: State, steps: seq<Step>): State {
    if |steps| == 0 then s0
    else Apply(cfg, Run(cfg, s0, steps[..|steps| - 1]), steps[|steps| - 1])
  }

  lemma RunAppend(cfg: Config, s0: State, a: seq<Step>, b: seq<Step>)
    ensures Run(cfg, s0, a + b) == Run(cfg, Run(cfg, s0, a), b)
  {
    if |b| == 0 {
      assert a + b == a;
    } else {
      assert (a + b)[..|a + b| - 1] == a + b[..|b| - 1];
      RunAppend(cfg, s0, a, b[..|b| - 1]);
    }
  }

  /** The state after the first n steps of a schedule on a fresh database. */
  function At(cfg: Config, pol: Policy, steps: seq<Step>, n: nat): State
    requires n <= |steps|
  {
    Run(cfg, Initial(pol), steps[..n])
  }

  lemma AtStart(cfg: Config, pol: Policy, steps: seq<Step>)
    ensures At(cfg, pol, steps, 0) == Initial(pol)
  {
  }

  lemma AtNext(cfg: Config, pol: Policy, steps: seq<Step>, n: nat)
    requires n < |steps|
    ensures At(cfg, pol, steps, n + 1) == Apply(cfg, At(cfg, pol, steps, n), steps[n])
  {
    assert steps[..n + 1][..n] == steps[..n];
  }
}
