/** What every step of the protocol keeps: rows are only appended, requests keep what they have decided. */
module Frame {
  import opened Policies
  import opened Database
  import opened Engine
  import opened Recency
  import opened Protocol

  /** The policy is not resolved yet. */
  predicate Opening(pc: Pc) {
    pc.Load? || pc.Bind? || pc.Create? || pc.Resolve? || pc.Fallback?
  }

  /** Outcomes that a handler reaches only after writing its event. */
  predicate Answered(o: Outcome) {
    o.Denied? || o.Escalated? || o.EscalationUnrecorded? || o.AuditRefused? || o.TaintWriteFailed? || o.Forwarded?
  }

  /** The decision is fixed: the event is about to be written, or has been. */
  predicate Decided(r: Request) {
    r.pc.Append? || r.recorded
  }

  predicate RequestOk(r: Request) {
    && (Opening(r.pc) ==> r.pol.None? && !r.recorded)
    && (r.pc.Evaluating? ==> r.pol.Some? && !r.recorded && r.pc.k < 9 && r.tainted == r.sess.tainted)
    && (r.pc.Append? ==> r.pol.Some? && !r.recorded)
    && (r.pc.Audit? || r.pc.PersistTaint? || r.pc.Settle? ==> r.recorded)
    && (r.pc.Done? && Answered(r.pc.outcome) ==> r.recorded)
    && (r.recorded ==> r.pol.Some?)
    && (r.pc.Done? ==> EndOk(r, r.pc.outcome))
    && (Decided(r) ==> DecisionOk(r))
  }

  /** An executed event ends in one of four ways or a crash; only an executed call is forwarded. */
  predicate EndOk(r: Request, o: Outcome) {
    && (o.Forwarded? ==> Executed(r.decision.action))
    && (o.Escalated? ==> r.decision.action == Escalate)
    && (r.recorded && Executed(r.decision.action) ==>
          o.Forwarded? || o.AuditRefused? || o.TaintWriteFailed? || o.Crashed?)
  }

  predicate DecisionOk(r: Request)
    requires r.pol.Some?
  {
    && (r.decision.action == ShadowDeny ==> EffectiveMode(r.pol.value, r.call.tool) == Shadow)
    && r.tainted == if r.decision.action == Allow then TaintAfter(r.sess.tainted, r.pol.value, r.call.tool)
                    else r.sess.tainted
  }

  /** A step keeps what a request has fixed so far. */
  predicate Keeps(r: Request, r': Request) {
    && r'.call == r.call
    && (r.pol.Some? ==> r'.pol == r.pol && r'.sess == r.sess)
    && (Decided(r) ==> r'.decision == r.decision && r'.tainted == r.tainted)
    && (r.recorded ==> r'.recorded && r'.seqNo == r.seqNo)
    && (r.pc.Append? ==> r'.pc.Append? || r'.recorded || r'.pc.Done?)
    && (r.pc.Done? ==> r' == r)
  }

  /** The order of a handler's operations. */
  predicate Flow(pc: Pc, next: Pc) {
    match pc
    case Load => next.Resolve? || next.Bind? || next == Done(BadRequest)
    case Bind => next.Create?
    case Create => next.Resolve? || next == Done(BadRequest)
    case Resolve => next == Evaluating(0) || next.Fallback? || next == Done(Gone)
    case Fallback => next == Evaluating(0) || next == Done(Gone)
    case Evaluating(k) => next == Evaluating(k + 1) || next.Append?
    case Append => next.Audit? || next == Done(BadRequest)
    case Audit => next.PersistTaint?
    case PersistTaint => next.Settle? || next == Done(TaintWriteFailed)
    case Settle => next.Done? && Answered(next.outcome)
    case Done(_) => next == pc
  }

  /** Request i writes its event row between s and s'. */
  ghost predicate Records(s: State, i: nat, s': State)
    requires i < |s.reqs| && i < |s'.reqs|
  {
    var r, r' := s.reqs[i], s'.reqs[i];
    var n := MaxSeq(s.db.events, r.call.session) + 1;
    && r.pc.Append?
    && r' == r.(pc := Audit, recorded := true, seqNo := n)
    && s'.writers == s.writers + [i]
    && exists now :: s'.db.events == s.db.events + [Row(r, now).(seqNo := n)]
  }

  /** Only request i moves; rows are untouched unless it records its event; sessions never disappear. */
  ghost predicate Moved(s: State, i: nat, s': State)
    requires i < |s.reqs|
  {
    && |s'.reqs| == |s.reqs|
    && s'.reqs == s.reqs[i := s'.reqs[i]]
    && s.db.sessions.Keys <= s'.db.sessions.Keys
    && RequestOk(s'.reqs[i]) && Keeps(s.reqs[i], s'.reqs[i])
    && Flow(s.reqs[i].pc, s'.reqs[i].pc)
    && (Records(s, i, s')
        || (s'.writers == s.writers && s'.db.events == s.db.events && s'.reqs[i].recorded == s.reqs[i].recorded))
  }

  /** Building block: request i becomes r, the rows stay, sessions may be added or updated. */
  lemma PutMoves(s: State, i: nat, r: Request, s': State)
    requires i < |s.reqs| && s'.reqs == s.reqs[i := r]
    requires s'.writers == s.writers && s'.db.events == s.db.events && s.db.sessions.Keys <= s'.db.sessions.Keys
    requires RequestOk(r) && Keeps(s.reqs[i], r) && Flow(s.reqs[i].pc, r.pc)
    requires r.recorded == s.reqs[i].recorded
    ensures Moved(s, i, s')
  {
  }

  /** After its event is written, a request only moves its pc. */
  lemma LateKeeps(r: Request, pc: Pc)
    requires RequestOk(r) && r.recorded && !r.pc.Done? && (pc.Settle? || (pc.Done? && EndOk(r, pc.outcome)))
    ensures RequestOk(r.(pc := pc)) && Keeps(r, r.(pc := pc))
  {
  }

  lemma LoadMoves(s: State, i: nat, fail: bool)
    requires i < |s.reqs| && s.reqs[i].pc.Load? && RequestOk(s.reqs[i])
    ensures Moved(s, i, MoveLoad(s, i, fail))
  {
  }

  lemma CreateMoves(s: State, i: nat, fail: bool)
    requires i < |s.reqs| && s.reqs[i].pc.Create? && RequestOk(s.reqs[i])
    ensures Moved(s, i, MoveCreate(s, i, fail))
  {
  }

  lemma ResolveMoves(s: State, i: nat)
    requires i < |s.reqs| && s.reqs[i].pc.Resolve? && RequestOk(s.reqs[i])
    ensures Moved(s, i, MoveResolve(s, i))
  {
    hide AfterGet, Position, Lookup, MaxSeq;
  }

  lemma AppendMoves(s: State, i: nat, fail: bool, now: int)
    requires i < |s.reqs| && s.reqs[i].pc.Append? && RequestOk(s.reqs[i])
    ensures Moved(s, i, MoveAppend(s, i, fail, now))
  {
    hide MaxSeq, TaintAfter, EffectiveMode;
  }

  lemma AuditMoves(cfg: Config, s: State, i: nat, fail: bool, now: int)
    requires i < |s.reqs| && s.reqs[i].pc.Audit? && RequestOk(s.reqs[i])
    ensures Moved(s, i, MoveAudit(cfg, s, i, fail, now))
  {
  }

  lemma TaintMoves(s: State, i: nat, fail: bool)
    requires i < |s.reqs| && s.reqs[i].pc.PersistTaint? && RequestOk(s.reqs[i]) && s.reqs[i].recorded
    ensures Moved(s, i, MoveTaint(s, i, fail))
  {
    hide RequestOk, Keeps, Moved;
    var s' := MoveTaint(s, i, fail);
    var r, pc := s.reqs[i], s'.reqs[i].pc;
    LateKeeps(r, pc);
    PutMoves(s, i, r.(pc := pc), s');
  }

  /** Only request i's pc changes among the requests, and no row is written. */
  ghost predicate Ends(s: State, i: nat, s': State)
    requires i < |s.reqs|
  {
    && |s'.reqs| == |s.reqs| && s'.reqs[i].pc.Done? && Answered(s'.reqs[i].pc.outcome)
    && EndOk(s.reqs[i], s'.reqs[i].pc.outcome)
    && s'.reqs == s.reqs[i := s.reqs[i].(pc := s'.reqs[i].pc)]
    && s'.writers == s.writers && s'.db.events == s.db.events && s.db.sessions.Keys <= s'.db.sessions.Keys
  }

  lemma EscalateEnds(s: State, i: nat, fail: bool, id: string)
    requires i < |s.reqs| && s.reqs[i].decision.action == Escalate
    ensures Ends(s, i, MoveEscalate(s, i, fail, id))
  {
  }

  lemma ForwardEnds(s: State, i: nat, fail: bool)
    requires i < |s.reqs| && Executed(s.reqs[i].decision.action)
    ensures Ends(s, i, MoveForward(s, i, fail))
  {
  }

  lemma SettleEnds(cfg: Config, s: State, i: nat, fail: bool, id: string)
    requires i < |s.reqs|
    ensures Ends(s, i, MoveSettle(cfg, s, i, fail, id))
  {
    hide MoveEscalate, MoveForward;
    match s.reqs[i].decision.action
    case Deny =>
    case Escalate => EscalateEnds(s, i, fail, id);
    case _ => ForwardEnds(s, i, fail);
  }

  lemma SettleMoves(cfg: Config, s: State, i: nat, fail: bool, id: string)
    requires i < |s.reqs| && s.reqs[i].pc.Settle? && RequestOk(s.reqs[i]) && s.reqs[i].recorded
    ensures Moved(s, i, MoveSettle(cfg, s, i, fail, id))
  {
    hide RequestOk, Keeps, Moved, MoveSettle;
    var s' := MoveSettle(cfg, s, i, fail, id);
    SettleEnds(cfg, s, i, fail, id);
    var r, pc := s.reqs[i], s'.reqs[i].pc;
    LateKeeps(r, pc);
    PutMoves(s, i, r.(pc := pc), s');
  }

  lemma EvalKeeps(lib: Library, b: Backend, r: Request, k: nat)
    requires RequestOk(r) && r.pc == Evaluating(k) && r.pol.Some? && k < |Live()|
    ensures RequestOk(EvalOne(lib, b, r, k)) && Keeps(r, EvalOne(lib, b, r, k))
    ensures EvalOne(lib, b, r, k).recorded == r.recorded && Flow(r.pc, EvalOne(lib, b, r, k).pc)
  {
  }

  lemma MoveMoves(cfg: Config, s: State, i: nat, fail: bool, now: int, id: string)
    requires i < |s.reqs| && RequestOk(s.reqs[i])
    ensures Moved(s, i, Move(cfg, s, i, fail, now, id))
  {
    hide MoveLoad, MoveCreate, MoveResolve, MoveAppend, MoveAudit, MoveTaint, MoveSettle, EvalOne, Moved;
    var r, s' := s.reqs[i], Move(cfg, s, i, fail, now, id);
    match r.pc
    case Load => LoadMoves(s, i, fail);
    case Bind => PutMoves(s, i, r.(pc := Create, sess := NewSession(r.call.agent, s.live.fingerprint)), s');
    case Create => CreateMoves(s, i, fail);
    case Resolve => ResolveMoves(s, i);
    case Fallback => PutMoves(s, i, Admit(r, s.live), s');
    case Evaluating(k) =>
      EvalKeeps(cfg.lib, StoreBackend(s.db, fail), r, k);
      PutMoves(s, i, EvalOne(cfg.lib, StoreBackend(s.db, fail), r, k), s');
    case Append => AppendMoves(s, i, fail, now);
    case Audit => AuditMoves(cfg, s, i, fail, now);
    case PersistTaint => TaintMoves(s, i, fail);
    case Settle => SettleMoves(cfg, s, i, fail, id);
    case Done(_) => PutMoves(s, i, r, s');
  }

  /** What a step that is not an Advance does. */
  ghost predicate Aside(s: State, step: Step, s': State) {
    && s'.writers == s.writers && s'.db.events == s.db.events
    && s.db.sessions.Keys <= s'.db.sessions.Keys
    && (match step
        case Arrive(call) => s'.reqs == s.reqs + [NewRequest(call)]
        case Crash(i) =>
          s'.reqs == s.reqs
              || (i < |s.reqs| && !s.reqs[i].pc.Done? && s'.reqs == s.reqs[i := s.reqs[i].(pc := Done(Crashed))])
        case _ => s'.reqs == s.reqs)
  }

  ghost predicate AllOk(s: State) {
    forall i :: 0 <= i < |s.reqs| ==> RequestOk(s.reqs[i])
  }

  /** The shape of a step, whatever it is. */
  ghost predicate Stepped(s: State, step: Step, s': State) {
    && AllOk(s')
    && if step.Advance? then (if step.i < |s.reqs| then Moved(s, step.i, s') else s' == s) else Aside(s, step, s')
  }

  lemma NewRequestOk()
    ensures forall call :: RequestOk(NewRequest(call))
  {
  }

  lemma CrashedOk()
    ensures forall r :: RequestOk(r) && !r.pc.Done? ==> RequestOk(r.(pc := Done(Crashed)))
  {
  }

  lemma StepFrame(cfg: Config, s: State, step: Step)
    requires AllOk(s)
    ensures Stepped(s, step, Apply(cfg, s, step))
    ensures step.Advance? && step.i < |s.reqs| ==>
              Apply(cfg, s, step) == Move(cfg, s, step.i, step.fail, step.now, step.id)
  {
    hide Move, RequestOk, Keeps, Flow, Records, MaxSeq;
    NewRequestOk();
    CrashedOk();
    if step.Advance? && step.i < |s.reqs| {
      MoveMoves(cfg, s, step.i, step.fail, step.now, step.id);
    }
  }
}
