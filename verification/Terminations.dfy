/** Hard termination (internal/store/sessions.go, internal/proxy/proxy.go): in every schedule, a call that reads its
    session after the termination is turned away and leaves no event. */
module Terminations {
  import opened Policies
  import opened Database
  import opened Recency
  import opened Protocol
  import opened Frame
  import opened Recording

  predicate Shut(db: Db, sid: string) {
    sid in db.sessions && db.sessions[sid].terminated
  }

  /** The handler has not read its session yet, or has found that it does not exist and is about to create it. */
  predicate Unread(pc: Pc) {
    pc.Load? || pc.Bind? || pc.Create?
  }

  /** Answers to a call that was not evaluated. */
  predicate TurnedAway(o: Outcome) {
    o.Gone? || o.BadRequest? || o.VirtualAnswered? || o.Crashed?
  }

  /** The call is on its way to being turned away. */
  predicate Late(r: Request) {
    || Unread(r.pc)
    || ((r.pc.Resolve? || r.pc.Fallback?) && r.sess.terminated)
    || (r.pc.Done? && !r.recorded && TurnedAway(r.pc.outcome))
  }

  // ---- terminated sessions stay terminated

  ghost predicate ShutKept(db: Db, db': Db) {
    forall sid :: Shut(db, sid) ==> Shut(db', sid)
  }

  lemma CreateShuts(s: State, i: nat, fail: bool)
    requires i < |s.reqs|
    ensures ShutKept(s.db, MoveCreate(s, i, fail).db)
  {
  }

  lemma TaintShuts(s: State, i: nat, fail: bool)
    requires i < |s.reqs|
    ensures ShutKept(s.db, MoveTaint(s, i, fail).db)
  {
  }

  lemma SettleShuts(cfg: Config, s: State, i: nat, fail: bool, id: string)
    requires i < |s.reqs|
    ensures ShutKept(s.db, MoveSettle(cfg, s, i, fail, id).db)
  {
  }

  lemma MoveShuts(cfg: Config, s: State, i: nat, fail: bool, now: int, id: string)
    requires i < |s.reqs|
    ensures ShutKept(s.db, Move(cfg, s, i, fail, now, id).db)
  {
    hide MoveCreate, MoveTaint, MoveSettle, EvalOne, AfterGet, Lookup, MaxSeq;
    match s.reqs[i].pc
    case Create => CreateShuts(s, i, fail);
    case PersistTaint => TaintShuts(s, i, fail);
    case Settle => SettleShuts(cfg, s, i, fail, id);
    case _ =>
  }

  lemma StepShuts(cfg: Config, s: State, step: Step)
    ensures ShutKept(s.db, Apply(cfg, s, step).db)
    ensures step.Terminate? && step.session in s.db.sessions ==> Shut(Apply(cfg, s, step).db, step.session)
  {
    hide Move, AfterSet;
    if step.Advance? && step.i < |s.reqs| {
      MoveShuts(cfg, s, step.i, step.fail, step.now, step.id);
    }
  }

  // ---- late calls stay late

  lemma LateMove(cfg: Config, s: State, i: nat, fail: bool, now: int, id: string)
    requires i < |s.reqs| && RequestOk(s.reqs[i]) && Late(s.reqs[i]) && Shut(s.db, s.reqs[i].call.session)
    ensures var s' := Move(cfg, s, i, fail, now, id); i < |s'.reqs| && Late(s'.reqs[i])
  {
    hide MoveAppend, MoveAudit, MoveTaint, MoveSettle, EvalOne, AfterGet, Lookup;
  }

  lemma LateStep(cfg: Config, s: State, step: Step, i: nat)
    requires AllOk(s) && i < |Apply(cfg, s, step).reqs|
    requires i < |s.reqs| ==> Late(s.reqs[i]) && Shut(s.db, s.reqs[i].call.session)
    ensures Late(Apply(cfg, s, step).reqs[i])
  {
    hide Move, RequestOk, Keeps, Flow, Records;
    StepFrame(cfg, s, step);
    if i < |s.reqs| {
      LateUnrecorded(s.reqs[i]);
    }
    if step.Advance? && step.i == i && i < |s.reqs| {
      LateMove(cfg, s, i, step.fail, step.now, step.id);
    }
  }

  /** Termination is final. Once a session is terminated, it stays so, and every call of it that arrives later, or
      has not read the session yet, is turned away without an event, whatever else happens. */
  lemma {:induction false} LateCallsTurnedAway(cfg: Config, pol: Policy, steps: seq<Step>, m: nat, n: nat, i: nat)
    requires m <= n <= |steps| && i < |At(cfg, pol, steps, n).reqs|
    requires var sid := At(cfg, pol, steps, n).reqs[i].call.session; Shut(At(cfg, pol, steps, m).db, sid)
    requires var s := At(cfg, pol, steps, m); i < |s.reqs| ==> Unread(s.reqs[i].pc)
    ensures var s := At(cfg, pol, steps, n);
            && Shut(s.db, s.reqs[i].call.session) && Late(s.reqs[i]) && !s.reqs[i].recorded
  {
    hide Apply, At, Run, Late, Shut, RequestOk, SeqDense;
    AtSound(cfg, pol, steps, n);
    if m < n {
      AtNext(cfg, pol, steps, n - 1);
      AtSound(cfg, pol, steps, n - 1);
      AtPrecedes(cfg, pol, steps, n - 1, n);
      var s, step := At(cfg, pol, steps, n - 1), steps[n - 1];
      StepShuts(cfg, s, step);
      if i < |s.reqs| {
        LateCallsTurnedAway(cfg, pol, steps, m, n - 1, i);
      } else {
        ShutSince(cfg, pol, steps, m, n, At(cfg, pol, steps, n).reqs[i].call.session);
      }
      LateStep(cfg, s, step, i);
    } else {
      UnreadIsLate(At(cfg, pol, steps, n).reqs[i]);
    }
    LateUnrecorded(At(cfg, pol, steps, n).reqs[i]);
  }

  lemma UnreadIsLate(r: Request)
    requires Unread(r.pc)
    ensures Late(r)
  {
  }

  lemma LateUnrecorded(r: Request)
    requires RequestOk(r) && Late(r)
    ensures !r.recorded
  {
  }

  lemma {:induction false} ShutSince(cfg: Config, pol: Policy, steps: seq<Step>, m: nat, n: nat, sid: string)
    requires m <= n <= |steps| && Shut(At(cfg, pol, steps, m).db, sid)
    ensures Shut(At(cfg, pol, steps, n).db, sid)
  {
    hide Apply, At, Run, Shut;
    if m < n {
      ShutSince(cfg, pol, steps, m, n - 1, sid);
      AtNext(cfg, pol, steps, n - 1);
      StepShuts(cfg, At(cfg, pol, steps, n - 1), steps[n - 1]);
    }
  }

  /** No events of late calls. An event that a session gets after its termination is of a call that had read the
      session before. */
  lemma NoLateEvents(cfg: Config, pol: Policy, steps: seq<Step>, p: nat, j: nat) returns (i: nat)
    requires p < |steps| && steps[p].Terminate? && steps[p].session in At(cfg, pol, steps, p).db.sessions
    requires var s := At(cfg, pol, steps, |steps|);
             j < |s.db.events| && s.db.events[j].session == steps[p].session
    ensures var s := At(cfg, pol, steps, |steps|);
            && j < |s.writers| && s.writers[j] == i && i < |At(cfg, pol, steps, p + 1).reqs|
            && !Unread(At(cfg, pol, steps, p + 1).reqs[i].pc)
  {
    hide At, RequestOk, SeqDense, Unread;
    AtSound(cfg, pol, steps, |steps|);
    AtNext(cfg, pol, steps, p);
    StepShuts(cfg, At(cfg, pol, steps, p), steps[p]);
    var s := At(cfg, pol, steps, |steps|);
    i := s.writers[j];
    assert Wrote(s.reqs[i], s.db.events[j]);
    if i < |At(cfg, pol, steps, p + 1).reqs| ==> Unread(At(cfg, pol, steps, p + 1).reqs[i].pc) {
      LateCallsTurnedAway(cfg, pol, steps, p + 1, |steps|, i);
    }
  }
}
