/** Executed events, forwarded calls and the session's call counter, in every schedule. */
module Conservation {
  import opened Prelude
  import opened Policies
  import opened Database
  import opened Protocol
  import opened Frame
  import opened Recording

  /** tool_call_count of the session; a session without a row has made no calls. */
  function Calls(db: Db, sid: string): nat {
    if sid in db.sessions then db.sessions[sid].calls else 0
  }

  function ExecutedIn(sid: string): EventRow -> bool {
    (e: EventRow) => e.session == sid && Executed(e.decision)
  }

  predicate ExecutedRecord(r: Request, sid: string) {
    r.call.session == sid && r.recorded && Executed(r.decision.action)
  }

  /** The request's executed event is not in the counter. */
  function Uncounted(sid: string): Request -> bool {
    (r: Request) => ExecutedRecord(r, sid) && r.pc != Done(Forwarded(true))
  }

  function Counted(sid: string): Request -> bool {
    (r: Request) => r.call.session == sid && r.pc == Done(Forwarded(true))
  }

  // ---- the counter

  /** Request i's move adds one to its session's counter exactly when it ends as Forwarded(true). */
  ghost predicate Charges(s: State, i: nat, s': State)
    requires i < |s.reqs| && i < |s'.reqs|
  {
    forall sid :: Calls(s'.db, sid) == Calls(s.db, sid) +
      if sid == s.reqs[i].call.session && s.reqs[i].pc.Settle? && s'.reqs[i].pc == Done(Forwarded(true)) then 1 else 0
  }

  lemma SameSessionsCharge(s: State, i: nat, s': State)
    requires i < |s.reqs| && i < |s'.reqs| && s'.db.sessions == s.db.sessions
    requires !(s.reqs[i].pc.Settle? && s'.reqs[i].pc == Done(Forwarded(true)))
    ensures Charges(s, i, s')
  {
  }

  lemma ForwardCharges(s: State, i: nat, fail: bool)
    requires i < |s.reqs| && s.reqs[i].pc.Settle?
    ensures i < |MoveForward(s, i, fail).reqs| && Charges(s, i, MoveForward(s, i, fail))
  {
  }

  lemma SettleCharges(cfg: Config, s: State, i: nat, fail: bool, id: string)
    requires i < |s.reqs| && s.reqs[i].pc.Settle?
    ensures i < |MoveSettle(cfg, s, i, fail, id).reqs| && Charges(s, i, MoveSettle(cfg, s, i, fail, id))
  {
    hide MoveForward, Charges;
    match s.reqs[i].decision.action
    case Deny => SameSessionsCharge(s, i, MoveSettle(cfg, s, i, fail, id));
    case Escalate => SameSessionsCharge(s, i, MoveSettle(cfg, s, i, fail, id));
    case _ =>
      if s.reqs[i].auditFailed && cfg.strict {
        SameSessionsCharge(s, i, MoveSettle(cfg, s, i, fail, id));
      } else {
        ForwardCharges(s, i, fail);
      }
  }

  lemma TaintCharges(s: State, i: nat, fail: bool)
    requires i < |s.reqs| && s.reqs[i].pc.PersistTaint?
    ensures i < |MoveTaint(s, i, fail).reqs| && Charges(s, i, MoveTaint(s, i, fail))
  {
  }

  lemma CreateCharges(s: State, i: nat, fail: bool)
    requires i < |s.reqs| && s.reqs[i].pc.Create?
    ensures i < |MoveCreate(s, i, fail).reqs| && Charges(s, i, MoveCreate(s, i, fail))
  {
  }

  lemma MoveCharges(cfg: Config, s: State, i: nat, fail: bool, now: int, id: string)
    requires i < |s.reqs|
    ensures i < |Move(cfg, s, i, fail, now, id).reqs| && Charges(s, i, Move(cfg, s, i, fail, now, id))
  {
    hide MoveCreate, MoveTaint, MoveSettle, Charges;
    var s' := Move(cfg, s, i, fail, now, id);
    match s.reqs[i].pc
    case Create => CreateCharges(s, i, fail);
    case PersistTaint => TaintCharges(s, i, fail);
    case Settle => SettleCharges(cfg, s, i, fail, id);
    case _ => SameSessionsCharge(s, i, s');
  }

  /** The step's effect on the counters. */
  ghost predicate StepCharges(s: State, step: Step, s': State) {
    if step.Advance? && step.i < |s.reqs| && step.i < |s'.reqs| then Charges(s, step.i, s')
    else forall sid :: Calls(s'.db, sid) == Calls(s.db, sid)
  }

  lemma ApplyCharges(cfg: Config, s: State, step: Step)
    ensures StepCharges(s, step, Apply(cfg, s, step))
  {
    hide Move, Charges;
    if step.Advance? && step.i < |s.reqs| {
      MoveCharges(cfg, s, step.i, step.fail, step.now, step.id);
    }
  }

  // ---- conservation

  ghost predicate Balanced(s: State, sid: string) {
    && Count(s.db.events, ExecutedIn(sid)) == Calls(s.db, sid) + Count(s.reqs, Uncounted(sid))
    && Count(s.reqs, Counted(sid)) == Calls(s.db, sid)
  }

  lemma MovedBalanced(s: State, i: nat, s': State, sid: string)
    requires i < |s.reqs| && RequestOk(s.reqs[i]) && Moved(s, i, s') && Charges(s, i, s') && Balanced(s, sid)
    ensures Balanced(s', sid)
  {
    var r' := s'.reqs[i];
    CountUpdate(s.reqs, i, r', Uncounted(sid));
    CountUpdate(s.reqs, i, r', Counted(sid));
    if Records(s, i, s') {
      var row := s'.db.events[|s.db.events|];
      assert s'.db.events == s.db.events + [row];
      CountSnoc(s.db.events, row, ExecutedIn(sid));
    }
  }

  lemma AsideBalanced(s: State, step: Step, s': State, sid: string)
    requires AllOk(s) && Aside(s, step, s') && !step.Advance? && StepCharges(s, step, s') && Balanced(s, sid)
    ensures Balanced(s', sid)
  {
    if step.Arrive? {
      CountSnoc(s.reqs, NewRequest(step.call), Uncounted(sid));
      CountSnoc(s.reqs, NewRequest(step.call), Counted(sid));
    }
    if step.Crash? && s'.reqs != s.reqs {
      CountUpdate(s.reqs, step.i, s'.reqs[step.i], Uncounted(sid));
      CountUpdate(s.reqs, step.i, s'.reqs[step.i], Counted(sid));
    }
  }

  lemma {:induction false} AtBalanced(cfg: Config, pol: Policy, steps: seq<Step>, sid: string, n: nat)
    requires n <= |steps|
    ensures Sound(At(cfg, pol, steps, n)) && Balanced(At(cfg, pol, steps, n), sid)
  {
    AtSound(cfg, pol, steps, n);
    if n > 0 {
      hide Apply;
      AtBalanced(cfg, pol, steps, sid, n - 1);
      AtNext(cfg, pol, steps, n - 1);
      var s, step, s' := At(cfg, pol, steps, n - 1), steps[n - 1], At(cfg, pol, steps, n);
      StepFrame(cfg, s, step);
      ApplyCharges(cfg, s, step);
      if !step.Advance? {
        AsideBalanced(s, step, s', sid);
      } else if step.i < |s.reqs| {
        MovedBalanced(s, step.i, s', sid);
      }
    }
  }

  // ---- where the uncounted calls are

  function Ended(sid: string, o: Outcome): Request -> bool {
    (r: Request) => ExecutedRecord(r, sid) && r.pc == Done(o)
  }

  function InFlight(sid: string): Request -> bool {
    (r: Request) => ExecutedRecord(r, sid) && !r.pc.Done?
  }

  lemma {:induction false} UncountedSplits(reqs: seq<Request>, sid: string)
    requires forall i :: 0 <= i < |reqs| ==> RequestOk(reqs[i])
    ensures Count(reqs, Uncounted(sid)) ==
            Count(reqs, InFlight(sid)) + Count(reqs, Ended(sid, AuditRefused))
            + Count(reqs, Ended(sid, TaintWriteFailed))
            + Count(reqs, Ended(sid, Forwarded(false))) + Count(reqs, Ended(sid, Crashed))
  {
    if |reqs| != 0 {
      UncountedSplits(reqs[..|reqs| - 1], sid);
      assert RequestOk(reqs[|reqs| - 1]);
    }
  }

  /** Conservation. In every schedule, with store failures, audit-strict refusals and crashes, the
      executed events of a session are its counter plus the calls in flight after their event, refused
      by audit-strict, cut off by a failed taint write, forwarded without being counted, or crashed;
      and the counter is the number of calls forwarded and counted. */
  lemma ExecutedEventsAreConserved(cfg: Config, pol: Policy, steps: seq<Step>, sid: string)
    ensures var s := At(cfg, pol, steps, |steps|);
            && Count(s.db.events, ExecutedIn(sid)) ==
               Calls(s.db, sid) + Count(s.reqs, InFlight(sid)) + Count(s.reqs, Ended(sid, AuditRefused))
               + Count(s.reqs, Ended(sid, TaintWriteFailed)) + Count(s.reqs, Ended(sid, Forwarded(false)))
               + Count(s.reqs, Ended(sid, Crashed))
            && Calls(s.db, sid) == Count(s.reqs, Counted(sid))
  {
    AtBalanced(cfg, pol, steps, sid, |steps|);
    UncountedSplits(At(cfg, pol, steps, |steps|).reqs, sid);
  }
}
