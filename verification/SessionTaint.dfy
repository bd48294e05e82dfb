/** The taint flag of one session whose calls do not overlap, while all other sessions interleave freely. */
module SessionTaint {
  import opened Prelude
  import opened Policies
  import opened Database
  import opened Engine
  import opened Recency
  import opened Protocol
  import opened Frame
  import opened Recording
  import opened TaintRuns

  /** The handler holds a snapshot of the session and has not written its event. */
  predicate Working(pc: Pc) {
    pc.Resolve? || pc.Fallback? || pc.Evaluating? || pc.Append?
  }

  /** The event is written, and the flag is not yet. */
  predicate Unsaved(pc: Pc) {
    pc.Audit? || pc.PersistTaint?
  }

  function Busy(sid: string): Request -> bool {
    (r: Request) => r.call.session == sid && (Working(r.pc) || Unsaved(r.pc))
  }

  /** The stored flag; a session without a row is not tainted. */
  predicate Flag(db: Db, sid: string) {
    sid in db.sessions && db.sessions[sid].tainted
  }

  // ---- what a step does to flags and snapshots

  /** A move writes the session's flag exactly when it persists a changed one, and loads it as it is. */
  ghost predicate OwnFlag(r: Request, r': Request, db: Db, db': Db) {
    var sid := r.call.session;
    && (Flag(db', sid) <==>
          if r.pc.PersistTaint? && r'.pc.Settle? && r.tainted != r.sess.tainted then r.tainted else Flag(db, sid))
    && (Working(r.pc) && (Working(r'.pc) || Unsaved(r'.pc)) ==> r'.sess == r.sess)
    && (Unsaved(r.pc) && Unsaved(r'.pc) ==> r'.sess == r.sess && r'.tainted == r.tainted)
    && (!Working(r.pc) && Working(r'.pc) && !r.pc.Create? ==> sid in db.sessions && r'.sess.tainted == Flag(db, sid))
    && (r.pc.Create? && Working(r'.pc) ==> sid !in db.sessions && r'.sess == r.sess)
    && (r'.pc.Create? && !r.pc.Create? ==> !r'.sess.tainted)
    && (r'.pc.Create? && r.pc.Create? ==> r'.sess == r.sess)
    && (Unsaved(r'.pc) && !Unsaved(r.pc) ==> r.pc.Append?)
    && (Working(r'.pc) ==> sid in db'.sessions || Working(r.pc))
  }

  /** Request i's move, which touches no other session's flag. */
  ghost predicate FlagMoves(s: State, i: nat, s': State)
    requires i < |s.reqs|
  {
    && i < |s'.reqs| && OwnFlag(s.reqs[i], s'.reqs[i], s.db, s'.db)
    && forall sid :: sid != s.reqs[i].call.session ==> (Flag(s'.db, sid) <==> Flag(s.db, sid))
  }

  lemma LoadFlags(s: State, i: nat, fail: bool)
    requires i < |s.reqs| && s.reqs[i].pc.Load?
    ensures FlagMoves(s, i, MoveLoad(s, i, fail))
  {
  }

  lemma CreateFlags(s: State, i: nat, fail: bool)
    requires i < |s.reqs| && s.reqs[i].pc.Create?
    ensures FlagMoves(s, i, MoveCreate(s, i, fail))
  {
  }

  lemma ResolveFlags(s: State, i: nat)
    requires i < |s.reqs| && s.reqs[i].pc.Resolve?
    ensures FlagMoves(s, i, MoveResolve(s, i))
  {
    hide AfterGet, Lookup;
  }

  lemma AppendFlags(s: State, i: nat, fail: bool, now: int)
    requires i < |s.reqs| && s.reqs[i].pc.Append?
    ensures FlagMoves(s, i, MoveAppend(s, i, fail, now))
  {
    hide MaxSeq;
  }

  lemma AuditFlags(cfg: Config, s: State, i: nat, fail: bool, now: int)
    requires i < |s.reqs| && s.reqs[i].pc.Audit? && s.reqs[i].pol.Some?
    ensures FlagMoves(s, i, MoveAudit(cfg, s, i, fail, now))
  {
  }

  lemma TaintFlags(s: State, i: nat, fail: bool)
    requires i < |s.reqs| && s.reqs[i].pc.PersistTaint?
    ensures FlagMoves(s, i, MoveTaint(s, i, fail))
  {
  }

  lemma EndFlags(s: State, i: nat, s': State)
    requires i < |s.reqs| && s.reqs[i].pc.Settle? && i < |s'.reqs| && s'.reqs[i].pc.Done?
    requires forall sid :: Flag(s'.db, sid) <==> Flag(s.db, sid)
    ensures FlagMoves(s, i, s')
  {
  }

  lemma SettleFlags(cfg: Config, s: State, i: nat, fail: bool, id: string)
    requires i < |s.reqs| && s.reqs[i].pc.Settle?
    ensures FlagMoves(s, i, MoveSettle(cfg, s, i, fail, id))
  {
    hide FlagMoves, MoveEscalate, MoveForward;
    EscalateKeepsFlags(s, i, fail, id);
    ForwardKeepsFlags(s, i, fail);
    EndFlags(s, i, MoveSettle(cfg, s, i, fail, id));
  }

  lemma EscalateKeepsFlags(s: State, i: nat, fail: bool, id: string)
    requires i < |s.reqs|
    ensures var s' := MoveEscalate(s, i, fail, id);
            i < |s'.reqs| && s'.reqs[i].pc.Done? && s'.db.sessions == s.db.sessions
  {
  }

  lemma ForwardKeepsFlags(s: State, i: nat, fail: bool)
    requires i < |s.reqs|
    ensures var s' := MoveForward(s, i, fail);
            i < |s'.reqs| && s'.reqs[i].pc.Done? && forall sid :: Flag(s'.db, sid) <==> Flag(s.db, sid)
  {
  }

  lemma MoveFlags(cfg: Config, s: State, i: nat, fail: bool, now: int, id: string)
    requires i < |s.reqs| && RequestOk(s.reqs[i])
    ensures FlagMoves(s, i, Move(cfg, s, i, fail, now, id))
  {
    hide MoveLoad, MoveCreate, MoveResolve, MoveAppend, MoveAudit, MoveTaint, MoveSettle, EvalStage, TaintAfter;
    match s.reqs[i].pc
    case Load => LoadFlags(s, i, fail);
    case Create => CreateFlags(s, i, fail);
    case Resolve => ResolveFlags(s, i);
    case Append => AppendFlags(s, i, fail, now);
    case Audit => AuditFlags(cfg, s, i, fail, now);
    case PersistTaint => TaintFlags(s, i, fail);
    case Settle => SettleFlags(cfg, s, i, fail, id);
    case _ =>
  }

  /** Any other step leaves all flags. */
  ghost predicate StepFlags(s: State, step: Step, s': State) {
    if step.Advance? && step.i < |s.reqs| then FlagMoves(s, step.i, s')
    else forall sid :: Flag(s'.db, sid) <==> Flag(s.db, sid)
  }

  lemma ApplyFlags(cfg: Config, s: State, step: Step)
    requires AllOk(s)
    ensures StepFlags(s, step, Apply(cfg, s, step))
  {
    hide Move, FlagMoves, RequestOk;
    if step.Advance? && step.i < |s.reqs| {
      MoveFlags(cfg, s, step.i, step.fail, step.now, step.id);
    }
  }

  // ---- the invariant

  ghost predicate SnapshotOk(r: Request, db: Db, told: bool) {
    && (r.pc.Create? ==> !r.sess.tainted)
    && (Working(r.pc) || Unsaved(r.pc) ==>
          r.call.session in db.sessions && r.sess.tainted == Flag(db, r.call.session))
    && (Unsaved(r.pc) ==> r.tainted == told)
  }

  /** Snapshots of the session are current; while no flag is waiting to be written, the stored one is what the
      rows tell. */
  ghost predicate TaintTold(used: Policy, s: State, sid: string) {
    var told := TaintedBy(used, s.db.events, sid);
    && (forall i :: 0 <= i < |s.reqs| && s.reqs[i].call.session == sid ==> SnapshotOk(s.reqs[i], s.db, told))
    && (NoneUnsaved(s, sid) ==> (Flag(s.db, sid) <==> told))
  }

  ghost predicate NoneUnsaved(s: State, sid: string) {
    forall i :: 0 <= i < |s.reqs| && s.reqs[i].call.session == sid ==> !Unsaved(s.reqs[i].pc)
  }

  /** No request of the session ends between its event and the write of a changed flag. */
  ghost predicate NothingLost(s: State, s': State, sid: string) {
    forall i :: 0 <= i < |s.reqs| && i < |s'.reqs| && s.reqs[i].call.session == sid && Unsaved(s.reqs[i].pc) ==>
      s.reqs[i].tainted == s.reqs[i].sess.tainted || !s'.reqs[i].pc.Done?
  }

  lemma OthersIdle(reqs: seq<Request>, sid: string, i: nat)
    requires i < |reqs| && Busy(sid)(reqs[i]) && Count(reqs, Busy(sid)) <= 1
    ensures forall j :: 0 <= j < |reqs| && j != i ==> !Busy(sid)(reqs[j])
  {
    forall j | 0 <= j < |reqs| && j != i
      ensures !Busy(sid)(reqs[j])
    {
      if Busy(sid)(reqs[j]) {
        CountTwo(reqs, if i < j then i else j, if i < j then j else i, Busy(sid));
      }
    }
  }

  /** A move of another session's request. */
  lemma OtherMovedTaint(used: Policy, s: State, i: nat, s': State, sid: string)
    requires i < |s.reqs| && s.reqs[i].call.session != sid && Moved(s, i, s') && FlagMoves(s, i, s')
        && TaintTold(used, s, sid)
    ensures TaintTold(used, s', sid)
  {
    hide TaintedBy, RequestOk, Flow;
    assert forall j :: 0 <= j < |s.reqs| && s.reqs[j].call.session == sid ==> s'.reqs[j] == s.reqs[j];
    assert s'.reqs[i].call == s.reqs[i].call;
    if Records(s, i, s') {
      var row := s'.db.events[|s.db.events|];
      assert s'.db.events == s.db.events + [row] && row.session != sid;
      RowTaints(used, s.db.events, row, sid);
    }
  }

  /** Request i, of the session, has just written its event. */
  predicate JustRecorded(r: Request, r': Request) {
    !Unsaved(r.pc) && Unsaved(r'.pc)
  }

  /** The rows after request i's move, if it is of the session. */
  lemma OwnRow(used: Policy, s: State, i: nat, s': State, sid: string)
    requires i < |s.reqs| && s.reqs[i].call.session == sid && RequestOk(s.reqs[i]) && Moved(s, i, s')
    requires s.reqs[i].pol.Some? ==> s.reqs[i].pol.value == used
    requires s.reqs[i].pc.Append? ==> s.reqs[i].sess.tainted == TaintedBy(used, s.db.events, sid)
    ensures JustRecorded(s.reqs[i], s'.reqs[i]) ==>
      s'.reqs[i].sess == s.reqs[i].sess && s'.reqs[i].tainted == TaintedBy(used, s'.db.events, sid)
    ensures JustRecorded(s.reqs[i], s'.reqs[i]) || s'.db.events == s.db.events
  {
    hide TaintedBy, TaintAfter;
    if Records(s, i, s') {
      var row := s'.db.events[|s.db.events|];
      assert s'.db.events == s.db.events + [row];
      RowTaints(used, s.db.events, row, sid);
    }
  }

  /** The moved request's own snapshot, and what its move means for the stored flag. */
  lemma OwnSnapshot(r: Request, r': Request, db: Db, db': Db, told: bool, told': bool)
    requires r'.call == r.call && SnapshotOk(r, db, told)
    requires r.call.session in db.sessions ==> r.call.session in db'.sessions
    requires Working(r.pc) ==> Flag(db, r.call.session) == told
    requires OwnFlag(r, r', db, db')
    requires if JustRecorded(r, r') then r'.tainted == told' && r'.sess == r.sess else told' == told
    ensures SnapshotOk(r', db', told')
  {
  }

  lemma OwnMovedTaint(used: Policy, s: State, i: nat, s': State, sid: string)
    requires i < |s.reqs| && s.reqs[i].call.session == sid && RequestOk(s.reqs[i]) && Moved(s, i, s')
        && FlagMoves(s, i, s')
    requires TaintTold(used, s, sid) && NothingLost(s, s', sid)
    requires Count(s.reqs, Busy(sid)) <= 1 && Count(s'.reqs, Busy(sid)) <= 1
    requires s.reqs[i].pol.Some? ==> s.reqs[i].pol.value == used
    ensures TaintTold(used, s', sid)
  {
    hide TaintedBy, Records, TaintAfter, RequestOk, Flow, OwnFlag, SnapshotOk, Busy;
    var r, r' := s.reqs[i], s'.reqs[i];
    var told, told' := TaintedBy(used, s.db.events, sid), TaintedBy(used, s'.db.events, sid);
    BusyMeans(sid);
    if Busy(sid)(r) {
      OthersIdle(s.reqs, sid, i);
    }
    if Busy(sid)(r') {
      OthersIdle(s'.reqs, sid, i);
    }
    FlagWasTold(used, s, i, sid);
    OwnRow(used, s, i, s', sid);
    OwnSnapshot(r, r', s.db, s'.db, told, told');
    forall j | 0 <= j < |s'.reqs| && j != i && s'.reqs[j].call.session == sid
      ensures SnapshotOk(s'.reqs[j], s'.db, told')
    {
      assert s'.reqs[j] == s.reqs[j];
      OtherSnapshot(s, i, s', j, sid, told, told');
    }
    FlagIsTold(used, s, i, s', sid);
  }

  lemma BusyMeans(sid: string)
    ensures forall r :: Busy(sid)(r) <==> r.call.session == sid && (Working(r.pc) || Unsaved(r.pc))
  {
  }

  /** A request at work knows that no flag is waiting to be written. */
  lemma FlagWasTold(used: Policy, s: State, i: nat, sid: string)
    requires i < |s.reqs| && s.reqs[i].call.session == sid && TaintTold(used, s, sid)
    requires Busy(sid)(s.reqs[i]) ==> forall j :: 0 <= j < |s.reqs| && j != i ==> !Busy(sid)(s.reqs[j])
    ensures Working(s.reqs[i].pc) ==> Flag(s.db, sid) == TaintedBy(used, s.db.events, sid) == s.reqs[i].sess.tainted
  {
    hide TaintedBy;
  }

  lemma OtherSnapshot(s: State, i: nat, s': State, j: nat, sid: string, told: bool, told': bool)
    requires i < |s.reqs| && j < |s.reqs| && |s'.reqs| == |s.reqs| && i != j && s'.reqs[j] == s.reqs[j]
    requires s.reqs[i].call.session == s.reqs[j].call.session == s'.reqs[i].call.session == sid
    requires SnapshotOk(s.reqs[j], s.db, told) && FlagMoves(s, i, s') && s.db.sessions.Keys <= s'.db.sessions.Keys
    requires JustRecorded(s.reqs[i], s'.reqs[i]) || told' == told
    requires Busy(sid)(s.reqs[i]) || Busy(sid)(s'.reqs[i]) ==> !Busy(sid)(s.reqs[j])
    ensures SnapshotOk(s'.reqs[j], s'.db, told')
  {
  }

  lemma FlagIsTold(used: Policy, s: State, i: nat, s': State, sid: string)
    requires i < |s.reqs| && |s'.reqs| == |s.reqs| && s'.reqs == s.reqs[i := s'.reqs[i]]
        && s.reqs[i].call.session == sid
    requires FlagMoves(s, i, s') && TaintTold(used, s, sid) && NothingLost(s, s', sid)
    requires Flow(s.reqs[i].pc, s'.reqs[i].pc) || s'.reqs[i].pc.Done?
    requires JustRecorded(s.reqs[i], s'.reqs[i]) || s'.db.events == s.db.events
    requires Busy(sid)(s.reqs[i]) ==> forall j :: 0 <= j < |s.reqs| && j != i ==> !Busy(sid)(s.reqs[j])
    requires s'.reqs[i].call == s.reqs[i].call
    ensures NoneUnsaved(s', sid) ==> (Flag(s'.db, sid) <==> TaintedBy(used, s'.db.events, sid))
  {
    hide TaintedBy;
    if NoneUnsaved(s', sid) {
      assert !Unsaved(s'.reqs[i].pc);
      if !Unsaved(s.reqs[i].pc) {
        assert forall j :: 0 <= j < |s.reqs| && j != i ==> s'.reqs[j] == s.reqs[j];
        assert NoneUnsaved(s, sid);
      }
    }
  }

  lemma AsideTaint(used: Policy, s: State, step: Step, s': State, sid: string)
    requires Aside(s, step, s') && !step.Advance? && StepFlags(s, step, s') && TaintTold(used, s, sid)
        && NothingLost(s, s', sid)
    ensures TaintTold(used, s', sid)
  {
    hide TaintedBy;
    if NoneUnsaved(s', sid) && step.Crash? && s'.reqs != s.reqs {
      assert forall j :: 0 <= j < |s.reqs| && j != step.i ==> s'.reqs[j] == s.reqs[j];
      if !Unsaved(s.reqs[step.i].pc) || s.reqs[step.i].call.session != sid {
        assert NoneUnsaved(s, sid);
      }
    }
  }

  lemma StepTaint(cfg: Config, used: Policy, s: State, step: Step, sid: string)
    requires AllOk(s) && TaintTold(used, s, sid) && NothingLost(s, Apply(cfg, s, step), sid)
    requires Count(s.reqs, Busy(sid)) <= 1 && Count(Apply(cfg, s, step).reqs, Busy(sid)) <= 1
    requires forall i :: 0 <= i < |s.reqs| && s.reqs[i].call.session == sid && s.reqs[i].pol.Some? ==>
        s.reqs[i].pol.value == used
    ensures TaintTold(used, Apply(cfg, s, step), sid)
  {
    hide Apply, RequestOk, TaintTold, NothingLost, Moved, Aside, FlagMoves, Busy;
    var s' := Apply(cfg, s, step);
    StepFrame(cfg, s, step);
    ApplyFlags(cfg, s, step);
    if !step.Advance? {
      AsideTaint(used, s, step, s', sid);
    } else if step.i < |s.reqs| {
      if s.reqs[step.i].call.session == sid {
        OwnMovedTaint(used, s, step.i, s', sid);
      } else {
        OtherMovedTaint(used, s, step.i, s', sid);
      }
    }
  }

  /** The session's calls do not overlap between loading it and writing its flag, each of them is evaluated
      under `used`, and none of them ends between its event and the write of a changed flag. Everything else
      is arbitrary. */
  ghost predicate Undisturbed(cfg: Config, pol: Policy, steps: seq<Step>, sid: string, used: Policy) {
    && (forall n :: 0 <= n <= |steps| ==>
          var s := At(cfg, pol, steps, n);
          && Count(s.reqs, Busy(sid)) <= 1
          && forall i :: 0 <= i < |s.reqs| && s.reqs[i].call.session == sid && s.reqs[i].pol.Some? ==>
              s.reqs[i].pol.value == used)
    && forall n :: 0 <= n < |steps| ==> NothingLost(At(cfg, pol, steps, n), At(cfg, pol, steps, n + 1), sid)
  }

  lemma StartsTold(pol: Policy, used: Policy, sid: string)
    ensures TaintTold(used, Initial(pol), sid)
  {
  }

  lemma {:induction false} AtTold(cfg: Config, pol: Policy, steps: seq<Step>, sid: string, used: Policy, n: nat)
    requires n <= |steps| && Undisturbed(cfg, pol, steps, sid, used)
    ensures TaintTold(used, At(cfg, pol, steps, n), sid)
  {
    hide Apply, At, Run, TaintTold, NothingLost, RequestOk, Busy;
    AtStart(cfg, pol, steps);
    StartsTold(pol, used, sid);
    if n > 0 {
      AtTold(cfg, pol, steps, sid, used, n - 1);
      AtSound(cfg, pol, steps, n - 1);
      AtNext(cfg, pol, steps, n - 1);
      StepTaint(cfg, used, At(cfg, pol, steps, n - 1), steps[n - 1], sid);
    }
  }

  /** Taint as a fold, for one session in any schedule. If the session's calls do not overlap and no changed
      flag is lost, the stored flag is set exactly when some permitted event of an applying tool has no later
      permitted event of a tool that clears without applying; while a call stands between its event and the
      write of the flag, this holds of the flag it is about to write. Other sessions' calls, operators,
      reloads, terminations and failures interleave freely. */
  lemma TaintFoldOfASession(cfg: Config, pol: Policy, steps: seq<Step>, sid: string, used: Policy)
    requires Undisturbed(cfg, pol, steps, sid, used)
    ensures var s := At(cfg, pol, steps, |steps|);
            && (NoneUnsaved(s, sid) ==> (Flag(s.db, sid) <==> TaintedBy(used, s.db.events, sid)))
            && forall i :: 0 <= i < |s.reqs| && s.reqs[i].call.session == sid && Unsaved(s.reqs[i].pc) ==>
                 (s.reqs[i].tainted <==> TaintedBy(used, s.db.events, sid))
  {
    hide At, TaintedBy, Undisturbed;
    AtTold(cfg, pol, steps, sid, used, |steps|);
  }

  /** In such a schedule the taint stage is redundant under an aligned policy at every step of every call of
      the session: whenever it would refuse, the sequence stage, on the store as it is then, refuses too. */
  lemma TaintStageOfASession(cfg: Config, pol: Policy, steps: seq<Step>, sid: string, used: Policy, n: nat, i: nat)
    requires Undisturbed(cfg, pol, steps, sid, used) && Aligned(used) && n <= |steps|
    requires var s := At(cfg, pol, steps, n);
             i < |s.reqs| && s.reqs[i].call.session == sid && s.reqs[i].pc.Evaluating?
    ensures var s := At(cfg, pol, steps, n);
            EvalTaint(s.reqs[i].call, s.reqs[i].sess, used).action != Allow ==>
              EvalSequence(StoreBackend(s.db, false), s.reqs[i].call, used).Ok?
              && EvalSequence(StoreBackend(s.db, false), s.reqs[i].call, used).value.action == Deny
  {
    hide At, TaintedBy, Aligned, EvalTaint, EvalSequence, Busy;
    var s := At(cfg, pol, steps, n);
    AtTold(cfg, pol, steps, sid, used, n);
    BusyMeans(sid);
    OthersIdle(s.reqs, sid, i);
    FlagWasTold(used, s, i, sid);
    if EvalTaint(s.reqs[i].call, s.reqs[i].sess, used).action != Allow {
      TaintStageImpliesSequence(used, s.db, s.reqs[i].call, s.reqs[i].sess);
    }
  }
}
