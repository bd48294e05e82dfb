/** One handler running alone on the state machine (internal/proxy/proxy.go), with any of its store calls failing. */
module HandlerRuns {
  import opened Prelude
  import opened Policies
  import opened Database
  import opened Engine
  import opened Protocol

  /** Which of the store's calls fail during one handler; query(k) is about the query of pipeline stage k. */
  datatype Faults = Faults(
    load: bool, create: bool, query: nat -> bool, append: bool, audit: bool, taint: bool, settle: bool)

  function NoFaults(): Faults {
    Faults(false, false, (k: nat) => false, false, false, false, false)
  }

  /** What each pipeline stage sees of the store. */
  function StageViews(db: Db, f: Faults): nat -> Backend {
    (k: nat) => StoreBackend(db, f.query(k))
  }

  function FailAt(f: Faults, pc: Pc): bool {
    match pc
    case Load => f.load
    case Create => f.create
    case Evaluating(k) => f.query(k)
    case Append => f.append
    case Audit => f.audit
    case PersistTaint => f.taint
    case Settle => f.settle
    case _ => false
  }

  /** More steps than any handler takes. */
  const ENOUGH := 18

  /** Who runs, at which time, with which new escalation id, and what fails. */
  datatype Turn = Turn(k: nat, now: int, id: string, faults: Faults)

  /** Request k alone takes n steps of the machine. */
  function Drive(cfg: Config, s: State, n: nat, turn: Turn): State
    decreases n
  {
    if n == 0 || turn.k >= |s.reqs| then s
    else Drive(cfg, Move(cfg, s, turn.k, FailAt(turn.faults, s.reqs[turn.k].pc), turn.now, turn.id), n - 1, turn)
  }

  /** The steps that Drive takes. */
  function Steps(cfg: Config, s: State, n: nat, turn: Turn): seq<Step>
    decreases n
  {
    if n == 0 || turn.k >= |s.reqs| then []
    else
      var fail := FailAt(turn.faults, s.reqs[turn.k].pc);
      [Advance(turn.k, fail, turn.now, turn.id)]
      + Steps(cfg, Move(cfg, s, turn.k, fail, turn.now, turn.id), n - 1, turn)
  }

  lemma {:induction false} DriveIsARun(cfg: Config, s: State, n: nat, turn: Turn)
    ensures Run(cfg, s, Steps(cfg, s, n, turn)) == Drive(cfg, s, n, turn)
    decreases n
  {
    hide Move;
    if n > 0 && turn.k < |s.reqs| {
      var fail := FailAt(turn.faults, s.reqs[turn.k].pc);
      var step := Advance(turn.k, fail, turn.now, turn.id);
      var s' := Move(cfg, s, turn.k, fail, turn.now, turn.id);
      DriveIsARun(cfg, s', n - 1, turn);
      RunAppend(cfg, s, [step], Steps(cfg, s', n - 1, turn));
      assert [step][..0] == [];
      assert Run(cfg, s, [step]) == Apply(cfg, s, step);
    }
  }

  lemma Unfold(cfg: Config, s: State, n: nat, turn: Turn)
    requires n > 0 && turn.k < |s.reqs|
    ensures Drive(cfg, s, n, turn) ==
            Drive(cfg, Move(cfg, s, turn.k, FailAt(turn.faults, s.reqs[turn.k].pc), turn.now, turn.id), n - 1, turn)
  {
    hide Move, FailAt;
  }

  lemma {:induction false} DoneStays(cfg: Config, s: State, n: nat, turn: Turn)
    requires turn.k < |s.reqs| && s.reqs[turn.k].pc.Done?
    ensures Drive(cfg, s, n, turn) == s
    decreases n
  {
    hide MoveLoad, MoveCreate, MoveResolve, MoveAppend, MoveAudit, MoveTaint, MoveSettle, EvalOne;
    if n > 0 {
      DoneStays(cfg, s, n - 1, turn);
    }
  }

  /** Request k once the pipeline has decided. */
  function DecidedAs(s: State, k: nat, pol: Policy, d: Decision): State
    requires k < |s.reqs|
  {
    var r := s.reqs[k];
    Put(s, k, r.(pc := Append, decision := d,
                 tainted := if d.action == Allow then TaintAfter(r.sess.tainted, pol, r.call.tool) else r.sess.tainted))
  }

  lemma OneStageOn(cfg: Config, s: State, k: nat, pol: Policy, j: nat, views: nat -> Backend)
    requires k < |s.reqs| && j < |Live()| && s.reqs[k].pc == Evaluating(j) && s.reqs[k].pol == Some(pol)
    requires s.reqs[k].tainted == s.reqs[k].sess.tainted
    ensures var r := s.reqs[k];
            var d := PipelineOn(Live()[j..], j, cfg.lib, views, r.call, r.sess, pol);
            var r' := EvalOne(cfg.lib, views(j), r, j);
            if r'.pc.Append? then Put(s, k, r') == DecidedAs(s, k, pol, d)
            else j + 1 < |Live()| && r' == r.(pc := Evaluating(j + 1))
                 && d == PipelineOn(Live()[j + 1..], j + 1, cfg.lib, views, r.call, r.sess, pol)
  {
    hide EvalStage, TaintAfter, EffectiveMode;
    assert Live()[j..][0] == Live()[j] && Live()[j..][1..] == Live()[j + 1..];
  }

  lemma AtEvaluating(cfg: Config, s: State, n: nat, turn: Turn)
    requires n > 0 && turn.k < |s.reqs| && s.reqs[turn.k].pc.Evaluating? && s.reqs[turn.k].pc.k < |Live()|
        && s.reqs[turn.k].pol.Some?
    ensures var r := s.reqs[turn.k];
            Drive(cfg, s, n, turn)
            == Drive(cfg, Put(s, turn.k, EvalOne(cfg.lib, StoreBackend(s.db, turn.faults.query(r.pc.k)), r, r.pc.k)),
                n - 1, turn)
  {
    hide EvalOne, Drive;
    Unfold(cfg, s, n, turn);
  }

  /** The machine's stage-by-stage evaluation decides as the pipeline does in one go. */
  lemma {:induction false} EvaluationRuns(cfg: Config, s: State, n: nat, turn: Turn, pol: Policy, j: nat)
      returns (n': nat)
    requires turn.k < |s.reqs| && j < |Live()| && s.reqs[turn.k].pc == Evaluating(j) && s.reqs[turn.k].pol == Some(pol)
    requires s.reqs[turn.k].tainted == s.reqs[turn.k].sess.tainted
    requires n >= |Live()| - j + 4
    ensures var r := s.reqs[turn.k];
            var d := PipelineOn(Live()[j..], j, cfg.lib, StageViews(s.db, turn.faults), r.call, r.sess, pol);
            n' >= 4 && Drive(cfg, s, n, turn) == Drive(cfg, DecidedAs(s, turn.k, pol, d), n', turn)
    decreases n
  {
    hide Drive, Move, PipelineOn, EvalOne, TaintAfter, Live, DecidedAs;
    var k := turn.k;
    var r, views := s.reqs[k], StageViews(s.db, turn.faults);
    AtEvaluating(cfg, s, n, turn);
    OneStageOn(cfg, s, k, pol, j, views);
    var s' := Put(s, k, EvalOne(cfg.lib, views(j), r, j));
    n' := n - 1;
    if !s'.reqs[k].pc.Append? {
      n' := EvaluationRuns(cfg, s', n - 1, turn, pol, j + 1);
      DecidedAlike(s, k, s'.reqs[k], pol, PipelineOn(Live()[j + 1..], j + 1, cfg.lib, views, r.call, r.sess, pol));
    }
  }

  lemma DecidedAlike(s: State, k: nat, r': Request, pol: Policy, d: Decision)
    requires k < |s.reqs| && r' == s.reqs[k].(pc := r'.pc)
    ensures DecidedAs(Put(s, k, r'), k, pol, d) == DecidedAs(s, k, pol, d)
  {
    hide TaintAfter;
  }

  // ---- one step at each point of the handler

  lemma AtLoad(cfg: Config, s: State, n: nat, turn: Turn)
    requires n > 0 && turn.k < |s.reqs| && s.reqs[turn.k].pc.Load?
    ensures Drive(cfg, s, n, turn) == Drive(cfg, MoveLoad(s, turn.k, turn.faults.load), n - 1, turn)
  {
    hide MoveLoad, Drive;
    Unfold(cfg, s, n, turn);
  }

  lemma AtBind(cfg: Config, s: State, n: nat, turn: Turn)
    requires n > 0 && turn.k < |s.reqs| && s.reqs[turn.k].pc.Bind?
    ensures var r := s.reqs[turn.k];
            Drive(cfg, s, n, turn)
            == Drive(cfg, Put(s, turn.k, r.(pc := Create, sess := NewSession(r.call.agent, s.live.fingerprint))),
                n - 1, turn)
  {
    hide Drive;
    Unfold(cfg, s, n, turn);
  }

  lemma AtCreate(cfg: Config, s: State, n: nat, turn: Turn)
    requires n > 0 && turn.k < |s.reqs| && s.reqs[turn.k].pc.Create?
    ensures Drive(cfg, s, n, turn) == Drive(cfg, MoveCreate(s, turn.k, turn.faults.create), n - 1, turn)
  {
    hide MoveCreate, Drive;
    Unfold(cfg, s, n, turn);
  }

  lemma AtResolve(cfg: Config, s: State, n: nat, turn: Turn)
    requires n > 0 && turn.k < |s.reqs| && s.reqs[turn.k].pc.Resolve?
    ensures Drive(cfg, s, n, turn) == Drive(cfg, MoveResolve(s, turn.k), n - 1, turn)
  {
    hide MoveResolve, Drive;
    Unfold(cfg, s, n, turn);
  }

  lemma AtFallback(cfg: Config, s: State, n: nat, turn: Turn)
    requires n > 0 && turn.k < |s.reqs| && s.reqs[turn.k].pc.Fallback?
    ensures Drive(cfg, s, n, turn) == Drive(cfg, Put(s, turn.k, Admit(s.reqs[turn.k], s.live)), n - 1, turn)
  {
    hide Admit, Drive;
    Unfold(cfg, s, n, turn);
  }

  lemma AtAppend(cfg: Config, s: State, n: nat, turn: Turn)
    requires n > 0 && turn.k < |s.reqs| && s.reqs[turn.k].pc.Append?
    ensures Drive(cfg, s, n, turn) == Drive(cfg, MoveAppend(s, turn.k, turn.faults.append, turn.now), n - 1, turn)
  {
    hide MoveAppend, Drive;
    Unfold(cfg, s, n, turn);
  }

  lemma AtAudit(cfg: Config, s: State, n: nat, turn: Turn)
    requires n > 0 && turn.k < |s.reqs| && s.reqs[turn.k].pc.Audit? && s.reqs[turn.k].pol.Some?
    ensures Drive(cfg, s, n, turn) == Drive(cfg, MoveAudit(cfg, s, turn.k, turn.faults.audit, turn.now), n - 1, turn)
  {
    hide MoveAudit, Drive;
    Unfold(cfg, s, n, turn);
  }

  lemma AtPersistTaint(cfg: Config, s: State, n: nat, turn: Turn)
    requires n > 0 && turn.k < |s.reqs| && s.reqs[turn.k].pc.PersistTaint?
    ensures Drive(cfg, s, n, turn) == Drive(cfg, MoveTaint(s, turn.k, turn.faults.taint), n - 1, turn)
  {
    hide MoveTaint, Drive;
    Unfold(cfg, s, n, turn);
  }

  lemma AtSettle(cfg: Config, s: State, n: nat, turn: Turn)
    requires n > 0 && turn.k < |s.reqs| && s.reqs[turn.k].pc.Settle?
    ensures Drive(cfg, s, n, turn) == Drive(cfg, MoveSettle(cfg, s, turn.k, turn.faults.settle, turn.id), n - 1, turn)
  {
    hide MoveSettle, Drive;
    Unfold(cfg, s, n, turn);
  }
}
