/** The call budget under concurrency (internal/engine/budget.go): a bounded overshoot, exact one at a time. */
module BudgetBound {
  import opened Prelude
  import opened Policies
  import opened Database
  import opened Engine
  import opened Recency
  import opened Protocol
  import opened Frame
  import opened Recording
  import opened Conservation

  const BUDGET_STAGE := 3

  /** The handler holds a snapshot of the session that it may yet charge. */
  predicate HasSnapshot(pc: Pc) {
    || pc.Resolve? || pc.Fallback? || pc.Evaluating? || pc.Append? || pc.Audit? || pc.PersistTaint? || pc.Settle?
  }

  function Holding(sid: string): Request -> bool {
    (r: Request) => r.call.session == sid && HasSnapshot(r.pc)
  }

  /** Holding a snapshot that is still below the limit. */
  function Low(sid: string, limit: nat): Request -> bool {
    (r: Request) => r.call.session == sid && HasSnapshot(r.pc) && r.sess.calls < limit
  }

  predicate PassedBudget(r: Request) {
    (r.pc.Evaluating? && r.pc.k > BUDGET_STAGE) || (Decided(r) && r.decision.action == Allow)
  }

  // ---- the cost is the calls

  /** The stored cost, and every snapshot's, is the flat price of the counted calls. */
  ghost predicate Priced(s: State) {
    && (forall sid :: sid in s.db.sessions ==> s.db.sessions[sid].cost == COST_PER_CALL * s.db.sessions[sid].calls)
    && forall i :: 0 <= i < |s.reqs| ==> s.reqs[i].sess.cost == COST_PER_CALL * s.reqs[i].sess.calls
  }

  /** Request i's move keeps the prices. */
  ghost predicate PricesKept(s: State, i: nat, s': State)
    requires i < |s.reqs|
  {
    && i < |s'.reqs|
        && (s'.reqs[i].sess == s.reqs[i].sess || s'.reqs[i].sess.cost == COST_PER_CALL * s'.reqs[i].sess.calls)
    && forall sid :: sid in s'.db.sessions ==> s'.db.sessions[sid].cost == COST_PER_CALL * s'.db.sessions[sid].calls
  }

  lemma ForwardPrices(s: State, i: nat, fail: bool)
    requires i < |s.reqs| && Priced(s)
    ensures PricesKept(s, i, MoveForward(s, i, fail))
  {
  }

  lemma TaintPrices(s: State, i: nat, fail: bool)
    requires i < |s.reqs| && Priced(s)
    ensures PricesKept(s, i, MoveTaint(s, i, fail))
  {
  }

  lemma CreatePrices(s: State, i: nat, fail: bool)
    requires i < |s.reqs| && Priced(s)
    ensures PricesKept(s, i, MoveCreate(s, i, fail))
  {
  }

  lemma SettlePrices(cfg: Config, s: State, i: nat, fail: bool, id: string)
    requires i < |s.reqs| && Priced(s)
    ensures PricesKept(s, i, MoveSettle(cfg, s, i, fail, id))
  {
    hide MoveForward;
    ForwardPrices(s, i, fail);
  }

  lemma OpeningPrices(cfg: Config, s: State, i: nat, fail: bool, now: int, id: string)
    requires i < |s.reqs| && Priced(s) && Opening(s.reqs[i].pc)
    ensures PricesKept(s, i, Move(cfg, s, i, fail, now, id))
  {
    hide MoveCreate, MoveAppend, MoveAudit, MoveTaint, MoveSettle, EvalOne, AfterGet, Lookup;
    if s.reqs[i].pc.Create? {
      CreatePrices(s, i, fail);
    }
  }

  lemma MovePrices(cfg: Config, s: State, i: nat, fail: bool, now: int, id: string)
    requires i < |s.reqs| && Priced(s)
    ensures PricesKept(s, i, Move(cfg, s, i, fail, now, id))
  {
    hide MoveLoad, MoveCreate, MoveResolve, MoveTaint, MoveSettle, MaxSeq, TaintAfter, EvalStage;
    match s.reqs[i].pc
    case PersistTaint => TaintPrices(s, i, fail);
    case Settle => SettlePrices(cfg, s, i, fail, id);
    case _ =>
      if Opening(s.reqs[i].pc) {
        OpeningPrices(cfg, s, i, fail, now, id);
      }
  }

  lemma StepPriced(cfg: Config, s: State, step: Step)
    requires AllOk(s) && Priced(s)
    ensures Priced(Apply(cfg, s, step))
  {
    hide Move, RequestOk, Keeps, Flow, Records, AfterSet;
    StepFrame(cfg, s, step);
    if step.Advance? && step.i < |s.reqs| {
      MovePrices(cfg, s, step.i, step.fail, step.now, step.id);
    }
  }

  lemma StartsPriced(pol: Policy)
    ensures Priced(Initial(pol))
  {
  }

  /** In every schedule the estimated cost is the flat price times the counted calls. */
  lemma {:induction false} CostFollowsCalls(cfg: Config, pol: Policy, steps: seq<Step>, n: nat)
    requires n <= |steps|
    ensures Priced(At(cfg, pol, steps, n))
  {
    hide Apply, At, Run, Priced, RequestOk, Wrote;
    AtStart(cfg, pol, steps);
    StartsPriced(pol);
    if n > 0 {
      CostFollowsCalls(cfg, pol, steps, n - 1);
      AtSound(cfg, pol, steps, n - 1);
      AtNext(cfg, pol, steps, n - 1);
      StepPriced(cfg, At(cfg, pol, steps, n - 1), steps[n - 1]);
    }
  }

  // ---- the bound

  /** The policy's call limit, or its cost limit counted in calls, is this limit. */
  predicate CapsAt(pol: Policy, limit: nat) {
    pol.budget.maxCalls == limit || pol.budget.maxCost == COST_PER_CALL * limit
  }

  /** Every policy the session's calls are evaluated under has this limit and blocks the called tool. */
  ghost predicate Capped(s: State, sid: string, limit: nat) {
    forall i :: 0 <= i < |s.reqs| && s.reqs[i].call.session == sid && s.reqs[i].pol.Some? ==>
      CapsAt(s.reqs[i].pol.value, limit) && Blocks(s.reqs[i].pol.value, s.reqs[i].call.tool)
  }

  /** Requests past the budget stage saw a counter below the limit. */
  ghost predicate PassedLow(s: State, sid: string, limit: nat) {
    forall i :: 0 <= i < |s.reqs| && s.reqs[i].call.session == sid && PassedBudget(s.reqs[i]) ==>
      s.reqs[i].sess.calls < limit
  }

  /** Once the limit is reached, only the snapshots taken before can still be charged. */
  ghost predicate Bounded(s: State, sid: string, limit: nat, k: nat) {
    Calls(s.db, sid) >= limit ==> Calls(s.db, sid) + Count(s.reqs, Low(sid, limit)) < limit + k
  }

  /** The snapshot is below both limits that are set. */
  predicate BelowLimits(sess: Session, pol: Policy) {
    && (pol.budget.maxCalls > 0 ==> sess.calls < pol.budget.maxCalls)
    && (pol.budget.maxCost > 0 ==> sess.cost < pol.budget.maxCost)
  }

  lemma PassingBudget(lib: Library, b: Backend, r: Request, k: nat)
    requires RequestOk(r) && r.pc == Evaluating(k)
    requires PassedBudget(EvalOne(lib, b, r, k)) && !PassedBudget(r)
    ensures BelowLimits(r.sess, r.pol.value)
  {
    assert Live()[k] == BudgetLimit && k == BUDGET_STAGE;
    assert EvalStage(BudgetLimit, lib, b, r.call, r.sess, r.pol.value) == Ok(EvalBudget(r.sess, r.pol.value));
  }

  /** How request i's snapshot changes. */
  ghost predicate Snapshots(s: State, i: nat, s': State)
    requires i < |s.reqs| && i < |s'.reqs|
  {
    var r, r' := s.reqs[i], s'.reqs[i];
    && (HasSnapshot(r.pc) && HasSnapshot(r'.pc) ==> r'.sess == r.sess)
    && (!HasSnapshot(r.pc) && HasSnapshot(r'.pc) ==>
          Calls(s.db, r.call.session) == 0 || r'.sess.calls == Calls(s.db, r.call.session))
    && (PassedBudget(r') && !PassedBudget(r) ==>
          r.pol.Some? && r'.sess == r.sess && BelowLimits(r.sess, r.pol.value))
  }

  lemma MoveSnapshots(cfg: Config, s: State, i: nat, fail: bool, now: int, id: string)
    requires i < |s.reqs| && RequestOk(s.reqs[i])
    ensures i < |Move(cfg, s, i, fail, now, id).reqs| && Snapshots(s, i, Move(cfg, s, i, fail, now, id))
  {
    MoveMoves(cfg, s, i, fail, now, id);
    var r := s.reqs[i];
    match r.pc
    case Load =>
    case Create =>
    case Resolve => ResolveSnapshot(s, i);
    case Evaluating(k) =>
      var b := StoreBackend(s.db, fail);
      if PassedBudget(EvalOne(cfg.lib, b, r, k)) && !PassedBudget(r) {
        PassingBudget(cfg.lib, b, r, k);
      }
    case _ =>
  }

  lemma ResolveSnapshot(s: State, i: nat)
    requires i < |s.reqs|
    ensures i < |MoveResolve(s, i).reqs| && MoveResolve(s, i).reqs[i].sess == s.reqs[i].sess
  {
  }

  lemma MovedPassedLow(s: State, i: nat, s': State, sid: string, limit: nat)
    requires limit > 0 && AllOk(s) && Priced(s) && i < |s.reqs| && Moved(s, i, s') && Snapshots(s, i, s')
    requires Capped(s', sid, limit) && PassedLow(s, sid, limit)
    ensures PassedLow(s', sid, limit)
  {
    assert PassedBudget(s.reqs[i]) ==> s'.reqs[i].sess == s.reqs[i].sess;
  }

  lemma MovedBounded(s: State, i: nat, s': State, sid: string, limit: nat, k: nat)
    requires limit > 0 && AllOk(s) && i < |s.reqs| && Moved(s, i, s') && Snapshots(s, i, s') && Charges(s, i, s')
    requires Capped(s', sid, limit) && PassedLow(s', sid, limit) && Bounded(s, sid, limit, k)
    requires Count(s.reqs, Holding(sid)) <= k
    ensures Bounded(s', sid, limit, k)
  {
    var r, r' := s.reqs[i], s'.reqs[i];
    CountUpdate(s.reqs, i, r', Low(sid, limit));
    CountMono(s.reqs, Low(sid, limit), Holding(sid));
    if r.pc.Settle? && r'.pc == Done(Forwarded(true)) && r.call.session == sid {
      assert Decided(r') && r'.decision.action == Allow;
      assert PassedBudget(r');
    }
  }

  lemma AsideBounded(s: State, step: Step, s': State, sid: string, limit: nat, k: nat)
    requires Aside(s, step, s') && !step.Advance? && StepCharges(s, step, s')
    requires PassedLow(s, sid, limit) && Bounded(s, sid, limit, k)
    ensures PassedLow(s', sid, limit) && Bounded(s', sid, limit, k)
  {
    if step.Arrive? {
      CountSnoc(s.reqs, NewRequest(step.call), Low(sid, limit));
    }
    if step.Crash? && s'.reqs != s.reqs {
      CountUpdate(s.reqs, step.i, s'.reqs[step.i], Low(sid, limit));
    }
  }

  /** At most k of the session's calls are between session load and counter update, at every point,
      and every one of them is evaluated under a blocking policy with this limit. */
  ghost predicate CappedRun(cfg: Config, pol: Policy, steps: seq<Step>, sid: string, limit: nat, k: nat) {
    forall n :: 0 <= n <= |steps| ==>
      Count(At(cfg, pol, steps, n).reqs, Holding(sid)) <= k && Capped(At(cfg, pol, steps, n), sid, limit)
  }

  lemma StepBounded(cfg: Config, s: State, step: Step, sid: string, limit: nat, k: nat)
    requires limit > 0 && AllOk(s) && Priced(s) && PassedLow(s, sid, limit) && Bounded(s, sid, limit, k)
    requires Count(s.reqs, Holding(sid)) <= k && Capped(Apply(cfg, s, step), sid, limit)
    ensures PassedLow(Apply(cfg, s, step), sid, limit) && Bounded(Apply(cfg, s, step), sid, limit, k)
  {
    var s' := Apply(cfg, s, step);
    StepFrame(cfg, s, step);
    ApplyCharges(cfg, s, step);
    if !step.Advance? {
      AsideBounded(s, step, s', sid, limit, k);
    } else if step.i < |s.reqs| {
      MoveSnapshots(cfg, s, step.i, step.fail, step.now, step.id);
      MovedPassedLow(s, step.i, s', sid, limit);
      MovedBounded(s, step.i, s', sid, limit, k);
    }
  }

  lemma {:induction false} AtBounded(
    cfg: Config, pol: Policy, steps: seq<Step>, sid: string, limit: nat, k: nat, n: nat)
    requires n <= |steps| && limit > 0 && CappedRun(cfg, pol, steps, sid, limit, k)
    ensures var s := At(cfg, pol, steps, n);
            Sound(s) && PassedLow(s, sid, limit) && Bounded(s, sid, limit, k)
  {
    AtSound(cfg, pol, steps, n);
    if n > 0 {
      hide Apply;
      AtBounded(cfg, pol, steps, sid, limit, k, n - 1);
      AtNext(cfg, pol, steps, n - 1);
      CostFollowsCalls(cfg, pol, steps, n - 1);
      StepBounded(cfg, At(cfg, pol, steps, n - 1), steps[n - 1], sid, limit, k);
    }
  }

  /** estimated_cost_usd of the session, in thousandths. */
  function Cost(db: Db, sid: string): nat {
    if sid in db.sessions then db.sessions[sid].cost else 0
  }

  /** Budget overshoot. With a limit > 0 on the calls, or on the cost counted in calls, enforced on all the
      session's calls, and at most k >= 1 of them at a time between session load and counter update: the
      counter never exceeds limit + k - 1 and the cost never exceeds the price of that many calls; neither
      do the forwarded calls, if no counter write failed. */
  lemma BudgetOvershoot(cfg: Config, pol: Policy, steps: seq<Step>, sid: string, limit: nat, k: nat)
    requires limit > 0 && k > 0 && CappedRun(cfg, pol, steps, sid, limit, k)
    ensures var s := At(cfg, pol, steps, |steps|);
            && Calls(s.db, sid) <= limit + k - 1
            && Cost(s.db, sid) <= COST_PER_CALL * (limit + k - 1)
            && Count(s.reqs, Counted(sid)) <= limit + k - 1
  {
    AtBounded(cfg, pol, steps, sid, limit, k, |steps|);
    AtBalanced(cfg, pol, steps, sid, |steps|);
    CostFollowsCalls(cfg, pol, steps, |steps|);
  }

  /** One at a time the limit is exact. */
  lemma BudgetIsExactOneAtATime(cfg: Config, pol: Policy, steps: seq<Step>, sid: string, limit: nat)
    requires limit > 0 && CappedRun(cfg, pol, steps, sid, limit, 1)
    ensures var s := At(cfg, pol, steps, |steps|);
            Calls(s.db, sid) <= limit && Cost(s.db, sid) <= COST_PER_CALL * limit
  {
    BudgetOvershoot(cfg, pol, steps, sid, limit, 1);
  }
}
