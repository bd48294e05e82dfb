/** What a permitted event proves: the call passed every stage of the pipeline, each at its own step of the
    schedule (internal/engine/pipeline.go and the evaluators). */
module PermittedCalls {
  import opened Policies
  import opened Database
  import opened Engine
  import opened PipelineLaws
  import opened StageMeanings
  import opened Protocol
  import opened Frame
  import opened Recording
  import opened Approvals

  /** Step p runs stage k of request i, and the stage lets it pass. */
  ghost predicate PassedAt(cfg: Config, pol: Policy, steps: seq<Step>, p: nat, i: nat, k: nat) {
    && p < |steps| && k < |Live()| && steps[p].Advance? && steps[p].i == i
    && var s := At(cfg, pol, steps, p);
    && i < |s.reqs| && s.reqs[i].pc == Evaluating(k) && s.reqs[i].pol.Some?
    && Passes(Live()[k], cfg.lib, StoreBackend(s.db, steps[p].fail), s.reqs[i].call, s.reqs[i].sess,
        s.reqs[i].pol.value)
  }

  /** The request has passed stage k, and nothing has refused it since. */
  predicate Beyond(r: Request, k: nat) {
    (r.pc.Evaluating? && r.pc.k > k) || (Decided(r) && r.decision.action == Allow)
  }

  lemma BeyondMove(lib: Library, b: Backend, r: Request, j: nat, k: nat)
    requires RequestOk(r) && r.pc == Evaluating(j) && k < |Live()|
    requires Beyond(EvalOne(lib, b, r, j), k) && !Beyond(r, k)
    ensures j == k && r.pol.Some? && Passes(Live()[k], lib, b, r.call, r.sess, r.pol.value)
  {
    hide EvalStage;
  }

  lemma BeyondStep(cfg: Config, s: State, step: Step, i: nat, k: nat)
    requires AllOk(s) && i < |Apply(cfg, s, step).reqs| && k < |Live()| && Beyond(Apply(cfg, s, step).reqs[i], k)
    requires !(i < |s.reqs| && Beyond(s.reqs[i], k))
    ensures step.Advance? && step.i == i && i < |s.reqs| && s.reqs[i].pc == Evaluating(k) && s.reqs[i].pol.Some?
    ensures Passes(Live()[k], cfg.lib, StoreBackend(s.db, step.fail), s.reqs[i].call, s.reqs[i].sess,
        s.reqs[i].pol.value)
    ensures Keeps(s.reqs[i], Apply(cfg, s, step).reqs[i])
  {
    hide EvalOne, Passes, MaxSeq;
    StepFrame(cfg, s, step);
    assert i < |s.reqs| && step.Advance? && step.i == i;
    assert s.reqs[i].pc.Evaluating?;
    BeyondMove(cfg.lib, StoreBackend(s.db, step.fail), s.reqs[i], s.reqs[i].pc.k, k);
  }

  /** A request beyond stage k passed it at some step, with the call, policy and session snapshot it has now. */
  lemma {:induction false} StageStep(cfg: Config, pol: Policy, steps: seq<Step>, n: nat, i: nat, k: nat)
      returns (p: nat)
    requires n <= |steps| && i < |At(cfg, pol, steps, n).reqs| && k < |Live()|
        && Beyond(At(cfg, pol, steps, n).reqs[i], k)
    ensures p < n && PassedAt(cfg, pol, steps, p, i, k)
    ensures Keeps(At(cfg, pol, steps, p).reqs[i], At(cfg, pol, steps, n).reqs[i])
  {
    hide Apply, At, Run, Passes, RequestOk, Keeps, Wrote;
    AtStart(cfg, pol, steps);
    assert n > 0;
    AtSound(cfg, pol, steps, n - 1);
    AtNext(cfg, pol, steps, n - 1);
    var s, step := At(cfg, pol, steps, n - 1), steps[n - 1];
    if i < |s.reqs| && Beyond(s.reqs[i], k) {
      p := StageStep(cfg, pol, steps, n - 1, i, k);
      AtPrecedes(cfg, pol, steps, p, n);
    } else {
      p := n - 1;
      BeyondStep(cfg, s, step, i, k);
    }
  }

  // ---- the virtual tool

  ghost predicate VirtualDone(s: State) {
    forall i :: 0 <= i < |s.reqs| && IsVirtual(s.reqs[i].call.tool) ==> s.reqs[i].pc.Done? && !s.reqs[i].recorded
  }

  lemma VirtualStaysDone(s: State, step: Step, s': State)
    requires VirtualDone(s) && Stepped(s, step, s')
    ensures VirtualDone(s')
  {
    hide IsVirtual, RequestOk;
  }

  lemma {:induction false} AtVirtual(cfg: Config, pol: Policy, steps: seq<Step>, n: nat)
    requires n <= |steps|
    ensures VirtualDone(At(cfg, pol, steps, n))
  {
    hide Apply, At, Run, IsVirtual, RequestOk, Wrote, Stepped;
    AtStart(cfg, pol, steps);
    if n > 0 {
      AtVirtual(cfg, pol, steps, n - 1);
      AtSound(cfg, pol, steps, n - 1);
      AtNext(cfg, pol, steps, n - 1);
      StepFrame(cfg, At(cfg, pol, steps, n - 1), steps[n - 1]);
      VirtualStaysDone(At(cfg, pol, steps, n - 1), steps[n - 1], At(cfg, pol, steps, n));
    }
  }

  /** The virtual tool is answered without an event, in every schedule. */
  lemma VirtualLeavesNoEvent(cfg: Config, pol: Policy, steps: seq<Step>, j: nat)
    requires j < |At(cfg, pol, steps, |steps|).db.events|
    ensures At(cfg, pol, steps, |steps|).db.events[j].tool != "check_escalation_status"
  {
    hide RequestOk, At;
    AtSound(cfg, pol, steps, |steps|);
    AtVirtual(cfg, pol, steps, |steps|);
    var s := At(cfg, pol, steps, |steps|);
    assert Wrote(s.reqs[s.writers[j]], s.db.events[j]);
  }

  // ---- one event per call

  /** No request has written two rows. */
  ghost predicate WritersDistinct(s: State) {
    forall a, b :: 0 <= a < b < |s.writers| ==> s.writers[a] != s.writers[b]
  }

  lemma WritersStayDistinct(s: State, s': State)
    requires Sound(s) && Grows(s, s') && WritersDistinct(s)
    ensures WritersDistinct(s')
  {
    hide SeqDense;
    forall a, b | 0 <= a < b < |s'.writers|
      ensures s'.writers[a] != s'.writers[b]
    {
      assert s'.writers[..|s.writers|][a] == s.writers[a];
      if b < |s.writers| {
        assert s'.writers[..|s.writers|][b] == s.writers[b];
      } else {
        assert Wrote(s.reqs[s.writers[a]], s.db.events[a]);
      }
    }
  }

  lemma {:induction false} AtDistinct(cfg: Config, pol: Policy, steps: seq<Step>, n: nat)
    requires n <= |steps|
    ensures WritersDistinct(At(cfg, pol, steps, n))
  {
    hide Apply, At, Run, RequestOk, Wrote, Stepped, Grows, WritersDistinct;
    AtStart(cfg, pol, steps);
    NoWriters(pol);
    if n > 0 {
      AtDistinct(cfg, pol, steps, n - 1);
      AtSound(cfg, pol, steps, n - 1);
      AtNext(cfg, pol, steps, n - 1);
      var s, s' := At(cfg, pol, steps, n - 1), At(cfg, pol, steps, n);
      StepFrame(cfg, s, steps[n - 1]);
      SteppedGrows(s, steps[n - 1], s');
      WritersStayDistinct(s, s');
    }
  }

  lemma NoWriters(pol: Policy)
    ensures WritersDistinct(Initial(pol))
  {
  }

  /** Nothing reaches the upstream server ungoverned. In every schedule, a forwarded call has exactly one
      event; its decision is allow or shadow_deny, and allow whenever the tool's violations are blocked. */
  lemma ForwardedIsGoverned(cfg: Config, pol: Policy, steps: seq<Step>, i: nat) returns (j: nat)
    requires var s := At(cfg, pol, steps, |steps|);
             i < |s.reqs| && s.reqs[i].pc.Done? && s.reqs[i].pc.outcome.Forwarded?
    ensures var s := At(cfg, pol, steps, |steps|);
            && j < |s.writers| == |s.db.events| && s.writers[j] == i
            && (forall j' :: 0 <= j' < |s.writers| && s.writers[j'] == i ==> j' == j)
            && s.db.events[j].session == s.reqs[i].call.session && s.db.events[j].tool == s.reqs[i].call.tool
            && Executed(s.db.events[j].decision) && s.reqs[i].pol.Some?
            && (Blocks(s.reqs[i].pol.value, s.reqs[i].call.tool) ==> s.db.events[j].decision == Allow)
  {
    hide At, SeqDense, Documented;
    AtDocumented(cfg, pol, steps, |steps|);
    AtDistinct(cfg, pol, steps, |steps|);
    var s := At(cfg, pol, steps, |steps|);
    assert RequestOk(s.reqs[i]);
    j :| 0 <= j < |s.writers| && s.writers[j] == i;
    assert Wrote(s.reqs[i], s.db.events[j]);
  }

  // ---- what the stages that read no history guarantee

  lemma PassingDelegation(lib: Library, db: Db, fail: bool, call: Call, sess: Session, used: Policy)
    requires Passes(Delegation, lib, StoreBackend(db, fail), call, sess, used) && call.parent != ""
    ensures ParentAllows(db, call)
  {
    assert EvalStage(Delegation, lib, StoreBackend(db, fail), call, sess, used)
        == EvalDelegation(StoreBackend(db, fail), call);
  }

  lemma PassingNow(lib: Library, b: Backend, b': Backend, stage: Stage, call: Call, sess: Session, used: Policy)
    requires Passes(stage, lib, b, call, sess, used)
    requires stage == Env || stage == MayUse || stage == BudgetLimit || stage == TaintGuard || stage == Content
    ensures Passes(stage, lib, b', call, sess, used)
  {
    hide EvalEnv, EvalMayUse, EvalBudget, EvalTaint, EvalContent;
  }

  /** Guard safety. In every schedule, a permitted event's call met, under the policy it was evaluated with:
      require_env, may_use, both budgets and the taint guard for the session it had loaded, and never_when for
      its arguments; and for a child agent there is a step p of its evaluation at which its parent was
      registered with the tool. */
  lemma GuardSafety(cfg: Config, pol: Policy, steps: seq<Step>, j: nat) returns (p: nat)
    requires var s := At(cfg, pol, steps, |steps|); j < |s.db.events| && s.db.events[j].decision == Allow
    ensures var s := At(cfg, pol, steps, |steps|);
            && j < |s.writers| && s.writers[j] < |s.reqs|
            && var r := s.reqs[s.writers[j]];
            && r.pol.Some? && r.call.tool == s.db.events[j].tool && r.call.session == s.db.events[j].session
            && GuardsHold(cfg.lib, r.call, r.sess, r.pol.value)
            && (r.call.parent != "" ==> p < |steps| && ParentAllows(At(cfg, pol, steps, p).db, r.call))
  {
    hide At, Passes, RequestOk, SeqDense, GuardsHold, ParentAllows;
    AtSound(cfg, pol, steps, |steps|);
    var s := At(cfg, pol, steps, |steps|);
    var i := s.writers[j];
    assert Wrote(s.reqs[i], s.db.events[j]);
    RecordedResolved(s.reqs[i]);
    var call, sess, used, b := s.reqs[i].call, s.reqs[i].sess, s.reqs[i].pol.value, StoreBackend(s.db, false);
    StagePasses(cfg, pol, steps, i, 0, Env, b);
    StagePasses(cfg, pol, steps, i, 1, MayUse, b);
    StagePasses(cfg, pol, steps, i, 3, BudgetLimit, b);
    StagePasses(cfg, pol, steps, i, 4, TaintGuard, b);
    StagePasses(cfg, pol, steps, i, 6, Content, b);
    ExactGuards(cfg.lib, b, call, sess, used);
    p := DelegationStep(cfg, pol, steps, i);
  }

  lemma RecordedResolved(r: Request)
    requires RequestOk(r) && r.recorded
    ensures r.pol.Some? && Decided(r)
  {
  }

  lemma StagePasses(cfg: Config, pol: Policy, steps: seq<Step>, i: nat, k: nat, stage: Stage, b: Backend)
    requires var s := At(cfg, pol, steps, |steps|);
             i < |s.reqs| && s.reqs[i].pol.Some? && Decided(s.reqs[i]) && s.reqs[i].decision.action == Allow
    requires k < |Live()| && Live()[k] == stage
    requires stage == Env || stage == MayUse || stage == BudgetLimit || stage == TaintGuard || stage == Content
    ensures var r := At(cfg, pol, steps, |steps|).reqs[i]; Passes(stage, cfg.lib, b, r.call, r.sess, r.pol.value)
  {
    hide At, Passes;
    var r := At(cfg, pol, steps, |steps|).reqs[i];
    var p := StageStep(cfg, pol, steps, |steps|, i, k);
    PassingNow(cfg.lib, StoreBackend(At(cfg, pol, steps, p).db, steps[p].fail), b, stage, r.call, r.sess, r.pol.value);
  }

  lemma DelegationStep(cfg: Config, pol: Policy, steps: seq<Step>, i: nat) returns (p: nat)
    requires var s := At(cfg, pol, steps, |steps|);
             i < |s.reqs| && s.reqs[i].pol.Some? && Decided(s.reqs[i]) && s.reqs[i].decision.action == Allow
    ensures var r := At(cfg, pol, steps, |steps|).reqs[i];
            r.call.parent != "" ==> p < |steps| && ParentAllows(At(cfg, pol, steps, p).db, r.call)
  {
    hide At, Passes, ParentAllows;
    var r := At(cfg, pol, steps, |steps|).reqs[i];
    assert Live()[2] == Delegation;
    p := StageStep(cfg, pol, steps, |steps|, i, 2);
    if r.call.parent != "" {
      PassingDelegation(cfg.lib, At(cfg, pol, steps, p).db, steps[p].fail, r.call, r.sess, r.pol.value);
    }
  }

  // ---- who the parent is

  /** Step q is the last registration of the agent before step n. */
  ghost predicate LastRegistration(steps: seq<Step>, n: nat, q: nat, name: string, row: AgentRow) {
    && q < n <= |steps| && steps[q] == PutAgent(name, row)
    && forall k :: q < k < n ==> !(steps[k].PutAgent? && steps[k].name == name)
  }

  lemma WritesKeepAgents(cfg: Config, s: State, i: nat, fail: bool, now: int, id: string)
    requires i < |s.reqs|
    ensures MoveCreate(s, i, fail).db.agents == s.db.agents && MoveAppend(s, i, fail, now).db.agents == s.db.agents
    ensures MoveTaint(s, i, fail).db.agents == s.db.agents && MoveSettle(cfg, s, i, fail, id).db.agents == s.db.agents
  {
    hide MaxSeq;
  }

  lemma MoveKeepsAgents(cfg: Config, s: State, i: nat, fail: bool, now: int, id: string)
    requires i < |s.reqs|
    ensures Move(cfg, s, i, fail, now, id).db.agents == s.db.agents
  {
    hide EvalOne, Admit, MoveCreate, MoveAppend, MoveTaint, MoveSettle;
    WritesKeepAgents(cfg, s, i, fail, now, id);
  }

  lemma StepAgents(cfg: Config, s: State, step: Step)
    ensures Apply(cfg, s, step).db.agents
            == if step.PutAgent? then s.db.agents[step.name := step.row] else s.db.agents
  {
    hide Move;
    if step.Advance? && step.i < |s.reqs| {
      MoveKeepsAgents(cfg, s, step.i, step.fail, step.now, step.id);
    }
  }

  /** A registered agent is as its last registration says. */
  lemma {:induction false} RegisteredBy(cfg: Config, pol: Policy, steps: seq<Step>, n: nat, name: string)
    returns (q: nat)
    requires n <= |steps| && name in At(cfg, pol, steps, n).db.agents
    ensures LastRegistration(steps, n, q, name, At(cfg, pol, steps, n).db.agents[name])
  {
    hide Apply, At, Run;
    AtStart(cfg, pol, steps);
    assert n > 0;
    AtNext(cfg, pol, steps, n - 1);
    StepAgents(cfg, At(cfg, pol, steps, n - 1), steps[n - 1]);
    if steps[n - 1].PutAgent? && steps[n - 1].name == name {
      q := n - 1;
    } else {
      q := RegisteredBy(cfg, pol, steps, n - 1, name);
    }
  }

  /** Conversely, a registration lasts until the next one of the same agent. */
  lemma {:induction false} RegistrationLasts(
    cfg: Config, pol: Policy, steps: seq<Step>, n: nat, q: nat, name: string, row: AgentRow)
    requires LastRegistration(steps, n, q, name, row)
    ensures name in At(cfg, pol, steps, n).db.agents && At(cfg, pol, steps, n).db.agents[name] == row
  {
    hide Apply, At, Run;
    AtNext(cfg, pol, steps, n - 1);
    StepAgents(cfg, At(cfg, pol, steps, n - 1), steps[n - 1]);
    if q < n - 1 {
      RegistrationLasts(cfg, pol, steps, n - 1, q, name, row);
    }
  }

  /** Behind every permitted call of a child agent stands a registration of its parent, the last one before a step
      of the call's evaluation, that gave the parent the tool. */
  lemma ParentHadTool(cfg: Config, pol: Policy, steps: seq<Step>, j: nat) returns (q: nat, p: nat)
    requires var s := At(cfg, pol, steps, |steps|);
             && j < |s.db.events| && s.db.events[j].decision == Allow
             && j < |s.writers| && s.writers[j] < |s.reqs| && s.reqs[s.writers[j]].call.parent != ""
    ensures var call := At(cfg, pol, steps, |steps|).reqs[At(cfg, pol, steps, |steps|).writers[j]].call;
            && q < p < |steps| && steps[q].PutAgent?
            && LastRegistration(steps, p, q, call.parent, steps[q].row)
            && steps[q].row.allowedTools.Some? && call.tool in steps[q].row.allowedTools.value
  {
    hide At, GuardsHold;
    p := GuardSafety(cfg, pol, steps, j);
    var call := At(cfg, pol, steps, |steps|).reqs[At(cfg, pol, steps, |steps|).writers[j]].call;
    q := RegisteredBy(cfg, pol, steps, p, call.parent);
  }
}
