/** Policies whose only rules are may_use, budget, taint, sequence predicates and enforcement modes: which
    stages matter to them, and what those stages look at. */
module PlainPolicies {
  import opened Prelude
  import opened Policies
  import opened Database
  import opened Engine
  import opened PipelineLaws
  import opened Sequential
  import opened SessionRuns
  import opened Simulate
  import opened Replay

  ghost predicate IsPlain(pol: Policy) {
    && pol.requireEnv == ""
    && forall t :: t in pol.tools ==>
         && pol.tools[t].escalateWhen.None? && |pol.tools[t].neverWhen| == 0 && pol.tools[t].rateLimit.None?
  }

  /** The stages that can refuse a root agent's call under a plain policy. */
  function CoreStages(): seq<Stage> {
    [MayUse, BudgetLimit, TaintGuard, Sequence]
  }

  function IsCore(): Stage -> bool {
    (s: Stage) => s == MayUse || s == BudgetLimit || s == TaintGuard || s == Sequence
  }

  lemma OthersPass(stage: Stage, lib: Library, b: Backend, call: Call, sess: Session, pol: Policy)
    requires IsPlain(pol) && call.parent == "" && !IsCore()(stage)
    ensures Passes(stage, lib, b, call, sess, pol)
  {
    hide EvalBudget, EvalTaint, EvalSequence, Triggered, NeverWhenAny, NeverWhenAll;
  }

  /** A pipeline whose core is CoreStages decides as CoreStages does. */
  lemma CoreDecides(stages: seq<Stage>, lib: Library, b: Backend, call: Call, sess: Session, pol: Policy)
    requires IsPlain(pol) && call.parent == "" && Filter(stages, IsCore()) == CoreStages()
    ensures Pipeline(stages, lib, b, call, sess, pol) == Pipeline(CoreStages(), lib, b, call, sess, pol)
  {
    hide Pipeline, Passes, IsPlain;
    forall i | 0 <= i < |stages| && !IsCore()(stages[i])
      ensures Passes(stages[i], lib, b, call, sess, pol)
    {
      OthersPass(stages[i], lib, b, call, sess, pol);
    }
    DropPassing(stages, IsCore(), lib, b, call, sess, pol);
  }

  lemma FilterThree(a: seq<Stage>, x: Stage, y: Stage, z: Stage)
    ensures Filter(a + [x, y, z], IsCore())
            == Filter(a, IsCore()) + (if IsCore()(x) then [x] else [])
               + (if IsCore()(y) then [y] else []) + (if IsCore()(z) then [z] else [])
  {
    assert a + [x, y, z] == a + [x] + [y] + [z];
    FilterSnoc(a + [x] + [y], z, IsCore());
    FilterSnoc(a + [x], y, IsCore());
    FilterSnoc(a, x, IsCore());
  }

  /** The live proxy, `simulate` and `replay` share this core. */
  lemma SharedCore()
    ensures Filter(Live(), IsCore()) == CoreStages()
    ensures Filter(SimulateStages(), IsCore()) == CoreStages()
    ensures Filter(ReplayStages(), IsCore()) == CoreStages()
  {
    hide Filter;
    LiveCore();
    SimulateCore();
    ReplayCore();
  }

  lemma FilterNothing()
    ensures Filter([], IsCore()) == []
  {
  }

  lemma LiveCore()
    ensures Filter(Live(), IsCore()) == CoreStages()
  {
    hide Filter;
    var a, b := [Env, MayUse, Delegation], [Env, MayUse, Delegation, BudgetLimit, TaintGuard, Sequence];
    FilterNothing();
    FilterThree([], Env, MayUse, Delegation);
    assert [] + a == a;
    FilterThree(a, BudgetLimit, TaintGuard, Sequence);
    assert a + [BudgetLimit, TaintGuard, Sequence] == b;
    FilterThree(b, Content, Rate, Escalation);
    assert b + [Content, Rate, Escalation] == Live();
  }

  lemma SimulateCore()
    ensures Filter(SimulateStages(), IsCore()) == CoreStages()
  {
    hide Filter;
    var a := [MayUse, BudgetLimit, TaintGuard];
    FilterNothing();
    FilterThree([], MayUse, BudgetLimit, TaintGuard);
    assert [] + a == a;
    FilterThree(a, Sequence, Rate, Escalation);
    assert a + [Sequence, Rate, Escalation] == SimulateStages();
  }

  lemma ReplayCore()
    ensures Filter(ReplayStages(), IsCore()) == CoreStages()
  {
    hide Filter;
    var a := [MayUse, BudgetLimit, TaintGuard];
    FilterNothing();
    FilterThree([], MayUse, BudgetLimit, TaintGuard);
    assert [] + a == a;
    FilterSnoc(a, Sequence, IsCore());
    FilterSnoc(a + [Sequence], Rate, IsCore());
    assert a + [Sequence] + [Rate] == ReplayStages();
  }

  // ---- the core looks at tools only

  function Untimed(): Entry -> Entry {
    (e: Entry) => e.(recordedAt := 0)
  }

  lemma {:induction false} CountsUntimed(a: seq<Entry>, b: seq<Entry>, tool: string)
    requires Map(a, Untimed()) == Map(b, Untimed())
    ensures ExecCount(a, tool) == ExecCount(b, tool)
  {
    assert |a| == |Map(a, Untimed())| == |Map(b, Untimed())| == |b|;
    if |a| > 0 {
      var n := |a| - 1;
      assert Map(a[..n], Untimed()) == Map(a, Untimed())[..n] && Map(b[..n], Untimed()) == Map(b, Untimed())[..n];
      CountsUntimed(a[..n], b[..n], tool);
      assert Map(a, Untimed())[n] == Untimed()(a[n]) && Map(b, Untimed())[n] == Untimed()(b[n]);
    }
  }

  lemma SequenceUntimed(a: seq<Entry>, b: seq<Entry>, sq: Sequencing)
    requires Map(a, Untimed()) == Map(b, Untimed())
    ensures SequenceDecision(a, sq) == SequenceDecision(b, sq)
  {
    forall t {
      CountsUntimed(a, b, t);
    }
    CountCong(sq.onlyAfter, NotYet(a), NotYet(b));
    CountCong(sq.neverAfter, Already(a), Already(b));
  }

  lemma CoreStageLooks(stage: Stage, lib: Library, a: seq<Entry>, b: seq<Entry>, call: Call, call': Call, row: Session,
      pol: Policy)
    requires IsCore()(stage) && Map(a, Untimed()) == Map(b, Untimed()) && call.tool == call'.tool
    ensures EvalStage(stage, lib, MemBackend(a, [], []), call, row, pol)
            == EvalStage(stage, lib, MemBackend(b, [], []), call', row, pol)
  {
    hide SequenceDecision, NeverWhenAny, NeverWhenAll, Triggered;
    if call.tool in pol.tools {
      SequenceUntimed(a, b, pol.tools[call.tool].sequencing);
    }
  }

  /** Calls of the same session, agent and tool, in the same order. */
  predicate SameTools(a: seq<Timed>, b: seq<Timed>) {
    && |a| == |b|
    && forall i :: 0 <= i < |a| ==>
         a[i].call.session == b[i].call.session && a[i].call.agent == b[i].call.agent
         && a[i].call.tool == b[i].call.tool
  }

  /** Equal, but for the times of the events. */
  predicate SameMemory(m: Memory, m': Memory) {
    m.row == m'.row && Map(m.history, Untimed()) == Map(m'.history, Untimed())
  }

  lemma DecisionLooks(lib: Library, pol: Policy, a: seq<Timed>, b: seq<Timed>, call: Call, call': Call)
    requires call.tool == call'.tool
    requires SameMemory(Ready(lib, CoreStages(), pol, a, call), Ready(lib, CoreStages(), pol, b, call'))
    ensures DecisionAfter(lib, CoreStages(), pol, a, call) == DecisionAfter(lib, CoreStages(), pol, b, call')
  {
    hide EvalStage, Ready, Pipeline;
    var m, m' := Ready(lib, CoreStages(), pol, a, call), Ready(lib, CoreStages(), pol, b, call');
    forall i | 0 <= i < |CoreStages()| {
      CoreStageLooks(CoreStages()[i], lib, m.history, m'.history, call, call', m.row, pol);
    }
    SameAnswers(CoreStages(), lib, MemBackend(m.history, [], []), MemBackend(m'.history, [], []), call, call', m.row,
        m.row, pol);
  }

  /** Under the core stages, arguments and times change no decision. */
  lemma {:induction false} ToolsDecide(lib: Library, pol: Policy, a: seq<Timed>, b: seq<Timed>)
    requires SameTools(a, b)
    ensures |a| > 0 ==> SameMemory(MemoryAfter(lib, CoreStages(), pol, a), MemoryAfter(lib, CoreStages(), pol, b))
    ensures SessionRecords(lib, CoreStages(), pol, a) == SessionRecords(lib, CoreStages(), pol, b)
  {
    hide Charged, DecisionAfter;
    if |a| > 0 {
      var n := |a| - 1;
      ToolsDecide(lib, pol, a[..n], b[..n]);
      DecisionLooks(lib, pol, a[..n], b[..n], a[n].call, b[n].call);
      var m, m' := Ready(lib, CoreStages(), pol, a[..n], a[n].call), Ready(lib, CoreStages(), pol, b[..n], b[n].call);
      var action := DecisionAfter(lib, CoreStages(), pol, a[..n], a[n].call).action;
      MapSnoc(m.history, Entry(a[n].call.tool, action, a[n].at), Untimed());
      MapSnoc(m'.history, Entry(b[n].call.tool, action, b[n].at), Untimed());
    }
  }

  /** Under a plain policy, every pipeline with this core gives a session of root calls the same records. */
  lemma {:induction false} CoreRecords(lib: Library, stages: seq<Stage>, pol: Policy, calls: seq<Timed>)
    requires IsPlain(pol) && Filter(stages, IsCore()) == CoreStages() && forall t :: t in calls ==> Root(t)
    ensures |calls| > 0 ==> MemoryAfter(lib, stages, pol, calls) == MemoryAfter(lib, CoreStages(), pol, calls)
    ensures SessionRecords(lib, stages, pol, calls) == SessionRecords(lib, CoreStages(), pol, calls)
  {
    hide IsPlain, Pipeline, Charged, IsCore;
    if |calls| > 0 {
      var front, last := calls[..|calls| - 1], calls[|calls| - 1];
      assert forall t :: t in front ==> t in calls;
      assert last in calls;
      CoreRecords(lib, stages, pol, front);
      var m := Ready(lib, CoreStages(), pol, front, last.call);
      CoreDecides(stages, lib, MemBackend(m.history, [], []), last.call, m.row, pol);
    }
  }
}
