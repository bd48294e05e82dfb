/** What lint rule L013 means for runs (internal/policy/lint.go, internal/engine/sequence.go): a reported cycle
    deadlocks its tools, and without one every tool of an order-only policy can be reached. */
module LintLiveness {
  import opened Prelude
  import opened Policies
  import opened Database
  import opened Engine
  import opened SequenceChecks
  import opened PipelineLaws
  import opened Protocol
  import opened Frame
  import opened Recording
  import opened Ordering
  import opened PolicyBinding
  import opened LintCycles
  import opened Sequential
  import opened SessionRuns
  import opened Simulate
  import opened PlainPolicies

  // ---- a cycle deadlocks its tools, in every schedule

  /** The walk is a cycle of the policy, and violations are blocked on all its tools. */
  ghost predicate Deadlocks(pol: Policy, w: seq<string>) {
    ClosedWalk(pol, w) && forall t :: t in w ==> Blocks(pol, t)
  }

  /** Every tool on the cycle depends on another one on it. */
  lemma NextOnCycle(pol: Policy, w: seq<string>, t: string) returns (d: string)
    requires ClosedWalk(pol, w) && t in w
    ensures d in w && d in OnlyAfter(pol, t)
  {
    var i :| 0 <= i < |w| && w[i] == t;
    if i < |w| - 1 {
      d := w[i + 1];
    } else {
      assert w[0] == t;
      d := w[1];
    }
  }

  lemma {:induction false} NeverExecuted(s: State, sid: string, w: seq<string>, j: nat)
    requires Sound(s) && RowsReady(s) && j < |s.db.events|
    requires forall i :: 0 <= i < |s.reqs| && s.reqs[i].call.session == sid && s.reqs[i].pol.Some? ==>
        Deadlocks(s.reqs[i].pol.value, w)
    ensures s.db.events[j].session == sid && s.db.events[j].tool in w ==> !Executed(s.db.events[j].decision)
    decreases j
  {
    hide SeqDense, Deadlocks;
    var e := s.db.events[j];
    if e.session == sid && e.tool in w && Executed(e.decision) {
      var r := s.reqs[s.writers[j]];
      assert Wrote(r, e);
      DeadlockedCall(r, e, w);
      assert ReadyNow(r, s.db.events[..j]);
      var d := NextOnCycle(r.pol.value, w, e.tool);
      var i := CountWitness(s.db.events[..j], ExecutedRow(sid, d));
      NeverExecuted(s, sid, w, i);
    }
  }

  lemma DeadlockedCall(r: Request, e: EventRow, w: seq<string>)
    requires RequestOk(r) && Wrote(r, e) && Executed(e.decision) && e.tool in w && r.pol.Some?
        && Deadlocks(r.pol.value, w)
    ensures e.decision == Allow && ClosedWalk(r.pol.value, w)
  {
  }

  /** The proxy starts with pol, and no accepted reload or restart ever brings in a policy without this cycle. */
  ghost predicate LoadsDeadlock(pol: Policy, steps: seq<Step>, w: seq<string>) {
    forall p :: WasLoaded(pol, steps, p) ==> Deadlocks(p, w)
  }

  /** A reported cycle deadlocks. If all policies ever loaded have the cycle, with its tools in effective block
      mode, then in no schedule - whatever the interleaving, failures, approvals, reloads and crashes - is
      there ever an executed call of any tool on it, in any session. */
  lemma CycleDeadlocks(cfg: Config, pol: Policy, steps: seq<Step>, w: seq<string>, j: nat)
    requires LoadsDeadlock(pol, steps, w)
    requires var s := At(cfg, pol, steps, |steps|); j < |s.db.events| && s.db.events[j].tool in w
    ensures !Executed(At(cfg, pol, steps, |steps|).db.events[j].decision)
  {
    hide Apply, Run, At, Deadlocks, WasLoaded;
    var s := At(cfg, pol, steps, |steps|);
    AtReady(cfg, pol, steps, |steps|);
    AtLoaded(cfg, pol, steps, |steps|);
    NeverExecuted(s, s.db.events[j].session, w, j);
  }

  // ---- without a cycle there is an order

  /** From any walk among the undone tools, some undone tool has all its dependencies done. */
  lemma FindReady(pol: Policy, undone: set<string>, walk: seq<string>) returns (node: string)
    requires !HasCycle(pol) && |walk| > 0 && Walk(pol, walk) && forall t :: t in walk ==> t in undone
    ensures node in undone && forall d :: d in OnlyAfter(pol, node) ==> d !in undone
    decreases undone - set t | t in walk
  {
    node := walk[|walk| - 1];
    if d :| d in OnlyAfter(pol, node) && d in undone {
      assert d !in walk by {
        if d in walk {
          var i :| 0 <= i < |walk| && walk[i] == d;
          var closed := walk[i..] + [d];
          assert ClosedWalk(pol, closed);
        }
      }
      assert d in undone - (set t | t in walk) && d !in undone - (set t | t in walk + [d]);
      node := FindReady(pol, undone, walk + [d]);
    }
  }

  /** An acyclic policy has an order of its tools in which each comes after everything it depends on. */
  lemma OrderExists(pol: Policy) returns (order: seq<string>)
    requires !HasCycle(pol)
    ensures Topological(pol, order) && forall t :: t in order <==> t in Nodes(pol)
  {
    hide Nodes;
    order := [];
    var undone := Nodes(pol);
    while undone != {}
      invariant undone <= Nodes(pol) && Topological(pol, order)
      invariant forall t :: t in order <==> t in Nodes(pol) && t !in undone
      decreases undone
    {
      var some :| some in undone;
      var node := FindReady(pol, undone, [some]);
      forall d | d in OnlyAfter(pol, node)
        ensures d in order
      {
        DependencyIsNode(pol, node, d);
      }
      ExtendOrder(pol, order, node);
      order, undone := order + [node], undone - {node};
    }
  }

  lemma DependencyIsNode(pol: Policy, node: string, d: string)
    requires d in OnlyAfter(pol, node)
    ensures d in Nodes(pol)
  {
  }

  lemma ExtendOrder(pol: Policy, order: seq<string>, node: string)
    requires Topological(pol, order) && forall d :: d in OnlyAfter(pol, node) ==> d in order
    ensures Topological(pol, order + [node])
  {
    var after := order + [node];
    forall i | 0 <= i < |after|
      ensures forall d :: d in OnlyAfter(pol, after[i]) ==> d in after[..i]
    {
      assert after[..i] == order[..i];
      assert order[..|order|] == order;
    }
  }

  // ---- the order works

  /** The only guards are may_use and only_after; the enforcement modes are arbitrary. */
  ghost predicate OrderOnly(pol: Policy) {
    && IsPlain(pol) && pol.budget.maxCalls <= 0 && pol.budget.maxCost <= 0
    && forall t :: t in pol.tools ==>
         |pol.tools[t].sequencing.neverAfter| == 0 && pol.tools[t].sequencing.prior.None?
  }

  /** Lint rules L002 and L003 report nothing: declared tools and their dependencies are in may_use. */
  ghost predicate DeclaredToolsUsable(pol: Policy) {
    forall t :: t in Nodes(pol) ==> t in pol.mayUse
  }

  /** The session has called exactly these tools, all permitted. */
  ghost predicate AllPermitted(m: Memory, tools: seq<string>) {
    |m.history| == |tools|
    && forall i :: 0 <= i < |tools| ==> m.history[i].tool == tools[i] && m.history[i].decision == Allow
  }

  lemma OrderedCallPermitted(lib: Library, pol: Policy, past: seq<Timed>, call: Call, tools: seq<string>)
    requires OrderOnly(pol) && call.parent == "" && call.tool in pol.mayUse
    requires AllPermitted(Ready(lib, SimulateStages(), pol, past, call), tools)
    requires forall d :: d in OnlyAfter(pol, call.tool) ==> d in tools
    ensures DecisionAfter(lib, SimulateStages(), pol, past, call) == Permit()
  {
    hide Ready, EvalStage, Pipeline, IsPlain;
    var m := Ready(lib, SimulateStages(), pol, past, call);
    var b := MemBackend(m.history, [], []);
    SharedCore();
    CoreDecides(SimulateStages(), lib, b, call, m.row, pol);
    PermittedIffAllPass(CoreStages(), lib, b, call, m.row, pol);
    OrderedStagesPass(lib, pol, m.history, call, m.row, tools);
    forall i | 0 <= i < |CoreStages()|
      ensures Passes(CoreStages()[i], lib, b, call, m.row, pol)
    {
      assert CoreStages()[i] == MayUse || CoreStages()[i] == BudgetLimit || CoreStages()[i] == TaintGuard
          || CoreStages()[i] == Sequence;
    }
  }

  lemma OrderedStagesPass(lib: Library, pol: Policy, history: seq<Entry>, call: Call, row: Session, tools: seq<string>)
    requires OrderOnly(pol) && call.tool in pol.mayUse
    requires AllPermitted(Memory(row, history), tools) && forall d :: d in OnlyAfter(pol, call.tool) ==> d in tools
    ensures var b := MemBackend(history, [], []);
            && Passes(MayUse, lib, b, call, row, pol) && Passes(BudgetLimit, lib, b, call, row, pol)
            && Passes(TaintGuard, lib, b, call, row, pol) && Passes(Sequence, lib, b, call, row, pol)
  {
    hide SequenceDecision, NeverWhenAny, NeverWhenAll, Triggered;
    if call.tool in pol.tools {
      var sq := pol.tools[call.tool].sequencing;
      forall d | d in sq.onlyAfter
        ensures ExecCount(history, d) > 0
      {
        assert d in OnlyAfter(pol, call.tool) && d in tools;
        var i :| 0 <= i < |tools| && tools[i] == d;
        CountPositive(history, i, ExecutedOf(d));
      }
      PermittedIffHolds(history, sq);
    }
  }

  /** A trace entry for each tool of the list, in one session. */
  function Plan(tools: seq<string>, sid: string, agent: string): (r: seq<TraceEntry>)
    ensures |r| == |tools|
  {
    seq(|tools|, i requires 0 <= i < |tools| => TraceEntry(sid, agent, tools[i], "", 0))
  }

  lemma TopologicalFront(pol: Policy, tools: seq<string>)
    requires Topological(pol, tools) && |tools| > 0
    ensures var n := |tools| - 1;
            Topological(pol, tools[..n]) && forall d :: d in OnlyAfter(pol, tools[n]) ==> d in tools[..n]
  {
    assert forall i :: 0 <= i < |tools| - 1 ==> tools[..|tools| - 1][..i] == tools[..i];
  }

  lemma PlanSnoc(tools: seq<string>, sid: string, agent: string)
    requires |tools| > 0
    ensures var n := |tools| - 1;
            Map(Plan(tools, sid, agent), ToTimed())
            == Map(Plan(tools[..n], sid, agent), ToTimed()) + [ToTimed()(TraceEntry(sid, agent, tools[n], "", 0))]
  {
  }

  lemma PermittedStep(lib: Library, pol: Policy, past: seq<Timed>, t: Timed, tools: seq<string>)
    requires AllPermitted(Ready(lib, SimulateStages(), pol, past, t.call), tools)
    requires DecisionAfter(lib, SimulateStages(), pol, past, t.call) == Permit()
    ensures AllPermitted(MemoryAfter(lib, SimulateStages(), pol, past + [t]), tools + [t.call.tool])
    ensures SessionRecords(lib, SimulateStages(), pol, past + [t])
            == SessionRecords(lib, SimulateStages(), pol, past)
               + [Record(t.call.session, |past| + 1, t.call.tool, Allow)]
  {
    hide DecisionAfter, Charged, Ready;
    assert (past + [t])[..|past|] == past;
  }

  /** Following a topological order, every call is permitted. */
  lemma {:induction false} OrderWorks(lib: Library, pol: Policy, tools: seq<string>, sid: string, agent: string)
    requires OrderOnly(pol) && Topological(pol, tools) && forall t :: t in tools ==> t in pol.mayUse
    ensures var calls := Map(Plan(tools, sid, agent), ToTimed());
            && (|tools| > 0 ==> AllPermitted(MemoryAfter(lib, SimulateStages(), pol, calls), tools))
            && forall r :: r in SessionRecords(lib, SimulateStages(), pol, calls) ==> r.decision == Allow
  {
    hide DecisionAfter, MemoryAfter, OrderOnly, Topological, Plan;
    if |tools| > 0 {
      var n := |tools| - 1;
      TopologicalFront(pol, tools);
      assert forall t :: t in tools[..n] ==> t in tools;
      OrderWorks(lib, pol, tools[..n], sid, agent);
      var front, t := Map(Plan(tools[..n], sid, agent), ToTimed()), ToTimed()(TraceEntry(sid, agent, tools[n], "", 0));
      PlanSnoc(tools, sid, agent);
      OrderedCallPermitted(lib, pol, front, t.call, tools[..n]);
      PermittedStep(lib, pol, front, t, tools[..n]);
      assert tools == tools[..n] + [tools[n]];
    }
  }

  /** Some session can call the tool with success: a trace that `simulate` permits throughout ends in it. */
  ghost predicate Reachable(lib: Library, pol: Policy, target: string) {
    exists trace: seq<TraceEntry> ::
      && |trace| > 0 && trace[|trace| - 1].tool == target
      && (forall e :: e in trace ==> e.session == trace[0].session)
      && forall r :: r in SessionRecords(lib, SimulateStages(), pol, Map(trace, ToTimed())) ==> r.decision == Allow
  }

  lemma TopologicalPrefix(pol: Policy, order: seq<string>, n: nat)
    requires Topological(pol, order) && n <= |order|
    ensures Topological(pol, order[..n])
  {
    assert forall k :: 0 <= k < n ==> order[..n][..k] == order[..k] && order[..n][k] == order[k];
  }

  lemma AcyclicReachable(lib: Library, pol: Policy, target: string)
    requires OrderOnly(pol) && DeclaredToolsUsable(pol) && !HasCycle(pol) && target in pol.mayUse
    ensures Reachable(lib, pol, target)
  {
    hide OrderOnly, SessionRecords, HasCycle, Nodes, Topological;
    var order := OrderExists(pol);
    var tools;
    if target in order {
      var i :| 0 <= i < |order| && order[i] == target;
      tools := order[..i + 1];
      TopologicalPrefix(pol, order, i + 1);
    } else {
      UndeclaredIsFree(pol, target);
      tools := [target];
    }
    OrderWorks(lib, pol, tools, "s", "a");
    var trace := Plan(tools, "s", "a");
    assert trace[|trace| - 1].tool == target;
  }

  lemma UndeclaredIsFree(pol: Policy, target: string)
    requires target !in Nodes(pol)
    ensures Topological(pol, [target])
  {
  }

  // ---- with a cycle there is none

  lemma MissingRefuses(lib: Library, pol: Policy, history: seq<Entry>, call: Call, row: Session, d: string)
    requires d in OnlyAfter(pol, call.tool) && ExecCount(history, d) == 0
    ensures Pipeline(SimulateStages(), lib, MemBackend(history, [], []), call, row, pol).action != Allow
  {
    hide EvalStage, SequenceDecision, Pipeline;
    var b := MemBackend(history, [], []);
    PermittedIffAllPass(SimulateStages(), lib, b, call, row, pol);
    PermittedIffHolds(history, pol.tools[call.tool].sequencing);
    assert SimulateStages()[3] == Sequence;
    SequenceRefuses(lib, pol, history, call, row);
  }

  lemma BlockedWhenMissing(lib: Library, pol: Policy, history: seq<Entry>, call: Call, row: Session, d: string)
    requires Blocks(pol, call.tool) && d in OnlyAfter(pol, call.tool) && ExecCount(history, d) == 0
    ensures !Executed(Pipeline(SimulateStages(), lib, MemBackend(history, [], []), call, row, pol).action)
  {
    hide EffectiveMode, SimulateStages, Pipeline, OnlyAfter;
    MissingRefuses(lib, pol, history, call, row, d);
    ShadowOnlyInShadow(SimulateStages(), lib, MemBackend(history, [], []), call, row, pol);
  }

  lemma SequenceRefuses(lib: Library, pol: Policy, history: seq<Entry>, call: Call, row: Session)
    requires call.tool in pol.tools && SequenceDecision(history, pol.tools[call.tool].sequencing).action != Allow
    ensures !Passes(Sequence, lib, MemBackend(history, [], []), call, row, pol)
  {
    hide NotYet, Already;
  }

  lemma {:induction false} ShadowOnlyInShadow(stages: seq<Stage>, lib: Library, b: Backend, call: Call, row: Session,
      pol: Policy)
    requires Blocks(pol, call.tool)
    ensures Pipeline(stages, lib, b, call, row, pol).action != ShadowDeny
  {
    hide EvalEnv, EvalMayUse, EvalDelegation, EvalBudget, EvalTaint, EvalSequence, EvalContent, EvalRate,
        EvalEscalation;
    if |stages| > 0 {
      ShadowOnlyInShadow(stages[1..], lib, b, call, row, pol);
    }
  }

  /** No tool on the cycle is executed in the session's memory. */
  ghost predicate CycleIdle(m: Memory, w: seq<string>) {
    forall i :: 0 <= i < |m.history| && m.history[i].tool in w ==> !Executed(m.history[i].decision)
  }

  lemma IdleRefuses(lib: Library, pol: Policy, past: seq<Timed>, call: Call, w: seq<string>)
    requires Deadlocks(pol, w) && call.tool in w && CycleIdle(Ready(lib, SimulateStages(), pol, past, call), w)
    ensures !Executed(DecisionAfter(lib, SimulateStages(), pol, past, call).action)
  {
    hide Ready, Pipeline, ClosedWalk;
    var m := Ready(lib, SimulateStages(), pol, past, call);
    var d := NextOnCycle(pol, w, call.tool);
    CountNone(m.history, ExecutedOf(d));
    BlockedWhenMissing(lib, pol, m.history, call, m.row, d);
  }

  lemma {:induction false} CycleNeverSimulated(lib: Library, pol: Policy, calls: seq<Timed>, w: seq<string>)
    requires Deadlocks(pol, w)
    ensures |calls| > 0 ==> CycleIdle(MemoryAfter(lib, SimulateStages(), pol, calls), w)
    ensures forall r :: r in SessionRecords(lib, SimulateStages(), pol, calls) && r.tool in w ==> !Executed(r.decision)
  {
    hide DecisionAfter, Charged, Deadlocks;
    if |calls| > 0 {
      var front, last := calls[..|calls| - 1], calls[|calls| - 1];
      CycleNeverSimulated(lib, pol, front, w);
      if last.call.tool in w {
        IdleRefuses(lib, pol, front, last.call, w);
      }
    }
  }

  /** No tool on the walk has been called in the session. */
  ghost predicate WalkUntouched(m: Memory, w: seq<string>) {
    forall i :: 0 <= i < |m.history| ==> m.history[i].tool !in w
  }

  lemma UntouchedRefuses(lib: Library, pol: Policy, past: seq<Timed>, call: Call, w: seq<string>)
    requires ClosedWalk(pol, w) && call.tool in w && WalkUntouched(Ready(lib, SimulateStages(), pol, past, call), w)
    ensures DecisionAfter(lib, SimulateStages(), pol, past, call).action != Allow
  {
    hide Ready, Pipeline, ClosedWalk;
    var m := Ready(lib, SimulateStages(), pol, past, call);
    var d := NextOnCycle(pol, w, call.tool);
    CountNone(m.history, ExecutedOf(d));
    MissingRefuses(lib, pol, m.history, call, m.row, d);
  }

  ghost predicate AllAllowed(records: seq<Record>) {
    forall r :: r in records ==> r.decision == Allow
  }

  /** In any mode: a session whose calls are all permitted never calls a tool on a cycle. */
  lemma {:induction false} CycleNeverPermitted(lib: Library, pol: Policy, calls: seq<Timed>, w: seq<string>)
    requires ClosedWalk(pol, w) && AllAllowed(SessionRecords(lib, SimulateStages(), pol, calls))
    ensures |calls| > 0 ==> WalkUntouched(MemoryAfter(lib, SimulateStages(), pol, calls), w)
    ensures forall t :: t in calls ==> t.call.tool !in w
  {
    hide DecisionAfter, Charged, ClosedWalk;
    if |calls| > 0 {
      var front, last := calls[..|calls| - 1], calls[|calls| - 1];
      var records := SessionRecords(lib, SimulateStages(), pol, calls);
      assert records[|front|] in records;
      assert forall r :: r in SessionRecords(lib, SimulateStages(), pol, front) ==> r in records;
      CycleNeverPermitted(lib, pol, front, w);
      if last.call.tool in w {
        UntouchedRefuses(lib, pol, front, last.call, w);
      }
      assert calls == front + [last];
    }
  }

  /** Lint means liveness. For a policy whose only guards are may_use and only_after, in any enforcement modes,
      and on which L002 and L003 report nothing: every tool of may_use ends some trace that is permitted
      throughout, exactly when L013 reports nothing. */
  lemma LintMeansLiveness(lib: Library, pol: Policy)
    requires OrderOnly(pol) && DeclaredToolsUsable(pol)
    ensures (forall t :: t in pol.mayUse ==> Reachable(lib, pol, t)) <==> !HasCycle(pol)
  {
    hide SessionRecords, Reachable, OrderOnly;
    if HasCycle(pol) {
      var w :| ClosedWalk(pol, w);
      CycleUsable(pol, w);
      Unreachable(lib, pol, w);
      assert w[0] in w;
    } else {
      forall t | t in pol.mayUse
        ensures Reachable(lib, pol, t)
      {
        AcyclicReachable(lib, pol, t);
      }
    }
  }

  lemma CycleUsable(pol: Policy, w: seq<string>)
    requires DeclaredToolsUsable(pol) && ClosedWalk(pol, w)
    ensures forall t :: t in w ==> t in pol.mayUse
  {
    forall t | t in w
      ensures t in pol.mayUse
    {
      var d := NextOnCycle(pol, w, t);
      assert t in Nodes(pol);
    }
  }

  /** In any mode, no tool on a cycle ends a trace that is permitted throughout. */
  lemma Unreachable(lib: Library, pol: Policy, w: seq<string>)
    requires ClosedWalk(pol, w)
    ensures forall t :: t in w ==> !Reachable(lib, pol, t)
  {
    hide ClosedWalk, SessionRecords;
    forall trace: seq<TraceEntry> | |trace| > 0 && trace[|trace| - 1].tool in w
      ensures exists r :: r in SessionRecords(lib, SimulateStages(), pol, Map(trace, ToTimed())) && r.decision != Allow
    {
      NotReached(lib, pol, w, trace);
    }
  }

  lemma NotReached(lib: Library, pol: Policy, w: seq<string>, trace: seq<TraceEntry>)
    requires ClosedWalk(pol, w) && |trace| > 0 && trace[|trace| - 1].tool in w
    ensures exists r :: r in SessionRecords(lib, SimulateStages(), pol, Map(trace, ToTimed())) && r.decision != Allow
  {
    hide ClosedWalk, SessionRecords;
    var calls := Map(trace, ToTimed());
    assert calls[|calls| - 1] in calls && calls[|calls| - 1].call.tool == trace[|trace| - 1].tool;
    if AllAllowed(SessionRecords(lib, SimulateStages(), pol, calls)) {
      CycleNeverPermitted(lib, pol, calls, w);
    }
  }

  // ---- the deadlock needs block mode on the whole cycle

  lemma CoreNeverFails(stage: Stage, lib: Library, history: seq<Entry>, call: Call, row: Session, pol: Policy)
    requires IsCore()(stage)
    ensures EvalStage(stage, lib, MemBackend(history, [], []), call, row, pol).Ok?
  {
    hide SequenceDecision, NeverWhenAny, NeverWhenAll, Triggered;
  }

  lemma {:induction false} ShadowPasses(stages: seq<Stage>, lib: Library, history: seq<Entry>, call: Call,
      row: Session, pol: Policy)
    requires !Blocks(pol, call.tool) && forall s :: s in stages ==> IsCore()(s)
    ensures Executed(Pipeline(stages, lib, MemBackend(history, [], []), call, row, pol).action)
  {
    hide EvalStage;
    if |stages| > 0 {
      assert forall s :: s in stages[1..] ==> s in stages;
      ShadowPasses(stages[1..], lib, history, call, row, pol);
      CoreNeverFails(stages[0], lib, history, call, row, pol);
    }
  }

  lemma ShadowRuns(lib: Library, pol: Policy, history: seq<Entry>, call: Call, row: Session)
    requires IsPlain(pol) && !Blocks(pol, call.tool) && call.parent == ""
    ensures Executed(Pipeline(SimulateStages(), lib, MemBackend(history, [], []), call, row, pol).action)
  {
    hide Pipeline, IsPlain, EffectiveMode, Executed;
    SharedCore();
    CoreDecides(SimulateStages(), lib, MemBackend(history, [], []), call, row, pol);
    ShadowPasses(CoreStages(), lib, history, call, row, pol);
  }

  lemma ShadowedToolRuns(lib: Library, pol: Policy, t: string)
    requires IsPlain(pol) && !Blocks(pol, t)
    ensures var calls := Map(Plan([t], "s", "a"), ToTimed());
            && |calls| == 1 && Root(calls[0]) && calls[0].call.tool == t
            && Executed(DecisionAfter(lib, SimulateStages(), pol, [], calls[0].call).action)
  {
    hide Pipeline, IsPlain, EffectiveMode, Executed, SimulateStages;
    var call := Map(Plan([t], "s", "a"), ToTimed())[0].call;
    ShadowRuns(lib, pol, [], call, NewSession(call.agent, pol.fingerprint));
  }

  /** For a plain policy, a cycle keeps its tools from ever executing exactly when all of them block. */
  lemma DeadlockIffBlocked(lib: Library, pol: Policy, w: seq<string>)
    requires IsPlain(pol) && ClosedWalk(pol, w)
    ensures (forall trace: seq<TraceEntry>, r ::
               r in SessionRecords(lib, SimulateStages(), pol, Map(trace, ToTimed())) && r.tool in w ==>
                   !Executed(r.decision))
            <==> forall t :: t in w ==> Blocks(pol, t)
  {
    hide ClosedWalk, IsPlain, DecisionAfter, EffectiveMode;
    if forall t :: t in w ==> Blocks(pol, t) {
      forall trace: seq<TraceEntry> {
        CycleNeverSimulated(lib, pol, Map(trace, ToTimed()), w);
      }
    } else {
      var t :| t in w && !Blocks(pol, t);
      ShadowedToolRuns(lib, pol, t);
      var trace := Plan([t], "s", "a");
      var calls := Map(trace, ToTimed());
      assert calls[..0] == [];
      var records := SessionRecords(lib, SimulateStages(), pol, calls);
      assert records[0] in records && records[0].tool == t && Executed(records[0].decision);
    }
  }
}
