/** One-at-a-time schedules never have two calls in flight, so the limits hold on them exactly. */
module SequentialBounds {
  import opened Prelude
  import opened Policies
  import opened Database
  import opened Engine
  import opened Protocol
  import opened Frame
  import opened Recording
  import opened Ordering
  import opened Conservation
  import opened BudgetBound
  import opened RateWindow
  import opened PolicyBinding
  import opened Sequential
  import opened OneAtATimeRuns

  /** All requests but the last have been answered. */
  ghost predicate OneOpen(s: State) {
    forall i :: 0 <= i < |s.reqs| - 1 ==> s.reqs[i].pc.Done?
  }

  ghost predicate NoneOpen(s: State) {
    forall i :: 0 <= i < |s.reqs| ==> s.reqs[i].pc.Done?
  }

  lemma {:induction false} RepeatMovesOne(cfg: Config, s: State, k: nat, now: int, id: string, n: nat)
    requires AllOk(s) && k < |s.reqs|
    ensures var t := Run(cfg, s, Repeat(Advance(k, false, now, id), n));
            AllOk(t) && |t.reqs| == |s.reqs| && forall i :: 0 <= i < |s.reqs| && i != k ==> t.reqs[i] == s.reqs[i]
  {
    hide Apply, RequestOk, Keeps, Flow, Records;
    if n > 0 {
      RepeatMovesOne(cfg, s, k, now, id, n - 1);
      var step := Advance(k, false, now, id);
      assert Repeat(step, n)[..n - 1] == Repeat(step, n - 1);
      StepFrame(cfg, Run(cfg, s, Repeat(step, n - 1)), step);
    }
  }

  /** While a call is served, it is the only one open. */
  lemma ServingIsAlone(cfg: Config, s: State, call: Call, now: int, id: string, m: nat)
    requires AllOk(s) && NoneOpen(s) && m <= |ItemSteps(Serve(call, now, id), |s.reqs|)|
    ensures var t := Run(cfg, s, ItemSteps(Serve(call, now, id), |s.reqs|)[..m]); AllOk(t) && OneOpen(t)
    ensures m > 0 ==> |Run(cfg, s, ItemSteps(Serve(call, now, id), |s.reqs|)[..m]).reqs| == |s.reqs| + 1
  {
    hide Run, Move, RequestOk, Keeps, Flow, Records;
    var k, steps := |s.reqs|, ItemSteps(Serve(call, now, id), |s.reqs|);
    if m == 0 {
      NoSteps(cfg, s);
      assert steps[..0] == [];
    } else {
      var arrive, advance := Arrive(call), Advance(k, false, now, id);
      assert steps[..m] == [arrive] + Repeat(advance, m - 1);
      RunAppend(cfg, s, [arrive], Repeat(advance, m - 1));
      OneStepRun(cfg, s, arrive);
      StepFrame(cfg, s, arrive);
      RepeatMovesOne(cfg, Apply(cfg, s, arrive), k, now, id, m - 1);
    }
  }

  lemma NoSteps(cfg: Config, s: State)
    ensures Run(cfg, s, []) == s
  {
  }

  /** Verdicts and registrations open nothing. */
  lemma OperatorIsAlone(cfg: Config, s: State, item: Item, m: nat)
    requires AllOk(s) && NoneOpen(s) && !item.Serve? && m <= |ItemSteps(item, |s.reqs|)|
    ensures var t := Run(cfg, s, ItemSteps(item, |s.reqs|)[..m]); AllOk(t) && NoneOpen(t)
  {
    hide Run, Apply, RequestOk;
    var steps := ItemSteps(item, |s.reqs|);
    NoSteps(cfg, s);
    if m == 0 {
      assert steps[..m] == [];
    } else {
      assert steps[..m] == [steps[0]];
      OneStepRun(cfg, s, steps[0]);
      StepFrame(cfg, s, steps[0]);
    }
  }

  lemma ItemCloses(cfg: Config, s: State, pol: Policy, item: Item)
    requires AllOk(s) && NoneOpen(s) && OnePolicy(s, pol)
    ensures var t := Run(cfg, s, ItemSteps(item, |s.reqs|)); AllOk(t) && NoneOpen(t)
  {
    hide Run, ItemSteps, RequestOk, OnePolicy, ServeDb, ItemAudit;
    var steps := ItemSteps(item, |s.reqs|);
    assert steps[..|steps|] == steps;
    if item.Serve? {
      ServeHasSteps(item, |s.reqs|);
      ServingIsAlone(cfg, s, item.call, item.now, item.id, |steps|);
      ServeRuns(cfg, s, pol, item.call, item.now, item.id);
    } else {
      OperatorIsAlone(cfg, s, item, |steps|);
    }
  }

  lemma ServeHasSteps(item: Item, k: nat)
    requires item.Serve?
    ensures |ItemSteps(item, k)| > 0
  {
  }

  lemma {:induction false} ScheduleCloses(cfg: Config, pol: Policy, items: seq<Item>)
    ensures var s := Run(cfg, Initial(pol), Schedule(items)); AllOk(s) && NoneOpen(s)
  {
    hide Run, ItemSteps, RequestOk, OnePolicy, RunDb;
    if |items| == 0 {
      NoSteps(cfg, Initial(pol));
    } else {
      var front, item := items[..|items| - 1], items[|items| - 1];
      ScheduleCloses(cfg, pol, front);
      SequentialIsARun(cfg, pol, front);
      RunAppend(cfg, Initial(pol), Schedule(front), ItemSteps(item, Arrivals(front)));
      ItemCloses(cfg, Run(cfg, Initial(pol), Schedule(front)), pol, item);
    }
  }

  /** At every point of a one-at-a-time schedule, all calls but the last to arrive have been answered. */
  lemma {:induction false} OneOpenThroughout(cfg: Config, pol: Policy, items: seq<Item>, n: nat)
    requires n <= |Schedule(items)|
    ensures OneOpen(At(cfg, pol, Schedule(items), n))
  {
    hide Run, ItemSteps, RequestOk, OnePolicy, RunDb;
    if |items| == 0 {
      NoSteps(cfg, Initial(pol));
    } else {
      var front, item := items[..|items| - 1], items[|items| - 1];
      var before, own := Schedule(front), ItemSteps(item, Arrivals(front));
      assert Schedule(items) == before + own;
      if n <= |before| {
        OneOpenThroughout(cfg, pol, front, n);
        assert Schedule(items)[..n] == before[..n];
      } else {
        var m := n - |before|;
        assert Schedule(items)[..n] == before + own[..m];
        RunAppend(cfg, Initial(pol), before, own[..m]);
        ScheduleCloses(cfg, pol, front);
        SequentialIsARun(cfg, pol, front);
        var s := Run(cfg, Initial(pol), before);
        if item.Serve? {
          ServingIsAlone(cfg, s, item.call, item.now, item.id, m);
        } else {
          OperatorIsAlone(cfg, s, item, m);
        }
      }
    }
  }

  lemma CountAtMostOne(reqs: seq<Request>, p: Request -> bool)
    requires forall i :: 0 <= i < |reqs| - 1 ==> !p(reqs[i])
    ensures Count(reqs, p) <= 1
  {
    if |reqs| > 0 {
      forall x | x in reqs[..|reqs| - 1]
        ensures !p(x)
      {
      }
      CountNone(reqs[..|reqs| - 1], p);
    }
  }

  lemma AtMostOneInFlight(cfg: Config, pol: Policy, items: seq<Item>, n: nat, sid: string, tool: string)
    requires n <= |Schedule(items)|
    ensures var reqs := At(cfg, pol, Schedule(items), n).reqs;
            && Count(reqs, InEvaluation(sid)) <= 1 && Count(reqs, Holding(sid)) <= 1
                && Count(reqs, Racing(sid, tool)) <= 1
  {
    hide At, Schedule;
    OneOpenThroughout(cfg, pol, items, n);
    var reqs := At(cfg, pol, Schedule(items), n).reqs;
    CountAtMostOne(reqs, InEvaluation(sid));
    CountAtMostOne(reqs, Holding(sid));
    CountAtMostOne(reqs, Racing(sid, tool));
  }

  lemma {:induction false} ScheduleReloadsNothing(items: seq<Item>)
    ensures forall i :: 0 <= i < |Schedule(items)| ==> !Schedule(items)[i].Restart? && !Schedule(items)[i].ReloadCache?
  {
    if |items| > 0 {
      ScheduleReloadsNothing(items[..|items| - 1]);
    }
  }

  /** No other policy is ever used. */
  lemma OnlyThisPolicy(cfg: Config, pol: Policy, items: seq<Item>, n: nat)
    requires n <= |Schedule(items)|
    ensures var s := At(cfg, pol, Schedule(items), n);
            forall i :: 0 <= i < |s.reqs| && s.reqs[i].pol.Some? ==> s.reqs[i].pol.value == pol
  {
    hide At, Schedule;
    ScheduleReloadsNothing(items);
    AtLoaded(cfg, pol, Schedule(items), n);
  }

  // ---- the limits, exactly

  /** In a one-at-a-time run on a policy that blocks the violations of every tool, the call limit and the cost
      limit are never exceeded. */
  lemma SequentialBudget(cfg: Config, pol: Policy, items: seq<Item>, sid: string, limit: nat)
    requires limit > 0 && CapsAt(pol, limit) && forall t :: Blocks(pol, t)
    ensures var s := At(cfg, pol, Schedule(items), |Schedule(items)|);
            Calls(s.db, sid) <= limit && Cost(s.db, sid) <= COST_PER_CALL * limit
  {
    hide At, Schedule, EffectiveMode;
    forall n | 0 <= n <= |Schedule(items)|
      ensures Count(At(cfg, pol, Schedule(items), n).reqs, Holding(sid)) <= 1
              && Capped(At(cfg, pol, Schedule(items), n), sid, limit)
    {
      AtMostOneInFlight(cfg, pol, items, n, sid, "");
      OnlyThisPolicy(cfg, pol, items, n);
    }
    BudgetIsExactOneAtATime(cfg, pol, Schedule(items), sid, limit);
  }

  /** In a one-at-a-time run no permitted call follows an executed call of a tool its never_after names. */
  lemma SequentialNeverAfter(cfg: Config, pol: Policy, items: seq<Item>, i: nat, j: nat)
    requires var events := At(cfg, pol, Schedule(items), |Schedule(items)|).db.events;
             && i < j < |events| && events[i].session == events[j].session
             && Executed(events[i].decision) && events[j].decision == Allow
    ensures var events := At(cfg, pol, Schedule(items), |Schedule(items)|).db.events;
            events[i].tool !in NeverAfter(pol, events[j].tool)
  {
    hide At, Schedule, RequestOk, SeqDense;
    var steps := Schedule(items);
    var sid := At(cfg, pol, steps, |steps|).db.events[j].session;
    forall n | 0 <= n <= |steps|
      ensures Count(At(cfg, pol, steps, n).reqs, InEvaluation(sid)) <= 1
    {
      AtMostOneInFlight(cfg, pol, items, n, sid, "");
    }
    NeverAfterSafety(cfg, pol, steps, sid, i, j);
    OnlyThisPolicy(cfg, pol, items, |steps|);
  }

  // ---- the rate limit

  /** Calls are recorded no earlier than they were requested. */
  ghost predicate TimelyItems(items: seq<Item>) {
    forall i :: 0 <= i < |items| && items[i].Serve? ==> items[i].call.requestedAt <= items[i].now
  }

  /** A row carries the time of the step that wrote it. */
  lemma AppendStamps(s: State, i: nat, fail: bool, now: int)
    requires i < |s.reqs|
    ensures var s' := MoveAppend(s, i, fail, now);
            s'.db.events == s.db.events
            || (|s'.db.events| == |s.db.events| + 1 && s'.db.events[|s.db.events|].recordedAt == now)
  {
    hide MaxSeq;
  }

  lemma StepClock(cfg: Config, s: State, step: Step)
    requires Sound(s) && ClockOk(s)
    requires step.Advance? && step.i < |s.reqs| ==> s.reqs[step.i].call.requestedAt <= step.now
    ensures ClockOk(Apply(cfg, s, step))
  {
    hide MoveLoad, MoveCreate, MoveResolve, MoveAppend, MoveAudit, MoveTaint, MoveSettle, EvalOne, MaxSeq, RequestOk,
        Flow;
    StepFrame(cfg, s, step);
    SteppedGrows(s, step, Apply(cfg, s, step));
    var s' := Apply(cfg, s, step);
    if step.Advance? && step.i < |s.reqs| && s.reqs[step.i].pc.Append? {
      AppendStamps(s, step.i, step.fail, step.now);
    }
    forall j | 0 <= j < |s'.writers|
      ensures s'.writers[j] < |s'.reqs| && s'.reqs[s'.writers[j]].call.requestedAt <= s'.db.events[j].recordedAt
    {
      if j < |s.writers| {
        assert s'.writers[..|s.writers|][j] == s.writers[j] && s'.db.events[..|s.writers|][j] == s.db.events[j];
      }
    }
  }

  lemma {:induction false} RepeatClock(cfg: Config, s: State, k: nat, now: int, id: string, n: nat)
    requires Sound(s) && ClockOk(s) && k < |s.reqs| && s.reqs[k].call.requestedAt <= now
    ensures var t := Run(cfg, s, Repeat(Advance(k, false, now, id), n));
            Sound(t) && ClockOk(t) && k < |t.reqs| && t.reqs[k].call == s.reqs[k].call
  {
    hide Apply, RequestOk, ClockOk, SeqDense, Wrote, Flow, Records;
    if n > 0 {
      RepeatClock(cfg, s, k, now, id, n - 1);
      var step := Advance(k, false, now, id);
      assert Repeat(step, n)[..n - 1] == Repeat(step, n - 1);
      var t := Run(cfg, s, Repeat(step, n - 1));
      StepFrame(cfg, t, step);
      SteppedSound(t, step, Apply(cfg, t, step));
      StepClock(cfg, t, step);
    }
  }

  lemma OtherStepClock(cfg: Config, s: State, step: Step)
    requires Sound(s) && ClockOk(s) && !step.Advance?
    ensures Sound(Apply(cfg, s, step)) && ClockOk(Apply(cfg, s, step))
  {
    hide Apply, RequestOk, ClockOk, SeqDense, Wrote;
    StepFrame(cfg, s, step);
    SteppedSound(s, step, Apply(cfg, s, step));
    StepClock(cfg, s, step);
  }

  lemma ItemClock(cfg: Config, s: State, item: Item, m: nat)
    requires Sound(s) && ClockOk(s) && m <= |ItemSteps(item, |s.reqs|)|
    requires item.Serve? ==> item.call.requestedAt <= item.now
    ensures var t := Run(cfg, s, ItemSteps(item, |s.reqs|)[..m]); Sound(t) && ClockOk(t)
  {
    hide Run, Move, RequestOk, ClockOk, SeqDense, Wrote;
    var steps := ItemSteps(item, |s.reqs|);
    NoSteps(cfg, s);
    if m == 0 {
      assert steps[..0] == [];
    } else {
      OneStepRun(cfg, s, steps[0]);
      OtherStepClock(cfg, s, steps[0]);
      if item.Serve? {
        var rest := Repeat(Advance(|s.reqs|, false, item.now, item.id), m - 1);
        assert steps[..m] == [steps[0]] + rest;
        RunAppend(cfg, s, [steps[0]], rest);
        RepeatClock(cfg, Apply(cfg, s, steps[0]), |s.reqs|, item.now, item.id, m - 1);
      } else {
        assert steps[..m] == [steps[0]];
      }
    }
  }

  lemma StartsOnTime(pol: Policy)
    ensures Sound(Initial(pol)) && ClockOk(Initial(pol))
  {
  }

  lemma {:induction false} ClockThroughout(cfg: Config, pol: Policy, items: seq<Item>, n: nat)
    requires n <= |Schedule(items)| && TimelyItems(items)
    ensures Sound(At(cfg, pol, Schedule(items), n)) && ClockOk(At(cfg, pol, Schedule(items), n))
  {
    hide Run, ItemSteps, RequestOk, OnePolicy, RunDb, ClockOk, Sound;
    StartsOnTime(pol);
    NoSteps(cfg, Initial(pol));
    if |items| > 0 {
      var front, item := items[..|items| - 1], items[|items| - 1];
      var before, own := Schedule(front), ItemSteps(item, Arrivals(front));
      assert Schedule(items) == before + own;
      if n <= |before| {
        ClockThroughout(cfg, pol, front, n);
        assert Schedule(items)[..n] == before[..n];
      } else {
        var m := n - |before|;
        assert Schedule(items)[..n] == before + own[..m];
        RunAppend(cfg, Initial(pol), before, own[..m]);
        ClockThroughout(cfg, pol, front, |before|);
        assert before[..|before|] == before;
        SequentialIsARun(cfg, pol, front);
        ItemClock(cfg, Run(cfg, Initial(pol), before), item, m);
      }
    } else {
      assert Schedule(items)[..n] == [];
    }
  }

  /** In a one-at-a-time run every closed interval of window_seconds holds at most max_calls executed events of
      a rate-limited tool whose violations are blocked; calls need only be recorded after they were requested. */
  lemma SequentialWindow(
    cfg: Config, pol: Policy, items: seq<Item>, sid: string, tool: string, rl: RateLimit, from: int, to: int)
    requires tool in pol.tools && pol.tools[tool].rateLimit == Some(rl) && Blocks(pol, tool) && TimelyItems(items)
    requires to - from <= rl.windowSeconds * NANOS_PER_SECOND && rl.maxCalls > 0
    ensures Count(At(cfg, pol, Schedule(items), |Schedule(items)|).db.events,
        InWindow(sid, tool, from, to)) <= rl.maxCalls
  {
    hide At, Schedule, EffectiveMode, ClockOk, Sound;
    forall n | 0 <= n <= |Schedule(items)|
      ensures var s := At(cfg, pol, Schedule(items), n);
              Count(s.reqs, Racing(sid, tool)) <= 1 && Limited(s, sid, tool, rl) && ClockOk(s)
    {
      AtMostOneInFlight(cfg, pol, items, n, sid, tool);
      OnlyThisPolicy(cfg, pol, items, n);
      ClockThroughout(cfg, pol, items, n);
    }
    SlidingWindow(cfg, pol, Schedule(items), sid, tool, rl, from, to, 1);
  }
}
