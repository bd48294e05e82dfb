/** For which policies the taint stage is redundant over whole runs: alignment is necessary, too. */
module TaintNecessity {
  import opened Prelude
  import opened Policies
  import opened Database
  import opened Engine
  import opened PipelineLaws
  import opened SequenceChecks
  import opened Sequential
  import opened TaintRuns
  import opened StageMeanings
  import opened PlainPolicies

  /** The only guards are may_use, never_after and taint; every declared tool may be used, and none has the
      name of the virtual tool. Modes are arbitrary. */
  ghost predicate ExclusionsOnly(pol: Policy) {
    && IsPlain(pol) && pol.budget.maxCalls <= 0 && pol.budget.maxCost <= 0
    && forall t :: t in pol.tools ==>
         && t in pol.mayUse && !IsVirtual(t)
         && |pol.tools[t].sequencing.onlyAfter| == 0 && pol.tools[t].sequencing.prior.None?
  }

  function RootCall(tool: string): Call {
    Call("s", "a", tool, "", "", "", 0)
  }

  lemma CorePasses(lib: Library, pol: Policy, db: Db, call: Call, row: Session, stage: Stage)
    requires ExclusionsOnly(pol) && call.tool in pol.tools && call.parent == ""
    requires NoForbidden(db.events, call.session, pol, call.tool) && stage != TaintGuard
    ensures Passes(stage, lib, StoreBackend(db, false), call, row, pol)
  {
    hide Passes, IsPlain, IsVirtual, NoForbidden;
    var b := StoreBackend(db, false);
    if !IsCore()(stage) {
      OthersPass(stage, lib, b, call, row, pol);
    } else if stage == Sequence {
      ExactHistory(lib, db, call, row, pol);
    } else {
      ExactSimple(lib, b, call, row, pol);
    }
  }

  /** A call whose never_after names nothing executed is permitted without the taint stage; with it, exactly
      if the taint stage passes. */
  lemma ExclusionsDecide(lib: Library, pol: Policy, db: Db, call: Call, row: Session)
    requires ExclusionsOnly(pol) && call.tool in pol.tools && call.parent == ""
    requires NoForbidden(db.events, call.session, pol, call.tool)
    ensures var b := StoreBackend(db, false);
            && Pipeline(WithoutTaint(), lib, b, call, row, pol) == Permit()
            && (Pipeline(Live(), lib, b, call, row, pol).action == Allow <==> EvalTaint(call, row, pol).action == Allow)
  {
    hide Passes, Pipeline, ExclusionsOnly, NoForbidden, EvalTaint;
    var b := StoreBackend(db, false);
    forall stage | stage != TaintGuard
      ensures Passes(stage, lib, b, call, row, pol)
    {
      CorePasses(lib, pol, db, call, row, stage);
    }
    PermittedIffAllPass(WithoutTaint(), lib, b, call, row, pol);
    PermittedIffAllPass(Live(), lib, b, call, row, pol);
    TaintPasses(lib, b, call, row, pol);
    assert Live()[4] == TaintGuard;
  }

  lemma TaintPasses(lib: Library, b: Backend, call: Call, row: Session, pol: Policy)
    ensures Passes(TaintGuard, lib, b, call, row, pol) <==> EvalTaint(call, row, pol).action == Allow
  {
    hide EvalTaint, NeverWhenAny, NeverWhenAll;
  }

  /** The database after a fresh session's first call, of the applying tool a: permitted, and tainted. */
  lemma FirstCall(lib: Library, pol: Policy, a: string, stages: seq<Stage>)
    requires ExclusionsOnly(pol) && a in TaintSources(pol) && (stages == Live() || stages == WithoutTaint())
    ensures var db := RunDb(lib, stages, pol, [Serve(RootCall(a), 0, "")]);
            && db.events == [EventRow(1, "s", a, "", Allow, NoRule, 0)]
            && "s" in db.sessions && db.sessions["s"].tainted && !db.sessions["s"].terminated
  {
    hide Pipeline, IsPlain, IsVirtual, MaxSeq;
    var call, item := RootCall(a), Serve(RootCall(a), 0, "");
    assert [item][..0] == [];
    assert !IsVirtual(a);
    var db := Opened(EMPTY, pol, call);
    ExclusionsDecide(lib, pol, db, call, Loaded(EMPTY, pol, call));
    PermittedIffAllPass(stages, lib, StoreBackend(db, false), call, Loaded(EMPTY, pol, call), pol);
    assert Decide(lib, stages, pol, EMPTY, call) == Permit();
    NoRowsMaxSeq("s");
  }

  lemma NoRowsMaxSeq(sid: string)
    ensures MaxSeq([], sid) == 0
  {
  }

  /** A second call, of a tool that forbids one source but not the one executed. */
  lemma SecondCall(lib: Library, pol: Policy, a: string, t: string)
    requires ExclusionsOnly(pol) && a in TaintSources(pol) && t in pol.tools && !pol.tools[t].taint.clears
    requires a !in NeverAfter(pol, t) && exists b :: b in TaintSources(pol) && b in NeverAfter(pol, t)
    ensures var items := [Serve(RootCall(a), 0, ""), Serve(RootCall(t), 0, "")];
            var live, without := RunDb(lib, Live(), pol, items).events, RunDb(lib, WithoutTaint(), pol, items).events;
            |live| == |without| == 2 && live[1].decision != Allow && without[1].decision == Allow
  {
    hide Pipeline, IsPlain, IsVirtual, MaxSeq, EvalStage;
    var first, call, items := [Serve(RootCall(a), 0, "")], RootCall(t),
        [Serve(RootCall(a), 0, ""), Serve(RootCall(t), 0, "")];
    assert items[..1] == first && !IsVirtual(t);
    FirstCall(lib, pol, a, Live());
    FirstCall(lib, pol, a, WithoutTaint());
    SecondDecides(lib, pol, a, t, RunDb(lib, Live(), pol, first));
    SecondDecides(lib, pol, a, t, RunDb(lib, WithoutTaint(), pol, first));
    ServeShape(lib, Live(), pol, RunDb(lib, Live(), pol, first), call, 0, "");
    ServeShape(lib, WithoutTaint(), pol, RunDb(lib, WithoutTaint(), pol, first), call, 0, "");
  }

  lemma SecondDecides(lib: Library, pol: Policy, a: string, t: string, db: Db)
    requires ExclusionsOnly(pol) && a in TaintSources(pol) && t in pol.tools && !pol.tools[t].taint.clears
    requires a !in NeverAfter(pol, t) && exists b :: b in TaintSources(pol) && b in NeverAfter(pol, t)
    requires db.events == [EventRow(1, "s", a, "", Allow, NoRule, 0)] && "s" in db.sessions && db.sessions["s"].tainted
    ensures Decide(lib, Live(), pol, db, RootCall(t)).action != Allow
    ensures Decide(lib, WithoutTaint(), pol, db, RootCall(t)).action == Allow
  {
    hide Pipeline, IsPlain, IsVirtual;
    var call := RootCall(t);
    forall x | x in NeverAfter(pol, t)
      ensures ExecutedCount(db.events, "s", x) == 0
    {
      CountNone(db.events, ExecutedRow("s", x));
    }
    ExclusionsDecide(lib, pol, Opened(db, pol, call), call, Loaded(db, pol, call));
  }

  lemma UnalignedDiffers(lib: Library, pol: Policy) returns (items: seq<Item>)
    requires ExclusionsOnly(pol) && !Aligned(pol)
    ensures !SameButRules(RunDb(lib, Live(), pol, items), RunDb(lib, WithoutTaint(), pol, items))
  {
    hide ExclusionsOnly, RunDb;
    var t, a, b :| t in pol.tools && !pol.tools[t].taint.clears
      && a in TaintSources(pol) && a !in NeverAfter(pol, t) && b in TaintSources(pol) && b in NeverAfter(pol, t);
    items := [Serve(RootCall(a), 0, ""), Serve(RootCall(t), 0, "")];
    SecondCall(lib, pol, a, t);
    var live, without := RunDb(lib, Live(), pol, items), RunDb(lib, WithoutTaint(), pol, items);
    if SameButRules(live, without) {
      SameRows(live.events, without.events);
    }
  }

  /** For policies whose only guards are may_use, never_after and taint, in any modes: dropping the taint stage
      changes no run exactly if the policy is aligned. */
  lemma RedundantIffAligned(lib: Library, pol: Policy)
    requires ExclusionsOnly(pol)
    ensures (forall items :: SameButRules(RunDb(lib, Live(), pol, items), RunDb(lib, WithoutTaint(), pol, items)))
            <==> Aligned(pol)
  {
    hide ExclusionsOnly, RunDb, Aligned, SameButRules;
    if Aligned(pol) {
      forall items {
        TaintStageRedundancy(lib, pol, items);
      }
    } else {
      var items := UnalignedDiffers(lib, pol);
    }
  }
}
