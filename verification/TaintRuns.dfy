/** The taint flag over one-at-a-time runs: a fold over the session's rows, and when its stage is redundant. */
module TaintRuns {
  import opened Prelude
  import opened Policies
  import opened Database
  import opened Engine
  import opened SequenceChecks
  import opened PipelineLaws
  import opened Sequential

  predicate Applies(pol: Policy, tool: string) {
    tool in pol.tools && pol.tools[tool].taint.applies
  }

  predicate OnlyClears(pol: Policy, tool: string) {
    tool in pol.tools && pol.tools[tool].taint.clears && !pol.tools[tool].taint.applies
  }

  /** Row i is a permitted call, of the session, of a tool that applies taint. */
  predicate AppliesAt(pol: Policy, events: seq<EventRow>, sid: string, i: int)
    requires 0 <= i < |events|
  {
    events[i].session == sid && events[i].decision == Allow && Applies(pol, events[i].tool)
  }

  predicate ClearsAt(pol: Policy, events: seq<EventRow>, sid: string, i: int)
    requires 0 <= i < |events|
  {
    events[i].session == sid && events[i].decision == Allow && OnlyClears(pol, events[i].tool)
  }

  /** Some permitted applying call has no later permitted call that clears without applying. */
  ghost predicate TaintedBy(pol: Policy, events: seq<EventRow>, sid: string) {
    exists i :: 0 <= i < |events| && AppliesAt(pol, events, sid, i)
      && forall j :: i < j < |events| ==> !ClearsAt(pol, events, sid, j)
  }

  /** The stored flag of every session is what its rows say. */
  ghost predicate FlagsTold(pol: Policy, db: Db) {
    && (forall sid :: sid in db.sessions ==> (db.sessions[sid].tainted <==> TaintedBy(pol, db.events, sid)))
    && (forall i :: 0 <= i < |db.events| ==> db.events[i].session in db.sessions)
  }

  /** A new row moves the flag of its own session only, as TaintAfter says, and only when permitted. */
  lemma RowTaints(pol: Policy, events: seq<EventRow>, row: EventRow, sid: string)
    ensures TaintedBy(pol, events + [row], sid) <==>
            if row.session == sid && row.decision == Allow
            then TaintAfter(TaintedBy(pol, events, sid), pol, row.tool) else TaintedBy(pol, events, sid)
  {
    var after := events + [row];
    var n := |events|;
    assert forall i :: 0 <= i < n ==> after[i] == events[i];
    assert forall i :: 0 <= i < n ==>
        (AppliesAt(pol, after, sid, i) <==> AppliesAt(pol, events, sid, i))
        && (ClearsAt(pol, after, sid, i) <==> ClearsAt(pol, events, sid, i));
    if TaintedBy(pol, events, sid) && !ClearsAt(pol, after, sid, n) {
      var i :| 0 <= i < n && AppliesAt(pol, events, sid, i) && forall j :: i < j < n ==> !ClearsAt(pol, events, sid, j);
      assert AppliesAt(pol, after, sid, i);
      assert TaintedBy(pol, after, sid);
    }
    if AppliesAt(pol, after, sid, n) {
      assert TaintedBy(pol, after, sid);
    }
    if TaintedBy(pol, after, sid) && !AppliesAt(pol, after, sid, n) {
      var i :| 0 <= i < |after| && AppliesAt(pol, after, sid, i)
          && forall j :: i < j < |after| ==> !ClearsAt(pol, after, sid, j);
      assert AppliesAt(pol, events, sid, i);
      assert !ClearsAt(pol, after, sid, n);
    }
  }

  lemma NoRowsNoTaint(pol: Policy, events: seq<EventRow>, sid: string)
    requires forall i :: 0 <= i < |events| ==> events[i].session != sid
    ensures !TaintedBy(pol, events, sid)
  {
  }

  /** What a served call does to the rows and the sessions, apart from who decided. */
  lemma ServeShape(lib: Library, stages: seq<Stage>, pol: Policy, db: Db, call: Call, now: int, id: string)
    ensures var db' := ServeDb(lib, stages, pol, db, call, now, id);
            if IsVirtual(call.tool) then db' == db
            else if Loaded(db, pol, call).terminated then db' == Opened(db, pol, call)
            else
              var d := Decide(lib, stages, pol, db, call);
              && db'.events == db.events + [NewRow(db, call, d, now)]
              && db'.sessions == db.sessions[call.session := Charged(Loaded(db, pol, call), pol, call.tool, d.action)]
  {
    hide Pipeline, MaxSeq, Charged, Loaded, IsVirtual;
  }

  lemma ServeTells(lib: Library, stages: seq<Stage>, pol: Policy, db: Db, call: Call, now: int, id: string)
    requires FlagsTold(pol, db)
    ensures FlagsTold(pol, ServeDb(lib, stages, pol, db, call, now, id))
  {
    hide Decide, ServeDb, MaxSeq, TaintedBy, TaintAfter, IsVirtual;
    var db' := ServeDb(lib, stages, pol, db, call, now, id);
    ServeShape(lib, stages, pol, db, call, now, id);
    if call.session !in db.sessions {
      NoRowsNoTaint(pol, db.events, call.session);
    }
    if db'.events != db.events {
      forall sid {
        RowTaints(pol, db.events, NewRow(db, call, Decide(lib, stages, pol, db, call), now), sid);
      }
    }
  }

  /** Taint as a fold. In one-at-a-time, failure-free runs on one policy, the stored flag is set exactly
      when some permitted call of an applying tool has no later permitted call of a tool that clears
      without applying. Denied, escalated and shadow-denied calls never move it. */
  lemma {:induction false} TaintIsAFold(lib: Library, stages: seq<Stage>, pol: Policy, items: seq<Item>)
    ensures var db := RunDb(lib, stages, pol, items);
            && FlagsTold(pol, db)
            && forall sid :: sid in db.sessions ==> (db.sessions[sid].tainted <==> TaintedBy(pol, db.events, sid))
  {
    hide ServeDb, TaintedBy;
    if |items| > 0 {
      var front, item := items[..|items| - 1], items[|items| - 1];
      TaintIsAFold(lib, stages, pol, front);
      if item.Serve? {
        ServeTells(lib, stages, pol, RunDb(lib, stages, pol, front), item.call, item.now, item.id);
      }
    }
  }

  // ---- redundancy of the taint stage

  /** Every tool that is not a clearance tool forbids all taint-applying tools or none. */
  ghost predicate Aligned(pol: Policy) {
    forall t :: t in pol.tools && !pol.tools[t].taint.clears ==>
      || (forall a :: a in TaintSources(pol) ==> a in NeverAfter(pol, t))
      || (forall a :: a in TaintSources(pol) ==> a !in NeverAfter(pol, t))
  }

  /** A policy with exactly one taint-applying tool is aligned. */
  lemma OneSourceAligned(pol: Policy, source: string)
    requires TaintSources(pol) == {source}
    ensures Aligned(pol)
  {
  }

  /** The live pipeline without its taint stage. */
  function WithoutTaint(): seq<Stage> {
    [Env, MayUse, Delegation, BudgetLimit, Sequence, Content, Rate, Escalation]
  }

  /** For a session whose flag is what its rows tell: if the taint stage denies, the sequence stage denies as well. */
  lemma TaintStageImpliesSequence(pol: Policy, db: Db, call: Call, row: Session)
    requires Aligned(pol) && (row.tainted ==> TaintedBy(pol, db.events, call.session))
    requires EvalTaint(call, row, pol).action != Allow
    ensures EvalSequence(StoreBackend(db, false), call, pol).Ok?
    ensures EvalSequence(StoreBackend(db, false), call, pol).value.action == Deny
  {
    var i :| 0 <= i < |db.events| && AppliesAt(pol, db.events, call.session, i);
    var source := db.events[i].tool;
    assert source in TaintSources(pol) && source in NeverAfter(pol, call.tool);
    CountPositive(db.events, i, ExecutedRow(call.session, source));
    StageMeaning(db, call, pol);
  }

  lemma TaintStageIsRedundant(lib: Library, pol: Policy, db: Db, call: Call, row: Session)
    requires Aligned(pol) && FlagsTold(pol, db) && call.session in db.sessions && row == db.sessions[call.session]
    ensures var b := StoreBackend(db, false);
            Pipeline(Live(), lib, b, call, row, pol).action == Pipeline(WithoutTaint(), lib, b, call, row, pol).action
  {
    hide EvalEnv, EvalMayUse, EvalDelegation, EvalBudget, EvalTaint, EvalSequence, EvalContent, EvalRate,
        EvalEscalation, Pipeline;
    var b := StoreBackend(db, false);
    var front, back := [Env, MayUse, Delegation, BudgetLimit], [Sequence, Content, Rate, Escalation];
    assert Live() == front + ([TaintGuard] + back) && WithoutTaint() == front + back;
    PipelineAppend(front, [TaintGuard] + back, lib, b, call, row, pol);
    PipelineAppend(front, back, lib, b, call, row, pol);
    PipelineAppend([TaintGuard], back, lib, b, call, row, pol);
    assert back == [Sequence] + back[1..];
    PipelineAppend([Sequence], back[1..], lib, b, call, row, pol);
    OneStage(TaintGuard, lib, b, call, row, pol);
    OneStage(Sequence, lib, b, call, row, pol);
    if EvalTaint(call, row, pol).action != Allow {
      TaintStageImpliesSequence(pol, db, call, row);
      TaintOnlyDenies(call, row, pol);
    }
  }

  lemma TaintOnlyDenies(call: Call, row: Session, pol: Policy)
    ensures EvalTaint(call, row, pol).action in {Allow, Deny}
  {
  }

  /** Alignment is exactly what the argument needs: for any other policy some session with a truthful
      flag is stopped by the taint stage although never_after forbids nothing it has executed. */
  lemma UnalignedIsNotImplied(pol: Policy) returns (db: Db, call: Call)
    requires !Aligned(pol)
    ensures FlagsTold(pol, db) && call.session in db.sessions
    ensures EvalTaint(call, db.sessions[call.session], pol).action == Deny
    ensures NoForbidden(db.events, call.session, pol, call.tool)
  {
    var t, a, b :| t in pol.tools && !pol.tools[t].taint.clears
      && a in TaintSources(pol) && a !in NeverAfter(pol, t) && b in TaintSources(pol) && b in NeverAfter(pol, t);
    var row := EventRow(1, "s", a, "", Allow, NoRule, 0);
    db := Db(map["s" := Session("", "", true, 1, 1, false)], [row], map[], map[]);
    call := Call("s", "", t, "", "", "", 0);
    assert AppliesAt(pol, db.events, "s", 0);
    forall x | x in NeverAfter(pol, t)
      ensures ExecutedCount(db.events, "s", x) == 0
    {
      CountNone(db.events, ExecutedRow("s", x));
    }
  }

  // ---- two runs in lockstep

  function Unruled(e: EventRow): EventRow {
    e.(rule := NoRule)
  }

  /** Equal databases, but for the rule a row names. */
  predicate SameButRules(a: Db, b: Db) {
    a.sessions == b.sessions && a.escalations == b.escalations && a.agents == b.agents
    && Map(a.events, Unruled) == Map(b.events, Unruled)
  }

  lemma SameRows(a: seq<EventRow>, b: seq<EventRow>)
    requires Map(a, Unruled) == Map(b, Unruled)
    ensures |a| == |b| && forall i :: 0 <= i < |a| ==> Unruled(a[i]) == Unruled(b[i])
  {
    assert |a| == |Map(a, Unruled)| == |Map(b, Unruled)| == |b|;
    assert forall i :: 0 <= i < |a| ==> Map(a, Unruled)[i] == Unruled(a[i]) && Map(b, Unruled)[i] == Unruled(b[i]);
  }

  /** No query and no seq depends on the rules. */
  lemma {:induction false} QueriesIgnoreRules(a: seq<EventRow>, b: seq<EventRow>, sid: string, tool: string, since: int)
    requires Map(a, Unruled) == Map(b, Unruled)
    ensures Map(SessionRows(a, sid), ToEntry) == Map(SessionRows(b, sid), ToEntry)
    ensures Count(a, ExecutedSince(sid, tool, since)) == Count(b, ExecutedSince(sid, tool, since))
    ensures MaxSeq(a, sid) == MaxSeq(b, sid)
  {
    SameRows(a, b);
    if |a| > 0 {
      var a', b', x, y := a[..|a| - 1], b[..|b| - 1], a[|a| - 1], b[|b| - 1];
      assert Unruled(x) == Unruled(y);
      assert Map(a', Unruled) == Map(b', Unruled);
      QueriesIgnoreRules(a', b', sid, tool, since);
      if x.session == sid {
        MapSnoc(SessionRows(a', sid), x, ToEntry);
        MapSnoc(SessionRows(b', sid), y, ToEntry);
      } else {
        assert SessionRows(a, sid) == SessionRows(a', sid) && SessionRows(b, sid) == SessionRows(b', sid);
      }
    }
  }

  lemma SequenceIgnoresRules(a: Db, b: Db, call: Call, pol: Policy)
    requires SameButRules(a, b)
    ensures EvalSequence(StoreBackend(a, false), call, pol) == EvalSequence(StoreBackend(b, false), call, pol)
  {
    hide SequenceDecision;
    QueriesIgnoreRules(a.events, b.events, call.session, call.tool, 0);
  }

  lemma RateIgnoresRules(a: Db, b: Db, call: Call, pol: Policy)
    requires SameButRules(a, b)
    ensures EvalRate(StoreBackend(a, false), call, pol) == EvalRate(StoreBackend(b, false), call, pol)
  {
    if call.tool in pol.tools && pol.tools[call.tool].rateLimit.Some? {
      var since := WindowStart(call, pol.tools[call.tool].rateLimit.value);
      QueriesIgnoreRules(a.events, b.events, call.session, call.tool, since);
    }
  }

  lemma StagesIgnoreRules(stage: Stage, lib: Library, a: Db, b: Db, call: Call, row: Session, pol: Policy)
    requires SameButRules(a, b)
    ensures EvalStage(stage, lib, StoreBackend(a, false), call, row, pol)
            == EvalStage(stage, lib, StoreBackend(b, false), call, row, pol)
  {
    hide Triggered, EvalSequence, EvalRate, EvalContent, EvalBudget, EvalTaint, EvalEnv, EvalMayUse, NeverWhenAny,
        NeverWhenAll;
    SequenceIgnoresRules(a, b, call, pol);
    RateIgnoresRules(a, b, call, pol);
  }

  lemma DecideInLockstep(lib: Library, pol: Policy, a: Db, b: Db, call: Call)
    requires Aligned(pol) && FlagsTold(pol, a) && SameButRules(a, b)
    ensures Decide(lib, Live(), pol, a, call).action == Decide(lib, WithoutTaint(), pol, b, call).action
  {
    hide Pipeline, EvalStage, Aligned, TaintedBy;
    var row, a', b' := Loaded(a, pol, call), Opened(a, pol, call), Opened(b, pol, call);
    OpenedTold(pol, a, call);
    TaintStageIsRedundant(lib, pol, a', call, row);
    forall i | 0 <= i < |WithoutTaint()| {
      StagesIgnoreRules(WithoutTaint()[i], lib, a', b', call, row, pol);
    }
    SameAnswers(WithoutTaint(), lib, StoreBackend(a', false), StoreBackend(b', false), call, call, row, row, pol);
  }

  lemma ConcludeInLockstep(pol: Policy, a: Db, b: Db, call: Call, d: Decision, d': Decision, now: int, id: string)
    requires SameButRules(a, b) && d.action == d'.action
    ensures SameButRules(Concluded(pol, a, call, d, now, id), Concluded(pol, b, call, d', now, id))
  {
    hide MaxSeq, Charged;
    QueriesIgnoreRules(a.events, b.events, call.session, call.tool, 0);
    MapSnoc(a.events, NewRow(a, call, d, now), Unruled);
    MapSnoc(b.events, NewRow(b, call, d', now), Unruled);
  }

  lemma ServeInLockstep(lib: Library, pol: Policy, a: Db, b: Db, call: Call, now: int, id: string)
    requires Aligned(pol) && FlagsTold(pol, a) && SameButRules(a, b)
    ensures SameButRules(ServeDb(lib, Live(), pol, a, call, now, id),
        ServeDb(lib, WithoutTaint(), pol, b, call, now, id))
  {
    hide Decide, Concluded, IsVirtual;
    DecideInLockstep(lib, pol, a, b, call);
    ConcludeInLockstep(pol, a, b, call, Decide(lib, Live(), pol, a, call), Decide(lib, WithoutTaint(), pol, b, call),
        now, id);
  }

  lemma OpenedTold(pol: Policy, db: Db, call: Call)
    requires FlagsTold(pol, db)
    ensures FlagsTold(pol, Opened(db, pol, call))
  {
    if call.session !in db.sessions {
      NoRowsNoTaint(pol, db.events, call.session);
    }
  }

  /** The taint stage is redundant for an aligned policy, in particular for one with a single
      taint-applying tool: dropping it from the pipeline changes no decision's action, no event but for
      the rule it names, and no other state, over any one-at-a-time, failure-free run in any modes. */
  lemma {:induction false} TaintStageRedundancy(lib: Library, pol: Policy, items: seq<Item>)
    requires Aligned(pol)
    ensures SameButRules(RunDb(lib, Live(), pol, items), RunDb(lib, WithoutTaint(), pol, items))
  {
    hide ServeDb, FlagsTold, Aligned;
    if |items| > 0 {
      var front, item := items[..|items| - 1], items[|items| - 1];
      TaintStageRedundancy(lib, pol, front);
      TaintIsAFold(lib, Live(), pol, front);
      if item.Serve? {
        ServeInLockstep(lib, pol, RunDb(lib, Live(), pol, front), RunDb(lib, WithoutTaint(), pol, front),
                        item.call, item.now, item.id);
      }
    }
  }
}
