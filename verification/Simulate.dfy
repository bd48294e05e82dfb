/** `simulate` (cmd/simulate.go): a recorded trace is evaluated session by session on an in-memory store. */
module Simulate {
  import opened Prelude
  import opened Policies
  import opened Database
  import opened Engine
  import opened Evaluation
  import opened Offline
  import opened StoreObject
  import opened Sequential
  import opened SessionRuns
  import opened Grouping
  import opened OfflineMeaning

  /** A line of the trace file, its timestamp parsed to nanoseconds. */
  datatype TraceEntry = TraceEntry(session: string, agent: string, tool: string, args: string, requestedAt: int)

  datatype SimulateResult = SimulateResult(
    session: string, seqNo: nat, tool: string, newDecision: Action, oldDecision: Option<Action>, changed: bool)

  /** The stages of the simulated pipeline, in order. */
  function SimulateStages(): seq<Stage> {
    [MayUse, BudgetLimit, TaintGuard, Sequence, Rate, Escalation]
  }

  function SessionOf(): TraceEntry -> string {
    (e: TraceEntry) => e.session
  }

  /** The call an entry stands for; absent arguments become an empty object. */
  function ToTimed(): TraceEntry -> Timed {
    (e: TraceEntry) =>
      Timed(Call(e.session, e.agent, e.tool, if |e.args| == 0 then "{}" else e.args, "", "", e.requestedAt),
          e.requestedAt)
  }

  function ToResult(): Record -> SimulateResult {
    (o: Record) => SimulateResult(o.session, o.seqNo, o.tool, o.decision, None, false)
  }

  /** Evaluates the entries of one session. `w` is what the store and the earlier sessions amount to. */
  method EvaluateSession(
    st: Store, lib: Library, stages: seq<Stage>, pol: Policy, entries: seq<TraceEntry>, ghost w: World)
    returns (r: Result<seq<SimulateResult>>)
    requires st.Valid() && w.db == st.db
    requires forall e :: e in entries ==> e.session == entries[0].session
    requires |entries| > 0 ==> entries[0].session !in w.rows
    modifies st
    ensures st.Valid()
    ensures r.Error? <==> |entries| > 0 && entries[0].session in old(st.db).sessions
    ensures r.Ok? ==>
              var w' := Evaluated(lib, stages, pol, w, Map(entries, ToTimed()));
              st.db == w'.db && Map(w.records, ToResult()) + r.value == Map(w'.records, ToResult())
  {
    hide Evaluated, WorldStep, WorldDecision, SeqDense, Charged, Filter, Count;
    if |entries| == 0 {
      NothingEvaluated(lib, stages, pol, w);
      return Ok([]);
    }
    var sid, agent := entries[0].session, entries[0].agent;
    var created := st.CreateSession(sid, agent, pol.fingerprint, false);
    if !created {
      return Error;
    }
    var sess := new SessionState(NewSession(agent, pol.fingerprint));
    var results: seq<SimulateResult> := [];
    ghost var v := w;
    NothingEvaluated(lib, stages, pol, w);
    NoRowsYet(w.db, sid);
    for i := 0 to |entries|
      invariant st.Valid()
      invariant v == Evaluated(lib, stages, pol, w, Map(entries[..i], ToTimed()))
      invariant st.db == Known(v.db, pol, ToTimed()(entries[0]).call)
      invariant sess.row == WorldRow(v, pol, ToTimed()(entries[0]).call)
      invariant i == 0 <==> sid !in v.rows
      invariant i > 0 ==> sid in v.db.sessions
      invariant |SessionRows(v.db.events, sid)| == i
      invariant Map(w.records, ToResult()) + results == Map(v.records, ToResult())
    {
      var e := entries[i];
      assert e in entries;
      var t := ToTimed()(e);
      assert Map(entries[..i + 1], ToTimed()) == Map(entries[..i], ToTimed()) + [t];
      EvaluatedSnoc(lib, stages, pol, w, Map(entries[..i], ToTimed()), t);
      StepShape(lib, stages, pol, v, t);
      var ok, decision := EvaluateRecorded(st, lib, stages, pol, sess, t, v);
      if !ok {
        return Error;
      }
      v := WorldStep(lib, stages, pol, v, t);
      results := results + [SimulateResult(e.session, i + 1, e.tool, decision.action, None, false)];
    }
    assert entries[..|entries|] == entries;
    return Ok(results);
  }

  // ---- all sessions

  /** Evaluates the groups one after another on one fresh store. */
  method EvaluateAllSessions(lib: Library, pol: Policy, groups: seq<seq<TraceEntry>>)
    returns (r: Result<seq<SimulateResult>>)
    requires SessionGroups(groups, SessionOf())
    ensures r == Ok(Map(Evaluated(lib, SimulateStages(), pol, FRESH, Map(Flatten(groups), ToTimed())).records,
                        ToResult()))
  {
    hide Evaluated, WorldStep, KnowsOnly, Flatten, SeqDense;
    var st := new Store();
    var all: seq<SimulateResult> := [];
    ghost var w := FRESH;
    StartsEmpty(lib, SimulateStages(), pol, SessionOf(), ToTimed());
    for i := 0 to |groups|
      invariant st.Valid() && st.db == w.db
      invariant w == Evaluated(lib, SimulateStages(), pol, FRESH, Map(Flatten(groups[..i]), ToTimed()))
      invariant KnowsOnly(w, groups[..i], SessionOf())
      invariant all == Map(w.records, ToResult())
    {
      var group := groups[i];
      assert groups[..i] + [group] == groups[..i + 1];
      NewGroup(w, groups, SessionOf(), i);
      assert forall e :: e in group ==> SessionOf()(e) == e.session;
      FlattenMap(groups[..i], group, ToTimed());
      EvaluatedAppend(lib, SimulateStages(), pol, FRESH, Map(Flatten(groups[..i]), ToTimed()), Map(group, ToTimed()));
      GroupKnows(lib, SimulateStages(), pol, w, groups[..i], group, SessionOf(), ToTimed());
      var results := EvaluateSession(st, lib, SimulateStages(), pol, group, w);
      if results.Error? {
        return Error;
      }
      w := Evaluated(lib, SimulateStages(), pol, w, Map(group, ToTimed()));
      all := all + results.value;
    }
    assert groups[..|groups|] == groups;
    return Ok(all);
  }

  // ---- what a simulation computes

  function ResultOf(sid: string): SimulateResult -> bool {
    (r: SimulateResult) => r.session == sid
  }

  /** The results of one session evaluated alone. */
  function SimulatedAlone(lib: Library, pol: Policy, trace: seq<TraceEntry>, sid: string): seq<SimulateResult> {
    Map(SessionRecords(lib, SimulateStages(), pol, Map(Filter(trace, Keyed(SessionOf(), sid)), ToTimed())), ToResult())
  }

  /** In any order of the entries, a session's results are those of the session alone. */
  lemma EachSessionAlone(lib: Library, pol: Policy, entries: seq<TraceEntry>, sid: string)
    ensures Filter(Map(Evaluated(lib, SimulateStages(), pol, FRESH, Map(entries, ToTimed())).records, ToResult()),
        ResultOf(sid))
            == SimulatedAlone(lib, pol, entries, sid)
  {
    hide Evaluated, SessionRecords;
    var calls := Map(entries, ToTimed());
    NonInterference(lib, SimulateStages(), pol, calls, sid);
    var records := Evaluated(lib, SimulateStages(), pol, FRESH, calls).records;
    FilterThroughMap(records, ToResult(), RecordOf(sid), ResultOf(sid));
    FilterThroughMap(entries, ToTimed(), Keyed(SessionOf(), sid), CallOf(sid));
  }

  /** Grouping leaves each session its own entries. */
  lemma GroupedAlone(lib: Library, pol: Policy, trace: seq<TraceEntry>, sid: string)
    ensures var grouped := Flatten(Grouped(trace, SessionOf()));
            Filter(Map(Evaluated(lib, SimulateStages(), pol, FRESH, Map(grouped, ToTimed())).records, ToResult()),
                ResultOf(sid))
            == SimulatedAlone(lib, pol, trace, sid)
  {
    hide Evaluated, SessionRecords, FirstSeen;
    EachSessionAlone(lib, pol, Flatten(Grouped(trace, SessionOf())), sid);
    StablePartition(trace, SessionOf(), sid);
  }

  // ---- what each result says

  /** The entries so far as calls of the past, with the decisions reported for them. */
  function Reported(mine: seq<TraceEntry>, results: seq<SimulateResult>): seq<Entry>
    requires |mine| == |results|
  {
    seq(|mine|, i requires 0 <= i < |mine| => Entry(mine[i].tool, results[i].newDecision, mine[i].requestedAt))
  }

  /** The results of a session, line by line: the entry's tool and number, and the decision on it that the policy
      and the results reported before it give; absent arguments count as an empty object. */
  ghost predicate ResultsMean(lib: Library, pol: Policy, mine: seq<TraceEntry>, results: seq<SimulateResult>) {
    && |results| == |mine|
    && forall k :: 0 <= k < |mine| ==>
         && results[k].session == mine[k].session && results[k].tool == mine[k].tool && results[k].seqNo == k + 1
         && PastGives(lib, pol, true, mine[k].tool, if mine[k].args == "" then "{}" else mine[k].args,
              mine[k].requestedAt, Reported(mine[..k], results[..k]), results[k].newDecision)
  }

  lemma SimulatedMeans(lib: Library, pol: Policy, trace: seq<TraceEntry>, sid: string)
    ensures ResultsMean(lib, pol, Filter(trace, Keyed(SessionOf(), sid)), SimulatedAlone(lib, pol, trace, sid))
  {
    hide SessionRecords, PastGives, Filter;
    var mine := Filter(trace, Keyed(SessionOf(), sid));
    var calls := Map(mine, ToTimed());
    assert SimulateStages() == OfflineStages(true);
    var records, results := SessionRecords(lib, SimulateStages(), pol, calls), SimulatedAlone(lib, pol, trace, sid);
    forall k | 0 <= k < |mine|
      ensures Reported(mine[..k], results[..k]) == PastOf(calls[..k], records[..k])
    {
      assert forall i :: 0 <= i < k ==> calls[..k][i] == ToTimed()(mine[i]);
      assert forall i :: 0 <= i < k ==> results[..k][i] == ToResult()(records[i]);
    }
    forall k | 0 <= k < |mine| {
      RecordMeans(lib, true, pol, calls, k);
    }
  }

  /** The whole command. For every trace and every session, the results are those of the session's own
      entries, in file order, evaluated alone: each is the decision that the policy and the session's own past
      give. */
  method Simulate(lib: Library, pol: Policy, trace: seq<TraceEntry>) returns (results: seq<SimulateResult>)
    ensures forall sid :: Filter(results, ResultOf(sid)) == SimulatedAlone(lib, pol, trace, sid)
    ensures forall sid :: ResultsMean(lib, pol, Filter(trace, Keyed(SessionOf(), sid)), Filter(results, ResultOf(sid)))
    ensures |results| == |trace|
  {
    hide Evaluated, SessionRecords, FirstSeen, ResultsMean, SimulatedAlone;
    var groups := GroupBySession(trace, SessionOf());
    GroupedSessions(trace, SessionOf());
    var r := EvaluateAllSessions(lib, pol, groups);
    results := r.value;
    forall sid
      ensures Filter(results, ResultOf(sid)) == SimulatedAlone(lib, pol, trace, sid)
      ensures ResultsMean(lib, pol, Filter(trace, Keyed(SessionOf(), sid)), Filter(results, ResultOf(sid)))
    {
      GroupedAlone(lib, pol, trace, sid);
      SimulatedMeans(lib, pol, trace, sid);
    }
    Permutation(trace, SessionOf());
    assert |Flatten(groups)| == |multiset(Flatten(groups))| == |multiset(trace)| == |trace|;
    RecordsFollowCalls(lib, SimulateStages(), pol, Map(Flatten(groups), ToTimed()));
  }

  /** Grouping does not matter: session by session, the results are those of evaluating the interleaved
      trace in file order. */
  lemma FileOrderAgrees(lib: Library, pol: Policy, trace: seq<TraceEntry>, sid: string)
    ensures var grouped, inFileOrder := Map(Flatten(Grouped(trace, SessionOf())), ToTimed()), Map(trace, ToTimed());
            Filter(Evaluated(lib, SimulateStages(), pol, FRESH, grouped).records, RecordOf(sid))
            == Filter(Evaluated(lib, SimulateStages(), pol, FRESH, inFileOrder).records, RecordOf(sid))
  {
    hide Evaluated, SessionRecords;
    var grouped := Flatten(Grouped(trace, SessionOf()));
    StablePartition(trace, SessionOf(), sid);
    NonInterference(lib, SimulateStages(), pol, Map(grouped, ToTimed()), sid);
    NonInterference(lib, SimulateStages(), pol, Map(trace, ToTimed()), sid);
    FilterThroughMap(grouped, ToTimed(), Keyed(SessionOf(), sid), CallOf(sid));
    FilterThroughMap(trace, ToTimed(), Keyed(SessionOf(), sid), CallOf(sid));
  }

  // ---- comparing two policies

  /** The old and the new results, row by row. */
  method MergeResults(oldResults: seq<SimulateResult>, newResults: seq<SimulateResult>)
      returns (merged: seq<SimulateResult>)
    ensures |merged| == |newResults|
    ensures forall i :: 0 <= i < |merged| ==>
              merged[i] == if i < |oldResults|
                           then newResults[i].(oldDecision := Some(oldResults[i].newDecision),
                                               changed := oldResults[i].newDecision != newResults[i].newDecision)
                           else newResults[i]
  {
    merged := [];
    for i := 0 to |newResults|
      invariant |merged| == i
      invariant forall k :: 0 <= k < i ==>
                  merged[k] == if k < |oldResults|
                               then newResults[k].(oldDecision := Some(oldResults[k].newDecision),
                                                   changed := oldResults[k].newDecision != newResults[k].newDecision)
                               else newResults[k]
    {
      var row := newResults[i];
      if i < |oldResults| {
        row := row.(oldDecision := Some(oldResults[i].newDecision),
                    changed := oldResults[i].newDecision != newResults[i].newDecision);
      }
      merged := merged + [row];
    }
  }

  /** Merging compares like with like: the two evaluations of one trace list the same calls in the same places. */
  lemma MergeAligns(lib: Library, oldPol: Policy, newPol: Policy, calls: seq<Timed>, i: nat)
    requires i < |calls|
    ensures var before, after := Evaluated(lib, SimulateStages(), oldPol, FRESH, calls).records,
                                 Evaluated(lib, SimulateStages(), newPol, FRESH, calls).records;
            && |before| == |after| == |calls|
            && before[i].session == after[i].session && before[i].seqNo == after[i].seqNo
            && before[i].tool == after[i].tool
  {
    RecordsFollowCalls(lib, SimulateStages(), oldPol, calls);
    RecordsFollowCalls(lib, SimulateStages(), newPol, calls);
  }
}
