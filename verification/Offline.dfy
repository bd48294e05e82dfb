/** The loop body that `simulate` and `replay` share: one recorded call on the in-memory store. */
module Offline {
  import opened Prelude
  import opened Policies
  import opened Database
  import opened Engine
  import opened Evaluation
  import opened PipelineLaws
  import opened StoreObject
  import opened Sequential
  import opened SessionRuns
  import opened Protocol
  import opened Grouping

  /** Decides the call, appends its event, and updates the counters of an executed call: one step of the
      reference world. An event cannot fail to be appended, as the session's row exists. */
  method EvaluateRecorded(
    st: Store, lib: Library, stages: seq<Stage>, pol: Policy, sess: SessionState, t: Timed, ghost w: World)
    returns (ok: bool, decision: Decision)
    requires st.Valid() && st.db == Known(w.db, pol, t.call) && sess.row == WorldRow(w, pol, t.call)
    modifies st, sess
    ensures st.Valid() && ok
    ensures var w' := WorldStep(lib, stages, pol, w, t);
            && st.db == w'.db && t.call.session in w'.rows && sess.row == w'.rows[t.call.session]
            && decision == WorldDecision(lib, stages, pol, w, t.call)
  {
    hide Pipeline, PipelineOn, WorldStep, WorldRow, TaintAfter, SeqDense, Filter, Count;
    StepShape(lib, stages, pol, w, t);
    var b := StoreBackend(st.db, false);
    var views: nat -> Backend := k => b;
    UniformViews(stages, 0, lib, views, b, t.call, sess.row, pol);
    decision := Evaluate(stages, lib, views, t.call, sess, pol);
    var row := EventRow(0, t.call.session, t.call.tool, "", decision.action, decision.rule, t.at);
    var appended := st.AppendEvent(row, false);
    if appended.Error? {
      return false, decision;
    }
    if decision.action == Allow || decision.action == ShadowDeny {
      sess.row := sess.row.(calls := sess.row.calls + 1, cost := sess.row.cost + COST_PER_CALL);
    }
    return true, decision;
  }

  lemma NothingEvaluated(lib: Library, stages: seq<Stage>, pol: Policy, w: World)
    ensures Evaluated(lib, stages, pol, w, []) == w
  {
  }

  lemma EvaluatedSnoc(lib: Library, stages: seq<Stage>, pol: Policy, w: World, calls: seq<Timed>, t: Timed)
    ensures Evaluated(lib, stages, pol, w, calls + [t])
        == WorldStep(lib, stages, pol, Evaluated(lib, stages, pol, w, calls), t)
  {
    assert (calls + [t])[..|calls|] == calls;
  }

  lemma NoRowsYet(db: Db, sid: string)
    requires sid !in db.sessions && forall e :: e in db.events ==> e.session in db.sessions
    ensures SessionRows(db.events, sid) == []
  {
    CountNone(db.events, OfSession(sid));
  }

  lemma StepShape(lib: Library, stages: seq<Stage>, pol: Policy, w: World, t: Timed)
    ensures var w', d := WorldStep(lib, stages, pol, w, t), WorldDecision(lib, stages, pol, w, t.call);
            var sid, row := t.call.session, WorldRow(w, pol, t.call);
            var n := |SessionRows(w.db.events, sid)| + 1;
            && w'.db == Known(w.db, pol, t.call).(
                events := w.db.events + [EventRow(n, sid, t.call.tool, "", d.action, d.rule, t.at)])
            && w'.rows == w.rows[sid := Charged(row, pol, t.call.tool, d.action)]
            && w'.records == w.records + [Record(sid, n, t.call.tool, d.action)]
            && |SessionRows(w'.db.events, sid)| == n
            && Count(w.db.events, OfSession(sid)) + 1 == n
  {
    hide WorldDecision;
    var d := WorldDecision(lib, stages, pol, w, t.call);
    FilterSnoc(w.db.events, OfflineRow(w, t, d), OfSession(t.call.session));
    FilterMembers(w.db.events, OfSession(t.call.session));
  }

  // ---- one group after another

  /** What grouping delivers: each group is of one session, and no two groups are of the same session. */
  ghost predicate SessionGroups<T(!new)>(groups: seq<seq<T>>, key: T -> string) {
    && (forall i :: 0 <= i < |groups| ==> |groups[i]| > 0)
    && (forall i, e :: 0 <= i < |groups| && e in groups[i] ==> key(e) == key(groups[i][0]))
    && (forall i, j :: 0 <= i < j < |groups| ==> key(groups[i][0]) != key(groups[j][0]))
  }

  lemma GroupedSessions<T(!new)>(log: seq<T>, key: T -> string)
    ensures SessionGroups(Grouped(log, key), key)
  {
    var groups, order := Grouped(log, key), FirstSeen(log, key);
    FirstSeenDistinct(log, key);
    forall i | 0 <= i < |groups|
      ensures |groups[i]| > 0 && forall e: T :: e in groups[i] ==> key(e) == order[i]
    {
      MembersGrouped(log, key, i);
    }
    assert forall i :: 0 <= i < |groups| ==> groups[i][0] in groups[i];
  }

  /** The sessions of some groups. */
  ghost predicate OfGroups<T>(groups: seq<seq<T>>, key: T -> string, sid: string) {
    exists i :: 0 <= i < |groups| && |groups[i]| > 0 && key(groups[i][0]) == sid
  }

  /** The world knows only sessions of the evaluated groups. */
  ghost predicate KnowsOnly<T>(w: World, groups: seq<seq<T>>, key: T -> string) {
    forall sid :: sid in w.rows || sid in w.db.sessions ==> OfGroups(groups, key, sid)
  }

  lemma {:induction false} EvaluatedKnows(lib: Library, stages: seq<Stage>, pol: Policy, w: World, calls: seq<Timed>,
      sid: string)
    requires forall t :: t in calls ==> t.call.session != sid
    requires sid !in w.rows && sid !in w.db.sessions
    ensures var w' := Evaluated(lib, stages, pol, w, calls); sid !in w'.rows && sid !in w'.db.sessions
  {
    if |calls| > 0 {
      EvaluatedKnows(lib, stages, pol, w, calls[..|calls| - 1], sid);
      assert calls[|calls| - 1] in calls;
      StepShape(lib, stages, pol, Evaluated(lib, stages, pol, w, calls[..|calls| - 1]), calls[|calls| - 1]);
    }
  }

  lemma GroupKnows<T>(
    lib: Library, stages: seq<Stage>, pol: Policy, w: World, groups: seq<seq<T>>, group: seq<T>,
    key: T -> string, timed: T -> Timed)
    requires |group| > 0 && KnowsOnly(w, groups, key)
    requires forall k :: 0 <= k < |group| ==> timed(group[k]).call.session == key(group[0])
    ensures KnowsOnly(Evaluated(lib, stages, pol, w, Map(group, timed)), groups + [group], key)
  {
    hide Evaluated;
    var calls, after := Map(group, timed), groups + [group];
    assert after[|groups|] == group;
    forall sid | !OfGroups(after, key, sid)
      ensures var w' := Evaluated(lib, stages, pol, w, calls); sid !in w'.rows && sid !in w'.db.sessions
    {
      assert forall i :: 0 <= i < |groups| ==> after[i] == groups[i];
      EvaluatedKnows(lib, stages, pol, w, calls, sid);
    }
  }

  lemma FlattenMap<T>(groups: seq<seq<T>>, group: seq<T>, timed: T -> Timed)
    ensures Map(Flatten(groups + [group]), timed) == Map(Flatten(groups), timed) + Map(group, timed)
  {
    FlattenSnoc(groups, group);
  }

  lemma StartsEmpty<T>(lib: Library, stages: seq<Stage>, pol: Policy, key: T -> string, timed: T -> Timed)
    ensures Evaluated(lib, stages, pol, FRESH, Map(Flatten<T>([]), timed)) == FRESH
    ensures KnowsOnly(FRESH, [], key)
  {
    assert Flatten<T>([]) == [];
  }

  lemma NewGroup<T(!new)>(w: World, groups: seq<seq<T>>, key: T -> string, i: nat)
    requires SessionGroups(groups, key) && i < |groups| && KnowsOnly(w, groups[..i], key)
    ensures |groups[i]| > 0 && key(groups[i][0]) !in w.rows && key(groups[i][0]) !in w.db.sessions
  {
    assert !OfGroups(groups[..i], key, key(groups[i][0]));
  }

  // ---- the records

  /** One record per call, in order, numbered within its session: the policy decides nothing but the decision. */
  lemma {:induction false} RecordsFollowCalls(lib: Library, stages: seq<Stage>, pol: Policy, calls: seq<Timed>)
    ensures var records := Evaluated(lib, stages, pol, FRESH, calls).records;
            && |records| == |calls|
            && forall i :: 0 <= i < |calls| ==>
                 && records[i].session == calls[i].call.session && records[i].tool == calls[i].call.tool
                 && records[i].seqNo == Count(calls[..i], CallOf(calls[i].call.session)) + 1
    ensures forall sid ::
        |SessionRows(Evaluated(lib, stages, pol, FRESH, calls).db.events, sid)| == Count(calls, CallOf(sid))
  {
    hide WorldStep, WorldDecision;
    if |calls| > 0 {
      var front, last := calls[..|calls| - 1], calls[|calls| - 1];
      RecordsFollowCalls(lib, stages, pol, front);
      var w := Evaluated(lib, stages, pol, FRESH, front);
      StepShape(lib, stages, pol, w, last);
      assert forall i :: 0 <= i < |front| ==> calls[..i] == front[..i];
      forall sid
        ensures |SessionRows(WorldStep(lib, stages, pol, w, last).db.events, sid)| == Count(calls, CallOf(sid))
      {
        StepRows(lib, stages, pol, w, last, sid);
      }
    }
  }

  lemma StepRows(lib: Library, stages: seq<Stage>, pol: Policy, w: World, t: Timed, sid: string)
    ensures |SessionRows(WorldStep(lib, stages, pol, w, t).db.events, sid)|
            == |SessionRows(w.db.events, sid)| + if t.call.session == sid then 1 else 0
  {
    hide WorldDecision;
    FilterSnoc(w.db.events, OfflineRow(w, t, WorldDecision(lib, stages, pol, w, t.call)), OfSession(sid));
  }

  lemma {:induction false} FilterThroughMap<T, U>(s: seq<T>, f: T -> U, p: T -> bool, q: U -> bool)
    requires forall x :: x in s ==> p(x) == q(f(x))
    ensures Filter(Map(s, f), q) == Map(Filter(s, p), f)
  {
    if |s| > 0 {
      var front, last := s[..|s| - 1], s[|s| - 1];
      assert forall x :: x in front ==> x in s;
      FilterThroughMap(front, f, p, q);
      assert Map(s, f) == Map(front, f) + [f(last)];
      FilterSnoc(Map(front, f), f(last), q);
      assert last in s;
    }
  }
}
