/** `audit replay` (cmd/audit/replay.go): the records of an audit log are decided again, session by session. */
module Replay {
  import opened Prelude
  import opened Policies
  import opened Database
  import opened Engine
  import opened Evaluation
  import opened StoreObject
  import opened Protocol
  import opened SessionRuns
  import opened Offline
  import opened Grouping
  import opened OfflineMeaning

  datatype ReplayEntry = ReplayEntry(
    session: string, seqNo: nat, tool: string, oldDecision: Action, newDecision: Action, changed: bool)

  /** The stages of the replayed pipeline: arguments are not in the log, so escalation is left out. */
  function ReplayStages(): seq<Stage> {
    [MayUse, BudgetLimit, TaintGuard, Sequence, Rate]
  }

  function LoggedSession(): AuditRow -> string {
    (a: AuditRow) => a.session
  }

  function AsCall(): AuditRow -> Timed {
    (a: AuditRow) => Timed(Call(a.session, a.agent, a.tool, "{}", "", "", a.recordedAt), a.recordedAt)
  }

  // ---- sorting a group by seq

  ghost predicate Ascending(rows: seq<AuditRow>) {
    forall i, j :: 0 <= i < j < |rows| ==> rows[i].seqNo <= rows[j].seqNo
  }

  ghost predicate StrictlyAscending(rows: seq<AuditRow>) {
    forall i, j :: 0 <= i < j < |rows| ==> rows[i].seqNo < rows[j].seqNo
  }

  /** Sorted and a permutation of the group. */
  ghost predicate SortOf(sorted: seq<AuditRow>, group: seq<AuditRow>) {
    Ascending(sorted) && multiset(sorted) == multiset(group)
  }

  /** The first n rows ascend, but that the one at i may be too small for the rows before it. */
  ghost predicate AscendingBut(rows: seq<AuditRow>, n: nat, i: nat)
    requires i < n <= |rows|
  {
    forall j, k :: 0 <= j < k < n && k != i ==> rows[j].seqNo <= rows[k].seqNo
  }

  function Swapped(rows: seq<AuditRow>, i: nat): seq<AuditRow>
    requires 0 < i < |rows|
  {
    rows[i - 1 := rows[i]][i := rows[i - 1]]
  }

  lemma SwapKeeps(rows: seq<AuditRow>, n: nat, i: nat)
    requires 0 < i < n <= |rows| && AscendingBut(rows, n, i) && rows[i - 1].seqNo > rows[i].seqNo
    ensures AscendingBut(Swapped(rows, i), n, i - 1)
    ensures multiset(Swapped(rows, i)) == multiset(rows)
  {
  }

  lemma InPlace(rows: seq<AuditRow>, n: nat, i: nat)
    requires i < n <= |rows| && AscendingBut(rows, n, i) && (i == 0 || rows[i - 1].seqNo <= rows[i].seqNo)
    ensures Ascending(rows[..n])
  {
    forall j, k | 0 <= j < k < n
      ensures rows[j].seqNo <= rows[k].seqNo
    {
      if k == i && j < i - 1 {
        assert rows[j].seqNo <= rows[i - 1].seqNo;
      }
    }
  }

  lemma NextBut(rows: seq<AuditRow>, n: nat)
    requires n < |rows| && Ascending(rows[..n])
    ensures AscendingBut(rows, n + 1, n)
  {
    assert forall j :: 0 <= j < n ==> rows[..n][j] == rows[j];
  }

  /** Sorts the group in place, by insertion. */
  method SortBySeq(a: array<AuditRow>)
    modifies a
    ensures SortOf(a[..], old(a[..]))
  {
    hide AscendingBut, Ascending;
    EmptyAscends(a[..0]);
    for n := 0 to a.Length
      invariant Ascending(a[..n]) && multiset(a[..]) == multiset(old(a[..]))
    {
      InsertLast(a, n);
    }
    assert a[..a.Length] == a[..];
  }

  lemma EmptyAscends(rows: seq<AuditRow>)
    ensures |rows| == 0 ==> Ascending(rows)
  {
  }

  /** Moves the row at n down to its place among the rows before it. */
  method InsertLast(a: array<AuditRow>, n: nat)
    requires n < a.Length && Ascending(a[..n])
    modifies a
    ensures Ascending(a[..n + 1]) && multiset(a[..]) == multiset(old(a[..]))
  {
    hide AscendingBut, Ascending;
    var i := n;
    NextBut(a[..], n);
    assert a[..][..n] == a[..n];
    while i > 0 && a[i - 1].seqNo > a[i].seqNo
      invariant 0 <= i <= n && multiset(a[..]) == multiset(old(a[..])) && AscendingBut(a[..], n + 1, i)
    {
      ghost var before := a[..];
      SwapKeeps(before, n + 1, i);
      a[i - 1], a[i] := a[i], a[i - 1];
      assert a[..] == Swapped(before, i);
      i := i - 1;
    }
    InPlace(a[..], n + 1, i);
    assert a[..][..n + 1] == a[..n + 1];
  }

  /** Rows with different seqs have only one sorted order. */
  lemma {:induction false} SortIsUnique(s: seq<AuditRow>, t: seq<AuditRow>)
    requires Ascending(s) && StrictlyAscending(t) && multiset(s) == multiset(t)
    ensures s == t
  {
    hide Ascending, StrictlyAscending;
    SameLength(s, t);
    if |s| > 0 {
      SameHead(s, t);
      SameTails(s, t);
      SortIsUnique(s[1..], t[1..]);
      assert s == [s[0]] + s[1..] && t == [t[0]] + t[1..];
    }
  }

  lemma SameLength(s: seq<AuditRow>, t: seq<AuditRow>)
    requires multiset(s) == multiset(t)
    ensures |s| == |t|
  {
    assert |s| == |multiset(s)| == |multiset(t)| == |t|;
  }

  lemma SameTails(s: seq<AuditRow>, t: seq<AuditRow>)
    requires |s| == |t| > 0 && s[0] == t[0] && multiset(s) == multiset(t)
    ensures multiset(s[1..]) == multiset(t[1..])
    ensures Ascending(s) ==> Ascending(s[1..])
    ensures StrictlyAscending(t) ==> StrictlyAscending(t[1..])
  {
    TailMultiset(s);
    TailMultiset(t);
  }

  lemma SameHead(s: seq<AuditRow>, t: seq<AuditRow>)
    requires Ascending(s) && StrictlyAscending(t) && multiset(s) == multiset(t) && |s| > 0 && |t| > 0
    ensures s[0] == t[0]
  {
    assert t[0] in multiset(s) && s[0] in multiset(t);
    var i :| 0 <= i < |s| && s[i] == t[0];
    var j :| 0 <= j < |t| && t[j] == s[0];
  }

  lemma TailMultiset(s: seq<AuditRow>)
    requires |s| > 0
    ensures multiset(s[1..]) == multiset(s) - multiset{s[0]}
  {
    assert s == [s[0]] + s[1..];
    assert multiset(s) == multiset{s[0]} + multiset(s[1..]);
  }

  /** The sessions in first-encounter order, each group sorted by seq. */
  method GroupAuditBySession(log: seq<AuditRow>) returns (result: seq<seq<AuditRow>>)
    ensures |result| == |Grouped(log, LoggedSession())|
    ensures forall i :: 0 <= i < |result| ==> SortOf(result[i], Grouped(log, LoggedSession())[i])
  {
    hide SortOf;
    var groups := GroupBySession(log, LoggedSession());
    result := [];
    for i := 0 to |groups|
      invariant |result| == i && forall k :: 0 <= k < i ==> SortOf(result[k], groups[k])
    {
      var group := groups[i];
      var a := new AuditRow[|group|](k requires 0 <= k < |group| => group[k]);
      assert a[..] == group;
      SortBySeq(a);
      result := result + [a[..]];
    }
  }

  // ---- replaying

  /** Each logged row next to the new decision for its call. */
  function Compare(rows: seq<AuditRow>, records: seq<Record>): (r: seq<ReplayEntry>)
    requires |rows| == |records|
    ensures |r| == |rows|
  {
    seq(|rows|, i requires 0 <= i < |rows| =>
      ReplayEntry(rows[i].session, rows[i].seqNo, rows[i].tool, rows[i].decision, records[i].decision,
                  records[i].decision != rows[i].decision))
  }

  lemma CompareSnoc(rows: seq<AuditRow>, records: seq<Record>, row: AuditRow, rec: Record)
    requires |rows| == |records|
    ensures Compare(rows + [row], records + [rec]) == Compare(rows, records)
            + [ReplayEntry(row.session, row.seqNo, row.tool, row.decision, rec.decision, rec.decision != row.decision)]
  {
  }

  /** The rows are of one session. */
  ghost predicate OneSession(rows: seq<AuditRow>) {
    forall a :: a in rows ==> a.session == rows[0].session
  }

  /** Evaluates one session's rows. `w` is what the store and the earlier sessions amount to. */
  method ReplaySession(st: Store, lib: Library, stages: seq<Stage>, pol: Policy, rows: seq<AuditRow>, ghost w: World)
    returns (r: Result<seq<ReplayEntry>>)
    requires st.Valid() && w.db == st.db && OneSession(rows)
    requires |rows| > 0 ==> rows[0].session !in w.rows
    modifies st
    ensures st.Valid()
    ensures r.Error? <==> |rows| > 0 && rows[0].session in old(st.db).sessions
    ensures r.Ok? ==>
              var w' := Evaluated(lib, stages, pol, w, Map(rows, AsCall()));
              && st.db == w'.db
              && |w'.records| == |w.records| + |rows| && w'.records[..|w.records|] == w.records
              && r.value == Compare(rows, w'.records[|w.records|..])
  {
    hide Evaluated, WorldStep, WorldDecision, SeqDense, Filter, Count, Compare;
    NothingEvaluated(lib, stages, pol, w);
    assert Map([], AsCall()) == [];
    NothingCompared();
    if |rows| == 0 {
      return Ok([]);
    }
    var sid, agent := rows[0].session, rows[0].agent;
    var created := st.CreateSession(sid, agent, pol.fingerprint, false);
    if !created {
      return Error;
    }
    var sess := new SessionState(NewSession(agent, pol.fingerprint));
    var results: seq<ReplayEntry> := [];
    ghost var v, added: seq<Record> := w, [];
    for i := 0 to |rows|
      invariant st.Valid()
      invariant v == Evaluated(lib, stages, pol, w, Map(rows[..i], AsCall()))
      invariant st.db == Known(v.db, pol, AsCall()(rows[0]).call)
      invariant sess.row == WorldRow(v, pol, AsCall()(rows[0]).call)
      invariant i == 0 <==> sid !in v.rows
      invariant i > 0 ==> sid in v.db.sessions
      invariant v.records == w.records + added && |added| == i
      invariant results == Compare(rows[..i], added)
    {
      var row := rows[i];
      assert row in rows;
      var t := AsCall()(row);
      assert rows[..i + 1] == rows[..i] + [row];
      assert Map(rows[..i + 1], AsCall()) == Map(rows[..i], AsCall()) + [t];
      EvaluatedSnoc(lib, stages, pol, w, Map(rows[..i], AsCall()), t);
      StepShape(lib, stages, pol, v, t);
      var ok, decision := EvaluateRecorded(st, lib, stages, pol, sess, t, v);
      if !ok {
        return Error;
      }
      v := WorldStep(lib, stages, pol, v, t);
      ghost var rec := v.records[|v.records| - 1];
      CompareSnoc(rows[..i], added, row, rec);
      added := added + [rec];
      results := results + [ReplayEntry(row.session, row.seqNo, row.tool, row.decision, decision.action,
                                        decision.action != row.decision)];
    }
    assert rows[..|rows|] == rows;
    return Ok(results);
  }

  lemma NothingCompared()
    ensures Compare([], []) == []
  {
  }

  lemma CompareAppend(rows: seq<AuditRow>, records: seq<Record>, more: seq<AuditRow>, others: seq<Record>)
    requires |rows| == |records| && |more| == |others|
    ensures Compare(rows + more, records + others) == Compare(rows, records) + Compare(more, others)
  {
  }

  /** Replays the groups one after another on one fresh store. */
  method ReplayGroups(lib: Library, pol: Policy, groups: seq<seq<AuditRow>>) returns (results: seq<ReplayEntry>)
    requires SessionGroups(groups, LoggedSession())
    ensures var w := Evaluated(lib, ReplayStages(), pol, FRESH, Map(Flatten(groups), AsCall()));
            |w.records| == |Flatten(groups)| && results == Compare(Flatten(groups), w.records)
  {
    hide Evaluated, WorldStep, KnowsOnly, Flatten, SeqDense, Compare, Map;
    var st := new Store();
    results := [];
    ghost var w := FRESH;
    StartsEmpty(lib, ReplayStages(), pol, LoggedSession(), AsCall());
    NothingCompared();
    FlattenNone<AuditRow>();
    for i := 0 to |groups|
      invariant st.Valid() && st.db == w.db
      invariant w == Evaluated(lib, ReplayStages(), pol, FRESH, Map(Flatten(groups[..i]), AsCall()))
      invariant KnowsOnly(w, groups[..i], LoggedSession())
      invariant |w.records| == |Flatten(groups[..i])| && results == Compare(Flatten(groups[..i]), w.records)
    {
      var group := groups[i];
      assert groups[..i] + [group] == groups[..i + 1];
      NewGroup(w, groups, LoggedSession(), i);
      GroupOfOne(groups, i);
      FlattenSnoc(groups[..i], group);
      FlattenMap(groups[..i], group, AsCall());
      EvaluatedAppend(lib, ReplayStages(), pol, FRESH, Map(Flatten(groups[..i]), AsCall()), Map(group, AsCall()));
      GroupKnows(lib, ReplayStages(), pol, w, groups[..i], group, LoggedSession(), AsCall());
      var r := ReplaySession(st, lib, ReplayStages(), pol, group, w);
      ghost var before := w.records;
      w := Evaluated(lib, ReplayStages(), pol, w, Map(group, AsCall()));
      assert w.records == before + w.records[|before|..];
      CompareAppend(Flatten(groups[..i]), before, group, w.records[|before|..]);
      results := results + r.value;
    }
    assert groups[..|groups|] == groups;
  }

  lemma FlattenNone<T>()
    ensures Flatten<T>([]) == []
  {
  }

  lemma GroupOfOne(groups: seq<seq<AuditRow>>, i: nat)
    requires SessionGroups(groups, LoggedSession()) && i < |groups|
    ensures OneSession(groups[i]) && |groups[i]| > 0
    ensures forall k :: 0 <= k < |groups[i]| ==> AsCall()(groups[i][k]).call.session == LoggedSession()(groups[i][0])
  {
    assert forall a :: a in groups[i] ==> LoggedSession()(a) == a.session;
    assert forall k :: 0 <= k < |groups[i]| ==> groups[i][k] in groups[i];
  }

  // ---- what a replay computes

  function EntryOf(sid: string): ReplayEntry -> bool {
    (e: ReplayEntry) => e.session == sid
  }

  /** One session's rows, decided on the session's own past only. */
  function ReplayedAlone(lib: Library, pol: Policy, rows: seq<AuditRow>): seq<ReplayEntry> {
    Compare(rows, SessionRecords(lib, ReplayStages(), pol, Map(rows, AsCall())))
  }

  function LoggedOf(log: seq<AuditRow>, sid: string): seq<AuditRow> {
    Filter(log, Keyed(LoggedSession(), sid))
  }

  lemma {:induction false} CompareFilters(rows: seq<AuditRow>, records: seq<Record>, sid: string)
    requires |rows| == |records| && forall i :: 0 <= i < |rows| ==> records[i].session == rows[i].session
    ensures var mine, own := LoggedOf(rows, sid), Filter(records, RecordOf(sid));
            |mine| == |own| && Filter(Compare(rows, records), EntryOf(sid)) == Compare(mine, own)
  {
    hide Compare;
    NothingCompared();
    if |rows| > 0 {
      var n := |rows| - 1;
      CompareFilters(rows[..n], records[..n], sid);
      assert rows == rows[..n] + [rows[n]] && records == records[..n] + [records[n]];
      var row, rec := rows[n], records[n];
      CompareSnoc(rows[..n], records[..n], row, rec);
      FilterSnoc(Compare(rows[..n], records[..n]),
                 ReplayEntry(row.session, row.seqNo, row.tool, row.decision, rec.decision,
                     rec.decision != row.decision), EntryOf(sid));
      if row.session == sid {
        CompareSnoc(LoggedOf(rows[..n], sid), Filter(records[..n], RecordOf(sid)), row, rec);
      } else {
        assert LoggedOf(rows, sid) == LoggedOf(rows[..n], sid);
        assert Filter(records, RecordOf(sid)) == Filter(records[..n], RecordOf(sid));
      }
    } else {
      assert Compare(rows, records) == [];
    }
  }

  lemma FilterAll<T>(s: seq<T>, p: T -> bool)
    ensures (forall x :: x in s ==> p(x)) ==> Filter(s, p) == s
    ensures (forall x :: x in s ==> !p(x)) ==> Filter(s, p) == []
  {
    if |s| > 0 {
      var front, last := s[..|s| - 1], s[|s| - 1];
      assert s == front + [last];
      FilterAll(front, p);
    }
  }

  lemma SortedMembers(sorted: seq<AuditRow>, group: seq<AuditRow>)
    requires SortOf(sorted, group)
    ensures forall x :: x in sorted <==> x in group
    ensures |sorted| == |group|
  {
    assert |multiset(sorted)| == |multiset(group)|;
    assert forall x :: x in sorted <==> x in multiset(sorted);
    assert forall x :: x in group <==> x in multiset(group);
  }

  /** The sorted groups, concatenated and filtered by a session, are that session's rows sorted. */
  lemma {:induction false} SortedFlatten(log: seq<AuditRow>, order: seq<string>, sorted: seq<seq<AuditRow>>,
      sid: string)
    requires AllDistinct(order) && |sorted| == |order|
    requires forall i :: 0 <= i < |order| ==> SortOf(sorted[i], LoggedOf(log, order[i]))
    ensures if sid in order then SortOf(LoggedOf(Flatten(sorted), sid), LoggedOf(log, sid))
            else LoggedOf(Flatten(sorted), sid) == []
  {
    hide SortOf, Filter, Flatten;
    FlattenNone<AuditRow>();
    FilterAll<AuditRow>([], Keyed(LoggedSession(), sid));
    if |order| == 0 {
      assert sorted == [];
    } else {
      var n := |order| - 1;
      SortedFlatten(log, order[..n], sorted[..n], sid);
      assert sorted == sorted[..n] + [sorted[n]] && order == order[..n] + [order[n]];
      FlattenSnoc(sorted[..n], sorted[n]);
      FilterAppend(Flatten(sorted[..n]), sorted[n], Keyed(LoggedSession(), sid));
      OwnSorted(log, order[n], sorted[n], sid);
      assert order[n] !in order[..n];
      assert LoggedOf(Flatten(sorted), sid) == LoggedOf(Flatten(sorted[..n]), sid) + LoggedOf(sorted[n], sid);
      assert order[n] == sid ==> LoggedOf(Flatten(sorted), sid) == sorted[n];
      assert order[n] != sid ==> LoggedOf(Flatten(sorted), sid) == LoggedOf(Flatten(sorted[..n]), sid);
    }
  }

  lemma OwnSorted(log: seq<AuditRow>, own: string, sorted: seq<AuditRow>, sid: string)
    requires SortOf(sorted, LoggedOf(log, own))
    ensures LoggedOf(sorted, sid) == if sid == own then sorted else []
  {
    SortedMembers(sorted, LoggedOf(log, own));
    forall x | x in sorted
      ensures LoggedSession()(x) == own
    {
      FilterMember(log, Keyed(LoggedSession(), own), x);
    }
    FilterAll(sorted, Keyed(LoggedSession(), sid));
  }

  lemma SortedSessions(groups: seq<seq<AuditRow>>, sorted: seq<seq<AuditRow>>)
    requires SessionGroups(groups, LoggedSession()) && |sorted| == |groups|
    requires forall i :: 0 <= i < |groups| ==> SortOf(sorted[i], groups[i])
    ensures SessionGroups(sorted, LoggedSession())
  {
    forall i | 0 <= i < |groups|
      ensures |sorted[i]| > 0 && forall x :: x in sorted[i] ==> LoggedSession()(x) == LoggedSession()(groups[i][0])
    {
      SortedMembers(sorted[i], groups[i]);
    }
    assert forall i :: 0 <= i < |groups| ==> sorted[i][0] in sorted[i];
  }

  /** The session's results are those of its own rows, sorted by seq and evaluated alone. */
  ghost predicate ReplayOf(lib: Library, pol: Policy, log: seq<AuditRow>, sid: string, results: seq<ReplayEntry>) {
    exists rows :: SortOf(rows, LoggedOf(log, sid)) && Filter(results, EntryOf(sid)) == ReplayedAlone(lib, pol, rows)
  }

  lemma GroupsReplay(lib: Library, pol: Policy, log: seq<AuditRow>, sorted: seq<seq<AuditRow>>, sid: string,
      results: seq<ReplayEntry>)
    requires |sorted| == |Grouped(log, LoggedSession())|
    requires forall i :: 0 <= i < |sorted| ==> SortOf(sorted[i], Grouped(log, LoggedSession())[i])
    requires var w := Evaluated(lib, ReplayStages(), pol, FRESH, Map(Flatten(sorted), AsCall()));
             |w.records| == |Flatten(sorted)| && results == Compare(Flatten(sorted), w.records)
    ensures ReplayOf(lib, pol, log, sid, results)
  {
    hide Evaluated, SessionRecords, Compare, SortOf, FirstSeen, Flatten, Filter;
    var flat, order := Flatten(sorted), FirstSeen(log, LoggedSession());
    var calls := Map(flat, AsCall());
    var records := Evaluated(lib, ReplayStages(), pol, FRESH, calls).records;
    FirstSeenDistinct(log, LoggedSession());
    SortedFlatten(log, order, sorted, sid);
    UnseenIsEmpty(log, LoggedSession(), sid);
    if sid !in order {
      NothingSorts();
    }
    RecordsFollowCalls(lib, ReplayStages(), pol, calls);
    CompareFilters(flat, records, sid);
    NonInterference(lib, ReplayStages(), pol, calls, sid);
    FilterThroughMap(flat, AsCall(), Keyed(LoggedSession(), sid), CallOf(sid));
    assert Filter(results, EntryOf(sid)) == ReplayedAlone(lib, pol, LoggedOf(flat, sid));
  }

  lemma NothingSorts()
    ensures SortOf([], [])
  {
  }

  // ---- what each entry says

  /** The rows so far as calls of the past, with the new decisions on them. */
  function Redecided(rows: seq<AuditRow>, entries: seq<ReplayEntry>): seq<Entry>
    requires |rows| == |entries|
  {
    seq(|rows|, i requires 0 <= i < |rows| => Entry(rows[i].tool, entries[i].newDecision, rows[i].recordedAt))
  }

  /** The entries of a session, row by row: what was logged, the decision that the policy and the new decisions
      before it give, escalate_when left out, and whether the two differ. */
  ghost predicate EntriesMean(lib: Library, pol: Policy, rows: seq<AuditRow>, entries: seq<ReplayEntry>) {
    && |entries| == |rows|
    && forall k :: 0 <= k < |rows| ==>
         && entries[k].session == rows[k].session && entries[k].seqNo == rows[k].seqNo
         && entries[k].tool == rows[k].tool && entries[k].oldDecision == rows[k].decision
         && (entries[k].changed <==> entries[k].newDecision != rows[k].decision)
         && PastGives(lib, pol, false, rows[k].tool, "{}", rows[k].recordedAt, Redecided(rows[..k], entries[..k]),
              entries[k].newDecision)
  }

  /** The entries of a session are those of its rows, sorted by seq. */
  ghost predicate SortedEntriesMean(lib: Library, pol: Policy, own: seq<AuditRow>, entries: seq<ReplayEntry>) {
    exists rows :: SortOf(rows, own) && EntriesMean(lib, pol, rows, entries)
  }

  lemma ReplayedMeans(lib: Library, pol: Policy, rows: seq<AuditRow>)
    ensures EntriesMean(lib, pol, rows, ReplayedAlone(lib, pol, rows))
  {
    hide SessionRecords, PastGives;
    var calls := Map(rows, AsCall());
    assert ReplayStages() == OfflineStages(false);
    var records, entries := SessionRecords(lib, ReplayStages(), pol, calls), ReplayedAlone(lib, pol, rows);
    forall k | 0 <= k < |rows|
      ensures Redecided(rows[..k], entries[..k]) == PastOf(calls[..k], records[..k])
    {
      assert forall i :: 0 <= i < k ==> calls[..k][i] == AsCall()(rows[i]) && entries[..k][i] == entries[i];
    }
    forall k | 0 <= k < |rows| {
      RecordMeans(lib, false, pol, calls, k);
    }
  }

  /** The whole command, for any log: each session's entries are those of its own rows, sorted by seq, each with
      the decision that the policy and the session's own past give. */
  method Replay(lib: Library, pol: Policy, log: seq<AuditRow>) returns (results: seq<ReplayEntry>)
    ensures forall sid :: ReplayOf(lib, pol, log, sid, results)
    ensures forall sid :: SortedEntriesMean(lib, pol, LoggedOf(log, sid), Filter(results, EntryOf(sid)))
  {
    hide Evaluated, SessionRecords, SortOf, Compare, Flatten, EntriesMean, ReplayedAlone;
    var groups := GroupAuditBySession(log);
    GroupedSessions(log, LoggedSession());
    SortedSessions(Grouped(log, LoggedSession()), groups);
    results := ReplayGroups(lib, pol, groups);
    forall sid
      ensures ReplayOf(lib, pol, log, sid, results)
      ensures SortedEntriesMean(lib, pol, LoggedOf(log, sid), Filter(results, EntryOf(sid)))
    {
      GroupsReplay(lib, pol, log, groups, sid, results);
      var rows :| SortOf(rows, LoggedOf(log, sid))
        && Filter(results, EntryOf(sid)) == ReplayedAlone(lib, pol, rows);
      ReplayedMeans(lib, pol, rows);
    }
  }

  /** If a session's seqs are all different, the order of the lines does not matter: the results are those of
      the session's rows in seq order. */
  lemma ReplayIgnoresLineOrder(
    lib: Library, pol: Policy, log: seq<AuditRow>, sid: string, results: seq<ReplayEntry>, rows: seq<AuditRow>)
    requires ReplayOf(lib, pol, log, sid, results)
    requires StrictlyAscending(rows) && multiset(rows) == multiset(LoggedOf(log, sid))
    ensures Filter(results, EntryOf(sid)) == ReplayedAlone(lib, pol, rows)
  {
    var sorted :| SortOf(sorted, LoggedOf(log, sid))
        && Filter(results, EntryOf(sid)) == ReplayedAlone(lib, pol, sorted);
    SortIsUnique(sorted, rows);
  }
}
