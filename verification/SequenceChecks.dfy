/** The sequence evaluator (internal/engine/sequence.go): the single-pass evaluation, and what its verdict means. */
module SequenceChecks {
  import opened Prelude
  import opened Policies
  import opened Database
  import opened Engine

  datatype Freq = Freq(seen: bool, count: nat)

  function FreqOf(history: map<string, Freq>, tool: string): Freq {
    if tool in history then history[tool] else Freq(false, 0)
  }

  /** The frequency map of a history agrees with counting, for every tool. */
  ghost predicate Tallies(history: map<string, Freq>, entries: seq<Entry>) {
    forall t :: FreqOf(history, t) == Freq(ExecCount(entries, t) > 0, ExecCount(entries, t))
  }

  method Tally(entries: seq<Entry>) returns (history: map<string, Freq>)
    ensures Tallies(history, entries)
  {
    history := map[];
    for i := 0 to |entries|
      invariant Tallies(history, entries[..i])
    {
      var e := entries[i];
      forall t {
        CountSnoc(entries[..i], e, ExecutedOf(t));
      }
      assert entries[..i] + [e] == entries[..i + 1];
      if Executed(e.decision) {
        var f := FreqOf(history, e.tool);
        history := history[e.tool := Freq(true, f.count + 1)];
      }
    }
    assert entries[..|entries|] == entries;
  }

  /** Scans only_after for tools that have not executed. */
  method ScanOnlyAfter(history: map<string, Freq>, ghost entries: seq<Entry>, tools: seq<string>)
    returns (missing: seq<string>, violations: seq<Violation>)
    requires Tallies(history, entries)
    ensures missing == Filter(tools, NotYet(entries))
    ensures violations == Map(missing, Missing)
  {
    missing, violations := [], [];
    for i := 0 to |tools|
      invariant missing == Filter(tools[..i], NotYet(entries))
      invariant violations == Map(missing, Missing)
    {
      FilterSnoc(tools[..i], tools[i], NotYet(entries));
      assert tools[..i] + [tools[i]] == tools[..i + 1];
      if !FreqOf(history, tools[i]).seen {
        missing := missing + [tools[i]];
        violations := violations + [MissingPrerequisite(tools[i])];
      }
    }
    assert tools[..|tools|] == tools;
  }

  /** Scans never_after for tools that have executed, adding to the violations found so far. */
  method ScanNeverAfter(history: map<string, Freq>, ghost entries: seq<Entry>, tools: seq<string>,
      found: seq<Violation>)
    returns (blocked: seq<string>, violations: seq<Violation>)
    requires Tallies(history, entries)
    ensures blocked == Filter(tools, Already(entries))
    ensures violations == found + Map(blocked, Forbidden)
  {
    blocked, violations := [], found;
    for i := 0 to |tools|
      invariant blocked == Filter(tools[..i], Already(entries))
      invariant violations == found + Map(blocked, Forbidden)
    {
      FilterSnoc(tools[..i], tools[i], Already(entries));
      assert tools[..i] + [tools[i]] == tools[..i + 1];
      if FreqOf(history, tools[i]).seen {
        blocked := blocked + [tools[i]];
        violations := violations + [ForbiddenPredecessor(tools[i])];
      }
    }
    assert tools[..|tools|] == tools;
  }

  /** The evaluator after its query has returned the session's entries. */
  method Evaluate(entries: seq<Entry>, sq: Sequencing) returns (d: Decision)
    ensures d == SequenceDecision(entries, sq)
  {
    var history := Tally(entries);
    var missing, found := ScanOnlyAfter(history, entries, sq.onlyAfter);
    var blocked, violations := ScanNeverAfter(history, entries, sq.neverAfter, found);
    if sq.prior.Some? {
      var p := sq.prior.value;
      var count := FreqOf(history, p.tool).count;
      if count < p.count {
        violations := violations + [TooFewCalls(p.tool, p.count, count)];
      }
    }
    if |violations| == 0 {
      return Permit();
    }
    var feedback;
    if |missing| > 0 {
      feedback := Feedback(OnlyAfterFailed, missing);
    } else if |blocked| > 0 {
      feedback := Feedback(NeverAfterFailed, []);
    } else {
      feedback := Feedback(PriorNFailed, if sq.prior.Some? then [sq.prior.value.tool] else []);
    }
    d := Decision(Deny, SequenceBroken, violations, Some(feedback));
  }

  /** A tool of the list has executed when counting finds it among the entries. */
  predicate HasExecuted(entries: seq<Entry>, tool: string) {
    exists i :: 0 <= i < |entries| && entries[i].tool == tool && Executed(entries[i].decision)
  }

  lemma CountedIffExecuted(entries: seq<Entry>, tool: string)
    ensures ExecCount(entries, tool) > 0 <==> HasExecuted(entries, tool)
  {
    if ExecCount(entries, tool) > 0 {
      var i := CountWitness(entries, ExecutedOf(tool));
    }
    if i :| 0 <= i < |entries| && entries[i].tool == tool && Executed(entries[i].decision) {
      CountPositive(entries, i, ExecutedOf(tool));
    }
  }

  /** The verdict lists exactly the violated predicates. */
  lemma ListsExactlyTheViolations(entries: seq<Entry>, sq: Sequencing)
    ensures forall v :: v in SequenceViolations(entries, sq) <==>
      (match v
       case MissingPrerequisite(t) => t in sq.onlyAfter && !HasExecuted(entries, t)
       case ForbiddenPredecessor(t) => t in sq.neverAfter && HasExecuted(entries, t)
       case TooFewCalls(t, wanted, found) =>
         sq.prior == Some(PriorN(t, wanted)) && found == ExecCount(entries, t) && found < wanted)
  {
    var missing, blocked := Filter(sq.onlyAfter, NotYet(entries)), Filter(sq.neverAfter, Already(entries));
    FilterMembers(sq.onlyAfter, NotYet(entries));
    FilterMembers(sq.neverAfter, Already(entries));
    forall t {
      CountedIffExecuted(entries, t);
    }
    var a, b, c := Map(missing, Missing), Map(blocked, Forbidden), PriorViolations(entries, sq.prior);
    assert SequenceViolations(entries, sq) == a + b + c;
    forall v
      ensures v in a <==> v.MissingPrerequisite? && v.tool in missing
      ensures v in b <==> v.ForbiddenPredecessor? && v.tool in blocked
    {
      if v.MissingPrerequisite? && v.tool in missing {
        var i :| 0 <= i < |missing| && missing[i] == v.tool;
        assert a[i] == v;
      }
      if v.ForbiddenPredecessor? && v.tool in blocked {
        var i :| 0 <= i < |blocked| && blocked[i] == v.tool;
        assert b[i] == v;
      }
    }
  }

  /** The call passes exactly when every predicate holds of the history. */
  ghost predicate SequenceHolds(entries: seq<Entry>, sq: Sequencing) {
    && (forall t :: t in sq.onlyAfter ==> ExecCount(entries, t) > 0)
    && (forall t :: t in sq.neverAfter ==> ExecCount(entries, t) == 0)
    && (sq.prior.Some? ==> ExecCount(entries, sq.prior.value.tool) >= sq.prior.value.count)
  }

  lemma PermittedIffHolds(entries: seq<Entry>, sq: Sequencing)
    ensures SequenceDecision(entries, sq).action == Allow <==> SequenceHolds(entries, sq)
  {
    FilterMembers(sq.onlyAfter, NotYet(entries));
    FilterMembers(sq.neverAfter, Already(entries));
    if SequenceHolds(entries, sq) {
      CountNone(sq.onlyAfter, NotYet(entries));
      CountNone(sq.neverAfter, Already(entries));
    } else {
      if t :| t in sq.onlyAfter && ExecCount(entries, t) == 0 {
        assert t in Filter(sq.onlyAfter, NotYet(entries));
      } else if t :| t in sq.neverAfter && ExecCount(entries, t) > 0 {
        assert t in Filter(sq.neverAfter, Already(entries));
      }
    }
  }

  /** What a denial tells the agent: the missing prerequisites if there are any, exactly those; else that a
      forbidden predecessor has run; else the tool it has called too seldom. */
  lemma FeedbackMeaning(entries: seq<Entry>, sq: Sequencing)
    requires SequenceDecision(entries, sq).action != Allow
    ensures var f := SequenceDecision(entries, sq).feedback;
            && f.Some?
            && (f.value.code == OnlyAfterFailed <==> exists t :: t in sq.onlyAfter && !HasExecuted(entries, t))
            && (f.value.code == OnlyAfterFailed ==>
                  forall t :: t in f.value.unsatisfied <==> t in sq.onlyAfter && !HasExecuted(entries, t))
            && (f.value.code == NeverAfterFailed ==> exists t :: t in sq.neverAfter && HasExecuted(entries, t))
            && (f.value.code == PriorNFailed ==>
                  && (forall t :: t in sq.neverAfter ==> !HasExecuted(entries, t))
                  && sq.prior.Some? && f.value.unsatisfied == [sq.prior.value.tool]
                  && ExecCount(entries, sq.prior.value.tool) < sq.prior.value.count)
  {
    hide HasExecuted, ExecCount;
    forall t {
      CountedIffExecuted(entries, t);
    }
    var missing, blocked := Filter(sq.onlyAfter, NotYet(entries)), Filter(sq.neverAfter, Already(entries));
    FilterMembers(sq.onlyAfter, NotYet(entries));
    FilterMembers(sq.neverAfter, Already(entries));
    if |missing| > 0 {
      assert missing[0] in missing;
    } else if |blocked| > 0 {
      assert blocked[0] in blocked;
    }
  }

  /** Counting over a session's projected rows is counting over the table. */
  lemma {:induction false} ProjectionCounts(events: seq<EventRow>, sid: string, tool: string)
    ensures ExecCount(Map(SessionRows(events, sid), ToEntry), tool) == ExecutedCount(events, sid, tool)
  {
    if |events| != 0 {
      var front, last := events[..|events| - 1], events[|events| - 1];
      ProjectionCounts(front, sid, tool);
      if last.session == sid {
        MapSnoc(SessionRows(front, sid), last, ToEntry);
        CountSnoc(Map(SessionRows(front, sid), ToEntry), ToEntry(last), ExecutedOf(tool));
      } else {
        assert SessionRows(events, sid) == SessionRows(front, sid);
      }
    }
  }

  /** only_after and requires_prior_n, as counts over the events table. They only ever become true. */
  ghost predicate Prerequisites(events: seq<EventRow>, sid: string, pol: Policy, tool: string) {
    tool in pol.tools ==>
      var sq := pol.tools[tool].sequencing;
      && (forall t :: t in sq.onlyAfter ==> ExecutedCount(events, sid, t) > 0)
      && (sq.prior.Some? ==> ExecutedCount(events, sid, sq.prior.value.tool) >= sq.prior.value.count)
  }

  /** never_after, as counts over the events table. */
  ghost predicate NoForbidden(events: seq<EventRow>, sid: string, pol: Policy, tool: string) {
    forall t :: t in NeverAfter(pol, tool) ==> ExecutedCount(events, sid, t) == 0
  }

  /** The live sequence stage permits exactly when the table meets every predicate. */
  lemma StageMeaning(db: Db, call: Call, pol: Policy)
    ensures EvalSequence(StoreBackend(db, false), call, pol).Ok?
    ensures EvalSequence(StoreBackend(db, false), call, pol).value.action == Allow <==>
            Prerequisites(db.events, call.session, pol, call.tool)
                && NoForbidden(db.events, call.session, pol, call.tool)
  {
    if call.tool in pol.tools {
      var entries := Map(SessionRows(db.events, call.session), ToEntry);
      forall t {
        ProjectionCounts(db.events, call.session, t);
      }
      PermittedIffHolds(entries, pol.tools[call.tool].sequencing);
    }
  }
}
