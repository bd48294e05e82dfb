/** In every schedule: each event row is the record of one request, and a session's seqs are exactly 1..n. */
module Recording {
  import opened Policies
  import opened Database
  import opened Protocol
  import opened Frame

  predicate Wrote(r: Request, e: EventRow) {
    && r.recorded && e.seqNo == r.seqNo && e.session == r.call.session && e.tool == r.call.tool
    && e.args == r.call.args && e.decision == r.decision.action && e.rule == r.decision.rule
  }

  ghost predicate RowsOk(s: State) {
    && |s.writers| == |s.db.events|
    && forall j :: 0 <= j < |s.writers| ==> s.writers[j] < |s.reqs| && Wrote(s.reqs[s.writers[j]], s.db.events[j])
  }

  ghost predicate Sound(s: State) {
    AllOk(s) && RowsOk(s) && SeqDense(s.db.events)
  }

  /** Later states keep earlier ones: requests keep what they fixed, and at most one row is added, by a
      request that stood at Append. */
  ghost predicate Grows(s: State, s': State) {
    && |s.reqs| <= |s'.reqs|
    && (forall i :: 0 <= i < |s.reqs| ==> Keeps(s.reqs[i], s'.reqs[i]))
    && |s.writers| <= |s'.writers| <= |s.writers| + 1 && |s'.writers| == |s'.db.events|
    && s'.writers[..|s.writers|] == s.writers && s'.db.events[..|s.writers|] == s.db.events
    && (|s'.writers| > |s.writers| ==> s'.writers[|s.writers|] < |s.reqs| && s.reqs[s'.writers[|s.writers|]].pc.Append?)
  }

  lemma MovedGrows(s: State, i: nat, s': State)
    requires Sound(s) && i < |s.reqs| && Moved(s, i, s')
    ensures Grows(s, s')
  {
    if Records(s, i, s') {
      assert s'.writers[..|s.writers|] == s.writers && s'.db.events[..|s.writers|] == s.db.events;
    }
  }

  lemma AsideGrows(s: State, step: Step, s': State)
    requires Sound(s) && !step.Advance? && Aside(s, step, s')
    ensures Grows(s, s')
  {
  }

  lemma SteppedGrows(s: State, step: Step, s': State)
    requires Sound(s) && Stepped(s, step, s')
    ensures Grows(s, s')
  {
    if !step.Advance? {
      AsideGrows(s, step, s');
    } else if step.i < |s.reqs| {
      MovedGrows(s, step.i, s');
    }
  }

  lemma RecordedSound(s: State, i: nat, s': State)
    requires Sound(s) && i < |s.reqs| && Moved(s, i, s') && Records(s, i, s')
    ensures SeqDense(s'.db.events)
    ensures Wrote(s'.reqs[i], s'.db.events[|s.db.events|])
  {
    var row := s'.db.events[|s.db.events|];
    assert s'.db.events == s.db.events + [row];
    SeqDenseSnoc(s.db.events, row);
  }

  lemma GrownRowsOk(s: State, s': State)
    requires Sound(s) && Grows(s, s')
    requires |s'.writers| > |s.writers| ==>
               s'.writers[|s.writers|] < |s'.reqs| && Wrote(s'.reqs[s'.writers[|s.writers|]], s'.db.events[|s.writers|])
    ensures RowsOk(s')
  {
    forall j | 0 <= j < |s'.writers|
      ensures s'.writers[j] < |s'.reqs| && Wrote(s'.reqs[s'.writers[j]], s'.db.events[j])
    {
      if j < |s.writers| {
        assert s'.writers[..|s.writers|][j] == s.writers[j] && s'.db.events[..|s.writers|][j] == s.db.events[j];
        assert Wrote(s.reqs[s.writers[j]], s.db.events[j]);
      }
    }
  }

  lemma SteppedSound(s: State, step: Step, s': State)
    requires Sound(s) && Stepped(s, step, s')
    ensures Sound(s')
  {
    SteppedGrows(s, step, s');
    if step.Advance? && step.i < |s.reqs| && Records(s, step.i, s') {
      RecordedSound(s, step.i, s');
    }
    GrownRowsOk(s, s');
  }

  /** Every state of every schedule is sound. */
  lemma {:induction false} AtSound(cfg: Config, pol: Policy, steps: seq<Step>, n: nat)
    requires n <= |steps|
    ensures Sound(At(cfg, pol, steps, n))
  {
    hide Apply, At, Run;
    AtStart(cfg, pol, steps);
    if n > 0 {
      AtSound(cfg, pol, steps, n - 1);
      AtNext(cfg, pol, steps, n - 1);
      StepFrame(cfg, At(cfg, pol, steps, n - 1), steps[n - 1]);
      SteppedSound(At(cfg, pol, steps, n - 1), steps[n - 1], At(cfg, pol, steps, n));
    }
  }

  /** Conservation of seqs: in every schedule, with any failures, crashes and interleavings, the seqs
      of each session are exactly 1..n in the order its rows were written. */
  lemma SeqsAreOneToN(cfg: Config, pol: Policy, steps: seq<Step>, sid: string)
    ensures var rows := SessionRows(At(cfg, pol, steps, |steps|).db.events, sid);
            forall k :: 0 <= k < |rows| ==> rows[k].seqNo == k + 1
  {
    AtSound(cfg, pol, steps, |steps|);
    RowsAreOneToN(At(cfg, pol, steps, |steps|).db.events, sid);
  }

  /** The tables of an earlier point are prefixes of those of a later one; finished requests stay as they are. */
  ghost predicate Precedes(s: State, s': State) {
    && |s.writers| == |s.db.events| <= |s'.db.events| == |s'.writers| && |s.reqs| <= |s'.reqs|
    && (forall j :: 0 <= j < |s.writers| ==> s'.writers[j] == s.writers[j] && s'.db.events[j] == s.db.events[j])
    && (forall i :: 0 <= i < |s.reqs| ==> Keeps(s.reqs[i], s'.reqs[i]))
  }

  lemma KeepsTransitive(a: Request, b: Request, c: Request)
    requires RequestOk(a) && RequestOk(b) && Keeps(a, b) && Keeps(b, c)
    ensures Keeps(a, c)
  {
  }

  lemma PrecedesGrows(s: State, t: State, s': State)
    requires Sound(s) && Sound(t) && Precedes(s, t) && Grows(t, s')
    ensures Precedes(s, s')
  {
    forall j | 0 <= j < |s.writers|
      ensures s'.writers[j] == s.writers[j] && s'.db.events[j] == s.db.events[j]
    {
      assert s'.writers[..|t.writers|][j] == t.writers[j] && s'.db.events[..|t.writers|][j] == t.db.events[j];
    }
    forall i | 0 <= i < |s.reqs|
      ensures Keeps(s.reqs[i], s'.reqs[i])
    {
      KeepsTransitive(s.reqs[i], t.reqs[i], s'.reqs[i]);
    }
  }

  lemma PrecedesItself(s: State)
    requires Sound(s)
    ensures Precedes(s, s)
  {
  }

  lemma StepPrecedes(cfg: Config, s: State, t: State, step: Step)
    requires Sound(s) && Sound(t) && Precedes(s, t)
    ensures Precedes(s, Apply(cfg, t, step))
  {
    StepFrame(cfg, t, step);
    SteppedGrows(t, step, Apply(cfg, t, step));
    PrecedesGrows(s, t, Apply(cfg, t, step));
  }

  lemma {:induction false} AtPrecedes(cfg: Config, pol: Policy, steps: seq<Step>, m: nat, n: nat)
    requires m <= n <= |steps|
    ensures Precedes(At(cfg, pol, steps, m), At(cfg, pol, steps, n))
  {
    hide Apply, Precedes;
    AtSound(cfg, pol, steps, m);
    if m < n {
      AtPrecedes(cfg, pol, steps, m, n - 1);
      AtSound(cfg, pol, steps, n - 1);
      AtNext(cfg, pol, steps, n - 1);
      var t := At(cfg, pol, steps, n - 1);
      var s := At(cfg, pol, steps, m);
      StepPrecedes(cfg, s, t, steps[n - 1]);
      assert Precedes(s, Apply(cfg, t, steps[n - 1]));
      assert At(cfg, pol, steps, n) == Apply(cfg, t, steps[n - 1]);
    } else {
      PrecedesItself(At(cfg, pol, steps, m));
    }
  }
}
