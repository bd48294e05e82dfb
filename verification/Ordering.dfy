/** Ordering safety: what a permitted call's session has executed before it, in every interleaving. */
module Ordering {
  import opened Prelude
  import opened Policies
  import opened Database
  import opened Engine
  import opened SequenceChecks
  import opened Protocol
  import opened Frame
  import opened Recording

  /** The position of the sequence stage in the live pipeline. */
  const SEQUENCE_STAGE := 5

  /** The sequence stage has permitted this request, and nothing has denied it since. */
  predicate PassedSequence(r: Request) {
    || (r.pc.Evaluating? && r.pc.k > SEQUENCE_STAGE)
    || (Decided(r) && r.decision.action == Allow)
  }

  ghost predicate ReadyNow(r: Request, events: seq<EventRow>) {
    r.pol.Some? && Prerequisites(events, r.call.session, r.pol.value, r.call.tool)
  }

  ghost predicate ClearNow(r: Request, events: seq<EventRow>) {
    r.pol.Some? && NoForbidden(events, r.call.session, r.pol.value, r.call.tool)
  }

  /** Requests past the sequence stage still find their prerequisites in the table. */
  ghost predicate FlightsReady(s: State) {
    forall i :: 0 <= i < |s.reqs| && PassedSequence(s.reqs[i]) ==> ReadyNow(s.reqs[i], s.db.events)
  }

  /** The rows before a permitted row hold its prerequisites. */
  ghost predicate RowsReady(s: State)
    requires RowsOk(s)
  {
    forall j :: 0 <= j < |s.db.events| && s.db.events[j].decision == Allow ==>
      ReadyNow(s.reqs[s.writers[j]], s.db.events[..j])
  }

  lemma CountsGrow(events: seq<EventRow>, row: EventRow, sid: string, tool: string)
    ensures ExecutedCount(events, sid, tool) <= ExecutedCount(events + [row], sid, tool)
  {
    CountSnoc(events, row, ExecutedRow(sid, tool));
  }

  lemma ReadyGrows(r: Request, events: seq<EventRow>, row: EventRow)
    requires ReadyNow(r, events)
    ensures ReadyNow(r, events + [row])
  {
    forall t {
      CountsGrow(events, row, r.call.session, t);
    }
  }

  /** Only the sequence stage lets a request pass, and it reads the table to do so. */
  lemma PassingReads(lib: Library, db: Db, fail: bool, r: Request, k: nat)
    requires RequestOk(r) && r.pc == Evaluating(k)
    requires PassedSequence(EvalOne(lib, StoreBackend(db, fail), r, k)) && !PassedSequence(r)
    ensures ReadyNow(r, db.events) && ClearNow(r, db.events)
  {
    var b := StoreBackend(db, fail);
    assert Live()[k] == Sequence && k == SEQUENCE_STAGE;
    assert EvalStage(Sequence, lib, b, r.call, r.sess, r.pol.value) == EvalSequence(b, r.call, r.pol.value);
    StageMeaning(db, r.call, r.pol.value);
  }

  /** Request i passes the sequence stage in this step: it did not before, and the table is ready. */
  ghost predicate PassesWell(s: State, step: Step, s': State) {
    step.Advance? && step.i < |s.reqs| && step.i < |s'.reqs|
    && PassedSequence(s'.reqs[step.i]) && !PassedSequence(s.reqs[step.i]) ==>
      ReadyNow(s'.reqs[step.i], s.db.events) && ClearNow(s'.reqs[step.i], s.db.events)
  }

  lemma StepPassesWell(cfg: Config, s: State, step: Step)
    requires AllOk(s)
    ensures PassesWell(s, step, Apply(cfg, s, step))
  {
    StepFrame(cfg, s, step);
    if step.Advance? && step.i < |s.reqs| && s.reqs[step.i].pc.Evaluating? {
      var r, k, b := s.reqs[step.i], s.reqs[step.i].pc.k, StoreBackend(s.db, step.fail);
      if PassedSequence(EvalOne(cfg.lib, b, r, k)) && !PassedSequence(r) {
        PassingReads(cfg.lib, s.db, step.fail, r, k);
      }
    }
  }

  lemma FlightsStayReady(s: State, step: Step, s': State)
    requires AllOk(s) && Stepped(s, step, s') && PassesWell(s, step, s') && FlightsReady(s)
    ensures FlightsReady(s')
  {
    forall i | 0 <= i < |s'.reqs| && PassedSequence(s'.reqs[i])
      ensures ReadyNow(s'.reqs[i], s'.db.events)
    {
      assert ReadyNow(s'.reqs[i], s.db.events);
      if s'.db.events != s.db.events {
        ReadyGrows(s'.reqs[i], s.db.events, s'.db.events[|s.db.events|]);
      }
    }
  }

  lemma RowsStayReady(s: State, s': State)
    requires Sound(s) && Sound(s') && Grows(s, s') && FlightsReady(s) && RowsReady(s)
    ensures RowsReady(s')
  {
    hide RequestOk, SeqDense, Prerequisites;
    forall j | 0 <= j < |s'.db.events| && s'.db.events[j].decision == Allow
      ensures ReadyNow(s'.reqs[s'.writers[j]], s'.db.events[..j])
    {
      var w := s'.writers[j];
      assert Wrote(s'.reqs[w], s'.db.events[j]);
      if j < |s.db.events| {
        assert s'.writers[..|s.writers|][j] == w && s'.db.events[..|s.writers|][j] == s.db.events[j];
        assert s'.db.events[..j] == s.db.events[..j];
        assert ReadyNow(s.reqs[w], s.db.events[..j]);
      } else {
        assert PassedSequence(s.reqs[w]);
      }
    }
  }

  lemma {:induction false} AtReady(cfg: Config, pol: Policy, steps: seq<Step>, n: nat)
    requires n <= |steps|
    ensures Sound(At(cfg, pol, steps, n)) && FlightsReady(At(cfg, pol, steps, n)) && RowsReady(At(cfg, pol, steps, n))
  {
    AtSound(cfg, pol, steps, n);
    if n > 0 {
      hide Apply;
      AtReady(cfg, pol, steps, n - 1);
      AtNext(cfg, pol, steps, n - 1);
      var s := At(cfg, pol, steps, n - 1);
      StepFrame(cfg, s, steps[n - 1]);
      StepPassesWell(cfg, s, steps[n - 1]);
      FlightsStayReady(s, steps[n - 1], At(cfg, pol, steps, n));
      SteppedGrows(s, steps[n - 1], At(cfg, pol, steps, n));
      RowsStayReady(s, At(cfg, pol, steps, n));
    }
  }

  /** An executed row of the tool in the session, with a smaller seq. */
  function ExecutedBelow(sid: string, tool: string, n: nat): EventRow -> bool {
    (e: EventRow) => e.session == sid && e.tool == tool && Executed(e.decision) && e.seqNo < n
  }

  lemma EarlierIsBelow(events: seq<EventRow>, j: nat, tool: string)
    requires SeqDense(events) && j < |events|
    ensures var e := events[j];
            ExecutedCount(events[..j], e.session, tool) <= Count(events, ExecutedBelow(e.session, tool, e.seqNo))
  {
    var e := events[j];
    var p, q := ExecutedRow(e.session, tool), ExecutedBelow(e.session, tool, e.seqNo);
    forall x | x in events[..j] && p(x)
      ensures q(x)
    {
      var i :| 0 <= i < j && events[i] == x;
      EarlierRowSmallerSeq(events, i, j);
    }
    CountMono(events[..j], p, q);
    CountPrefix(events, j, q);
  }

  /** Ordering safety. In every schedule, every permitted call has, with smaller seq in its session, an
      executed call of every only_after tool, and at least Count executed calls of its requires_prior_n
      tool, under the policy it was evaluated with. */
  lemma OrderingSafety(cfg: Config, pol: Policy, steps: seq<Step>, j: nat)
    requires var s := At(cfg, pol, steps, |steps|); j < |s.db.events| && s.db.events[j].decision == Allow
    ensures var s := At(cfg, pol, steps, |steps|);
            var e := s.db.events[j];
            && j < |s.writers| && s.writers[j] < |s.reqs| && s.reqs[s.writers[j]].pol.Some?
            && var used := s.reqs[s.writers[j]].pol.value;
            && (forall d :: d in OnlyAfter(used, e.tool) ==>
                  Count(s.db.events, ExecutedBelow(e.session, d, e.seqNo)) > 0)
            && (e.tool in used.tools && used.tools[e.tool].sequencing.prior.Some? ==>
                  var prior := used.tools[e.tool].sequencing.prior.value;
                  Count(s.db.events, ExecutedBelow(e.session, prior.tool, e.seqNo)) >= prior.count)
  {
    AtReady(cfg, pol, steps, |steps|);
    var events := At(cfg, pol, steps, |steps|).db.events;
    forall t {
      EarlierIsBelow(events, j, t);
    }
  }

  // ---- never_after, when a session's calls are evaluated one at a time

  /** Between admission and the event write. */
  function InEvaluation(sid: string): Request -> bool {
    (r: Request) => r.call.session == sid && (r.pc.Evaluating? || r.pc.Append?)
  }

  /** At every point of the schedule at most one call of the session is being evaluated. */
  ghost predicate OneAtATime(cfg: Config, pol: Policy, steps: seq<Step>, sid: string) {
    forall n :: 0 <= n <= |steps| ==> Count(At(cfg, pol, steps, n).reqs, InEvaluation(sid)) <= 1
  }

  predicate InFlightPassed(r: Request, sid: string) {
    r.call.session == sid && (r.pc.Evaluating? || r.pc.Append?) && PassedSequence(r)
  }

  ghost predicate FlightsClear(s: State, sid: string) {
    forall i :: 0 <= i < |s.reqs| && InFlightPassed(s.reqs[i], sid) ==> ClearNow(s.reqs[i], s.db.events)
  }

  ghost predicate RowsClear(s: State, sid: string)
    requires RowsOk(s)
  {
    forall j :: 0 <= j < |s.db.events| && s.db.events[j].session == sid && s.db.events[j].decision == Allow ==>
      ClearNow(s.reqs[s.writers[j]], s.db.events[..j])
  }

  lemma OtherSessionsRow(events: seq<EventRow>, row: EventRow, r: Request)
    requires ClearNow(r, events) && row.session != r.call.session
    ensures ClearNow(r, events + [row])
  {
    forall t {
      CountSnoc(events, row, ExecutedRow(r.call.session, t));
    }
  }

  lemma FlightsStayClear(s: State, step: Step, s': State, sid: string)
    requires AllOk(s) && Stepped(s, step, s') && PassesWell(s, step, s') && FlightsClear(s, sid)
    requires Count(s.reqs, InEvaluation(sid)) <= 1
    ensures FlightsClear(s', sid)
  {
    forall i | 0 <= i < |s'.reqs| && InFlightPassed(s'.reqs[i], sid)
      ensures ClearNow(s'.reqs[i], s'.db.events)
    {
      assert ClearNow(s'.reqs[i], s.db.events);
      if s'.db.events != s.db.events {
        var row := s'.db.events[|s.db.events|];
        if row.session == sid {
          CountTwo(s.reqs, if i < step.i then i else step.i, if i < step.i then step.i else i, InEvaluation(sid));
        } else {
          OtherSessionsRow(s.db.events, row, s'.reqs[i]);
        }
      }
    }
  }

  lemma RowsStayClear(s: State, s': State, sid: string)
    requires Sound(s) && Sound(s') && Grows(s, s') && FlightsClear(s, sid) && RowsClear(s, sid)
    ensures RowsClear(s', sid)
  {
    hide RequestOk, SeqDense, NoForbidden;
    forall j | 0 <= j < |s'.db.events| && s'.db.events[j].session == sid && s'.db.events[j].decision == Allow
      ensures ClearNow(s'.reqs[s'.writers[j]], s'.db.events[..j])
    {
      var w := s'.writers[j];
      assert Wrote(s'.reqs[w], s'.db.events[j]);
      if j < |s.db.events| {
        assert s'.writers[..|s.writers|][j] == w && s'.db.events[..|s.writers|][j] == s.db.events[j];
        assert s'.db.events[..j] == s.db.events[..j];
        assert ClearNow(s.reqs[w], s.db.events[..j]);
      } else {
        assert InFlightPassed(s.reqs[w], sid);
      }
    }
  }

  lemma {:induction false} AtClear(cfg: Config, pol: Policy, steps: seq<Step>, sid: string, n: nat)
    requires n <= |steps| && OneAtATime(cfg, pol, steps, sid)
    ensures var s := At(cfg, pol, steps, n); Sound(s) && FlightsClear(s, sid) && RowsClear(s, sid)
  {
    AtSound(cfg, pol, steps, n);
    if n > 0 {
      hide Apply;
      AtClear(cfg, pol, steps, sid, n - 1);
      AtNext(cfg, pol, steps, n - 1);
      var s := At(cfg, pol, steps, n - 1);
      StepFrame(cfg, s, steps[n - 1]);
      StepPassesWell(cfg, s, steps[n - 1]);
      FlightsStayClear(s, steps[n - 1], At(cfg, pol, steps, n), sid);
      SteppedGrows(s, steps[n - 1], At(cfg, pol, steps, n));
      RowsStayClear(s, At(cfg, pol, steps, n), sid);
    }
  }

  /** If a session's calls are evaluated one at a time, no permitted call of it follows an executed call
      of a tool its never_after forbids; other sessions, operators, reloads and crashes interleave freely. */
  lemma NeverAfterSafety(cfg: Config, pol: Policy, steps: seq<Step>, sid: string, i: nat, j: nat)
    requires OneAtATime(cfg, pol, steps, sid)
    requires var s := At(cfg, pol, steps, |steps|);
             i < j < |s.db.events| && s.db.events[i].session == s.db.events[j].session == sid
    requires var s := At(cfg, pol, steps, |steps|);
             s.db.events[j].decision == Allow && Executed(s.db.events[i].decision)
    ensures var s := At(cfg, pol, steps, |steps|);
            && j < |s.writers| && s.writers[j] < |s.reqs| && s.reqs[s.writers[j]].pol.Some?
            && s.db.events[i].tool !in NeverAfter(s.reqs[s.writers[j]].pol.value, s.db.events[j].tool)
  {
    AtClear(cfg, pol, steps, sid, |steps|);
    var events := At(cfg, pol, steps, |steps|).db.events;
    CountPositive(events[..j], i, ExecutedRow(sid, events[i].tool));
  }
}
