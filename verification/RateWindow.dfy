/** The rolling rate limit under concurrency (internal/engine/ratelimit.go). */
module RateWindow {
  import opened Prelude
  import opened Policies
  import opened Database
  import opened Engine
  import opened Protocol
  import opened Frame
  import opened Recording

  const RATE_STAGE := 7

  /** The tool's executed rows of the session recorded in the closed interval [from, to]. */
  function InWindow(sid: string, tool: string, from: int, to: int): EventRow -> bool {
    (e: EventRow) => e.session == sid && e.tool == tool && Executed(e.decision) && from <= e.recordedAt <= to
  }

  /** The rate stage has counted for this request and its permitted call is not recorded yet. */
  predicate BetweenCountAndAppend(r: Request) {
    (r.pc.Evaluating? && r.pc.k > RATE_STAGE) || (r.pc.Append? && r.decision.action == Allow)
  }

  function Racing(sid: string, tool: string): Request -> bool {
    (r: Request) => r.call.session == sid && r.call.tool == tool && BetweenCountAndAppend(r)
  }

  /** Racing requests that arrived early enough to be recorded in a window ending at `to`. */
  function RacingBefore(sid: string, tool: string, to: int): Request -> bool {
    (r: Request) => r.call.session == sid && r.call.tool == tool && BetweenCountAndAppend(r) && r.call.requestedAt <= to
  }

  /** Every policy the session's calls of this tool are evaluated under has this limit and blocks the tool. */
  ghost predicate Limited(s: State, sid: string, tool: string, rl: RateLimit) {
    forall i :: 0 <= i < |s.reqs|
                && s.reqs[i].call.session == sid && s.reqs[i].call.tool == tool && s.reqs[i].pol.Some? ==>
      var pol := s.reqs[i].pol.value;
      Blocks(pol, tool) && tool in pol.tools && pol.tools[tool].rateLimit == Some(rl)
  }

  /** No call is recorded before it was requested. The clock need not be monotone across calls. */
  ghost predicate ClockOk(s: State) {
    && |s.writers| == |s.db.events|
    && forall j :: 0 <= j < |s.writers| ==>
         s.writers[j] < |s.reqs| && s.reqs[s.writers[j]].call.requestedAt <= s.db.events[j].recordedAt
  }

  /** Once a window is full, only requests that counted before that can still land in it. */
  ghost predicate WindowBounded(s: State, sid: string, tool: string, limit: nat, from: int, to: int, k: nat) {
    var n := Count(s.db.events, InWindow(sid, tool, from, to));
    n >= limit ==> n + Count(s.reqs, RacingBefore(sid, tool, to)) < limit + k
  }

  /** The rate stage permits only while its count is below the limit. */
  lemma PassingRate(lib: Library, db: Db, fail: bool, r: Request, k: nat, rl: RateLimit)
    requires RequestOk(r) && r.pc == Evaluating(k)
    requires r.call.tool in r.pol.value.tools && r.pol.value.tools[r.call.tool].rateLimit == Some(rl)
    requires BetweenCountAndAppend(EvalOne(lib, StoreBackend(db, fail), r, k)) && !BetweenCountAndAppend(r)
    ensures Count(db.events, ExecutedSince(r.call.session, r.call.tool, WindowStart(r.call, rl))) < rl.maxCalls
  {
    var b := StoreBackend(db, fail);
    assert Live()[k] == Rate && k == RATE_STAGE;
    assert EvalStage(Rate, lib, b, r.call, r.sess, r.pol.value) == EvalRate(b, r.call, r.pol.value);
  }

  /** If request i gets past the rate stage in this step, its count was below the limit. */
  ghost predicate CountsWell(s: State, i: nat, s': State, rl: RateLimit)
    requires i < |s.reqs| && i < |s'.reqs|
  {
    var r, r' := s.reqs[i], s'.reqs[i];
    r.pol.Some? && r.call.tool in r.pol.value.tools && r.pol.value.tools[r.call.tool].rateLimit == Some(rl)
    && BetweenCountAndAppend(r') && !BetweenCountAndAppend(r) ==>
      Count(s.db.events, ExecutedSince(r.call.session, r.call.tool, WindowStart(r.call, rl))) < rl.maxCalls
  }

  lemma MoveCountsWell(cfg: Config, s: State, i: nat, fail: bool, now: int, id: string, rl: RateLimit)
    requires i < |s.reqs| && RequestOk(s.reqs[i])
    ensures i < |Move(cfg, s, i, fail, now, id).reqs| && CountsWell(s, i, Move(cfg, s, i, fail, now, id), rl)
  {
    MoveMoves(cfg, s, i, fail, now, id);
    var r, s' := s.reqs[i], Move(cfg, s, i, fail, now, id);
    if r.pc.Evaluating? && r.call.tool in r.pol.value.tools && r.pol.value.tools[r.call.tool].rateLimit == Some(rl)
      && BetweenCountAndAppend(s'.reqs[i]) && !BetweenCountAndAppend(r)
    {
      PassingRate(cfg.lib, s.db, fail, r, r.pc.k, rl);
    }
  }

  /** A count that starts at or before the window covers the window. */
  lemma WindowWithinCount(events: seq<EventRow>, sid: string, tool: string, from: int, to: int, since: int)
    requires since <= from
    ensures Count(events, InWindow(sid, tool, from, to)) <= Count(events, ExecutedSince(sid, tool, since))
  {
    CountMono(events, InWindow(sid, tool, from, to), ExecutedSince(sid, tool, since));
  }

  lemma RecordedInWindow(s: State, i: nat, s': State, sid: string, tool: string, rl: RateLimit, from: int, to: int)
    requires Sound(s) && i < |s.reqs| && Moved(s, i, s') && Records(s, i, s')
    requires ClockOk(s') && Limited(s', sid, tool, rl)
    ensures var row := s'.db.events[|s.db.events|];
            && s'.db.events == s.db.events + [row]
            && (InWindow(sid, tool, from, to)(row) ==>
                  RacingBefore(sid, tool, to)(s.reqs[i]) && !RacingBefore(sid, tool, to)(s'.reqs[i]))
  {
    var row := s'.db.events[|s.db.events|];
    assert s'.writers[|s.db.events|] == i;
    assert DecisionOk(s.reqs[i]);
  }

  lemma MovedWindow(
    s: State, i: nat, s': State, sid: string, tool: string, rl: RateLimit, from: int, to: int, k: nat)
    requires Sound(s) && i < |s.reqs| && Moved(s, i, s') && CountsWell(s, i, s', rl)
    requires to - from <= rl.windowSeconds * NANOS_PER_SECOND && rl.maxCalls > 0
    requires ClockOk(s') && Limited(s', sid, tool, rl)
    requires Count(s.reqs, Racing(sid, tool)) <= k
    requires WindowBounded(s, sid, tool, rl.maxCalls, from, to, k)
    ensures WindowBounded(s', sid, tool, rl.maxCalls, from, to, k)
  {
    hide Wrote, SeqDense, ClockOk;
    var r, r' := s.reqs[i], s'.reqs[i];
    CountUpdate(s.reqs, i, r', RacingBefore(sid, tool, to));
    CountMono(s.reqs, RacingBefore(sid, tool, to), Racing(sid, tool));
    if Records(s, i, s') {
      RecordedInWindow(s, i, s', sid, tool, rl, from, to);
      CountSnoc(s.db.events, s'.db.events[|s.db.events|], InWindow(sid, tool, from, to));
    } else if RacingBefore(sid, tool, to)(r') && !RacingBefore(sid, tool, to)(r) {
      WindowWithinCount(s.db.events, sid, tool, from, to, WindowStart(r.call, rl));
    }
  }

  lemma AsideWindow(s: State, step: Step, s': State, sid: string, tool: string, limit: nat, from: int, to: int, k: nat)
    requires Aside(s, step, s') && !step.Advance? && WindowBounded(s, sid, tool, limit, from, to, k)
    ensures WindowBounded(s', sid, tool, limit, from, to, k)
  {
    if step.Arrive? {
      CountSnoc(s.reqs, NewRequest(step.call), RacingBefore(sid, tool, to));
    }
    if step.Crash? && s'.reqs != s.reqs {
      CountUpdate(s.reqs, step.i, s'.reqs[step.i], RacingBefore(sid, tool, to));
    }
  }

  /** At every point, at most k calls of the tool in the session stand between their count and their
      event, every one is evaluated under a blocking policy with this limit, and clocks are as required. */
  ghost predicate LimitedRun(cfg: Config, pol: Policy, steps: seq<Step>, sid: string, tool: string, rl: RateLimit,
      k: nat) {
    forall n :: 0 <= n <= |steps| ==>
      var s := At(cfg, pol, steps, n);
      Count(s.reqs, Racing(sid, tool)) <= k && Limited(s, sid, tool, rl) && ClockOk(s)
  }

  lemma StepWindow(
    cfg: Config, s: State, step: Step, sid: string, tool: string, rl: RateLimit, from: int, to: int, k: nat)
    requires Sound(s) && to - from <= rl.windowSeconds * NANOS_PER_SECOND && rl.maxCalls > 0
    requires ClockOk(Apply(cfg, s, step)) && Limited(Apply(cfg, s, step), sid, tool, rl)
    requires Count(s.reqs, Racing(sid, tool)) <= k
    requires WindowBounded(s, sid, tool, rl.maxCalls, from, to, k)
    ensures WindowBounded(Apply(cfg, s, step), sid, tool, rl.maxCalls, from, to, k)
  {
    var s' := Apply(cfg, s, step);
    StepFrame(cfg, s, step);
    if !step.Advance? {
      AsideWindow(s, step, s', sid, tool, rl.maxCalls, from, to, k);
    } else if step.i < |s.reqs| {
      MoveCountsWell(cfg, s, step.i, step.fail, step.now, step.id, rl);
      MovedWindow(s, step.i, s', sid, tool, rl, from, to, k);
    }
  }

  lemma StartsBounded(pol: Policy, sid: string, tool: string, limit: int, from: int, to: int, k: nat)
    requires limit > 0
    ensures WindowBounded(Initial(pol), sid, tool, limit, from, to, k)
  {
  }

  lemma {:induction false} AtWindow(
    cfg: Config, pol: Policy, steps: seq<Step>, sid: string, tool: string, rl: RateLimit, from: int, to: int, k: nat,
        n: nat)
    requires n <= |steps| && LimitedRun(cfg, pol, steps, sid, tool, rl, k)
    requires to - from <= rl.windowSeconds * NANOS_PER_SECOND && rl.maxCalls > 0
    ensures WindowBounded(At(cfg, pol, steps, n), sid, tool, rl.maxCalls, from, to, k)
  {
    hide Apply, At, Run, WindowBounded, Limited, ClockOk, Sound;
    AtStart(cfg, pol, steps);
    StartsBounded(pol, sid, tool, rl.maxCalls, from, to, k);
    if n > 0 {
      AtWindow(cfg, pol, steps, sid, tool, rl, from, to, k, n - 1);
      AtNext(cfg, pol, steps, n - 1);
      AtSound(cfg, pol, steps, n - 1);
      StepWindow(cfg, At(cfg, pol, steps, n - 1), steps[n - 1], sid, tool, rl, from, to, k);
    }
  }

  /** Sliding window. Every closed interval no longer than window_seconds holds at most
      max_calls + k - 1 executed events of the tool in the session. */
  lemma SlidingWindow(
    cfg: Config, pol: Policy, steps: seq<Step>, sid: string, tool: string, rl: RateLimit, from: int, to: int, k: nat)
    requires LimitedRun(cfg, pol, steps, sid, tool, rl, k) && k > 0
    requires to - from <= rl.windowSeconds * NANOS_PER_SECOND && rl.maxCalls > 0
    ensures Count(At(cfg, pol, steps, |steps|).db.events, InWindow(sid, tool, from, to)) <= rl.maxCalls + k - 1
  {
    AtWindow(cfg, pol, steps, sid, tool, rl, from, to, k, |steps|);
  }
}
