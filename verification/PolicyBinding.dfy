/** Policy binding under hot reload: which policy evaluates a session's calls, in every schedule. */
module PolicyBinding {
  import opened Prelude
  import opened Policies
  import opened Database
  import opened Engine
  import opened Recency
  import opened LruTheory
  import opened Protocol
  import opened Frame
  import opened Recording

  // ---- the cache

  /** Every entry is a policy with the fingerprint it is filed under. */
  ghost predicate Keyed(c: seq<Cached>) {
    forall i :: 0 <= i < |c| ==> c[i].pol.fingerprint == c[i].fp
  }

  /** The policy a reload in progress is about to publish, else the live one, is cached. */
  ghost predicate CacheOk(cfg: Config, s: State) {
    && Distinct(s.cache) && |s.cache| <= cfg.capacity && Keyed(s.cache)
    && Has(s.cache, if s.pending.Some? then s.pending.value.fingerprint else s.live.fingerprint)
  }

  lemma DistinctKeys(c: seq<Cached>)
    ensures Distinct(c) <==> AllDistinct(Keys(c))
  {
    assert forall i :: 0 <= i < |c| ==> Keys(c)[i] == c[i].fp;
  }

  lemma GetKeeps(capacity: nat, c: seq<Cached>, fp: string)
    requires Distinct(c) && |c| <= capacity && Keyed(c)
    ensures var c' := AfterGet(c, fp);
            Distinct(c') && |c'| <= capacity && Keyed(c') && forall x :: Has(c, x) ==> Has(c', x)
  {
    var c', i := AfterGet(c, fp), Position(c, fp);
    if i < |c| {
      assert Keys(c)[i] == fp;
      DistinctKeys(c);
      KeysMove(c, c[i], i);
      LruTheory.MoveToFront(Keys(c), i);
      DistinctKeys(c');
      forall x | Has(c, x)
        ensures Has(c', x)
      {
        KeysHas(c, x);
        KeysHas(c', x);
      }
    }
  }

  /** The new entry is in front, and every entry is still filed under its own fingerprint. */
  lemma SetEntries(capacity: nat, c: seq<Cached>, pol: Policy)
    requires Keyed(c)
    ensures var c' := AfterSet(capacity, c, pol.fingerprint, pol);
            Keyed(c') && |c'| > 0 && c'[0].fp == pol.fingerprint
  {
    hide Position;
  }

  lemma SetKeeps(capacity: nat, c: seq<Cached>, pol: Policy)
    requires Distinct(c) && |c| <= capacity && capacity > 0 && Keyed(c)
    ensures var c' := AfterSet(capacity, c, pol.fingerprint, pol);
            Distinct(c') && |c'| <= capacity && Keyed(c') && Has(c', pol.fingerprint)
  {
    hide AfterSet, After, Distinct, AllDistinct, Keyed;
    var c', fp := AfterSet(capacity, c, pol.fingerprint, pol), pol.fingerprint;
    SetEntries(capacity, c, pol);
    KeysFollow(capacity, c, fp, pol);
    DistinctKeys(c);
    DistinctKeys(c');
    AfterWellFormed(capacity, Keys(c), Set(fp));
    assert |Keys(c')| == |c'|;
  }

  /** Only these steps change the cache, the live policy or the reload in progress. */
  ghost predicate CacheMoves(cfg: Config, s: State, step: Step, s': State) {
    match step
    case Restart(pol) => s'.cache == [Cached(pol.fingerprint, pol)] && s'.live == pol && s'.pending.None?
    case ReloadCache(pol, accepted) =>
      if accepted && s.pending.None? then
        s'.cache == AfterSet(cfg.capacity, s.cache, pol.fingerprint, pol) && s'.pending == Some(pol)
        && s'.live == s.live
      else s' == s
    case ReloadPublish =>
      s'.cache == s.cache && s'.pending.None? && s'.live == if s.pending.Some? then s.pending.value else s.live
    case Advance(i, fail, now, id) =>
      && s'.live == s.live && s'.pending == s.pending
      && s'.cache == (if i < |s.reqs| && s.reqs[i].pc.Resolve? then AfterGet(s.cache, s.reqs[i].sess.fingerprint)
                      else s.cache)
    case _ => s'.cache == s.cache && s'.live == s.live && s'.pending == s.pending
  }

  lemma ResolveCache(s: State, i: nat)
    requires i < |s.reqs|
    ensures var s' := MoveResolve(s, i);
            s'.cache == AfterGet(s.cache, s.reqs[i].sess.fingerprint) && s'.live == s.live && s'.pending == s.pending
  {
  }

  lemma OtherCache(cfg: Config, s: State, i: nat, fail: bool, now: int, id: string)
    requires i < |s.reqs| && !s.reqs[i].pc.Resolve?
    ensures var s' := Move(cfg, s, i, fail, now, id);
            s'.cache == s.cache && s'.live == s.live && s'.pending == s.pending
  {
    hide MoveResolve, EvalOne, Admit;
  }

  lemma StepCache(cfg: Config, s: State, step: Step)
    ensures CacheMoves(cfg, s, step, Apply(cfg, s, step))
  {
    hide MoveLoad, MoveCreate, MoveResolve, MoveAppend, MoveAudit, MoveTaint, MoveSettle, EvalOne, AfterGet, AfterSet;
    if step.Advance? && step.i < |s.reqs| {
      if s.reqs[step.i].pc.Resolve? {
        ResolveCache(s, step.i);
      } else {
        OtherCache(cfg, s, step.i, step.fail, step.now, step.id);
      }
    }
  }

  lemma CacheStaysOk(cfg: Config, s: State, step: Step, s': State)
    requires cfg.capacity > 0 && CacheOk(cfg, s) && CacheMoves(cfg, s, step, s')
    ensures CacheOk(cfg, s')
  {
    hide AfterGet, AfterSet;
    match step
    case Advance(i, _, _, _) => if i < |s.reqs| { GetKeeps(cfg.capacity, s.cache, s.reqs[i].sess.fingerprint); }
    case ReloadCache(pol, _) => SetKeeps(cfg.capacity, s.cache, pol);
    case Restart(pol) => assert s'.cache[0].fp == pol.fingerprint;
    case _ =>
  }

  lemma StartsCached(cfg: Config, pol: Policy)
    requires cfg.capacity > 0
    ensures CacheOk(cfg, Initial(pol))
  {
    assert Initial(pol).cache[0].fp == pol.fingerprint;
  }

  lemma {:induction false} AtCacheOk(cfg: Config, pol: Policy, steps: seq<Step>, n: nat)
    requires n <= |steps| && cfg.capacity > 0
    ensures CacheOk(cfg, At(cfg, pol, steps, n))
  {
    hide Apply, At, Run, CacheOk;
    AtStart(cfg, pol, steps);
    StartsCached(cfg, pol);
    if n > 0 {
      AtCacheOk(cfg, pol, steps, n - 1);
      AtNext(cfg, pol, steps, n - 1);
      StepCache(cfg, At(cfg, pol, steps, n - 1), steps[n - 1]);
      CacheStaysOk(cfg, At(cfg, pol, steps, n - 1), steps[n - 1], At(cfg, pol, steps, n));
    }
  }

  /** With no reload in progress the live policy is cached, under its own fingerprint. */
  lemma LivePolicyIsCached(cfg: Config, pol: Policy, steps: seq<Step>)
    requires cfg.capacity > 0 && At(cfg, pol, steps, |steps|).pending.None?
    ensures var s := At(cfg, pol, steps, |steps|);
            && Lookup(s.cache, s.live.fingerprint).Some?
            && Lookup(s.cache, s.live.fingerprint).value.fingerprint == s.live.fingerprint
  {
    AtCacheOk(cfg, pol, steps, |steps|);
  }

  // ---- the session's fingerprint

  /** The fingerprint a session was created with never changes. */
  ghost predicate FingerprintsKept(db: Db, db': Db) {
    forall sid :: sid in db.sessions ==>
      sid in db'.sessions && db'.sessions[sid].fingerprint == db.sessions[sid].fingerprint
  }

  /** The request carries its session's fingerprint. */
  predicate Carries(r: Request, db: Db) {
    r.pc.Resolve? || r.pc.Fallback? || r.pol.Some? ==>
      r.call.session in db.sessions && db.sessions[r.call.session].fingerprint == r.sess.fingerprint
  }

  lemma ForwardFingerprints(s: State, i: nat, fail: bool)
    requires i < |s.reqs|
    ensures FingerprintsKept(s.db, MoveForward(s, i, fail).db)
  {
  }

  lemma TaintFingerprints(s: State, i: nat, fail: bool)
    requires i < |s.reqs|
    ensures FingerprintsKept(s.db, MoveTaint(s, i, fail).db)
  {
  }

  lemma CreateFingerprints(s: State, i: nat, fail: bool)
    requires i < |s.reqs| && s.reqs[i].pc.Create? && RequestOk(s.reqs[i])
    ensures var s' := MoveCreate(s, i, fail);
            FingerprintsKept(s.db, s'.db) && i < |s'.reqs| && Carries(s'.reqs[i], s'.db)
  {
  }

  lemma MoveFingerprints(cfg: Config, s: State, i: nat, fail: bool, now: int, id: string)
    requires i < |s.reqs| && RequestOk(s.reqs[i])
    ensures FingerprintsKept(s.db, Move(cfg, s, i, fail, now, id).db)
  {
    hide MoveCreate, MoveTaint, MoveForward, EvalOne, AfterGet, Lookup, MaxSeq;
    match s.reqs[i].pc
    case Create => CreateFingerprints(s, i, fail);
    case PersistTaint => TaintFingerprints(s, i, fail);
    case Settle => ForwardFingerprints(s, i, fail);
    case _ =>
  }

  /** While the policy is unresolved, the moved request still carries its session's fingerprint. */
  lemma OpeningCarries(cfg: Config, s: State, i: nat, fail: bool, now: int, id: string)
    requires i < |s.reqs| && RequestOk(s.reqs[i]) && Opening(s.reqs[i].pc) && Carries(s.reqs[i], s.db)
    ensures var s' := Move(cfg, s, i, fail, now, id); i < |s'.reqs| && Carries(s'.reqs[i], s'.db)
  {
    hide MoveCreate, EvalOne, MoveAppend, MoveAudit, MoveTaint, MoveSettle, AfterGet, Lookup;
    if s.reqs[i].pc.Create? {
      CreateFingerprints(s, i, fail);
    }
  }

  lemma CarriesOn(r: Request, db: Db, r': Request, db': Db)
    requires r.pol.Some? && Carries(r, db) && Keeps(r, r') && FingerprintsKept(db, db')
    ensures Carries(r', db')
  {
  }

  ghost predicate AllCarry(s: State) {
    forall i :: 0 <= i < |s.reqs| ==> Carries(s.reqs[i], s.db)
  }

  lemma StepCarries(cfg: Config, s: State, step: Step)
    requires AllOk(s) && AllCarry(s)
    ensures AllCarry(Apply(cfg, s, step)) && FingerprintsKept(s.db, Apply(cfg, s, step).db)
  {
    hide Move, RequestOk, Keeps, Flow, Records, Carries;
    StepFrame(cfg, s, step);
    var s' := Apply(cfg, s, step);
    if step.Advance? && step.i < |s.reqs| {
      MoveFingerprints(cfg, s, step.i, step.fail, step.now, step.id);
      OneCarries(cfg, s, step.i, step.fail, step.now, step.id);
    }
    forall i | 0 <= i < |s'.reqs| && !(step.Advance? && step.i == i)
      ensures Carries(s'.reqs[i], s'.db)
    {
      if i < |s.reqs| {
        OthersCarry(s.reqs[i], s'.reqs[i], s.db, s'.db);
      } else {
        NewCarries(step.call, s'.db);
      }
    }
  }

  lemma OneCarries(cfg: Config, s: State, i: nat, fail: bool, now: int, id: string)
    requires i < |s.reqs| && RequestOk(s.reqs[i]) && Carries(s.reqs[i], s.db)
    ensures var s' := Move(cfg, s, i, fail, now, id); i < |s'.reqs| && Carries(s'.reqs[i], s'.db)
  {
    hide Move, Carries, Flow, Records, Keeps;
    MoveMoves(cfg, s, i, fail, now, id);
    MoveFingerprints(cfg, s, i, fail, now, id);
    if Opening(s.reqs[i].pc) {
      OpeningCarries(cfg, s, i, fail, now, id);
    } else if s.reqs[i].pol.Some? {
      CarriesOn(s.reqs[i], s.db, Move(cfg, s, i, fail, now, id).reqs[i], Move(cfg, s, i, fail, now, id).db);
    } else {
      DoneCarries(cfg, s, i, fail, now, id);
    }
  }

  lemma DoneCarries(cfg: Config, s: State, i: nat, fail: bool, now: int, id: string)
    requires i < |s.reqs| && RequestOk(s.reqs[i]) && s.reqs[i].pc.Done? && Carries(s.reqs[i], s.db)
    ensures var s' := Move(cfg, s, i, fail, now, id); i < |s'.reqs| && Carries(s'.reqs[i], s'.db)
  {
    hide MoveLoad, MoveCreate, MoveResolve, MoveAppend, MoveAudit, MoveTaint, MoveSettle, EvalOne;
  }

  lemma OthersCarry(r: Request, r': Request, db: Db, db': Db)
    requires Carries(r, db) && FingerprintsKept(db, db') && (r' == r || r' == r.(pc := Done(Crashed)))
    ensures Carries(r', db')
  {
  }

  lemma NewCarries(call: Call, db: Db)
    ensures Carries(NewRequest(call), db)
  {
  }

  lemma {:induction false} AtCarries(cfg: Config, pol: Policy, steps: seq<Step>, n: nat)
    requires n <= |steps|
    ensures Sound(At(cfg, pol, steps, n)) && AllCarry(At(cfg, pol, steps, n))
  {
    hide Apply, At, Run, RequestOk, SeqDense;
    AtStart(cfg, pol, steps);
    AtSound(cfg, pol, steps, n);
    if n > 0 {
      AtCarries(cfg, pol, steps, n - 1);
      AtNext(cfg, pol, steps, n - 1);
      StepCarries(cfg, At(cfg, pol, steps, n - 1), steps[n - 1]);
    }
  }

  // ---- binding

  /** Step p resolves request i's policy from the cache. */
  ghost predicate HitAt(cfg: Config, pol: Policy, steps: seq<Step>, p: nat, i: nat, used: Policy) {
    && p < |steps| && steps[p].Advance? && steps[p].i == i
    && var s := At(cfg, pol, steps, p);
    && i < |s.reqs| && s.reqs[i].pc.Resolve? && Lookup(s.cache, s.reqs[i].sess.fingerprint) == Some(used)
  }

  /** Step p looks request i's policy up in vain: it has been evicted, or the proxy has restarted. */
  ghost predicate MissAt(cfg: Config, pol: Policy, steps: seq<Step>, p: nat, i: nat) {
    && p < |steps| && steps[p].Advance? && steps[p].i == i
    && var s := At(cfg, pol, steps, p);
    && i < |s.reqs| && s.reqs[i].pc.Resolve? && Lookup(s.cache, s.reqs[i].sess.fingerprint).None?
  }

  /** Step p takes the live policy for request i. */
  ghost predicate FallbackAt(cfg: Config, pol: Policy, steps: seq<Step>, p: nat, i: nat, used: Policy) {
    && p < |steps| && steps[p].Advance? && steps[p].i == i
    && var s := At(cfg, pol, steps, p);
    && i < |s.reqs| && s.reqs[i].pc.Fallback? && s.live == used
  }

  /** How a request's policy can come about in one step. */
  ghost predicate PolicyMove(s: State, step: Step, s': State) {
    forall i :: 0 <= i < |s'.reqs| ==>
      && (s'.reqs[i].pc.Fallback? && !(i < |s.reqs| && s.reqs[i].pc.Fallback?) ==>
            && step.Advance? && step.i == i && i < |s.reqs| && s.reqs[i].pc.Resolve?
            && Lookup(s.cache, s.reqs[i].sess.fingerprint).None?)
      && (s'.reqs[i].pol.Some? && !(i < |s.reqs| && s.reqs[i].pol.Some?) ==>
            && step.Advance? && step.i == i && i < |s.reqs|
            && ((s.reqs[i].pc.Resolve? && Lookup(s.cache, s.reqs[i].sess.fingerprint) == s'.reqs[i].pol)
                || (s.reqs[i].pc.Fallback? && Some(s.live) == s'.reqs[i].pol)))
  }

  lemma OpeningPolicy(cfg: Config, s: State, i: nat, fail: bool, now: int, id: string)
    requires i < |s.reqs| && Opening(s.reqs[i].pc) && s.reqs[i].pol.None?
    ensures var s', r := Move(cfg, s, i, fail, now, id), s.reqs[i];
            && i < |s'.reqs|
            && (s'.reqs[i].pc.Fallback? && !r.pc.Fallback? ==>
                  r.pc.Resolve? && Lookup(s.cache, r.sess.fingerprint).None?)
            && (s'.reqs[i].pol.Some? ==>
                  || (r.pc.Resolve? && Lookup(s.cache, r.sess.fingerprint) == s'.reqs[i].pol)
                  || (r.pc.Fallback? && Some(s.live) == s'.reqs[i].pol))
  {
    hide MoveAppend, MoveAudit, MoveTaint, MoveSettle, EvalOne, AfterGet, Lookup;
  }

  lemma StepPolicyMove(cfg: Config, s: State, step: Step)
    requires AllOk(s)
    ensures PolicyMove(s, step, Apply(cfg, s, step))
  {
    hide Move, EvalOne, AfterGet, AfterSet, Lookup, Records;
    StepFrame(cfg, s, step);
    if step.Advance? && step.i < |s.reqs| && Opening(s.reqs[step.i].pc) {
      OpeningPolicy(cfg, s, step.i, step.fail, step.now, step.id);
    }
  }

  // ---- only loaded policies are used

  /** The step brings in a policy: a restart, or a reload that passes parsing and lint. */
  predicate BringsIn(step: Step) {
    step.Restart? || (step.ReloadCache? && step.accepted)
  }

  /** The proxy starts with this policy, or a step of the schedule brings it in. */
  ghost predicate WasLoaded(pol: Policy, steps: seq<Step>, p: Policy) {
    p == pol || exists i :: 0 <= i < |steps| && BringsIn(steps[i]) && steps[i].pol == p
  }

  ghost predicate EntriesLoaded(pol: Policy, steps: seq<Step>, c: seq<Cached>) {
    forall e :: e in c ==> WasLoaded(pol, steps, e.pol)
  }

  /** Every policy the state holds was loaded. */
  ghost predicate AllLoaded(pol: Policy, steps: seq<Step>, s: State) {
    && WasLoaded(pol, steps, s.live) && (s.pending.Some? ==> WasLoaded(pol, steps, s.pending.value))
    && EntriesLoaded(pol, steps, s.cache)
    && forall i :: 0 <= i < |s.reqs| && s.reqs[i].pol.Some? ==> WasLoaded(pol, steps, s.reqs[i].pol.value)
  }

  lemma CacheEntries(capacity: nat, c: seq<Cached>, fp: string, pol: Policy)
    ensures forall e :: e in AfterGet(c, fp) ==> e in c
    ensures forall e :: e in AfterSet(capacity, c, fp, pol) ==> e in c || e.pol == pol
    ensures Lookup(c, fp).Some? ==> exists e :: e in c && e.pol == Lookup(c, fp).value
  {
    var i := Position(c, fp);
    if i < |c| {
      assert c[i] in c;
    }
  }

  lemma CacheLoaded(cfg: Config, pol: Policy, steps: seq<Step>, s: State, step: Step, s': State)
    requires WasLoaded(pol, steps, s.live) && (s.pending.Some? ==> WasLoaded(pol, steps, s.pending.value))
    requires EntriesLoaded(pol, steps, s.cache) && CacheMoves(cfg, s, step, s')
    requires BringsIn(step) ==> WasLoaded(pol, steps, step.pol)
    ensures WasLoaded(pol, steps, s'.live) && (s'.pending.Some? ==> WasLoaded(pol, steps, s'.pending.value))
    ensures EntriesLoaded(pol, steps, s'.cache)
  {
    hide WasLoaded, AfterGet, AfterSet, Lookup;
    match step
    case Advance(i, _, _, _) => if i < |s.reqs| { CacheEntries(0, s.cache, s.reqs[i].sess.fingerprint, s.live); }
    case ReloadCache(p, _) => CacheEntries(cfg.capacity, s.cache, p.fingerprint, p);
    case _ =>
  }

  /** A resolved policy stays. */
  ghost predicate PoliciesKept(s: State, s': State) {
    forall i :: 0 <= i < |s.reqs| && s.reqs[i].pol.Some? ==> i < |s'.reqs| && s'.reqs[i].pol == s.reqs[i].pol
  }

  lemma RequestsLoaded(pol: Policy, steps: seq<Step>, s: State, step: Step, s': State)
    requires AllLoaded(pol, steps, s) && PolicyMove(s, step, s') && PoliciesKept(s, s')
    ensures forall i :: 0 <= i < |s'.reqs| && s'.reqs[i].pol.Some? ==> WasLoaded(pol, steps, s'.reqs[i].pol.value)
  {
    hide WasLoaded, AfterGet, AfterSet, Lookup;
    forall i | 0 <= i < |s'.reqs| && s'.reqs[i].pol.Some?
      ensures WasLoaded(pol, steps, s'.reqs[i].pol.value)
    {
      if !(i < |s.reqs| && s.reqs[i].pol.Some?) {
        CacheEntries(0, s.cache, s.reqs[i].sess.fingerprint, s.live);
      }
    }
  }

  lemma StepLoaded(cfg: Config, pol: Policy, steps: seq<Step>, s: State, step: Step, s': State)
    requires AllLoaded(pol, steps, s) && CacheMoves(cfg, s, step, s') && PolicyMove(s, step, s') && PoliciesKept(s, s')
    requires BringsIn(step) ==> WasLoaded(pol, steps, step.pol)
    ensures AllLoaded(pol, steps, s')
  {
    hide WasLoaded, CacheMoves, PolicyMove, PoliciesKept, EntriesLoaded;
    CacheLoaded(cfg, pol, steps, s, step, s');
    RequestsLoaded(pol, steps, s, step, s');
  }

  /** In every schedule, every policy that is live, cached, being reloaded or used by a call is one that the
      proxy started with or that a restart or an accepted reload of the schedule brought in. */
  lemma {:induction false} AtLoaded(cfg: Config, pol: Policy, steps: seq<Step>, n: nat)
    requires n <= |steps|
    ensures AllLoaded(pol, steps, At(cfg, pol, steps, n))
  {
    hide Apply, At, Run, RequestOk, SeqDense, CacheMoves, PolicyMove;
    AtStart(cfg, pol, steps);
    if n > 0 {
      AtLoaded(cfg, pol, steps, n - 1);
      AtNext(cfg, pol, steps, n - 1);
      AtSound(cfg, pol, steps, n - 1);
      AtPrecedes(cfg, pol, steps, n - 1, n);
      var s, step := At(cfg, pol, steps, n - 1), steps[n - 1];
      StepCache(cfg, s, step);
      StepPolicyMove(cfg, s, step);
      StepLoaded(cfg, pol, steps, s, step, At(cfg, pol, steps, n));
    }
  }

  // ---- the steps that bind

  lemma {:induction false} MissStep(cfg: Config, pol: Policy, steps: seq<Step>, n: nat, i: nat) returns (q: nat)
    requires n <= |steps| && i < |At(cfg, pol, steps, n).reqs| && At(cfg, pol, steps, n).reqs[i].pc.Fallback?
    ensures q < n && MissAt(cfg, pol, steps, q, i)
  {
    hide Apply, Run, Lookup;
    AtStart(cfg, pol, steps);
    assert n > 0;
    AtNext(cfg, pol, steps, n - 1);
    AtSound(cfg, pol, steps, n - 1);
    var s := At(cfg, pol, steps, n - 1);
    StepPolicyMove(cfg, s, steps[n - 1]);
    if i < |s.reqs| && s.reqs[i].pc.Fallback? {
      q := MissStep(cfg, pol, steps, n - 1, i);
    } else {
      q := n - 1;
    }
  }

  lemma {:induction false} BindingStep(cfg: Config, pol: Policy, steps: seq<Step>, n: nat, i: nat) returns (p: nat)
    requires n <= |steps| && i < |At(cfg, pol, steps, n).reqs| && At(cfg, pol, steps, n).reqs[i].pol.Some?
    ensures var used := At(cfg, pol, steps, n).reqs[i].pol.value;
            p < n && (HitAt(cfg, pol, steps, p, i, used) || FallbackAt(cfg, pol, steps, p, i, used))
  {
    hide Apply, Run, Lookup, RequestOk;
    AtStart(cfg, pol, steps);
    assert n > 0;
    AtNext(cfg, pol, steps, n - 1);
    AtSound(cfg, pol, steps, n - 1);
    AtPrecedes(cfg, pol, steps, n - 1, n);
    var s := At(cfg, pol, steps, n - 1);
    StepPolicyMove(cfg, s, steps[n - 1]);
    if i < |s.reqs| && s.reqs[i].pol.Some? {
      p := BindingStep(cfg, pol, steps, n - 1, i);
    } else {
      p := n - 1;
    }
  }

  lemma LookupKeyed(c: seq<Cached>, fp: string)
    requires Keyed(c)
    ensures Lookup(c, fp).Some? ==> Lookup(c, fp).value.fingerprint == fp
  {
  }

  /** Policy binding. In every schedule, with any reloads and restarts, a call is evaluated under a cached
      policy with the fingerprint its session was created with; or, if that fingerprint was not cached
      when the call looked it up, under the policy that was live a moment later. */
  lemma PolicyBinding(cfg: Config, pol: Policy, steps: seq<Step>, i: nat) returns (q: nat, p: nat)
    requires cfg.capacity > 0
    requires i < |At(cfg, pol, steps, |steps|).reqs| && At(cfg, pol, steps, |steps|).reqs[i].pol.Some?
    ensures var s := At(cfg, pol, steps, |steps|);
            var r := s.reqs[i];
            && r.call.session in s.db.sessions
            && (|| (HitAt(cfg, pol, steps, p, i, r.pol.value)
                    && r.pol.value.fingerprint == s.db.sessions[r.call.session].fingerprint)
                || (q < p && MissAt(cfg, pol, steps, q, i) && FallbackAt(cfg, pol, steps, p, i, r.pol.value)))
  {
    hide Apply, Run, Lookup, RequestOk, SeqDense;
    AtCarries(cfg, pol, steps, |steps|);
    q := 0;
    p := BindingStep(cfg, pol, steps, |steps|, i);
    if HitAt(cfg, pol, steps, p, i, At(cfg, pol, steps, |steps|).reqs[i].pol.value) {
      HitFingerprint(cfg, pol, steps, p, i);
    } else {
      q := MissStep(cfg, pol, steps, p, i);
    }
  }

  /** A hit returns the policy of the session's creation fingerprint, now and ever after. */
  lemma HitFingerprint(cfg: Config, pol: Policy, steps: seq<Step>, p: nat, i: nat)
    requires cfg.capacity > 0 && i < |At(cfg, pol, steps, |steps|).reqs|
    requires At(cfg, pol, steps, |steps|).reqs[i].pol.Some?
    requires HitAt(cfg, pol, steps, p, i, At(cfg, pol, steps, |steps|).reqs[i].pol.value)
    ensures var s := At(cfg, pol, steps, |steps|);
            && s.reqs[i].call.session in s.db.sessions
            && s.reqs[i].pol.value.fingerprint == s.db.sessions[s.reqs[i].call.session].fingerprint
  {
    hide Apply, Run, Lookup, RequestOk, SeqDense;
    AtCarries(cfg, pol, steps, p);
    AtCarries(cfg, pol, steps, |steps|);
    AtCacheOk(cfg, pol, steps, p);
    LookupKeyed(At(cfg, pol, steps, p).cache, At(cfg, pol, steps, p).reqs[i].sess.fingerprint);
    AtPrecedes(cfg, pol, steps, p, |steps|);
    FingerprintsPersist(cfg, pol, steps, p, |steps|);
  }

  lemma {:induction false} FingerprintsPersist(cfg: Config, pol: Policy, steps: seq<Step>, m: nat, n: nat)
    requires m <= n <= |steps|
    ensures FingerprintsKept(At(cfg, pol, steps, m).db, At(cfg, pol, steps, n).db)
  {
    hide Apply, At, Run, RequestOk, SeqDense;
    if m < n {
      FingerprintsPersist(cfg, pol, steps, m, n - 1);
      AtCarries(cfg, pol, steps, n - 1);
      AtNext(cfg, pol, steps, n - 1);
      StepCarries(cfg, At(cfg, pol, steps, n - 1), steps[n - 1]);
    }
  }

  // ---- how long a binding lasts

  /** The cache operations of a schedule: a lookup per resolution, an insert per accepted reload. */
  function CacheOps(cfg: Config, s: State, steps: seq<Step>): seq<Op<string>> {
    if |steps| == 0 then []
    else
      var front, step := steps[..|steps| - 1], steps[|steps| - 1];
      CacheOps(cfg, s, front) + OpsOf(Run(cfg, s, front), step)
  }

  function OpsOf(s: State, step: Step): seq<Op<string>> {
    match step
    case Advance(i, _, _, _) =>
      if i < |s.reqs| && s.reqs[i].pc.Resolve? then [Get(s.reqs[i].sess.fingerprint)] else []
    case ReloadCache(pol, accepted) => if accepted && s.pending.None? then [Set(pol.fingerprint)] else []
    case _ => []
  }

  lemma StepOps(cfg: Config, s: State, step: Step)
    requires Distinct(s.cache) && !step.Restart?
    ensures Keys(Apply(cfg, s, step).cache) == Play(cfg.capacity, Keys(s.cache), OpsOf(s, step))
  {
    hide Apply, AfterGet, AfterSet, After;
    StepCache(cfg, s, step);
    PlayOne(cfg.capacity, Keys(s.cache), OpsOf(s, step));
    match step
    case Advance(i, _, _, _) =>
      if i < |s.reqs| && s.reqs[i].pc.Resolve? {
        KeysFollow(cfg.capacity, s.cache, s.reqs[i].sess.fingerprint, s.live);
      }
    case ReloadCache(pol, _) => KeysFollow(cfg.capacity, s.cache, pol.fingerprint, pol);
    case _ =>
  }

  lemma PlayOne<K>(capacity: nat, k: seq<K>, h: seq<Op<K>>)
    ensures |h| == 0 ==> Play(capacity, k, h) == k
    ensures |h| == 1 ==> Play(capacity, k, h) == After(capacity, k, h[0])
  {
    if |h| == 1 {
      assert h[..0] == [];
    }
  }

  /** Between restarts, the cache is an LRU cache driven by the schedule's operations. */
  lemma {:induction false} CacheIsLru(cfg: Config, s: State, steps: seq<Step>)
    requires CacheOk(cfg, s) && cfg.capacity > 0 && forall i :: 0 <= i < |steps| ==> !steps[i].Restart?
    ensures CacheOk(cfg, Run(cfg, s, steps))
    ensures Keys(Run(cfg, s, steps).cache) == Play(cfg.capacity, Keys(s.cache), CacheOps(cfg, s, steps))
  {
    hide Apply, OpsOf;
    if |steps| > 0 {
      var front, step := steps[..|steps| - 1], steps[|steps| - 1];
      CacheIsLru(cfg, s, front);
      var t := Run(cfg, s, front);
      StepCache(cfg, t, step);
      CacheStaysOk(cfg, t, step, Apply(cfg, t, step));
      StepOps(cfg, t, step);
      PlayAppend(cfg.capacity, Keys(s.cache), CacheOps(cfg, s, front), OpsOf(t, step));
    }
  }

  /** A binding lasts. Take any reachable state whose most recently used policy is `fp`, and any further
      schedule without a restart that does not look `fp` up or reload it. Then a session bound to `fp`
      is still evaluated under a policy with that fingerprint, exactly when fewer than `capacity`
      distinct other versions were looked up or reloaded meanwhile. */
  lemma BindingLasts(cfg: Config, s: State, steps: seq<Step>, fp: string)
    requires CacheOk(cfg, s) && cfg.capacity > 0 && s.cache[0].fp == fp
    requires forall i :: 0 <= i < |steps| ==> !steps[i].Restart?
    requires Untouched(cfg.capacity, Keys(s.cache), CacheOps(cfg, s, steps), fp)
    ensures var found := Lookup(Run(cfg, s, steps).cache, fp);
            && (found.Some? <==>
                  |OthersTouched(cfg.capacity, Keys(s.cache), CacheOps(cfg, s, steps), fp)| < cfg.capacity)
            && (found.Some? ==> found.value.fingerprint == fp)
  {
    hide Apply;
    CacheIsLru(cfg, s, steps);
    DistinctKeys(s.cache);
    var k, h := Keys(s.cache), CacheOps(cfg, s, steps);
    assert k[0] == fp;
    SurvivesSegment(cfg.capacity, k, h, fp);
    KeysHas(Run(cfg, s, steps).cache, fp);
    if Behind(Play(cfg.capacity, k, h), fp, OthersTouched(cfg.capacity, k, h, fp)) {
      assert fp in Play(cfg.capacity, k, h);
    }
  }
}
