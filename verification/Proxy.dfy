/** The proxy object (internal/proxy/proxy.go): start-up, hot reload, and the handler of one tool call. The
    handler is proved to take the steps of the state machine, whatever store calls fail on its way. */
module ProxyObject {
  import opened Prelude
  import opened Policies
  import opened Database
  import opened Engine
  import opened Recency
  import opened Protocol
  import opened HandlerRuns
  import opened Evaluation
  import opened StoreObject
  import opened PolicyCache
  import opened AuditTrail
  import opened HandlerAnswers
  import Sequential

  const LRU_CAPACITY := 16

  class Proxy {
    const lib: Library
    const st: Store
    const polCache: PolicyLRU
    const auditStrict: bool
    const signing: bool
    var livePol: Policy
    var traceFile: seq<Call>
    var auditLog: seq<AuditRow>

    ghost predicate Valid()
      reads this, st, polCache, polCache.root, polCache.elems
    {
      st.Valid() && polCache.Valid() && polCache.capacity == LRU_CAPACITY
    }

    ghost function Cfg(): Config {
      Config(lib, LRU_CAPACITY, auditStrict, signing)
    }

    /** The machine's state shows the proxy's: tables, policies, trace and audit log. */
    ghost predicate Shows(s: State)
      reads this, st, polCache, polCache.elems
    {
      && s.db == st.db && s.live == livePol && s.cache == polCache.Contents()
      && s.trace == traceFile && s.audit == auditLog
    }

    constructor (lib: Library, pol: Policy, auditStrict: bool, signing: bool)
      ensures Valid() && this.lib == lib && this.auditStrict == auditStrict && this.signing == signing
      ensures Shows(Initial(pol))
      ensures fresh(st) && fresh(polCache) && fresh(polCache.root) && forall e :: e in polCache.elems ==> fresh(e)
    {
      var cache := new PolicyLRU(LRU_CAPACITY);
      var evicted := cache.Set(pol.fingerprint, pol);
      var store := new Store();
      this.lib, this.auditStrict, this.signing := lib, auditStrict, signing;
      this.st, this.polCache, this.livePol := store, cache, pol;
      traceFile, auditLog := [], [];
    }

    method CurrentPolicy() returns (pol: Policy)
      ensures pol == livePol
    {
      return livePol;
    }

    /** Re-parses and lints the policy file, then caches and publishes the new policy. `parsed` is None when
        the file does not parse; `lintErrors` says that a lint rule of severity error fired. A rejected
        reload changes neither the cache nor the live policy; an accepted one takes the two reload steps. */
    method ReloadPolicy(sourcePath: string, parsed: Option<Policy>, lintErrors: bool, ghost s: State)
      returns (accepted: bool)
      requires Valid() && Shows(s) && s.pending.None?
      modifies this`livePol, polCache, polCache.root, polCache.elems
      ensures Valid() && (accepted <==> sourcePath != "" && parsed.Some? && !lintErrors)
      ensures !accepted ==> livePol == old(livePol) && polCache.Contents() == old(polCache.Contents())
      ensures accepted ==> livePol == parsed.value && Has(polCache.Contents(), livePol.fingerprint)
      ensures accepted ==> Shows(Run(Cfg(), s, [ReloadCache(parsed.value, true), ReloadPublish]))
      ensures forall e :: e in polCache.elems ==> e in old(polCache.elems) || fresh(e)
    {
      hide Run, AfterSet, Linked, AllApart, Indexes, Listed, SeqDense;
      if sourcePath == "" || parsed.None? || lintErrors {
        return false;
      }
      var newPol := parsed.value;
      var evicted := polCache.Set(newPol.fingerprint, newPol);
      livePol := newPol;
      ReloadSteps(Cfg(), s, newPol);
      SetIsFirst(LRU_CAPACITY, s.cache, newPol);
      return true;
    }

    /** GetSession, or CreateSession bound to the live policy. False when the session cannot be had. */
    method LoadSession(call: Call, sess: SessionState, turn: Turn, ghost s: State, ghost n: nat)
      returns (ok: bool, ghost s': State, ghost n': nat)
      requires Valid() && Shows(s) && n >= 3
      requires turn.k < |s.reqs| && s.reqs[turn.k].call == call && s.reqs[turn.k].pc.Load?
      modifies st, sess
      ensures Valid() && Shows(s') && n' + 3 >= n && s'.pending == s.pending
      ensures turn.k < |s'.reqs| && Drive(Cfg(), s, n, turn) == Drive(Cfg(), s', n', turn)
      ensures var r, r' := s.reqs[turn.k], s'.reqs[turn.k];
              if ok then r' == r.(pc := Resolve, sess := sess.row) else r'.pc == Done(BadRequest)
      ensures ok <==> !(turn.faults.load || (turn.faults.create && call.session !in old(st.db).sessions))
      ensures st.db == if ok then Sequential.Opened(old(st.db), livePol, call) else old(st.db)
      ensures ok ==> sess.row == Sequential.Loaded(old(st.db), livePol, call)
    {
      hide Drive, Linked, AllApart, Indexes, Listed, SeqDense;
      AtLoad(Cfg(), s, n, turn);
      var found := st.GetSession(call.session, turn.faults.load);
      s', n' := MoveLoad(s, turn.k, turn.faults.load), n - 1;
      if found.LookupFailed? {
        return false, s', n';
      }
      if found.Row? {
        sess.row := found.row;
        assert st.db.sessions[call.session := found.row] == st.db.sessions;
        return true, s', n';
      }
      ok, s' := CreateBound(call, sess, turn, s', n');
      n' := n' - 2;
    }

    /** CreateSession, bound to the policy that is live now. */
    method CreateBound(call: Call, sess: SessionState, turn: Turn, ghost s: State, ghost n: nat)
        returns (ok: bool, ghost s': State)
      requires Valid() && Shows(s) && n >= 2
      requires turn.k < |s.reqs| && s.reqs[turn.k].call == call && s.reqs[turn.k].pc.Bind?
      modifies st, sess
      ensures Valid() && Shows(s') && s'.pending == s.pending
      ensures turn.k < |s'.reqs| && Drive(Cfg(), s, n, turn) == Drive(Cfg(), s', n - 2, turn)
      ensures var r, r' := s.reqs[turn.k], s'.reqs[turn.k];
              if ok then r' == r.(pc := Resolve, sess := sess.row) else r'.pc == Done(BadRequest)
      ensures ok <==> !turn.faults.create && call.session !in old(st.db).sessions
      ensures st.db == if ok then Sequential.Opened(old(st.db), livePol, call) else old(st.db)
      ensures ok ==> sess.row == Sequential.Loaded(old(st.db), livePol, call)
    {
      hide Drive, Linked, AllApart, Indexes, Listed, SeqDense;
      AtBind(Cfg(), s, n, turn);
      var live := CurrentPolicy();
      sess.row := NewSession(call.agent, live.fingerprint);
      s' := Put(s, turn.k, s.reqs[turn.k].(pc := Create, sess := sess.row));
      AtCreate(Cfg(), s', n - 1, turn);
      ok := st.CreateSession(call.session, call.agent, live.fingerprint, turn.faults.create);
      s' := MoveCreate(s', turn.k, turn.faults.create);
    }

    /** The cached policy of the session's fingerprint, or the live one. */
    method ResolvePolicy(sess: SessionState, turn: Turn, ghost s: State, ghost n: nat)
      returns (pol: Policy, ghost s': State, ghost n': nat)
      requires Valid() && Shows(s) && n >= 2
      requires turn.k < |s.reqs| && s.reqs[turn.k].pc.Resolve? && s.reqs[turn.k].sess == sess.row
      modifies polCache`elems, polCache.root`next, polCache.root`prev
      modifies (set x: Element | x in polCache.elems)`next, (set x: Element | x in polCache.elems)`prev
      ensures Valid() && Shows(s') && n' + 2 >= n && s'.pending == s.pending
      ensures turn.k < |s'.reqs| && Drive(Cfg(), s, n, turn) == Drive(Cfg(), s', n', turn)
      ensures s'.reqs[turn.k] == Admit(s.reqs[turn.k], pol)
      ensures pol == BoundPolicy(livePol, old(polCache.Contents()), sess.row)
    {
      hide Drive, Linked, AllApart, Indexes, Listed, SeqDense, Position;
      AtResolve(Cfg(), s, n, turn);
      var cached := polCache.Get(sess.row.fingerprint);
      s', n' := MoveResolve(s, turn.k), n - 1;
      if cached.Some? {
        pol := cached.value;
        return;
      }
      AtFallback(Cfg(), s', n', turn);
      pol := CurrentPolicy();
      s', n' := Put(s', turn.k, Admit(s'.reqs[turn.k], s'.live)), n' - 1;
    }

    /** Appends the event, then writes the audit record; a failed audit write is only remembered. None when
        the event could not be recorded, which ends the call. */
    method RecordDecision(call: Call, pol: Policy, d: Decision, turn: Turn, ghost s: State, ghost n: nat)
      returns (seqNo: Option<nat>, auditFailed: bool, ghost s': State, ghost n': nat)
      requires Valid() && Shows(s) && n >= 2
      requires turn.k < |s.reqs| && s.reqs[turn.k].pc.Append? && s.reqs[turn.k].pol == Some(pol)
      requires s.reqs[turn.k].call == call && s.reqs[turn.k].decision == d && !s.reqs[turn.k].auditFailed
      modifies st, this`auditLog
      ensures Valid() && Shows(s') && n' + 2 >= n && s'.pending == s.pending
      ensures turn.k < |s'.reqs| && Drive(Cfg(), s, n, turn) == Drive(Cfg(), s', n', turn)
      ensures var r, r' := s.reqs[turn.k], s'.reqs[turn.k];
              if seqNo.None? then r'.pc == Done(BadRequest)
              else r' == r.(pc := PersistTaint, recorded := true, seqNo := seqNo.value, auditFailed := auditFailed)
      ensures call.session in old(st.db).sessions ==> (seqNo.None? <==> turn.faults.append)
      ensures if seqNo.None? then st.db == old(st.db)
              else seqNo.value == Count(old(st.db).events, OfSession(call.session)) + 1
                   && auditFailed == (signing && turn.faults.audit)
                   && st.db == WithEvent(old(st.db), call, d, turn.now)
    {
      hide Drive, Linked, AllApart, Indexes, Listed, SeqDense, MaxSeq, Count;
      AtAppend(Cfg(), s, n, turn);
      MaxSeqIsCount(st.db.events, call.session);
      var row := EventRow(0, call.session, call.tool, call.args, d.action, d.rule, turn.now);
      var appended := st.AppendEvent(row, turn.faults.append);
      s', n', auditFailed := MoveAppend(s, turn.k, turn.faults.append, turn.now), n - 1, false;
      if appended.Error? {
        return None, false, s', n';
      }
      seqNo := Some(appended.value);
      auditFailed, s' := WriteAuditRecord(call, pol, d, appended.value, turn, s', n');
      n' := n' - 1;
    }

    /** Adds the signed record to the audit log, if a key is loaded; a failed write is only reported. */
    method WriteAuditRecord(call: Call, pol: Policy, d: Decision, seqNo: nat, turn: Turn, ghost s: State, ghost n: nat)
      returns (failed: bool, ghost s': State)
      requires Valid() && Shows(s) && n > 0
      requires turn.k < |s.reqs| && s.reqs[turn.k].pc.Audit? && s.reqs[turn.k].pol == Some(pol)
      requires var r := s.reqs[turn.k]; r.call == call && r.decision == d && r.seqNo == seqNo && !r.auditFailed
      modifies this`auditLog
      ensures Valid() && Shows(s') && s'.pending == s.pending
      ensures turn.k < |s'.reqs| && Drive(Cfg(), s, n, turn) == Drive(Cfg(), s', n - 1, turn)
      ensures s'.reqs[turn.k] == s.reqs[turn.k].(pc := PersistTaint, auditFailed := failed)
      ensures failed == (signing && turn.faults.audit)
    {
      hide Drive, Linked, AllApart, Indexes, Listed, SeqDense;
      AtAudit(Cfg(), s, n, turn);
      s', failed := MoveAudit(Cfg(), s, turn.k, turn.faults.audit, turn.now), false;
      if signing {
        failed := turn.faults.audit;
        if !failed {
          auditLog := auditLog
            + [AuditRow(call.session, seqNo, call.agent, call.tool, d.action, pol.fingerprint, turn.now)];
        }
      }
    }

    /** Persists the taint flag if the evaluation has changed it. */
    method SaveTaint(call: Call, sess: SessionState, taintBefore: bool, turn: Turn, ghost s: State, ghost n: nat)
      returns (ok: bool, ghost s': State)
      requires Valid() && Shows(s) && n > 0
      requires turn.k < |s.reqs|
      requires var r := s.reqs[turn.k];
               r.pc.PersistTaint? && r.call == call && r.sess.tainted == taintBefore && r.tainted == sess.row.tainted
      modifies st
      ensures Valid() && Shows(s') && s'.pending == s.pending
      ensures turn.k < |s'.reqs| && Drive(Cfg(), s, n, turn) == Drive(Cfg(), s', n - 1, turn)
      ensures s'.reqs[turn.k] == s.reqs[turn.k].(pc := if ok then Settle else Done(TaintWriteFailed))
      ensures call.session in old(st.db).sessions ==>
                && (ok <==> !(sess.row.tainted != taintBefore && turn.faults.taint))
                && st.db == if ok && sess.row.tainted != taintBefore
                            then WithFlag(old(st.db), call.session, sess.row.tainted) else old(st.db)
    {
      hide Drive, Linked, AllApart, Indexes, Listed, SeqDense;
      AtPersistTaint(Cfg(), s, n, turn);
      s', ok := MoveTaint(s, turn.k, turn.faults.taint), true;
      if sess.row.tainted != taintBefore {
        ok := st.UpdateSessionTaint(call.session, sess.row.tainted, turn.faults.taint);
      }
    }

    /** The proxy shows the machine's state after the settling step, which ends in this outcome. */
    ghost predicate SettledAs(s: State, turn: Turn, outcome: Outcome)
      requires turn.k < |s.reqs|
      reads this, st, polCache, polCache.elems
    {
      var s' := MoveSettle(Cfg(), s, turn.k, turn.faults.settle, turn.id);
      Shows(s') && turn.k < |s'.reqs| && s'.reqs[turn.k].pc == Done(outcome) && s'.pending == s.pending
    }

    /** Counts and forwards an executed call, unless audit-strict refuses it. A failed counter write is only logged. */
    method Forward(call: Call, auditFailed: bool, turn: Turn, ghost s: State) returns (outcome: Outcome)
      requires Valid() && Shows(s)
      requires turn.k < |s.reqs| && s.reqs[turn.k].call == call && s.reqs[turn.k].auditFailed == auditFailed
      requires Executed(s.reqs[turn.k].decision.action)
      modifies st
      ensures Valid() && SettledAs(s, turn, outcome)
      ensures if auditFailed && auditStrict then outcome == AuditRefused && st.db == old(st.db) else outcome.Forwarded?
      ensures !(auditFailed && auditStrict) && call.session in old(st.db).sessions ==>
                && outcome == Forwarded(!turn.faults.settle)
                && st.db == if turn.faults.settle then old(st.db) else WithCount(old(st.db), call.session)
    {
      hide Linked, AllApart, Indexes, Listed, SeqDense;
      if auditFailed && auditStrict {
        return AuditRefused;
      }
      var counted := st.IncrementSessionCounters(call.session, COST_PER_CALL, turn.faults.settle);
      return Forwarded(counted);
    }

    /** Creates the pending escalation record. */
    method RaiseEscalation(call: Call, seqNo: nat, turn: Turn, ghost s: State) returns (outcome: Outcome)
      requires Valid() && Shows(s)
      requires turn.k < |s.reqs| && s.reqs[turn.k].call == call && s.reqs[turn.k].seqNo == seqNo
      requires s.reqs[turn.k].decision.action == Escalate
      modifies st
      ensures Valid() && SettledAs(s, turn, outcome)
      ensures if turn.faults.settle || turn.id in old(st.db).escalations
              then outcome == EscalationUnrecorded && st.db == old(st.db)
              else outcome == Escalated(turn.id)
                   && st.db == old(st.db).(escalations := old(st.db).escalations[
                        turn.id := EscalationRow(call.session, seqNo, call.tool, call.args, Pending)])
    {
      hide Linked, AllApart, Indexes, Listed, SeqDense;
      var row := EscalationRow(call.session, seqNo, call.tool, call.args, Pending);
      var recorded := st.CreateEscalation(turn.id, row, turn.faults.settle);
      return if recorded then Escalated(turn.id) else EscalationUnrecorded;
    }

    /** Acts on the decision. */
    method Respond(call: Call, d: Decision, seqNo: nat, auditFailed: bool, turn: Turn, ghost s: State)
        returns (outcome: Outcome)
      requires Valid() && Shows(s) && turn.k < |s.reqs|
      requires var r := s.reqs[turn.k];
               r.call == call && r.decision == d && r.seqNo == seqNo && r.auditFailed == auditFailed
      modifies st
      ensures Valid() && SettledAs(s, turn, outcome)
      ensures call.session in old(st.db).sessions ==>
                Ending(outcome, st.db)
                == Answer(Cfg(), turn.faults, old(st.db), call, d, seqNo, auditFailed, turn.id)
    {
      match d.action {
        case Allow => outcome := Forward(call, auditFailed, turn, s);
        case ShadowDeny => outcome := Forward(call, auditFailed, turn, s);
        case Deny => outcome := Denied;
        case Escalate => outcome := RaiseEscalation(call, seqNo, turn, s);
      }
    }

    /** One tool call from arrival to response. Whatever store calls fail, the proxy ends up where the
        machine's run of this request ends, and the response is that run's outcome. A call whose audit write
        fails is refused under audit-strict; every answer after a working audit write has its record. The answer
        and the tables are as `Handled` says for the store calls that fail. */
    method HandleMCP(call: Call, turn: Turn, ghost s: State) returns (outcome: Outcome, ghost s': State)
      requires Valid() && Shows(s) && turn.k == |s.reqs|
      modifies this`traceFile, this`auditLog, st, polCache`elems, polCache.root`next, polCache.root`prev
      modifies (set x: Element | x in polCache.elems)`next, (set x: Element | x in polCache.elems)`prev
      ensures Valid() && Shows(s') && s'.pending == s.pending
      ensures var arrived := Apply(Cfg(), s, Arrive(call));
              s' == Run(Cfg(), arrived, Steps(Cfg(), arrived, ENOUGH, turn))
      ensures turn.k < |s'.reqs| && s'.reqs[turn.k].pc == Done(outcome)
      ensures AnswerAudited(Cfg(), turn.faults.audit, turn.now, call, outcome, old(auditLog), auditLog)
      ensures Ending(outcome, st.db)
              == Handled(Cfg(), turn.faults, old(st.db), livePol, old(polCache.Contents()), call, turn.now, turn.id)
    {
      hide Drive, Steps, Run, Linked, AllApart, Indexes, Listed, SeqDense, MoveSettle, PipelineOn, IsVirtual,
          TaintAfter, AnswerAudited, Served;
      ghost var arrived := Apply(Cfg(), s, Arrive(call));
      HandlerAudited(Cfg(), turn, arrived, call, ENOUGH);
      DriveIsARun(Cfg(), arrived, ENOUGH, turn);
      s' := arrived;
      if IsVirtual(call.tool) {
        DoneStays(Cfg(), s', ENOUGH, turn);
        return VirtualAnswered, s';
      }
      traceFile := traceFile + [call];
      outcome, s' := Serve(call, turn, s', ENOUGH);
    }

    /** A call that the proxy does not answer itself, from the session lookup to the response. */
    method Serve(call: Call, turn: Turn, ghost s: State, ghost n: nat) returns (outcome: Outcome, ghost s': State)
      requires Valid() && Shows(s) && n == ENOUGH
      requires turn.k < |s.reqs| && s.reqs[turn.k] == NewRequest(call) && s.reqs[turn.k].pc.Load?
      modifies this`auditLog, st, polCache`elems, polCache.root`next, polCache.root`prev
      modifies (set x: Element | x in polCache.elems)`next, (set x: Element | x in polCache.elems)`prev
      ensures Valid() && Shows(s') && s'.pending == s.pending && s' == Drive(Cfg(), s, n, turn)
      ensures turn.k < |s'.reqs| && s'.reqs[turn.k].pc == Done(outcome)
      ensures Ending(outcome, st.db)
              == Served(Cfg(), turn.faults, old(st.db), livePol, old(polCache.Contents()), call, turn.now, turn.id)
    {
      hide Drive, Linked, AllApart, Indexes, Listed, SeqDense, MoveSettle, PipelineOn, IsVirtual,
          TaintAfter, Conclusion, DecisionOn, FlagAfter, Sequential.Loaded, Sequential.Opened, BoundPolicy;
      OpenedHas(st.db, livePol, call);
      var sess := new SessionState(NewSession(call.agent, ""));
      var loaded;
      ghost var n';
      loaded, s', n' := LoadSession(call, sess, turn, s, n);
      if !loaded {
        DoneStays(Cfg(), s', n', turn);
        return BadRequest, s';
      }
      var pol;
      pol, s', n' := ResolvePolicy(sess, turn, s', n');
      if sess.row.terminated {
        DoneStays(Cfg(), s', n', turn);
        return Gone, s';
      }
      outcome, s' := EvaluateAndAnswer(call, sess, pol, turn, s', n');
    }

    /** The call from evaluation to response. */
    method EvaluateAndAnswer(call: Call, sess: SessionState, pol: Policy, turn: Turn, ghost s: State, ghost n: nat)
      returns (outcome: Outcome, ghost s': State)
      requires Valid() && Shows(s) && turn.k < |s.reqs| && n >= |Live()| + 4
      requires var r := s.reqs[turn.k];
               && r.pc == Evaluating(0) && r.pol == Some(pol) && r.call == call && r.sess == sess.row
               && r.tainted == r.sess.tainted && !r.auditFailed
      modifies sess, st, this`auditLog
      ensures Valid() && Shows(s') && s'.pending == s.pending && s' == Drive(Cfg(), s, n, turn)
      ensures turn.k < |s'.reqs| && s'.reqs[turn.k].pc == Done(outcome)
      ensures call.session in old(st.db).sessions ==>
                var d := DecisionOn(lib, turn.faults, old(st.db), call, old(sess.row), pol);
                Ending(outcome, st.db)
                == Conclusion(Cfg(), turn.faults, old(st.db), call, old(sess.row.tainted),
                     FlagAfter(old(sess.row), pol, call.tool, d), d, turn.now, turn.id)
    {
      hide Drive, Linked, AllApart, Indexes, Listed, SeqDense, MoveSettle, PipelineOn, TaintAfter, Conclusion;
      var taintBefore := sess.row.tainted;
      ghost var n' := EvaluationRuns(Cfg(), s, n, turn, pol, 0);
      assert Live()[0..] == Live();
      var decision := Evaluate(Live(), lib, StageViews(st.db, turn.faults), call, sess, pol);
      s' := DecidedAs(s, turn.k, pol, decision);
      outcome, s' := ActOn(call, sess, pol, decision, taintBefore, turn, s', n');
    }

    /** The call from decision to response. */
    method ActOn(
      call: Call, sess: SessionState, pol: Policy, decision: Decision, taintBefore: bool, turn: Turn, ghost s: State,
      ghost n: nat)
      returns (outcome: Outcome, ghost s': State)
      requires Valid() && Shows(s) && turn.k < |s.reqs| && n >= 4
      requires var r := s.reqs[turn.k];
               && r.pc.Append? && r.pol == Some(pol) && r.call == call && r.decision == decision && !r.auditFailed
               && r.sess.tainted == taintBefore && r.tainted == sess.row.tainted
      modifies st, this`auditLog
      ensures Valid() && Shows(s') && s'.pending == s.pending && s' == Drive(Cfg(), s, n, turn)
      ensures turn.k < |s'.reqs| && s'.reqs[turn.k].pc == Done(outcome)
      ensures call.session in old(st.db).sessions ==>
                Ending(outcome, st.db)
                == Conclusion(Cfg(), turn.faults, old(st.db), call, taintBefore, sess.row.tainted, decision, turn.now,
                     turn.id)
    {
      hide Drive, Linked, AllApart, Indexes, Listed, SeqDense, MoveSettle, TaintAfter, Answer;
      s' := s;
      ghost var n' := n;
      var seqNo, auditFailed;
      seqNo, auditFailed, s', n' := RecordDecision(call, pol, decision, turn, s', n');
      if seqNo.None? {
        DoneStays(Cfg(), s', n', turn);
        return BadRequest, s';
      }
      var saved;
      saved, s' := SaveTaint(call, sess, taintBefore, turn, s', n');
      if !saved {
        DoneStays(Cfg(), s', n' - 1, turn);
        return TaintWriteFailed, s';
      }
      AtSettle(Cfg(), s', n' - 1, turn);
      outcome := Respond(call, decision, seqNo.value, auditFailed, turn, s');
      s' := MoveSettle(Cfg(), s', turn.k, turn.faults.settle, turn.id);
      DoneStays(Cfg(), s', n' - 2, turn);
    }
  }

  lemma SetIsFirst(capacity: nat, c: seq<Cached>, pol: Policy)
    ensures Has(AfterSet(capacity, c, pol.fingerprint, pol), pol.fingerprint)
  {
    assert AfterSet(capacity, c, pol.fingerprint, pol)[0].fp == pol.fingerprint;
  }

  lemma ReloadSteps(cfg: Config, s: State, pol: Policy)
    requires s.pending.None?
    ensures Run(cfg, s, [ReloadCache(pol, true), ReloadPublish])
            == s.(cache := AfterSet(cfg.capacity, s.cache, pol.fingerprint, pol), live := pol)
  {
    hide Move, AfterSet;
    var steps := [ReloadCache(pol, true), ReloadPublish];
    assert steps[..1] == [steps[0]] && [steps[0]][..0] == [];
    assert Run(cfg, s, [steps[0]]) == Apply(cfg, s, steps[0]);
  }
}
