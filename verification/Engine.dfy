/** The evaluation pipeline (internal/engine): query backends, the nine stages, and their composition. */
module Engine {
  import opened Prelude
  import opened Policies
  import opened Database

  /** The tool the proxy answers itself; it is never evaluated nor recorded. */
  predicate IsVirtual(tool: string) {
    tool == "check_escalation_status"
  }

  const NANOS_PER_SECOND := 1_000_000_000

  /** A value found in the arguments, as a number and as text. */
  datatype Value = Value(number: Float, text: string)

  /** Library calls whose code is not part of this model: JSON lookup, regular expressions
      (None when the pattern does not compile), the argument hash, and number formatting. */
  datatype Library = Library(
    lookup: (string, string) -> Option<Value>,
    matches: (string, string) -> Option<bool>,
    sha256: string -> string,
    showNumber: Float -> string)

  /** requestedAt is in nanoseconds. */
  datatype Call = Call(
    session: string, agent: string, tool: string, args: string, env: string, parent: string, requestedAt: int)

  datatype Violation =
    | MissingPrerequisite(tool: string)
    | ForbiddenPredecessor(tool: string)
    | TooFewCalls(tool: string, wanted: int, found: int)

  /** Machine-readable reason codes; a sequence denial says which kind of predicate failed. */
  datatype Code = Plain | OnlyAfterFailed | NeverAfterFailed | PriorNFailed

  datatype Feedback = Feedback(code: Code, unsatisfied: seq<string>)

  /** violations lists what a sequence denial's reason names; other reasons are not modelled.
      feedback is None for an internal error and for a permitted call. */
  datatype Decision = Decision(
    action: Action, rule: Rule, violations: seq<Violation>, feedback: Option<Feedback>)

  function Permit(): Decision {
    Decision(Allow, NoRule, [], None)
  }

  function FailClosed(): Decision {
    Decision(Deny, InternalError, [], None)
  }

  function DenyBy(rule: Rule): Decision {
    Decision(Deny, rule, [], Some(Feedback(Plain, [])))
  }

  // ---- query backends

  /** The projection of an event row that evaluators see. */
  datatype Entry = Entry(tool: string, decision: Action, recordedAt: int)

  datatype Approval = Approval(tool: string, argsHash: string)

  /** The two implementations of QueryBackend. `down` makes every query of the store fail. */
  datatype Backend =
    | StoreBackend(db: Db, down: bool)
    | MemBackend(events: seq<Entry>, approved: seq<Approval>, parentTools: seq<string>)

  function ToEntry(e: EventRow): Entry {
    Entry(e.tool, e.decision, e.recordedAt)
  }

  function ExecutedOf(tool: string): Entry -> bool {
    (e: Entry) => e.tool == tool && Executed(e.decision)
  }

  function ExecutedOfSince(tool: string, since: int): Entry -> bool {
    (e: Entry) => e.tool == tool && Executed(e.decision) && e.recordedAt >= since
  }

  function SessionEvents(b: Backend, sid: string): Result<seq<Entry>> {
    match b
    case StoreBackend(db, down) => if down then Error else Ok(Map(SessionRows(db.events, sid), ToEntry))
    case MemBackend(events, _, _) => Ok(events)
  }

  function CountSince(b: Backend, sid: string, tool: string, since: int): Result<nat> {
    match b
    case StoreBackend(db, down) => if down then Error else Ok(Count(db.events, ExecutedSince(sid, tool, since)))
    case MemBackend(events, _, _) => Ok(Count(events, ExecutedOfSince(tool, since)))
  }

  predicate IsApprovalOf(lib: Library, row: EscalationRow, sid: string, tool: string, hash: string) {
    row.session == sid && row.tool == tool && row.status == Approved && lib.sha256(row.args) == hash
  }

  function HasApproval(lib: Library, b: Backend, sid: string, tool: string, hash: string): Result<bool> {
    match b
    case StoreBackend(db, down) =>
      if down then Error
      else Ok(exists id :: id in db.escalations && IsApprovalOf(lib, db.escalations[id], sid, tool, hash))
    case MemBackend(_, approved, _) => Ok(Approval(tool, hash) in approved)
  }

  function ParentTools(b: Backend, agent: string): Result<seq<string>> {
    match b
    case StoreBackend(db, down) =>
      if down || agent !in db.agents then Error
      else (match db.agents[agent].allowedTools case None => Error case Some(tools) => Ok(tools))
    case MemBackend(_, _, tools) => if |tools| == 0 then Error else Ok(tools)
  }

  // ---- sequence predicates

  function ExecCount(history: seq<Entry>, tool: string): nat {
    Count(history, ExecutedOf(tool))
  }

  function NotYet(history: seq<Entry>): string -> bool {
    t => ExecCount(history, t) == 0
  }

  function Already(history: seq<Entry>): string -> bool {
    t => ExecCount(history, t) > 0
  }

  function Missing(t: string): Violation { MissingPrerequisite(t) }

  function Forbidden(t: string): Violation { ForbiddenPredecessor(t) }

  function PriorViolations(history: seq<Entry>, prior: Option<PriorN>): seq<Violation> {
    match prior
    case None => []
    case Some(p) =>
      var found := ExecCount(history, p.tool);
      if found < p.count then [TooFewCalls(p.tool, p.count, found)] else []
  }

  /** Every violated predicate: only_after first, then never_after, then requires_prior_n. */
  function SequenceViolations(history: seq<Entry>, sq: Sequencing): seq<Violation> {
    Map(Filter(sq.onlyAfter, NotYet(history)), Missing)
    + Map(Filter(sq.neverAfter, Already(history)), Forbidden)
    + PriorViolations(history, sq.prior)
  }

  function SequenceFeedback(history: seq<Entry>, sq: Sequencing): Feedback {
    var missing := Filter(sq.onlyAfter, NotYet(history));
    if |missing| > 0 then Feedback(OnlyAfterFailed, missing)
    else if |Filter(sq.neverAfter, Already(history))| > 0 then Feedback(NeverAfterFailed, [])
    else Feedback(PriorNFailed, if sq.prior.Some? then [sq.prior.value.tool] else [])
  }

  function SequenceDecision(history: seq<Entry>, sq: Sequencing): Decision {
    var violations := SequenceViolations(history, sq);
    if |violations| == 0 then Permit()
    else Decision(Deny, SequenceBroken, violations, Some(SequenceFeedback(history, sq)))
  }

  // ---- escalation and content predicates

  function TrimPrefix(s: string, prefix: string): string {
    if |prefix| <= |s| && s[..|prefix|] == prefix then s[|prefix|..] else s
  }

  function TrimSuffix(s: string, suffix: string): string {
    if HasSuffix(s, suffix) then s[..|s| - |suffix|] else s
  }

  predicate HasSuffix(s: string, suffix: string) {
    |suffix| <= |s| && s[|s| - |suffix|..] == suffix
  }

  predicate IsSubstring(part: string, text: string) {
    |part| <= |text| && (text[..|part|] == part || (|text| > 0 && IsSubstring(part, text[1..])))
  }

  function ThresholdNumber(t: Threshold): Float {
    match t case Number(n) => n case Text(_) => Finite(0.0)
  }

  function ThresholdText(lib: Library, t: Threshold): string {
    match t case Number(n) => lib.showNumber(n) case Text(s) => s
  }

  function OptionToResult<T>(o: Option<T>): Result<T> {
    match o case None => Error case Some(v) => Ok(v)
  }

  function ApplyOperator(lib: Library, v: Value, operator: Operator, t: Threshold): Result<bool> {
    var n := ThresholdNumber(t);
    match operator
    case Greater => Ok(LessThan(n, v.number))
    case Less => Ok(LessThan(v.number, n))
    case AtLeast => Ok(LessThan(n, v.number) || EqualTo(n, v.number))
    case AtMost => Ok(LessThan(v.number, n) || EqualTo(v.number, n))
    case Equal => Ok(EqualTo(v.number, n))
    case NotEqual => Ok(!EqualTo(v.number, n))
    case Contains => Ok(IsSubstring(ThresholdText(lib, t), v.text))
    case Matches => OptionToResult(lib.matches(ThresholdText(lib, t), v.text))
    case Unsupported(_) => Error
  }

  /** Do the arguments meet the tool's escalate_when condition? */
  function Triggered(lib: Library, args: string, rule: EscalateRule): Result<bool> {
    var path := TrimPrefix(TrimPrefix(rule.path, "$."), "$");
    if path == "" then Error
    else
      match lib.lookup(args, path)
      case None => Error
      case Some(v) => ApplyOperator(lib, v, rule.operator, rule.threshold)
  }

  /** Does one never_when predicate fire on the arguments? */
  function Fires(lib: Library, args: string, p: ContentPredicate): Result<bool> {
    match lib.lookup(args, p.argument)
    case None => Error
    case Some(v) =>
      match p.test
      case IsExternal => Ok(!HasSuffix(v.text, p.value))
      case ContainsPattern => OptionToResult(lib.matches(TrimSuffix(TrimPrefix(p.value, "/"), "/"), v.text))
      case Equals => Ok(v.text == p.value)
      case NotEquals => Ok(v.text != p.value)
      case UnsupportedTest(_) => Error
  }

  /** The first predicate that does not say "no" decides. */
  function NeverWhenAny(lib: Library, args: string, preds: seq<ContentPredicate>): Result<Decision> {
    if |preds| == 0 then Ok(Permit())
    else
      match Fires(lib, args, preds[0])
      case Error => Error
      case Ok(fired) =>
        if fired
        then Ok(DenyBy(ContentFired(preds[0].argument, preds[0].test)))
        else NeverWhenAny(lib, args, preds[1..])
  }

  /** The first predicate that does not fire decides; if all fire, the call is denied. */
  function NeverWhenAll(lib: Library, args: string, preds: seq<ContentPredicate>): Result<Decision> {
    if |preds| == 0 then Ok(DenyBy(ContentAllFired))
    else
      match Fires(lib, args, preds[0])
      case Error => Error
      case Ok(fired) => if fired then NeverWhenAll(lib, args, preds[1..]) else Ok(Permit())
  }

  // ---- the stages

  datatype Stage = Env | MayUse | Delegation | BudgetLimit | TaintGuard | Sequence | Content | Rate | Escalation

  /** The stages of the live proxy, in order. */
  function Live(): (stages: seq<Stage>)
    ensures |stages| == 9
  {
    [Env, MayUse, Delegation, BudgetLimit, TaintGuard, Sequence, Content, Rate, Escalation]
  }

  function EvalEnv(call: Call, pol: Policy): Decision {
    if pol.requireEnv == "" || call.env == pol.requireEnv then Permit() else DenyBy(EnvMismatch)
  }

  function EvalMayUse(call: Call, pol: Policy): Decision {
    if IsVirtual(call.tool) || call.tool in pol.mayUse then Permit() else DenyBy(NotInMayUse)
  }

  function EvalDelegation(b: Backend, call: Call): Result<Decision> {
    if call.parent == "" then Ok(Permit())
    else
      match ParentTools(b, call.parent)
      case Error => Error
      case Ok(tools) =>
        if call.tool in tools then Ok(Permit())
        else Ok(DenyBy(ExceedsParent))
  }

  function EvalBudget(sess: Session, pol: Policy): Decision {
    var callsExceeded := pol.budget.maxCalls > 0 && sess.calls >= pol.budget.maxCalls;
    var costExceeded := pol.budget.maxCost > 0 && sess.cost >= pol.budget.maxCost;
    if callsExceeded then DenyBy(MaxToolCalls)
    else if costExceeded then DenyBy(MaxCost)
    else Permit()
  }

  function EvalTaint(call: Call, sess: Session, pol: Policy): Decision {
    if !sess.tainted || call.tool !in pol.tools || pol.tools[call.tool].taint.clears then Permit()
    else if exists t :: t in NeverAfter(pol, call.tool) && t in TaintSources(pol)
    then DenyBy(SessionTainted)
    else Permit()
  }

  function EvalSequence(b: Backend, call: Call, pol: Policy): Result<Decision> {
    if call.tool !in pol.tools then Ok(Permit())
    else
      var sq := pol.tools[call.tool].sequencing;
      if |sq.onlyAfter| == 0 && |sq.neverAfter| == 0 && sq.prior.None? then Ok(Permit())
      else
        match SessionEvents(b, call.session)
        case Error => Error
        case Ok(history) => Ok(SequenceDecision(history, sq))
  }

  function EvalContent(lib: Library, call: Call, pol: Policy): Result<Decision> {
    if call.tool !in pol.tools || |pol.tools[call.tool].neverWhen| == 0 then Ok(Permit())
    else
      var tp := pol.tools[call.tool];
      match tp.neverWhenMatch
      case Any => NeverWhenAny(lib, call.args, tp.neverWhen)
      case All => NeverWhenAll(lib, call.args, tp.neverWhen)
      case UnsupportedMode(_) => Error
  }

  function WindowStart(call: Call, rl: RateLimit): int {
    call.requestedAt - rl.windowSeconds * NANOS_PER_SECOND
  }

  function EvalRate(b: Backend, call: Call, pol: Policy): Result<Decision> {
    if call.tool !in pol.tools || pol.tools[call.tool].rateLimit.None? then Ok(Permit())
    else
      var rl := pol.tools[call.tool].rateLimit.value;
      match CountSince(b, call.session, call.tool, WindowStart(call, rl))
      case Error => Error
      case Ok(count) =>
        if count >= rl.maxCalls then Ok(DenyBy(RateLimited(call.tool))) else Ok(Permit())
  }

  function EvalEscalation(lib: Library, b: Backend, call: Call, pol: Policy): Result<Decision> {
    if call.tool !in pol.tools || pol.tools[call.tool].escalateWhen.None? then Ok(Permit())
    else
      match Triggered(lib, call.args, pol.tools[call.tool].escalateWhen.value)
      case Error => Error
      case Ok(triggered) =>
        if !triggered then Ok(Permit())
        else
          match HasApproval(lib, b, call.session, call.tool, lib.sha256(call.args))
          case Error => Error
          case Ok(approved) =>
            if approved then Ok(Permit())
            else Ok(Decision(Escalate, NeedsApproval, [], Some(Feedback(Plain, []))))
  }

  /** One stage. Error is the evaluator's non-nil error. */
  function EvalStage(stage: Stage, lib: Library, b: Backend, call: Call, sess: Session, pol: Policy)
    : (r: Result<Decision>)
    ensures r.Ok? ==> r.value.action != ShadowDeny
    ensures r.Ok? && r.value.action == Escalate ==> stage == Escalation
  {
    match stage
    case Env => Ok(EvalEnv(call, pol))
    case MayUse => Ok(EvalMayUse(call, pol))
    case Delegation => EvalDelegation(b, call)
    case BudgetLimit => Ok(EvalBudget(sess, pol))
    case TaintGuard => Ok(EvalTaint(call, sess, pol))
    case Sequence => EvalSequence(b, call, pol)
    case Content =>
      ContentOnlyDenies(lib, call.args, if call.tool in pol.tools then pol.tools[call.tool].neverWhen else []);
      EvalContent(lib, call, pol)
    case Rate => EvalRate(b, call, pol)
    case Escalation => EvalEscalation(lib, b, call, pol)
  }

  lemma ContentOnlyDenies(lib: Library, args: string, preds: seq<ContentPredicate>)
    ensures var r := NeverWhenAny(lib, args, preds); r.Ok? ==> r.value.action in {Allow, Deny}
    ensures var r := NeverWhenAll(lib, args, preds); r.Ok? ==> r.value.action in {Allow, Deny}
  {
    if |preds| > 0 {
      ContentOnlyDenies(lib, args, preds[1..]);
    }
  }

  // ---- the pipeline

  /** What a stage's result means for the call: None lets the next stage run. */
  function Settled(r: Result<Decision>, pol: Policy, tool: string): Option<Decision> {
    match r
    case Error => Some(FailClosed())
    case Ok(d) =>
      if d.action == Allow then None
      else if EffectiveMode(pol, tool) == Shadow then Some(d.(action := ShadowDeny))
      else Some(d)
  }

  /** The first stage that settles the call decides; if none does, the call is permitted. */
  function Pipeline(stages: seq<Stage>, lib: Library, b: Backend, call: Call, sess: Session, pol: Policy): Decision {
    if |stages| == 0 then Permit()
    else
      match Settled(EvalStage(stages[0], lib, b, call, sess, pol), pol, call.tool)
      case Some(d) => d
      case None => Pipeline(stages[1..], lib, b, call, sess, pol)
  }

  /** The same when every stage has its own view of the store: the first of `stages` is the first-th overall.
      Each stage makes at most one query, so a view per stage covers any pattern of failing queries. */
  function PipelineOn(
    stages: seq<Stage>, first: nat, lib: Library, views: nat -> Backend, call: Call, sess: Session,
        pol: Policy): Decision
    decreases |stages|
  {
    if |stages| == 0 then Permit()
    else
      match Settled(EvalStage(stages[0], lib, views(first), call, sess, pol), pol, call.tool)
      case Some(d) => d
      case None => PipelineOn(stages[1..], first + 1, lib, views, call, sess, pol)
  }

  /** The session's taint flag after a permitted call: clears first, then applies. */
  function TaintAfter(tainted: bool, pol: Policy, tool: string): bool {
    if tool !in pol.tools then tainted
    else if pol.tools[tool].taint.applies then true
    else if pol.tools[tool].taint.clears then false
    else tainted
  }
}
