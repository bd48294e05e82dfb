# TrueBearing in Dafny

TrueBearing is a proxy in front of an MCP server. For every tool call it decides
`allow | deny | escalate | shadow_deny` from a policy and from the session's own history, and then writes
state that later decisions read. This project models that loop and proves what holds of it over whole runs.

The proxy is a state machine (`Protocol`). A request handler is a sequence of steps on shared state, one step
per store call, because the store has a single connection and every store call is atomic. A schedule is any
sequence of steps: arrivals, steps of any in-flight request, each with or without a store failure, crashes of
a request, restarts, reloads in their two steps, operators' verdicts on escalations, session terminations and
agent registrations. A step that is not enabled changes nothing, so *every* schedule is a run, and a theorem
about `At(cfg, pol, steps, n)` is about every interleaving.

How the files hang together:

- `Policies`, `Database`, `Engine`: the data, the tables with one atomic operation per store call, the nine
  evaluators and the pipeline. `Evaluation`, `SequenceChecks`, `StoreObject`, `Backends`, `PolicyCache`,
  `LintCycles`, `Simulate`, `Replay`, `Offline`, `Grouping` and `ProxyObject` hold the imperative code - loops,
  the linked list, the depth-first search, the store object, the proxy object with its handler - each proved
  against those functions. `ProxyObject.Proxy.HandleMCP` takes the very steps of the machine, and computes
  what `HandlerAnswers` says in one function of the store calls that fail.
- `ArgumentRules` says what the conditions on arguments mean, of numbers and texts; `StageMeanings` what each stage
  and the live pipeline decide, in the words of policy, call, session and tables; `OfflineMeaning` the same of a
  session that is evaluated offline on its own past.
- `Frame` and `Recording` say what every step keeps; `Ordering`, `Conservation`, `BudgetBound`, `RateWindow`,
  `Approvals`, `PolicyBinding`, `PermittedCalls`, `AuditTrail`, `Terminations` and `LintLiveness` build the results
  about all schedules on them.
- `Recency` and `LruTheory` are the policy cache as a recency list and what it retains over histories.
- `Sequential` says what one undisturbed call does to the database, `OneAtATimeRuns` proves that this is what
  the machine does when calls do not overlap, `SequentialBounds` that the limits are exact then. `TaintRuns`,
  `TaintNecessity`, `SessionRuns`, `PlainPolicies` and `ThreeExecutions` are about such runs, `simulate` and
  `audit replay`. Such a run is any sequence of calls, verdicts, agent registrations and session terminations.
- `SessionTaint` proves the taint results for one undisturbed session in an arbitrary schedule.

Below, an executed event is one with decision allow or shadow_deny.

Where comments or documentation disagree with the code, the model follows the code:

- An unset enforcement mode blocks; the pipeline only compares with `shadow` (internal/engine/pipeline.go:94),
  although lint rule L005 speaks of "defaulting to shadow" (internal/policy/lint.go:172-181).
- An evaluator error denies even in shadow mode (`PipelineLaws.FirstRefusalDecides`).
- The session's call counter counts executed calls only, not all calls (`Conservation.ExecutedEventsAreConserved`).
- A session whose policy has been evicted is evaluated under the live policy, not refused
  (`PolicyBinding.PolicyBinding`).
- `--audit-strict` acts on a failed audit write only: without a signing key nothing is recorded and nothing is
  refused for it (`AuditTrail.AuditStrict`).
- `check_escalation_status` leaves no event (`PermittedCalls.VirtualLeavesNoEvent`).
- Clearing a session's taint unblocks nothing that `never_after` forbids; for a policy with one taint source the
  whole taint stage is redundant (`TaintRuns.TaintStageRedundancy`).
- `simulate` of the proxy's own trace is not always the live run: the trace line of a call is written before the
  terminated check, so the trace holds calls that were turned away (`ThreeExecutions.LateCallIsSimulated`).
- L013 says that the agent "will permanently block"; that is so exactly when every tool on the cycle is in
  effective block mode (`LintLiveness.DeadlockIffBlocked`).
- An empty tool list of a parent agent is "no such parent" to the in-memory backend and a scope violation to the
  store's; this is the only case in which the two disagree (`Backends.BackendAgreement`).

## Model

| member | source | states |
|---|---|---|
| Ordering.OrderingSafety | internal/engine/sequence.go:58-117 | In every schedule every permitted event has, with smaller seq in its session, an executed event of each only_after tool and at least Count executed events of the requires_prior_n tool, of the policy it was evaluated under |
| Ordering.NeverAfterSafety | internal/engine/sequence.go:94-104 | If a session's calls are evaluated one at a time, no permitted event follows an executed event of a tool its never_after names, whatever else interleaves |
| Ordering.AtReady | internal/engine/sequence.go:82-117 | Invariant behind it: requests past the sequence stage find their prerequisites in the table at every later point, and the rows before each permitted row hold them |
| Ordering.AtClear | internal/engine/sequence.go:94-104 | Invariant for never_after under one-at-a-time evaluation of the session |
| Recording.SeqsAreOneToN | internal/store/events.go:51-92 | In every schedule, with failures and crashes, each session's seqs are exactly 1..n in insertion order |
| Recording.AtSound | internal/proxy/proxy.go:489-508 | In every schedule each event row is the record of exactly the request that wrote it: same session, tool, arguments, decision and seq |
| Recording.AtPrecedes | internal/proxy/proxy.go:408-596 | The event table only grows, and a request never changes its call, its policy, its decision once made, or its outcome once answered |
| Frame.StepFrame | internal/proxy/proxy.go:325-616 | Every step, whoever takes it, moves at most one request along the handler's order of operations and writes at most that request's row |
| Database.RowsAreOneToN | internal/store/events.go:101-135 | ORDER BY seq is insertion order: the k-th row of a session has seq k + 1 |
| Database.MaxSeqIsCount | internal/store/events.go:63-72 | SELECT MAX(seq) of a session is the number of its rows |
| Conservation.ExecutedEventsAreConserved | internal/proxy/proxy.go:489-596 | In every schedule the executed events of a session equal its call counter plus the calls in flight after their event, refused by audit-strict, cut off by a failed taint write, forwarded without being counted, or crashed; and the counter is the number of calls forwarded and counted |
| Conservation.AtBalanced | internal/store/sessions.go:110-127 | Invariant behind it: executed events = counter + uncounted requests, counter = counted requests |
| Conservation.UncountedSplits | internal/proxy/proxy.go:556-596 | An uncounted executed call is in exactly one of five situations |
| BudgetBound.BudgetOvershoot | internal/engine/budget.go:39-97 | With a call or cost limit enforced on the session's calls and at most k of them between session load and counter update, the counter never exceeds limit + k - 1, nor the cost the price of that many calls, nor the counted forwarded calls |
| BudgetBound.BudgetIsExactOneAtATime | internal/proxy/proxy.go:408-437 | One at a time the limits are met exactly |
| BudgetBound.CostFollowsCalls | internal/proxy/proxy.go:586-595 | In every schedule the stored cost, and every handler's snapshot of it, is the flat price times the counted calls |
| RateWindow.SlidingWindow | internal/engine/ratelimit.go:49-74 | Every closed interval no longer than window_seconds of recorded_at holds at most max_calls + k - 1 executed events of the tool, with at most k of its requests between the count and the append; only requested_at <= recorded_at is assumed of the clock |
| RateWindow.AtWindow | internal/store/events.go:149-163 | Invariant behind it: once a window is full, only requests that counted before can still land in it |
| Approvals.ApprovalChain | internal/engine/escalation.go:82-103 | Behind every permitted event whose arguments meet escalate_when stand an earlier escalate event of the same session, tool and argument hash that created a record, and exactly one step of the whole schedule that approved it, before the evaluation that found the approval |
| Approvals.ResolutionRace | internal/store/escalations.go:159-183 | Of all attempts on a record exactly the one that takes it out of pending succeeds; every other whose status lookup succeeds reports the final status, and the status never changes again |
| Approvals.ResolvedOnce | internal/store/escalations.go:159-170 | No two steps of a schedule resolve the same record |
| Approvals.StatusIsFinal | internal/store/escalations.go:159-183 | Records never disappear, their session, tool, arguments and seq never change, and a resolved status stays |
| Approvals.AtDocumented | internal/proxy/proxy.go:600-616 | In every schedule every escalation record was created by a request whose escalate event is in the table, and every recorded request has a row |
| PermittedCalls.GuardSafety | internal/engine/pipeline.go:60-107 | In every schedule a permitted event's call met require_env, may_use, both budgets and the taint guard for the session it had loaded, and never_when for its arguments; and for a child agent, at some step of its evaluation the parent was registered with the tool |
| PermittedCalls.ParentHadTool | internal/engine/storebackend.go:56-70 | Behind every permitted call of a child agent stands a registration of its parent with the tool, the last one before a step of the call's evaluation |
| PermittedCalls.RegistrationLasts | internal/store/agents.go:65-80 | A registration is in force until the next one of the same agent |
| PermittedCalls.StageStep | internal/engine/pipeline.go:60-107 | For every permitted event and every stage there is an earlier step of the schedule that ran this stage on this call and let it pass |
| PermittedCalls.ForwardedIsGoverned | internal/proxy/proxy.go:484-508 | In every schedule a forwarded call has exactly one event, of an executed decision, and of decision allow whenever its tool's violations are blocked |
| PermittedCalls.VirtualLeavesNoEvent | internal/proxy/proxy.go:361-382 | In every schedule no event is of check_escalation_status |
| AuditTrail.AuditStrict | internal/proxy/proxy.go:508-585 | In every schedule: a call is refused for its audit record only if it was to be let through, its audit write failed and audit-strict is on; a call whose write failed is forwarded only without audit-strict; with a signing key an answered call has exactly one record, of its session, seq, agent, tool, decision and policy, if its write worked and none if it failed; so under audit-strict every forwarded call has its record |
| AuditTrail.AuditsAreEvents | internal/proxy/proxy.go:508-515 | In every schedule each audit record is of an event of the table, with its session, seq, tool and decision, and no event has two |
| AuditTrail.HandlerAudited | internal/proxy/proxy.go:325-616 | A handler that runs alone refuses for audit-strict only if the key is loaded and the audit write fails, forwards only otherwise, and adds one record, of its call, exactly if the write works |
| Terminations.LateCallsTurnedAway | internal/proxy/proxy.go:408-459 | In every schedule a terminated session stays terminated, and a call of it that arrives later or has not read the session yet is turned away without an event |
| Terminations.NoLateEvents | internal/store/sessions.go:176-188 | An event that a session gets after its termination is of a call that had read the session before |
| StageMeanings.PermittedExactly | internal/engine/pipeline.go:60-107 | On a working store the live pipeline permits a call exactly if: require_env and may_use hold, both budgets are left, the taint guard and never_when do not stop it, a parent agent has the tool, the event table meets the sequence predicates, fewer than max_calls executed calls of the tool lie in window_seconds before it or since, and escalate_when is evaluated and not met or an approved record of the session and tool has the argument hash |
| StageMeanings.LiveDecides | internal/engine/pipeline.go:60-107 | The whole decision on a working store, rule and action: the first broken of environment, may_use, parent, calls, cost, taint, sequence, never_when, quota, escalate_when refuses, in the enforcement mode of the tool, and what cannot be evaluated denies in any mode |
| StageMeanings.ExactContent | internal/engine/content.go:45-132 | never_when, of the texts of arguments: it passes exactly if "any": no predicate fires, "all": one does not after predicates that do; it denies exactly if "any": one fires after predicates that do not, and the rule names it, "all": every one fires; otherwise it fails |
| StageMeanings.OnePredicate | internal/engine/content.go:138-181 | One predicate: is_external lets a text pass exactly if it is something followed by the value, equals and not_equals deny exactly on equal and different text, contains_pattern exactly if the pattern without its slashes matches; a missing argument, a pattern that does not compile and an unknown operator fail |
| ArgumentRules.PredicateMeans | internal/engine/content.go:138-181 | A predicate is evaluated to what it says of the argument's text, wherever it stands in a list |
| StageMeanings.NumbersEscalate | internal/engine/escalation.go:46-162 | A rule on a number x with threshold y: `>` passes exactly if x <= y or the call is approved, `<` if x >= y, `>=` if x < y, `<=` if x > y, `==` if x differs, `!=` if it is equal, or approved; otherwise a human is asked |
| StageMeanings.TextsEscalate | internal/engine/escalation.go:46-136 | A rule on a text: `contains` asks exactly if the threshold occurs in the argument and the call is not approved, `matches` if the pattern matches it; an empty path, a missing argument, a pattern that does not compile and an unknown operator fail |
| ArgumentRules.ConditionMeans | internal/engine/escalation.go:52-140 | escalate_when is evaluated exactly if the path, less its `$.` and `$`, is not empty and has a value, the operator is known and the pattern compiles; and then to what the condition says of number or text |
| StageMeanings.ExactTaint | internal/engine/taint.go:33-83 | The taint stage passes exactly if the session is untainted, the tool clears taint, or its never_after names no taint source |
| StageMeanings.OppositesCover | internal/engine/escalation.go:114-162 | Of every value and threshold, `>` is met exactly if the value lies above the threshold, and `<` if below; `==` and `!=` cover every call; `<` and `>=`, and `>` and `<=`, do exactly if neither side is NaN, and then exactly one of `<`, `==`, `>` is met |
| StageMeanings.NotANumberNeverEscalates | internal/engine/escalation.go:46-80 | An argument that reads as NaN, as the string "NaN" does, passes every `>`, `<`, `>=` or `<=` rule without escalating |
| ArgumentRules.ContainsMeans | internal/engine/escalation.go:124-140 | `contains` holds exactly if the text occurs at some position |
| PolicyBinding.PolicyBinding | internal/proxy/proxy.go:418-453 | In every schedule with any reloads and restarts a call is evaluated under a cached policy with its session's creation fingerprint; or, if that was not cached at its lookup, under the policy live a moment later |
| PolicyBinding.LivePolicyIsCached | internal/proxy/proxy.go:221-233 | With no reload in progress the live policy's fingerprint is cached, with a policy of that fingerprint |
| PolicyBinding.AtCacheOk | internal/proxy/proxy.go:127-145 | Invariant behind it: distinct fingerprints, at most the capacity, each entry filed under its policy's own fingerprint |
| PolicyBinding.AtLoaded | internal/proxy/proxy.go:199-234 | In every schedule every policy that is live, cached, being reloaded or used by a call is one that the proxy started with or that a restart or an accepted reload brought in |
| PolicyBinding.FingerprintsPersist | internal/store/sessions.go:48-58 | The fingerprint a session was created with never changes |
| PolicyBinding.CacheIsLru | internal/proxy/proxy.go:184-186 | Between restarts the machine's cache is an LRU cache driven by one get per resolution and one set per accepted reload |
| PolicyBinding.BindingLasts | internal/proxy/proxy.go:189-198 | From any reachable state whose most recent policy is fp, without touching fp again: a session bound to fp still finds a policy with that fingerprint exactly while fewer than `capacity` distinct other versions were looked up or reloaded |
| LruTheory.Survival | internal/proxy/policy_cache.go:50-86 | After any history of get and set a fingerprint is cached exactly if it was touched and fewer than `capacity` distinct other fingerprints have been touched since its last touch |
| LruTheory.Inclusion | internal/proxy/policy_cache.go:50-86 | On the same history the recency order at a smaller capacity is a subsequence of the one at a larger capacity |
| LruTheory.SurvivesSegment | internal/proxy/policy_cache.go:66-86 | From a list with fp in front and without touching it: fp stands right behind exactly the others touched, until they are `capacity` many, and is gone then |
| LruTheory.KeysFollow | internal/proxy/policy_cache.go:50-86 | get and set of the recency list act on its fingerprints as the abstract operations do |
| LruTheory.DroppedMeans | internal/proxy/policy_cache.go:66-86 | What set returns is the one fingerprint that was cached before and is not any more, or the empty string if there is none |
| PolicyCache.PolicyLRU.constructor | internal/proxy/policy_cache.go:40-46 | An empty, well-formed cache |
| PolicyCache.PolicyLRU.Get | internal/proxy/policy_cache.go:50-59 | Returns the lookup in the recency list and moves a hit to the front; the ring and the index stay well-formed |
| PolicyCache.PolicyLRU.Set | internal/proxy/policy_cache.go:66-86 | Inserts or updates in front, evicts the last entry of a full cache, and returns what was dropped |
| PolicyCache.PolicyLRU.Len | internal/proxy/policy_cache.go:89-93 | The number of entries, never more than the capacity |
| PolicyCache.PolicyLRU.MoveToFront | internal/proxy/policy_cache.go:57 | The ring's order becomes the old one with the element moved to the front |
| PolicyCache.PolicyLRU.DropLast | internal/proxy/policy_cache.go:74-82 | The back of the ring and its index entry go, nothing else |
| PolicyCache.Unlink | internal/proxy/policy_cache.go:80 | Relinking the neighbours of an element takes exactly that element out of the ring |
| PolicyCache.LinkFront | internal/proxy/policy_cache.go:83 | Linking an element behind the sentinel puts it in front of the ring |
| PolicyCache.IndexedDistinct | internal/proxy/policy_cache.go:26-31 | When the index maps each fingerprint to its own element, the fingerprints in the ring are distinct |
| LintCycles.LintL013 | internal/policy/lint.go:506-582 | For any order of iterating the map the search terminates and reports exactly if the only_after graph has a cycle; the report is a closed walk of the graph; without a report there is an order of the tools in which each comes after what it depends on |
| LintCycles.CycleSearch.Dfs | internal/policy/lint.go:534-566 | One exploration: gray is exactly the search path and black exactly what is finished, in dependency order; it finds a closed walk or finishes the node, and the nodes not met shrink |
| LintCycles.CycleSearch.constructor | internal/policy/lint.go:530-531 | No node is coloured at the start |
| LintCycles.CloseCycle | internal/policy/lint.go:540-554 | The path from the gray node, closed by the back edge, is a closed walk that starts and ends at that node |
| LintCycles.NoCycleInOrder | internal/policy/lint.go:496-505 | An order in which each tool comes after what it depends on rules out every cycle |
| LintLiveness.CycleDeadlocks | internal/policy/lint.go:496-582 | If every policy that the proxy started with or that a restart or an accepted reload brought in has the cycle with its tools in effective block mode, no schedule ever yields an executed event for any tool on it, in any session |
| LintLiveness.LintMeansLiveness | cmd/simulate.go:191-274 | For a policy guarded only by may_use and only_after, in any enforcement modes, on which L002 and L003 report nothing: every tool of may_use ends some trace that `simulate` permits throughout, exactly when there is no cycle |
| LintLiveness.DeadlockIffBlocked | internal/policy/lint.go:568-572 | For a plain policy a cycle keeps its tools from ever executing exactly when all of them are in effective block mode |
| LintLiveness.OrderExists | internal/policy/lint.go:496-505 | A policy without a cycle has an order of all its tools and dependencies in which each comes after what it depends on |
| LintLiveness.OrderWorks | internal/engine/sequence.go:82-92 | Calling tools in such an order, every call is permitted, whatever the enforcement modes |
| LintLiveness.CycleNeverPermitted | internal/engine/sequence.go:82-92 | Under any policy and in any enforcement modes, a session whose simulated calls are all permitted calls no tool of a cycle |
| LintLiveness.CycleNeverSimulated | internal/engine/sequence.go:82-92 | No simulated session executes a tool of a blocked cycle |
| LintLiveness.ShadowRuns | internal/engine/pipeline.go:93-97 | Under a plain policy a tool in shadow mode always executes |
| OneAtATimeRuns.SequentialIsARun | internal/proxy/proxy.go:408-616 | For every sequence of calls, verdicts, registrations and session terminations the schedule that handles each call to its end computes the database, trace and audit log of the sequential description |
| Sequential.ItemsTellSessions | internal/store/sessions.go:176-188 | In such a run a session exists exactly if a call of it, other than of the virtual tool, has arrived, and is terminated exactly if a termination came after that |
| OneAtATimeRuns.HandlerServes | internal/proxy/proxy.go:408-616 | A handler that runs alone without failures does to tables and audit log exactly what the sequential description says |
| OneAtATimeRuns.ThreeExecutionsOfARun | cmd/audit/replay.go:110-131 | Replaying the log that a one-at-a-time run of the proxy wrote gives the decisions in its event table; simulating the trace it wrote gives them followed by those on calls of terminated sessions, so the same exactly if there are none |
| OneAtATimeRuns.TaintOfARun | internal/proxy/proxy.go:549-563 | In such a run of the machine, session terminations included, the stored taint flag is the fold over the session's rows |
| SequentialBounds.OneOpenThroughout | internal/proxy/proxy.go:325-616 | At every point of a one-at-a-time schedule all calls but the last to arrive have been answered |
| SequentialBounds.SequentialBudget | internal/engine/budget.go:39-97 | In a one-at-a-time run on a policy that blocks every tool's violations, neither the call limit nor the cost limit is ever exceeded |
| SequentialBounds.SequentialWindow | internal/engine/ratelimit.go:49-74 | In a one-at-a-time run every closed interval of window_seconds holds at most max_calls executed events of a blocking, rate-limited tool, if calls are recorded no earlier than they were requested |
| SequentialBounds.SequentialNeverAfter | internal/engine/sequence.go:94-104 | In a one-at-a-time run no permitted event follows an executed event of a tool its never_after names |
| SequentialBounds.ClockThroughout | internal/store/events.go:51-54 | In such a run no row is stamped earlier than its call was requested, if each call is handled no earlier than it was requested |
| ThreeExecutions.ThreeExecutionsAgree | cmd/audit/replay.go:194-274 | Under a plain policy and root agents, for any one-at-a-time run with session terminations: `replay` of its complete audit log, with the lines in any order, gives each session its live decisions and reports no change; `simulate` of its trace gives them first, and the same exactly if no call of the session arrives after its termination |
| ThreeExecutions.LateCallIsSimulated | internal/proxy/proxy.go:400-459 | The failing input: a call, its session's termination and the call again give one live event and two simulated results, because the trace line is written before the terminated check |
| ThreeExecutions.LiveFollows | internal/proxy/proxy.go:408-596 | The live database shows a session, at every point of such a run, what its own calls up to its termination amount to: history, counters, taint, audit records |
| ThreeExecutions.TraceOfCalls | internal/proxy/proxy.go:400-406 | The trace lists the calls of a session that reach the pipeline, followed by those that arrive after its termination; there are such exactly if a call follows the termination |
| ThreeExecutions.PlainNeverEscalates | internal/engine/pipeline.go:93-97 | A plain policy never escalates a root agent's call |
| PlainPolicies.CoreDecides | cmd/simulate.go:169-176 | Under a plain policy a pipeline decides a root agent's call as its may_use, budget, taint and sequence stages alone do |
| PlainPolicies.SharedCore | cmd/audit/replay.go:110-119 | The live, the simulated and the replayed pipeline have the same such core |
| PlainPolicies.ToolsDecide | cmd/audit/replay.go:219-232 | Under the core stages arguments and times change no decision of a session |
| PlainPolicies.CoreRecords | cmd/simulate.go:191-274 | Under a plain policy pipelines with the same core give a session the same outcomes |
| SessionRuns.NonInterference | cmd/simulate.go:191-274 | However recorded calls of many sessions interleave on one store, a session's outcomes, history and state are those of its own calls evaluated alone |
| Simulate.FileOrderAgrees | cmd/simulate.go:336-350 | Session by session, the grouped evaluation gives the outcomes of evaluating the interleaved trace in file order |
| Simulate.Simulate | cmd/simulate.go:100-140 | For every trace and every policy each session's results are those of its own entries, in file order, evaluated alone, one per entry: allow exactly if may_use has the tool, the earlier results leave both budgets, taint and the sequence predicates hold of them, fewer than max_calls executed entries of the tool lie in the window, and the entry's arguments do not meet escalate_when; if only the last is broken, escalate or, in shadow mode, shadow_deny |
| OfflineMeaning.RecordMeans | cmd/simulate.go:191-274 | Each recorded call of a session, with or without the escalation stage: the decision is what policy, call and the decisions recorded before it give |
| OfflineMeaning.MemoryIsPast | cmd/simulate.go:208-262 | After some calls the session state is exactly them with their decisions: history, a thousandth of a dollar for each call let through, and taint if a permitted applying call has no later permitted cleaning one |
| Simulate.EvaluateAllSessions | cmd/simulate.go:148-184 | On one fresh store, group after group, the results are those of evaluating the concatenated groups; no group fails |
| Simulate.EvaluateSession | cmd/simulate.go:191-274 | One session's loop takes exactly the reference steps: same store afterwards, same results; it fails only if the session already exists |
| Simulate.MergeResults | cmd/simulate.go:279-289 | Each new result beside the old decision in the same place, changed exactly if they differ |
| Simulate.MergeAligns | cmd/simulate.go:276-279 | The two evaluations of one trace list the same session, seq and tool in the same place, so merging compares like with like |
| Offline.EvaluateRecorded | cmd/simulate.go:223-262 | One recorded call: decision, event, counters and taint are one step of the reference, and appending cannot fail |
| Offline.RecordsFollowCalls | cmd/simulate.go:264-270 | One result per call, in order, numbered 1, 2, ... within its session, whatever the policy |
| Grouping.GroupBySession | cmd/simulate.go:336-350 | The one-pass loop over records and map computes the groups of a stable partition |
| Grouping.StablePartition | cmd/simulate.go:326-335 | Concatenating the groups leaves every session's own sequence of records as it was |
| Grouping.Permutation | cmd/simulate.go:336-350 | The concatenated groups are a permutation of the records |
| Grouping.FirstEncounterOrder | cmd/audit/replay.go:165-177 | Groups come in the order of their first records |
| Replay.Replay | cmd/audit/replay.go:110-131 | For every log and every policy each session's entries are those of its own rows, sorted by seq, evaluated alone: the logged decision beside the one that the policy and the new decisions so far give, as for simulate without escalate_when, and whether they differ |
| Replay.ReplayIgnoresLineOrder | cmd/audit/replay.go:165-187 | If a session's seqs differ, the order of the lines does not matter |
| Replay.ReplaySession | cmd/audit/replay.go:194-274 | One session's loop takes exactly the reference steps and puts each new decision beside the logged one |
| Replay.GroupAuditBySession | cmd/audit/replay.go:168-187 | Groups of a stable partition, each sorted by seq |
| Replay.SortBySeq | cmd/audit/replay.go:181-184 | Sorts in place: ascending seqs, and a permutation of the group |
| Replay.SortIsUnique | cmd/audit/replay.go:181-184 | Rows with different seqs have only one sorted order, so any sorting algorithm gives it |
| TaintRuns.TaintIsAFold | internal/engine/pipeline.go:101-129 | In one-at-a-time failure-free runs with session terminations the stored flag is set exactly if some permitted event of an applying tool has no later permitted event of a tool that clears without applying |
| TaintRuns.TaintStageRedundancy | internal/engine/taint.go:33-83 | For an aligned policy dropping the taint stage changes no decision's action and no state but the rules that events name, over any such run, session terminations included, and in any modes |
| TaintRuns.OneSourceAligned | internal/engine/taint.go:88-96 | A policy with exactly one taint-applying tool is aligned |
| TaintRuns.TaintStageImpliesSequence | internal/engine/sequence.go:94-104 | Under an aligned policy, whenever the taint stage denies a session whose flag is what its rows tell, the sequence stage denies as well |
| TaintRuns.UnalignedIsNotImplied | internal/engine/taint.go:33-83 | For every other policy there is a table, not claimed to end a run, with a truthful flag where the taint stage stops a call although never_after forbids nothing the session has executed |
| TaintNecessity.RedundantIffAligned | internal/engine/taint.go:33-83 | For policies whose only guards are may_use, never_after and taint, with every declared tool in may_use and in any modes: no one-at-a-time run changes when the taint stage is dropped exactly if the policy is aligned |
| SessionTaint.TaintFoldOfASession | internal/proxy/proxy.go:479-563 | In every schedule, for a session whose calls do not overlap, run under one policy and lose no changed flag, the flag is the fold over the session's rows, whatever other sessions, operators, reloads and failures interleave |
| SessionTaint.TaintStageOfASession | internal/engine/taint.go:33-83 | In such a schedule and under an aligned policy, at every point of the session's evaluations, whenever the taint stage would deny, the sequence stage on the store as it is then denies too |
| Backends.BackendAgreement | internal/engine/membackend.go:47-96 | Over a backend filled from the store the nine-stage pipeline decides as over the store, except exactly for a call that reaches delegation with a parent registered with an empty tool list; both then refuse, with the two different decisions named |
| Backends.PipelineAgrees | internal/engine/storebackend.go:27-70 | Any pipeline decides alike on both backends if no such parent is met |
| Backends.ProjectionCountsSince | internal/engine/storebackend.go:27-47 | Counting a tool's executed entries since a time over the projected rows is counting over the table |
| Backends.CountEntriesSince | internal/engine/membackend.go:57-72 | The counting loop counts the tool's executed entries at or after the time |
| Backends.FindApproval | internal/engine/membackend.go:77-84 | The search loop finds an approval exactly if one is listed |
| SequenceChecks.Evaluate | internal/engine/sequence.go:63-154 | The single-pass evaluation with frequency map and violation lists computes the decision of the naive definitions |
| SequenceChecks.Tally | internal/engine/sequence.go:63-77 | The frequency map says of every tool how often it has executed |
| SequenceChecks.ListsExactlyTheViolations | internal/engine/sequence.go:79-117 | A denial lists exactly the violated predicates |
| SequenceChecks.PermittedIffHolds | internal/engine/sequence.go:119-121 | The stage permits exactly if every predicate holds of the history |
| SequenceChecks.FeedbackMeaning | internal/engine/sequence.go:123-146 | The feedback lists exactly the missing prerequisites if there are any; otherwise it says which other predicate failed, and that the earlier kinds did not |
| SequenceChecks.StageMeaning | internal/engine/sequence.go:40-121 | Over the store, permitting means that the event table meets every predicate |
| SequenceChecks.ProjectionCounts | internal/store/events.go:101-135 | Counting executed entries of a session's projected rows is counting over the table |
| PipelineLaws.PermittedIffAllPass | internal/engine/pipeline.go:60-107 | A call is permitted exactly if every stage passes it |
| PipelineLaws.FirstRefusalDecides | internal/engine/pipeline.go:68-97 | Otherwise the first stage that does not pass decides: a failure denies in every mode; a refusal becomes a shadow denial with the same rule exactly if the tool's own mode is shadow or, when it is unset, the policy's is; when neither is set it stands |
| PipelineLaws.FirstRefusalDecidesOn | internal/engine/pipeline.go:68-145 | The same whichever of the stages' queries fail |
| PipelineLaws.BlocksMeans | internal/engine/pipeline.go:130-145 | A tool's violations are blocked exactly if its own mode is block, or is unset and the policy's is not shadow |
| PipelineLaws.DropPassing | internal/engine/pipeline.go:60-107 | Stages that pass a call can be dropped |
| PipelineLaws.PipelineAppend | internal/engine/pipeline.go:60-107 | Running two pipelines one after the other is running their concatenation |
| PipelineLaws.UniformViews | internal/engine/pipeline.go:60-107 | With one view of the store for all stages the evaluation is the pipeline of the laws above |
| Evaluation.Evaluate | internal/engine/pipeline.go:60-107 | The stage loop computes the pipeline's decision, with every stage on its own view of the store, so any of its queries may fail; only a permitted call moves the session's taint flag, and nothing else of the session changes |
| Evaluation.ApplyTaintMutations | internal/engine/pipeline.go:118-129 | Clears first, then applies |
| Evaluation.TaintApplyingTools | internal/engine/taint.go:88-96 | Any iteration of the map collects exactly the tools that apply taint |
| Evaluation.EvaluateTaint | internal/engine/taint.go:33-83 | The loop over never_after decides as the definition by existence |
| Evaluation.EvaluateAny | internal/engine/content.go:68-95 | The early-exit loop computes the "any" decision, its rule with argument and operator |
| Evaluation.EvaluateAll | internal/engine/content.go:101-132 | The early-exit loop computes the "all" decision |
| Evaluation.AnyMeaning | internal/engine/content.go:65-95 | "any" permits exactly if no predicate fires, denies exactly if one fires after predicates that do not, and fails exactly if one cannot be evaluated after predicates that do not fire |
| Evaluation.AnyNamesTheFirst | internal/engine/content.go:68-95 | A denial under "any" names argument and operator of the first predicate that fires |
| Evaluation.AllMeaning | internal/engine/content.go:98-132 | "all" denies exactly if every predicate fires, permits exactly if one does not after predicates that do, and fails exactly if one cannot be evaluated after predicates that fire |
| StoreObject.Store.constructor | internal/store/store.go:24-60 | Empty tables |
| StoreObject.Store.GetSession | internal/store/sessions.go:62-79 | The row, no row, or a failed lookup |
| StoreObject.Store.CreateSession | internal/store/sessions.go:48-58 | Succeeds exactly if the call does not fail and the id is new; adds the row with zero counters and no taint |
| StoreObject.Store.AppendEvent | internal/store/events.go:51-92 | Appends the row with the number of the session's rows plus one as its seq, if its session exists; keeps seqs dense; otherwise changes nothing |
| StoreObject.Store.GetSessionEvents | internal/store/events.go:101-135 | The session's rows, the k-th with seq k + 1 |
| StoreObject.Store.UpdateSessionTaint | internal/store/sessions.go:83-99 | Sets the flag of an existing session and nothing else |
| StoreObject.Store.IncrementSessionCounters | internal/store/sessions.go:110-127 | Adds one call and the cost to an existing session and nothing else |
| StoreObject.Store.TerminateSession | internal/store/sessions.go:176-188 | Marks an existing session terminated and changes nothing else |
| StoreObject.Store.CreateEscalation | internal/store/escalations.go:53-80 | Adds the record under a new id and nothing else |
| StoreObject.Store.ResolveEscalation | internal/store/escalations.go:159-183 | Succeeds exactly on a pending record and changes only its status; a refusal names the status that stands, or, if the record is missing or its lookup fails, that it was not found |
| StoreObject.Store.HasApprovedEscalation | internal/store/escalations.go:90-124 | Hashing the candidate rows in any order finds an approval exactly if one exists |
| ProxyObject.Proxy.constructor | internal/proxy/proxy.go:108-150 | The proxy starts in the machine's initial state: empty tables, the policy live and cached |
| ProxyObject.Proxy.ReloadPolicy | internal/proxy/proxy.go:199-234 | A rejected reload changes neither cache nor live policy; an accepted one takes the machine's two reload steps and leaves the new policy live and cached |
| ProxyObject.Proxy.HandleMCP | internal/proxy/proxy.go:325-616 | Whatever store calls fail on its way, the query of each evaluator on its own, the handler leaves the proxy where the machine's run of its request ends, and answers with that run's outcome; answer and tables are one function of the calls that fail; under audit-strict with a key a failing audit write refuses the call, and every answer after a working one adds its record |
| ProxyObject.Proxy.Serve | internal/proxy/proxy.go:395-616 | From the session lookup to the response: the machine's steps, and the same function of the calls that fail |
| HandlerAnswers.OnlySavedIsForwarded | internal/proxy/proxy.go:408-596 | A forwarded call had its session loaded or created and not terminated, a decision that let it through, its event with that decision as the last row of the table, and the taint flag after the decision stored; its audit write did not fail under audit-strict. So no failing lookup, creation, event write or flag write lets a call through |
| HandlerAnswers.FailedQueryIsNotForwarded | internal/engine/pipeline.go:68-90 | Nor does a failing query that an evaluator needs, unless an earlier evaluator's refusal is only shadowed |
| ProxyObject.Proxy.LoadSession | internal/proxy/proxy.go:408-437 | The machine's load, bind and create steps; fails exactly if the lookup fails, or the session is new and its creation fails, and then changes nothing |
| ProxyObject.Proxy.ResolvePolicy | internal/proxy/proxy.go:439-459 | The machine's resolve step, and its fallback after a miss: the cached policy of the session's fingerprint, else the live one |
| ProxyObject.Proxy.EvaluateAndAnswer | internal/proxy/proxy.go:484-616 | From evaluation to response, any of the queries and writes failing: the machine's nine evaluation steps and the four that follow |
| ProxyObject.Proxy.ActOn | internal/proxy/proxy.go:489-616 | From decision to response: event, audit record, taint flag and answer, whichever of the writes fail |
| ProxyObject.Proxy.RecordDecision | internal/proxy/proxy.go:489-515 | The machine's append and audit steps: the event under the session's next seq, or nothing if the write fails |
| ProxyObject.Proxy.WriteAuditRecord | internal/proxy/proxy.go:637-715 | Reports failure exactly if a key is loaded and the write fails, and otherwise adds the record if a key is loaded |
| ProxyObject.Proxy.SaveTaint | internal/proxy/proxy.go:549-563 | The machine's taint step; the write happens only if the evaluation changed the flag |
| ProxyObject.Proxy.Respond | internal/proxy/proxy.go:565-616 | The machine's settling step for each kind of decision |
| ProxyObject.Proxy.Forward | internal/proxy/proxy.go:566-596 | Refused, with nothing counted, exactly if audit-strict is on and the audit write failed; otherwise counted and forwarded, and a failed counter write does not stop the call |
| ProxyObject.Proxy.RaiseEscalation | internal/proxy/proxy.go:600-616 | The pending record with the event's seq, or a refusal if it cannot be created |
| HandlerRuns.DriveIsARun | internal/proxy/proxy.go:325-616 | A handler running alone is a schedule of the machine |
| HandlerRuns.EvaluationRuns | internal/engine/pipeline.go:60-107 | The machine's stage-by-stage evaluation, each stage with its own query failing or not, decides as the pipeline in one go |

## Left out

- HTTP and stdio transport, JSON-RPC, authentication, response writers, tracing spans, logging, webhooks, health and admin handlers.
- JSON decoding, YAML parsing, SQL text, SHA-256, Ed25519, regular expressions and number formatting: library calls; those that decisions depend on are parameters of the model (`Engine.Library`), so results about argument hashes hold up to hash equality. A failing signature, which the code logs like a missing key, is not part of this model.
- The answer to check_escalation_status; the model keeps that it is given before anything else and leaves no event.
- Reason texts of decisions: only the list of violated sequence predicates, the rule and the feedback code are kept.
- Cost is exact, in thousandths of a dollar; the code adds 0.001 in floating point. Numbers in escalate_when are reals, the two infinities and NaN, without rounding.
- Times are unbounded integers; Duration overflow, the replacement of a zero recorded_at by the current time, and the parsing of trace timestamps (second precision, current time when missing) are not modelled.
- Database integers are unbounded, and the table of each store is empty at the start of a run.
- The copies that the in-memory backend makes of the slices it is given: backends are values here.
- The mutexes of the cache and of the live policy: each access is one atomic step.
- `PolicyCache.Unlink`: an unlinked element keeps its own links, which the library's list clears.
- `SequenceChecks.Evaluate`: starts after the session's entries have been fetched; a failing fetch is the error branch of `Engine.EvalSequence`.
- `PolicyBinding.BindingLasts`: speaks of schedules without a restart, which empties the cache but for one policy.
- `Replay.SortBySeq`: insertion in place of the library's sort; `Replay.SortIsUnique` makes the choice immaterial for logs with distinct seqs.
- `Simulate.EvaluateSession`: takes the entries of one session, which is what the grouping delivers; failures of the in-memory store are not modelled.
- Lint rules other than L013: L002 and L003 appear as hypotheses, the rest are single branches.
- `max_history` and `max_duration_seconds`: no code enforces them.
- The heuristic that names taint-causing events, transitive delegation (the code checks the immediate parent only), the scaffolder, policy packs, explain, diff, report and query printing, CLI wiring, the Node and Python SDKs and the WASM entry point's decoding.
