# Verified model of the UYAP bot's job engine

A Dafny model of the job engine of `project/uyap_bot_MVP_full_v37/core` and of three modules
beside it: the text-encoded degraded flag of version 20, the attempts-and-quarantine loop of
version 24, and the audit hash chain of the version 38 enterprise layer. `dafny verify
dfyconfig.toml` checks everything.

## What is modelled

| file | subject |
|---|---|
| `CaseLock.dfy` | the per-case lock row and its two transactions |
| `JobProtocol.dfy` | many workers, the scheduler, the operator endpoints and crashes as one interleaved state machine over jobs, locks, a broker multiset and program counters |
| `LockSafety.dfy` | mutual exclusion, ownership, quiescence and leaks over every interleaving |
| `AuditTrail.dfy` | audit rows, the attempt counter and the degraded gate over every interleaving |
| `ReadOnlyTrail.dfy`, `AttemptCounter.dfy`, `CancelFinality.dfy`, `DegradedGate.dfy` | exactly when audit rows of read-only jobs stay whole, `attempt` keeps counting, a cancel stays final, and write jobs still write under the flag |
| `IdleSystem.dfy`, `IdleTick.dfy` | exactly which rows of an idle system stay as they are without an operator, under the listing and both quota tests; those tests are the scheduler's |
| `RecipeRunner.dfy` | one task, statement by statement, against a UI and a database that may fail at any step |
| `RunnerRefinement.dfy` | the protocol can do whatever the Celery task's contract says |
| `JobTable.dfy`, `Planner.dfy`, `Dispatcher.dfy`, `LevelWedge.dfy` | the scheduler, with other processes acting between its statements: planning, SLA order, quotas, and when it can never dispatch again |
| `Cooldown.dfy`, `PlanningPasses.dfy` | the spacing the cooldown test guarantees when planners interleave, and planning passes that do |
| `DegradedMode.dfy`, `SelectorHealth.dfy`, `Hysteresis.dfy` | the two flag stores, one health check statement by statement, and what any number of overlapping checks do to the flag |
| `DecisionEngine.dfy`, `RuleRunner.dfy`, `Confluence.dfy`, `OrderMatters.dfy` | decision rules up to the first exception, their counters, and when the order in which Python iterates a set is irrelevant |
| `Extractors.dfy`, `Compute.dfy` | table rows to facts; the risk score and the recovery simulation |
| `UiMap.dfy` | the UI-map validator, the selector resolver and the recorder's approval |
| `AuditChain.dfy`, `Quarantine.dfy` | the hash chain and the version 24 execution loop |
| `BotTypes.dfy`, `Numbers.dfy`, `Collections.dfy` | shared types, arithmetic and facts about sets |

Objects whose fields the program updates are classes (`CaseLockTable`, `JobRow`, `PlanningDb`,
`Scheduler`, `ConfigStore`, `BundleTextStore`, `HealthMonitor`, `DecisionStore`, `FactTable`,
`Recorder`, `Job`); their methods are proved against functions on the old state, and the
properties are proved about those functions. The interleaved protocol is a state machine over
values: one step is one statement on the database, one broker delivery or one UI call, and every
order of steps is allowed. Three fields of its state (`leaked`, `overlapped`, `lost`) and the
`origin` of a row are bookkeeping that no step reads, and so are the counters of `Hysteresis`. The
methods of the scheduler and of the health check take a world that says what other processes do
before each of their statements.

## Where the code and its documentation or intent differ

The model follows the code; each point is a theorem below.

- `README_v22.md` presents the case lock as the guard against two write jobs at once. Mutual
  exclusion holds, but the UI worker is started between the acquire and the `try`, so a start
  failure leaves the case locked for ever (`UiStartFailureLeaks`, `LeakIsForever`).
- Cancelling is not final, and the degraded flag does not stop a run that passed the gate; the
  exact conditions are `CancelIsFinal` and `WritesUnderTheFlag`. A read-only job delivered twice
  can spoil its own audit trail and its attempt counter (`DoubleDeliveryInterleaves`; exactly
  `TrailStaysWhole` and `AttemptStaysExact`).
- The two thresholds of the automatic flag are meant as a hysteresis. They are one between checks
  that follow one another; a check that acts on old counts, or whose two queries see different
  logs, may change the flag with no further log event (`StaleChecksToggle`, `SkewMisleads`).
- `_count_running` counts QUEUED jobs too. As long as no row leaves QUEUED or RUNNING during a
  tick, a cap of n lets fewer than n jobs through, a cap of 1 none, and a full queue never drains
  (`FewerThanTheCap`, `CapOneSends`, `WedgedForever`, `EmptyTableCanWedge`, `WedgeKeepsItself`). Nor
  does a full risk level (`LevelWedgedForever`); the rows that never move again are exactly those of
  `RowStaysExactly`. On the other hand a
  listed job that is cancelled before its test is sent all the same (`LeavingIsSent`).
- The cooldown test and the insertion are two statements, so two overlapping ticks can plan the
  same job twice (`OverlappingPlannersCollide`).
- A confidence of 0 is read as 0.5 and a claims estimate of 0 may be read as unknown
  (`ZeroConfidenceIsHalf`, `ZeroClaimsReadAsUnknown`).
- The compute modules may raise, for instance on a rank that is no number
  (`UnreadableRankRaises`), and nothing catches that before the hook has ended with part of its
  rows created. Then any two fact types may disagree on what is created
  (`RaisingConfluentExactly`). With modules that never raise their order is irrelevant for every
  rule set exactly when there are fewer than two or none of them is a type that rules create
  themselves (`ConfluentExactly`).

## Model

| member | source | states |
|---|---|---|
| CaseLock.CaseLockTable.AcquireCaseLock | project/uyap_bot_MVP_full_v37/core/case_lock.py:4-13 | Answers true exactly when the case had no locked row; then, and only then, the case gets this job as its owner with the reason, and every other case keeps its owner |
| CaseLock.CaseLockTable.ReleaseCaseLock | project/uyap_bot_MVP_full_v37/core/case_lock.py:15-22 | Frees the case only if the releasing job owns it; any other release changes no owner |
| CaseLock.ReleaseUndoesAcquire | project/uyap_bot_MVP_full_v37/core/case_lock.py:4-22 | A release after a successful acquire restores the owners, and no release by another job or for another case frees the lock |
| LockSafety.MutualExclusion | project/uyap_bot_MVP_full_v37/core/recipe_runner.py:81-88 | Over every interleaving of workers, ticks, duplicate deliveries, retries, cancels, failures and crashes, at most one process is between a successful acquire and its release for a case |
| LockSafety.OwnershipExact | project/uyap_bot_MVP_full_v37/core/recipe_runner.py:82-97 | In every reachable state a case that did not leak is locked by job j exactly when some process is in its write section for j |
| LockSafety.OnlyTheHolderFrees | project/uyap_bot_MVP_full_v37/core/recipe_runner.py:164-169 | A step that frees a lock is the release of the process that took it; a read-only run, which also calls release, never frees one; no step changes an owner |
| LockSafety.Quiescence | project/uyap_bot_MVP_full_v37/core/recipe_runner.py:90-169 | Whenever all processes are idle the locked cases are exactly the leaked ones |
| LockSafety.AllFreeExactly | project/uyap_bot_MVP_full_v37/core/recipe_runner.py:90-169 | Over a run from the start that ends with all processes idle, all locks are free at the end exactly when no UI-start failure, failed release or crash hit a write process in its section |
| LockSafety.LeakIsForever | project/uyap_bot_MVP_full_v37/core/recipe_runner.py:82-93 | After a leak the case stays locked by the same job at every later point of every run, nobody enters its section, and no write job of the case starts again or gets another audit row |
| LockSafety.UiStartFailureLeaks | project/uyap_bot_MVP_full_v37/core/recipe_runner.py:90-93 | The leak happens: the UI worker is started after the acquire and before the try, so a start failure ends with the job FAILED, every process idle and the case locked |
| AuditTrail.GoodRowsAreSegments | project/uyap_bot_MVP_full_v37/core/recipe_runner.py:99-158 | A row sequence is executions numbered 0, 1, 2, … laid end to end, with only last rows in error, exactly when each row continues a good predecessor or starts anew at a good 0 |
| AuditTrail.AuditTrailIsSegments | project/uyap_bot_MVP_full_v37/core/recipe_runner.py:93-163 | In every reachable state the rows of a write job, and of a read-only job whose runs did not overlap, are such executions; a DONE job ends on a good row and nobody is adding rows |
| AuditTrail.DoneSegmentIsComplete | project/uyap_bot_MVP_full_v37/core/recipe_runner.py:101-162 | A run that stores DONE has just written one segment of 2 + (number of dict actions) rows without an error |
| AuditTrail.WriteNeverOverlaps | project/uyap_bot_MVP_full_v37/core/recipe_runner.py:81-97 | Two processes never write rows for the same write job, although the broker may deliver its id several times |
| AuditTrail.AttemptCountsExactly | project/uyap_bot_MVP_full_v37/core/recipe_runner.py:94-97 | In every reachable state `attempt` is at most stored starts plus retries, and equal to them exactly when no start or retry was computed from an outdated copy of the row |
| AttemptCounter.AttemptStaysExact | project/uyap_bot_MVP_full_v37/core/recipe_runner.py:94-97 | Exactly when the counter stays right: from a reachable state `attempt` equals stored starts plus retries over every run that neither dispatches the job nor asks for a retry, if and only if it does now, at most one delivery or process is left that can store it, and that process read the present version of the row; for a write job of a leaked case only retries can |
| AuditTrail.DegradedAdmitsNoWrite | project/uyap_bot_MVP_full_v37/core/recipe_runner.py:75-79 | While the flag stays on no write job passes the gate: whoever is past it was past it for the same job when the flag was seen on |
| DegradedGate.WritesUnderTheFlag | project/uyap_bot_MVP_full_v37/core/recipe_runner.py:75-88 | Exactly when writing goes on under the flag: from a reachable state with the flag on, some run that never clears it stores an audit row of a write job if and only if a write process is in its section with rows to come, or past the gate waiting for a case that is free or held |
| CancelFinality.CancelIsFinal | project/uyap_bot_MVP_full_v37/core/api_views_ops.py:47-61 | Exactly when cancelling is final: a QUARANTINED job stays so over every run in which nobody dispatches it or reads it for a retry, if and only if no delivery of it is in the broker and every process holding it is only cancelling it or leaving a finished run |
| ReadOnlyTrail.TrailStaysWhole | project/uyap_bot_MVP_full_v37/core/recipe_runner.py:93-158 | Exactly when a read-only job's rows stay whole executions over every run that does not dispatch it again: they are whole now, at most one delivery or process is left that can append, and that process, if among its rows, continues them |
| ReadOnlyTrail.DispatchedOnceStaysWhole | project/uyap_bot_MVP_full_v37/core/scheduler.py:91-94 | From the start, a job of any risk level that is dispatched at most once has whole executions as its rows at every point of every run |
| RecipeRunner.FindRecipe | project/uyap_bot_MVP_full_v37/core/recipe_runner.py:34-41 | The first dict entry with the wanted id, or nothing exactly when the list is missing or holds none |
| RecipeRunner.JobRow.AppendStep | project/uyap_bot_MVP_full_v37/core/recipe_runner.py:43-51 | Stores the snapshot and one row pointing to it whose proof reference is the snapshot's hash; every earlier row keeps that property |
| RecipeRunner.DoActions | project/uyap_bot_MVP_full_v37/core/recipe_runner.py:110-158 | Appends one row for each dict action reached, numbered from 2, skipping other entries, and stops with an error at the first step that does not let it go on |
| RecipeRunner.RunAddsOneSegment | project/uyap_bot_MVP_full_v37/core/recipe_runner.py:93-163 | The rows an entered run adds are one segment, none only if the meta row could not be stored, and one good row for every step if it succeeds |
| RecipeRunner.RunRecipe | project/uyap_bot_MVP_full_v37/core/recipe_runner.py:65-174 | When the run is DONE, BLOCKED with which reason, or raises with which error code; attempt, rows, status and lock owners afterwards, whichever of its statements raises and whatever the steps meet |
| RecipeRunner.RunJob | project/uyap_bot_MVP_full_v37/core/tasks.py:5-21 | The Celery task leaves DONE, BLOCKED or FAILED with its exact error code, each exactly in its case; only if storing FAILED fails too does the exception escape; the rows keep their proof references |
| RecipeRunner.LocksLeftAlone | project/uyap_bot_MVP_full_v37/core/recipe_runner.py:81-169 | One run alone leaves the lock owners as it found them unless a write run acquired and then could not start the UI or could not release: if and only if |
| RecipeRunner.AttemptCountsMetaRows | project/uyap_bot_MVP_full_v37/core/api_views.py:36-42 | Over any sequence of separate runs and retries of one job: rows are segments laid end to end, and attempt = step-0 rows + retries + runs that could not store their step-0 row |
| RunnerRefinement.TaskIsAProtocolRun | project/uyap_bot_MVP_full_v37/core/tasks.py:5-21 | For every setting and world the interleaved protocol has a run of one process that ends with the status, attempt, rows and lock owners the Celery task ensures, and touches no other job |
| RunnerRefinement.StepsPhase | project/uyap_bot_MVP_full_v37/core/recipe_runner.py:114-163 | From any step number on, the protocol's process stores exactly the rows the method's specification lists and has stored DONE exactly when every step let it go on |
| Planner.AdjustBounds | project/uyap_bot_MVP_full_v37/core/adaptive_scheduler.py:23-30 | An adapted interval lies between the base and twice the base for every failure rate and every pair of thresholds |
| Planner.PlanningDb.PlanForCase | project/uyap_bot_MVP_full_v37/core/orchestrator_v14.py:33-64 | The loops over plan entries and debtors, each query and insertion on the table as others left it, skip non-dicts, missing ids and paused recipes and try one slot for the case or for each debtor |
| Cooldown.CooldownHolds | project/uyap_bot_MVP_full_v37/core/orchestrator_v14.py:8-13 | Over whole histories with any number of interleaved planners: for two competing rows at most the later one's base interval apart, the table its cooldown test saw holds the earlier one as FAILED, exactly when it holds it at all; so always when no row was added between that test and the insertion |
| Cooldown.OverlappingPlannersCollide | project/uyap_bot_MVP_full_v37/core/orchestrator_v14.py:54-62 | The exception happens: two planners that both test before either inserts create two competing QUEUED rows at the same moment |
| Cooldown.PlanningIsAHistory | project/uyap_bot_MVP_full_v37/core/orchestrator_v14.py:33-64 | When nobody else plans meanwhile, every table the planning method leaves, with any other processes acting between its statements, is a point of such a history |
| PlanningPasses.RunsAreHistories | project/uyap_bot_MVP_full_v37/core/orchestrator_v14.py:33-64 | However many planning passes interleave their statements, with any plans and any other processes, the tables they leave are points of one such history |
| PlanningPasses.PassIsTheMethod | project/uyap_bot_MVP_full_v37/core/orchestrator_v14.py:33-64 | Each of those passes is an execution of the planning method: in the world made of what its statements found, the method leaves the table of its last statement after as many statements |
| Dispatcher.Scheduler.LoadQueue | project/uyap_bot_MVP_full_v37/core/scheduler.py:60-77 | The at most 500 queued jobs with the smallest raw keys, none twice, none better left out |
| Dispatcher.Sort | project/uyap_bot_MVP_full_v37/core/scheduler.py:77 | A permutation of the ids in key order |
| Dispatcher.Scheduler.DispatchAll | project/uyap_bot_MVP_full_v37/core/scheduler.py:79-94 | The quota loop with its break and continue, re-querying a changing table twice for each job, sends exactly the considered jobs that both their tests let through, in order, and counts them |
| Dispatcher.Scheduler.RunTick | project/uyap_bot_MVP_full_v37/core/scheduler.py:16-96 | One tick with other processes acting before every query: nothing at the global cap; otherwise planning, a whole sorted queue of the listed table, and exactly the ids sent appended to the broker |
| Dispatcher.QueueIsWhole | project/uyap_bot_MVP_full_v37/core/scheduler.py:60-77 | With at most 500 queued rows the considered queue is all of them |
| Dispatcher.DispatchExact | project/uyap_bot_MVP_full_v37/core/scheduler.py:79-94 | The i-th considered job is sent exactly when no global test up to its own found QUEUED + RUNNING at the cap and its own second test found its risk level below that level's cap, each in the table of that moment |
| Dispatcher.DispatchOrder | project/uyap_bot_MVP_full_v37/core/scheduler.py:63-94 | The ids sent are a subsequence of the queue sorted by effective priority, newest first on ties, none sent twice in a tick |
| Dispatcher.SlaOvertakes | project/uyap_bot_MVP_full_v37/core/scheduler.py:64-77 | An aged job is considered before every job not aged whose priority number exceeds its boosted one; jobs not aged keep the raw order, newer first on ties |
| Dispatcher.SentBound | project/uyap_bot_MVP_full_v37/core/scheduler.py:79-94 | Whatever other processes do, one tick sends fewer jobs than the global cap plus the jobs it sends that were no longer QUEUED or RUNNING at the global test of any one sent job |
| Dispatcher.SentLevelBound | project/uyap_bot_MVP_full_v37/core/scheduler.py:85-89 | The same for each risk level and its cap, at the level test of any sent job of the level |
| Dispatcher.FewerThanTheCap | project/uyap_bot_MVP_full_v37/core/scheduler.py:13-14 | If no row leaves QUEUED or RUNNING between the listing and the last test, a tick sends fewer jobs than the global cap: queued jobs are counted as running |
| Dispatcher.FewerThanTheLevelCap | project/uyap_bot_MVP_full_v37/core/scheduler.py:85-89 | Under the same condition it sends fewer jobs of each risk level than that level's cap |
| Dispatcher.CapOneSends | project/uyap_bot_MVP_full_v37/core/scheduler.py:85-89 | At a cap of 1 a listed job is sent exactly when the global tests let it and no row of its level at all is active at its own test; it must then itself have left QUEUED and RUNNING since it was listed |
| Dispatcher.HighImpactSends | project/uyap_bot_MVP_full_v37/core/queue_policy_loader.py:13-24 | With the built-in policy a listed `high_impact_write` job is sent exactly when the global tests let it and no such job is QUEUED or RUNNING at its test, so never while it is still queued |
| Dispatcher.LeavingIsSent | project/uyap_bot_MVP_full_v37/core/scheduler.py:77-94 | The exceptions happen, with other processes that change nothing but statuses: under any positive caps, a tick whose listed jobs all leave QUEUED (cancelled, say, or finished) before its tests sends every one of them |
| Dispatcher.WedgedForever | project/uyap_bot_MVP_full_v37/core/scheduler.py:25-27 | Once QUEUED + RUNNING has reached the global cap and no process moves a row out of those states, no number of later ticks sends anything; if nobody else acts the table does not change either |
| Dispatcher.PlanningWedges | project/uyap_bot_MVP_full_v37/core/scheduler.py:47-83 | A tick whose own planning fills the table to the global cap sends nothing, and no later tick does, as long as no process moves a row out of QUEUED or RUNNING |
| Dispatcher.EmptyTableCanWedge | project/uyap_bot_MVP_full_v37/core/scheduler.py:25-83 | For every positive cap a one-case plan wedges the scheduler at its first tick on an empty table |
| LevelWedge.LevelWedgedForever | project/uyap_bot_MVP_full_v37/core/scheduler.py:85-89 | Once a risk level has reached its cap and no process moves a row out of QUEUED or RUNNING, no later tick sends a job of that level, whatever the ticks plan and send of other levels; the level's count never falls |
| IdleSystem.WedgeKeepsItself | project/uyap_bot_MVP_full_v37/core/scheduler.py:25-94 | At the global cap, with an empty broker and idle processes, the workers do not help either: without an operator no job is ever dispatched or taken, no row changes, whatever is planned, and the count stays at the cap |
| IdleSystem.RowStaysExactly | project/uyap_bot_MVP_full_v37/core/scheduler.py:61-94 | Exactly: without an operator no run ever touches a given row of an idle system with an empty broker, if and only if the global cap is reached, the row is not QUEUED, its risk level is at its cap, or 500 QUEUED rows of such levels are listed before it; listing and tests may have been made at any earlier point of the run |
| IdleSystem.StuckExactly | project/uyap_bot_MVP_full_v37/core/scheduler.py:61-94 | For global caps up to the 500 rows of a listing: no row of such a system is ever touched if and only if the global cap is reached or the level of every QUEUED row is at its own cap |
| IdleTick.TickSendsExactly | project/uyap_bot_MVP_full_v37/core/scheduler.py:16-96 | The listing and tests those results speak of are the scheduler's: a tick with nothing to plan and nobody else acting can send a job if and only if at most 499 QUEUED rows are listed strictly before it, the global test passes and the test of its level passes |
| DegradedMode.ConfigStore.SetDegraded | project/uyap_bot_MVP_full_v37/core/degraded_mode.py:12-18 | After a set the flag row reads as the value set |
| DegradedMode.ReplaceLeavesNone | project/uyap_bot_v20_django_mvp/core/degraded_mode.py:22-23 | Replace-all leaves no occurrence of the on marker anywhere and creates none across the seams |
| DegradedMode.ReplaceKeepsCleanText | project/uyap_bot_v20_django_mvp/core/degraded_mode.py:22-23 | A text without the marker is not changed |
| DegradedMode.SetTextRefines | project/uyap_bot_v20_django_mvp/core/degraded_mode.py:17-25 | One set on any bundle text makes the marker read as the value set, and setting the value already read changes nothing |
| DegradedMode.TextRefinesBoolean | project/uyap_bot_v20_django_mvp/core/degraded_mode.py:7-25 | After any non-empty sequence of sets the text store reads as the last value set, if and only if a bundle is active or that value is off |
| DegradedMode.BundleTextStore.SetDegraded | project/uyap_bot_v20_django_mvp/core/degraded_mode.py:13-25 | The statement-by-statement rewrite stores what the text function says and reads back as set when a bundle is active |
| SelectorHealth.HealthMonitor.AutoToggle | project/uyap_bot_MVP_full_v37/core/selector_health.py:16-33 | Two counting queries, the reading of the flag and its storing, others acting before each: the flag is stored on only if the counts found at least 20 samples and a fifth failing, off only if at least 20 and less than a tenth, and then exactly if it is read different; otherwise it is not even read |
| Hysteresis.OppositeMeasuresApart | project/uyap_bot_MVP_full_v37/core/selector_health.py:16-33 | Between two measurements that decide opposite things, in either order, lie more than n/9 log events (n the samples of the one deciding on) and more than n/8 (n of the one deciding off), counting each good row logged between the two queries of the latter as 10/9 (10/8) events |
| Hysteresis.Dwell | project/uyap_bot_MVP_full_v37/core/selector_health.py:25-33 | Over every run of any number of workers: a check that began after the last change and changes the flag back was measured more than n/9 log events after it when it turns off, counting each good row between its own two queries as 10/9, and more than n/8 when it turns on, n at least 20 |
| Hysteresis.TogglesAreBounded | project/uyap_bot_MVP_full_v37/core/selector_health.py:25-33 | Over every run E log events allow at most 1 + (E + K)/3 changes of the flag plus two for each stale one, K being the good rows logged between the two queries of the checks that turned it off; a change is stale if its check began before the previous change |
| Hysteresis.TogglesAreRare | project/uyap_bot_MVP_full_v37/core/selector_health.py:25-33 | If no change is stale and no check that turns off saw a good row between its queries, E log events allow at most 1 + E/3 changes, whatever the log, the clock, the initial flag and the moments of the checks |
| Hysteresis.StaleChecksToggle | project/uyap_bot_MVP_full_v37/core/selector_health.py:25-33 | The bound is attained: for every n some run changes the flag 2n times with three log events, n - 1 of the changes stale |
| Hysteresis.SkewMisleads | project/uyap_bot_MVP_full_v37/core/selector_health.py:19-21 | Four good rows logged between the two queries make a check turn the flag off although the failing share is above the threshold in the log before and after |
| RuleRunner.DecisionStore.ApplySimpleActions | project/uyap_bot_MVP_full_v37/core/decision_engine.py:146-174 | One block creates its jobs, locks, flags and events in order; each counter grows by the rows created, `enqueued` by the entries listed |
| RuleRunner.DecisionStore.ApplyThen | project/uyap_bot_MVP_full_v37/core/decision_engine.py:176-221 | Computes, nested decisions and the top block take effect in order up to the first exception, if any; otherwise locks, flags, events and computed values are reported as many as created, and enqueued is at least the jobs created, with equality exactly when every entry of every applied block is a string |
| DecisionEngine.EnqueuedIsAnUpperBound | project/uyap_bot_MVP_full_v37/core/decision_engine.py:147-150 | Jobs created never exceed the entries counted, and are as many if and only if all entries of all applied blocks are strings |
| DecisionEngine.ContextStable | project/uyap_bot_MVP_full_v37/core/decision_engine.py:87-114 | No rule effect changes the context that later rules compute with |
| RuleRunner.DecisionStore.RunDecisionRules | project/uyap_bot_MVP_full_v37/core/decision_engine.py:223-250 | All matching rules are applied in order against the context of the beginning, up to the first exception, which leaves the rows created before it; without one `matched` is their number |
| RuleRunner.DecisionStore.ProcessSnapshot | project/uyap_bot_MVP_full_v37/core/recipe_runner.py:149-154 | The hook's nested loops do what the run function says, end at the first exception with the rows created so far, and run the rules at most 50 times for each fact type |
| Confluence.HookIsConfluent | project/uyap_bot_MVP_full_v37/core/recipe_runner.py:145-154 | Provided no type is Flag, Event or Computed, the hook raises for all iteration orders of the fact-type set or for none, and if it does not, all create the same jobs, locks and facts |
| OrderMatters.ConfluentExactly | project/uyap_bot_MVP_full_v37/core/recipe_runner.py:150-154 | The exact condition for compute modules that never raise: all orders of a list of distinct fact types create the same rows, for all rules, tables and such modules, if and only if there are fewer than two types or none of them is Flag, Event or Computed |
| OrderMatters.RaisingConfluentExactly | project/uyap_bot_MVP_full_v37/core/recipe_runner.py:150-154 | The exact condition for all modules, raising ones included: all orders raise alike and create the same rows if and only if there are fewer than two types |
| Compute.UnreadableRankRaises | project/uyap_bot_MVP_full_v37/core/compute_modules.py:8-15 | Modules do raise: a rank fact whose text is no number makes the risk score's reading of the context fail |
| Confluence.EffectsInAnyOrder | project/uyap_bot_MVP_full_v37/core/decision_engine.py:65-85 | Only the multiset of effects matters for the rows created |
| Extractors.FactTable.RunExtractors | project/uyap_bot_MVP_full_v37/core/extractor_engine.py:25-71 | The nested loops append exactly the flat list of (spec, row) cells with a valid spec and a passing filter, in spec-then-row order, and return its length; a spec that is not a dict raises and keeps the facts before it |
| Extractors.FactTable.EmitFactsFromRows | project/uyap_bot_MVP_full_v37/core/fact_extractor.py:6-19 | One fact for each mapped row, in order, with the joined key |
| Extractors.FmtKeepsShape | project/uyap_bot_MVP_full_v37/core/extractor_engine.py:54-66 | Formatting terminates at any nesting depth and keeps every key, length and non-text value |
| Compute.RiskBounds | project/uyap_bot_MVP_full_v37/core/compute_modules.py:20-56 | With the default weights no input scores above 94, none without missing rank information above 89, and none with confidence in [0, 1] and non-negative claims below 1, after rounding |
| Compute.RiskBoundsAreSharp | project/uyap_bot_MVP_full_v37/core/compute_modules.py:20-56 | All three bounds are attained |
| Compute.EngineRiskBounds | project/uyap_bot_MVP_full_v37/core/decision_engine.py:87-114 | Read from any context the rule engine builds, the score is at most 89, because that context never holds `missing_rank_info`, and at least 1 for confidence in [0, 1] and non-negative claims |
| Compute.RiskMonotone | project/uyap_bot_MVP_full_v37/core/compute_modules.py:20-56 | For any non-negative weights the rounded score grows with rank, claims against the same positive value, unknown counts and prior liens, and falls with confidence, all at once |
| Compute.ZeroConfidenceIsHalf | project/uyap_bot_MVP_full_v37/core/compute_modules.py:10 | A stated confidence of 0 is read as 0.5, so it scores strictly lower than every stated confidence in (0, 0.49] |
| Compute.StatedConfidenceAntitone | project/uyap_bot_MVP_full_v37/core/compute_modules.py:10-56 | On (0, 1] a higher stated confidence never scores higher, whatever else the context dict holds and for any non-negative weights |
| Compute.ZeroClaimsReadAsUnknown | project/uyap_bot_MVP_full_v37/core/decision_engine.py:101-103 | A claims estimate of 0 stored under its own key is scored as unknown (60), the same 0 stored under `value` as no claims (0) |
| Compute.NegativeClaimsUnbounded | project/uyap_bot_MVP_full_v37/core/compute_modules.py:21-25 | Negative claims are not clamped: the score has no lower bound |
| Compute.RecoveryOrdered | project/uyap_bot_MVP_full_v37/core/compute_modules.py:59-84 | Nets are never negative and ordered like the estimates; higher claims or costs never raise a net nor open the cost gate |
| AuditChain.PreimageSplits | project/uyap_bot_enterprise_layer_v38/enterprise/audit_chain.py:7-9 | The hashed text splits in one way only into a 64-character hash, an object text and an ISO time |
| AuditChain.ChainBinds | project/uyap_bot_enterprise_layer_v38/enterprise/audit_chain.py:7-9 | Equal final hashes of two chains make the shorter one the end of the longer one with the hash at that point as seed, or the proof returns two different texts with the same hash |
| AuditChain.EqualLengthChainsBind | project/uyap_bot_enterprise_layer_v38/enterprise/audit_chain.py:7-9 | Two equally long chains with the same final hash are the same, seed and all, or exhibit a collision |
| AuditChain.PrefixCanBeFolded | project/uyap_bot_enterprise_layer_v38/enterprise/audit_chain.py:7-9 | Equal length is needed: a first event folded into the seed gives a shorter chain with the same final hash |
| Quarantine.Job.RunJob | project/uyap_bot_v24_django_mvp/core/orchestrator_v16.py:40-72 | The row after a call, whether it re-raises, and the step numbers appended, which are 1, 2, … up to the step that raised |
| Quarantine.TerminatesWithinBudget | project/uyap_bot_v24_django_mvp/core/orchestrator_v16.py:40-72 | max(1, max_attempts - attempt) calls always end DONE or QUARANTINED, both absorbing, and fewer failing calls never do |
| Quarantine.CallsProgress | project/uyap_bot_v24_django_mvp/core/orchestrator_v16.py:61-72 | A job left FAILED has attempts left; a job not final after n calls has been counted up by n and every call raised |
| UiMap.ValidateUimap | project/uyap_bot_MVP_full_v37/core/uimap_validator.py:4-25 | The loops over sections, screens and keys return exactly the list of unresolved keys in order, ok exactly when it is empty |
| UiMap.ValidatorAgreesWithResolver | project/uyap_bot_MVP_full_v37/core/uimap_validator.py:8-25 | No issue if and only if the resolver succeeds for every menu-click key, non-empty row key and column key of every screen |
| UiMap.SelectorFromFirst | project/uyap_bot_MVP_full_v37/core/locator_resolver.py:19-24 | The resolver returns the binding of the first section that has the key, and fails exactly when none has |
| UiMap.ValidatedMapsNeverMiss | project/uyap_bot_MVP_full_v37/core/real_ui_worker_playwright.py:95-175 | On a map without issues, navigating any path and reading any screen's table resolve every key they use |
| UiMap.ApprovalIsLocal | project/uyap_bot_MVP_full_v37/core/api_views_recorder.py:123-126 | Binding a label keeps every other key's resolution; the label resolves to the new selector when its section is a known one and no earlier section binds it, and as before otherwise |
| UiMap.Recorder.Approve | project/uyap_bot_MVP_full_v37/core/api_views_recorder.py:94-134 | The request's choice of section and selector, its refusals, the recording row, which stays approved even without an active bundle or when the update raises, and the map it stores |
| UiMap.ApprovalsKeepResolution | project/uyap_bot_MVP_full_v37/core/api_views_recorder.py:123-126 | Over any sequence of approvals made one after another a key that resolves keeps resolving |
| UiMap.ApprovalsAddNoIssue | project/uyap_bot_MVP_full_v37/core/api_views_recorder.py:123-132 | No sequence of approvals made one after another adds a validator issue |
| UiMap.GuessedSectionIsKnown | project/uyap_bot_MVP_full_v37/core/api_views_recorder.py:13-20 | A guessed section is one of the four the resolver looks at |

## Left out

- The browser, screenshots, downloads and the mock UI worker: a UI call is an arbitrary good or bad answer or an exception; which call an action type maps to is not modelled.
- Django's ORM, REST routing, serialisation, settings and Celery's wiring: tables are sequences or maps, the broker a multiset; deletion of cases, debtors and jobs is not modelled.
- YAML and JSON parsing, SHA-256, `str.format`, `str()`, `split()` and number parsing: functions given as parameters.
- The regular expressions of rule conditions: evaluation of a parsed predicate or condition is an arbitrary function of its text and the value, so the results hold for any evaluator; the evaluators catch their own exceptions. Building the context and the two compute modules may raise, as any function of the context; why they do is modelled for the risk score's reading only.
- UiMap.Recorder.Approve: one request at a time; two overlapping requests each rewrite the whole bundle text, and the later write can lose the earlier one's binding.
- RuleRunner.DecisionStore.ProcessSnapshot: the hook runs alone; other read-only runs of the same case, which take no lock, may insert facts between its queries, and neither its rows nor the results on the order of fact types cover that.
- Administrators who edit lock rows, jobs or bundles directly; a transaction that fails between its statements.
- Within one tick the policy, the list of cases with their plans, and the debtors of a case are read once. In the interleaved protocol the scheduler is over-approximated: any existing job may be dispatched at any time, any number of times; only `IdleSystem` holds it to its listing and tests, under one policy and with priorities that do not change.
- The order among equal `created_at` values and the stability of Python's sort; the limit of 200 cases of a tick and its order are an arbitrary list of cases.
- `priority_boost` of the queue policy, which the dispatcher never reads.
- Binary floating point: rates, scores and nets are real numbers, rounded to nearest with ties to even.
- Key fields of an extractor that are lists or dicts, which raise; selectors and keys that are not strings.
- The `reason` and `updated_at` parts of the degraded-mode row, error messages, timestamps of jobs, and closing the UI worker.
- RecipeRunner.RunRecipe: the automatic flag toggle at its start is left to `SelectorHealth`, and the extractor and rule hook inside it is one effect that may raise; what the hook does is proved separately in `RuleRunner` and `Extractors`.
- Case health, action lists, selector scoring, weekly and PDF export, bundle promotion, pause endpoints, personal-data masks and job-leasing comments: one-branch members or stubs.
- Versions 13 to 36 of files also present in version 37, and all TypeScript and JavaScript.
