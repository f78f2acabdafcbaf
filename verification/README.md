# ORBenchLab, verified

ORBenchLab is a control plane for building and running benchmark tasks with agents.  This project models the parts of
it that carry unbounded promises, and proves them.

| module | what it models |
|---|---|
| `Redactor`, `Session` | the streaming secret redactor, the bounded capture of two pipes under one cap, and the live and sealed output files of an agent session |
| `FactoryGraph`, `FactoryPlan` | the plan compiler of the autonomous factory: dependency graph, output ownership, visibility, quarantine of partial outputs |
| `FactoryView` | what a stage sees in every reachable state of `FactoryRun`, and which stages can complete at all |
| `FactoryRun` | the resumable factory as a transition system in which the controller may die between any two writes, and the controller itself as a class whose every write is a step of that system |
| `Wilson`, `Discrimination`, `Difficulty` | Wilson intervals over the reals, the separation of models, and the decision of a difficulty matrix |
| `Reservation`, `Launcher` | crash-safe reservation of Harbor jobs by any number of processes that share directories without a lock, as a transition system, and one process as a class whose every write is a step of it |
| `Supervisor` | the provider budget of the factory supervisor over invocations that may die before any write or launch |
| `Ledger`, `ResumeConfig`, `ExecutionPhase`, `Executions` | the integrity ledger with its printer, parser and verifier, the canonical form and binding of a resumed job config, the phases of an execution on top of the ledger, and any sequence of executions |
| `Ordering`, `Rounding`, `Paths`, `Options` | sorting of strings, `round(x, 6)`, relative POSIX paths |

Conventions.  Objects whose methods update fields are classes; loops are methods proved against functions, about which
the lemmas speak.  A crash is a `power` that runs out before a write, or a step of a transition system.  Digests are
functions or injective constructors; where a lemma needs two digests to differ it says so.  Floating point is real
arithmetic; square roots are parameters, known only to be non-negative roots.  What the environment decides (sessions,
workers, upstream processes, other callers, schedules) is a parameter over which every lemma quantifies.

Results that differ from what the documentation of the code suggests:

- Recovery after a crash is not atomic for a failure with `retry_safe` false and attempts left: the uninterrupted
  controller quarantines, the recovered one retries (`FactoryRun.CrashAfterReceipt`, with a run that reaches the case).
- The plan compiler does not keep outputs out of `factory-input`.  A stage can complete if and only if its outputs lie
  outside (`FactoryView.CompletesOutsideOnly`), so no run of such a plan ever completes
  (`FactoryView.InsidePlanNeverCompletes`), and every view that a reachable state asks for is accepted
  (`FactoryView.ReachableViewsAreAccepted`).
- Each reservation records its liability rounded to six places, so the recorded figures can exceed the maximum of the
  receipt.  `Reservation.RecordedLiability` has the exact condition and `Reservation.RecordedCanExceedReceipt` a run.
- The ledger round trip fails for line breaks in paths: unless the run is running, exactly for a covered path with one
  (`Ledger.RoundTripUnlessRunning`, `Ledger.LineBreakExample`); while it is running, exactly as
  `Ledger.RoundTripExactly` says, which for a file of the job may also be accepted (`Ledger.ChangingBreakIsAccepted`).
- The writes of manifest and ledger are two: a crash between them leaves a workspace that the verifier refuses, at the
  start (`ExecutionPhase.HalfStartedIsRefused`) and at the end (`ExecutionPhase.HalfEndedIsRefused`) of an execution.  A
  third place is a completed run that is ingested again: a crash before its ledger leaves a refused workspace exactly if
  the ingest changed a sealed file (`ExecutionPhase.ReingestedVerdict`).  `ExecutionPhase.Execution.Execute` gives the
  exact `power` of each.
- An attempt id is used twice if and only if, at some launch, the folder of an earlier attempt is missing while those of
  all lower numbers are there (`Executions.ExecuteAll`); `Executions.FolderTakenAway` reaches this.
- A secret can occur in redacted text, for some other secrets and some text, if and only if it can be laid over the
  redaction marker (`Redactor.LeaksExactly`).

## Model

| member | source | states |
|---|---|---|
| `Redactor.StreamingSecretRedactor.constructor` | src/orbenchlab/agent_sessions.py:310-316 | keeps the distinct values of at least eight bytes, longest first; `maximum` is the length of the longest, 1 if there is none |
| `Redactor.LongestFirst` | src/orbenchlab/agent_sessions.py:311-313 | every value exactly once, in order of falling length |
| `Redactor.StreamingSecretRedactor.FirstMatch` | src/orbenchlab/agent_sessions.py:329-332 | the first secret that matches is the longest that matches |
| `Redactor.StreamingSecretRedactor.Held` | src/orbenchlab/agent_sessions.py:320-325 | before the withheld suffix no secret can be completed or lengthened by later bytes |
| `Redactor.StreamingSecretRedactor.Scan` | src/orbenchlab/agent_sessions.py:329-339 | one step of the scan yields what redacting the rest yields, for every text that may still follow |
| `Redactor.StreamingSecretRedactor.Feed` | src/orbenchlab/agent_sessions.py:318-359 | after any sequence of calls: bytes are withheld only in a suffix that starts a secret and fewer than the longest secret; after the final call everything written is the one-shot redaction of everything fed, and the flag says whether anything was replaced |
| `Redactor.StreamingSecretRedactor.FlushPending` | src/orbenchlab/agent_sessions.py:341-358 | the second loop redacts exactly what is still pending |
| `Redactor.StreamingSecretRedactor.EmittedIsFinal` | src/orbenchlab/agent_sessions.py:318-359 | what has been written is a prefix of the one-shot redaction of every possible continuation, and a raised flag stays right |
| `Redactor.RedactBytes` | src/orbenchlab/agent_sessions.py:362-364 | the whole value redacted in one call, and the flag |
| `Redactor.RedactInChunks` | src/orbenchlab/agent_sessions.py:318-364 | every way of cutting a text into chunks, empty ones included, gives the output and flag of the one-shot call |
| `Redactor.LeakTouchesMarker` | src/orbenchlab/agent_sessions.py:318-364 | wherever a secret occurs in redacted text the occurrence touches an inserted marker |
| `Redactor.LeakFitsMarker` | src/orbenchlab/agent_sessions.py:318-364 | a secret that occurs in redacted text agrees with the marker wherever the two overlap |
| `Redactor.NoSecretSurvives` | src/orbenchlab/agent_sessions.py:318-364 | if no secret can be laid over the marker, redacted text contains no secret |
| `Redactor.NoSharedByteNoSecret` | src/orbenchlab/agent_sessions.py:318-364 | in particular if no secret shares a byte with the marker |
| `Redactor.PartOfMarkerLeaks` | src/orbenchlab/agent_sessions.py:318-364 | a secret that is part of the marker occurs in every redacted text in which something was replaced |
| `Redactor.ReplacedBetween` | src/orbenchlab/agent_sessions.py:326-339 | text that is copied, a secret that is replaced and the rest redact to the text, the marker and the redacted rest |
| `Redactor.FittingLeaks` | src/orbenchlab/agent_sessions.py:318-364 | for every secret that can be laid over the marker, inside it, across an end or around it, a second secret and a text whose redaction contains it |
| `Redactor.LeaksExactly` | src/orbenchlab/agent_sessions.py:318-364 | a secret of at least eight bytes occurs in the redaction of some text for some set of secrets if and only if it can be laid over the marker |
| `Session.LiveFiles.WriteLive` | src/orbenchlab/agent_sessions.py:656-659 | a chunk reaches only the redactor of its own stream |
| `Session.LiveFiles.Flush` | src/orbenchlab/agent_sessions.py:670-672 | after the final feed each live file holds the one-shot redaction of its stream |
| `Session.ReadReady` | src/orbenchlab/agent_sessions.py:425-446 | one read keeps the captured bytes a prefix of what the child wrote, within the room that is left, and hands the callback exactly the captured bytes of that stream |
| `Session.HandleReadable` | src/orbenchlab/agent_sessions.py:425-446 | one readable pipe keeps both captures prefixes, counts the polls, and closes at the end of the stream; over the cap the captures fill it exactly |
| `Session.HandleEvent` | src/orbenchlab/agent_sessions.py:413-448 | one ready stream, stdin included, keeps both captures prefixes within the shared cap; only a read over the cap ends the loop |
| `Session.BoundedProcess` | src/orbenchlab/agent_sessions.py:398-465 | for every interleaving of reads: both outputs are prefixes of what the child wrote, together within the cap, the callback saw exactly them, and no failure means both are whole and the exit code is 0; over the cap, the captured bytes fill it exactly; a wall-clock timeout takes a deadline, a wait that times out, input not served or a pipe not polled often enough; a child within the cap whose pipes are polled and whose input is served is captured whole |
| `Session.RecordSession` | src/orbenchlab/agent_sessions.py:647-684 | the live files hold exactly what the sealed files get, which is the redaction of the bounded prefixes; a completed session sealed the whole output |
| `FactoryGraph.AssertAcyclic` | src/orbenchlab/agentic_factory.py:294-307 | terminates and accepts exactly the dependency maps whose names are known and which have a topological order, equivalently those in which no stage depends on itself through any path; otherwise it names the unknown ones |
| `FactoryGraph.Resolve` | src/orbenchlab/agentic_factory.py:300-307 | the loop finds an order or leaves a stage that depends on itself |
| `FactoryGraph.ResolveReady` | src/orbenchlab/agentic_factory.py:305-307 | moving the ready stages extends a topological order of what is resolved |
| `FactoryGraph.Stuck` | src/orbenchlab/agentic_factory.py:303-304 | if every remaining stage waits for a remaining one there is a cycle |
| `FactoryGraph.OrderedMeansAcyclic` | src/orbenchlab/agentic_factory.py:294-307 | a topological order excludes self-dependency through any path |
| `FactoryGraph.StageAncestors` | src/orbenchlab/agentic_factory.py:837-847 | terminates with the transitive closure of `depends_on`, which for an accepted plan does not hold the stage itself |
| `FactoryPlan.CompilePlan` | src/orbenchlab/agentic_factory.py:310-359 | accepts exactly the valid plans: normal stages, unique ids, exclusive and separate outputs, known and acyclic dependencies, rounded liability at most 100 |
| `FactoryPlan.FindOverlap` | src/orbenchlab/agentic_factory.py:345-351 | the forward scan over the sorted paths finds an overlap exactly when some path contains another |
| `FactoryPlan.LaterOnly` | src/orbenchlab/agentic_factory.py:345-351 | in sorted order a path can only be contained in an earlier one, so looking at later paths only is enough |
| `FactoryPlan.OutputOwners` | src/orbenchlab/agentic_factory.py:336-344 | reports a shared path exactly when some output has two owners, and else maps every output to its owner |
| `FactoryPlan.VisibilityPaths` | src/orbenchlab/agentic_factory.py:850-873 | the view of a stage: the factory input and the outputs of completed ancestors, hidden from it those of all other completed stages; refused for an invalid snapshot |
| `FactoryPlan.ReadyStageSeesAncestors` | src/orbenchlab/agentic_factory.py:822-834 | for a snapshot closed under dependencies a ready stage sees, beside the factory input, the outputs of exactly its ancestors, and all other completed outputs are hidden; `FactoryView.ReadyInRun` shows that every reachable snapshot is one |
| `FactoryPlan.CheckBindings` | src/orbenchlab/agent_sessions.py:184-195 | accepts exactly when the visible and hidden paths are each distinct, disjoint and none is a parent of the other |
| `FactoryPlan.VisibilityAccepted` | src/orbenchlab/agentic_factory.py:868-873 | for an arbitrary snapshot of a compiled plan the view is accepted exactly when no visible output is the factory input and no hidden output is it or lies inside it |
| `FactoryPlan.OutputsApart` | src/orbenchlab/agentic_factory.py:345-351 | outputs of different stages of a compiled plan never contain one another, component by component |
| `FactoryPlan.QuarantineFailedOutputs` | src/orbenchlab/agentic_factory.py:1144-1211 | exactly the regular files under the stage outputs leave the workspace; they are archived unless their output holds a credential |
| `FactoryPlan.OtherStagesKeepTheirFiles` | src/orbenchlab/agentic_factory.py:1153-1158 | in a compiled plan nothing owned by another stage is moved |
| `FactoryPlan.StageApart` | src/orbenchlab/agentic_factory.py:336-351 | the outputs of one stage of a compiled plan never contain one another |
| `FactoryPlan.InsidePlanCompiles` | src/orbenchlab/agentic_factory.py:336-351 | a plan whose first stage writes inside the factory input compiles |
| `FactoryView.ReadyInRun` | src/orbenchlab/agentic_factory.py:822-834 | in every reachable state of a compiled plan the completed stages are closed under dependencies and hold all ancestors of a ready stage |
| `FactoryView.ReachableViewIsExact` | src/orbenchlab/agentic_factory.py:850-873 | so in every reachable state a ready stage sees the outputs of exactly its ancestors and has those of every other completed stage hidden |
| `FactoryView.CompletesOutsideOnly` | src/orbenchlab/agentic_factory.py:1118-1141 | a stage can complete, the input directory unchanged and every output changed, if and only if none of its outputs is that directory or lies inside it |
| `FactoryView.AlwaysEarned` | src/orbenchlab/agentic_factory.py:1313-1472 | over every run with crashes, each receipt of a completed attempt belongs to a stage that can complete |
| `FactoryView.CompletedIsOutside` | src/orbenchlab/agentic_factory.py:1396-1410 | in every reachable state the outputs of completed stages lie outside the input directory |
| `FactoryView.ReachableViewsAreAccepted` | src/orbenchlab/agentic_factory.py:850-873 | so in every reachable state no view of a ready stage is refused for its paths |
| `FactoryView.InsideNeverCompletes` | src/orbenchlab/agentic_factory.py:1396-1410 | a stage with an output inside the input directory never completes, and neither does any run of its plan |
| `FactoryView.InsidePlanNeverCompletes` | src/orbenchlab/agentic_factory.py:336-359 | the compiled plan above, with `factory-input` as its input directory, never completes |
| `FactoryRun.ReachableSafe` | src/orbenchlab/agentic_factory.py:677-742 | in every reachable state, crashes between any two writes included, the persisted run satisfies the loader, the completed stages are closed under dependencies, at most one stage runs, and the run is quarantined exactly when one stage failed |
| `FactoryRun.NextInv` | src/orbenchlab/agentic_factory.py:1313-1511 | every step of the controller, every crash and every restart keeps the invariant |
| `FactoryRun.RunInv` | src/orbenchlab/agentic_factory.py:1270-1511 | the invariant holds along every run with any number of crashes |
| `FactoryRun.RestartRecovers` | src/orbenchlab/agentic_factory.py:745-798 | a restart is never refused by the checks of the persisted run and the attempt receipts, and leads to one state |
| `FactoryRun.RecoversUniquely` | src/orbenchlab/agentic_factory.py:755-798 | recovery gives the same run in whatever order the stages are visited |
| `FactoryRun.CrashBeforeReceipt` | src/orbenchlab/agentic_factory.py:762-767 | a crash before the receipt is written recovers exactly the state before the attempt |
| `FactoryRun.CrashAfterReceipt` | src/orbenchlab/agentic_factory.py:784-794 | a crash after the receipt recovers exactly the state that the uninterrupted controller writes, if and only if the attempt completed, or failed with `retry_safe`, or was the last one |
| `FactoryRun.UnsafeFailureIsReachable` | src/orbenchlab/agentic_factory.py:1483-1494 | the remaining case does occur: a run that reaches an unsafe first failure of a stage with two attempts |
| `FactoryRun.Progress` | src/orbenchlab/agentic_factory.py:822-834 | an active run with nothing running has a ready stage or is complete |
| `FactoryRun.ReadyOrDone` | src/orbenchlab/agentic_factory.py:822-834 | if every stage is pending or completed, one is ready or all are completed |
| `FactoryRun.CommitsBounded` | src/orbenchlab/agentic_factory.py:1473-1494 | over any crashes and restarts every recorded attempt stays in the persisted run |
| `FactoryRun.AttemptsWithinPlan` | src/orbenchlab/agentic_factory.py:352-359 | the recorded attempts of all controllers never exceed the sum of `max_attempts`, and their budgets never exceed the liability of the plan |
| `FactoryRun.SpendingBounded` | src/orbenchlab/agentic_factory.py:354-357 | in every state the budgets of the recorded attempts stay within the liability before rounding |
| `FactoryRun.CompiledPlan` | src/orbenchlab/agentic_factory.py:310-377 | a compiled plan meets all assumptions of the run lemmas, with the liability that the compiler bounds |
| `FactoryRun.FactoryController.ReconcileOrphanAttempts` | src/orbenchlab/agentic_factory.py:745-798 | the loop computes the recovery function of the system |
| `FactoryRun.FactoryController.Initialise` | src/orbenchlab/agentic_factory.py:801-819 | starting is one step of the system: a new run, or the recovered one |
| `FactoryRun.FactoryController.BeginStage` | src/orbenchlab/agentic_factory.py:1317-1326 | the first write of an attempt is one step of the system |
| `FactoryRun.FactoryController.WriteAttempt` | src/orbenchlab/agentic_factory.py:1338-1472 | the receipt write is one step of the system, whatever the session came to; the attempt counts as completed exactly if the session did, the input directory is unchanged and every output was written |
| `FactoryRun.FactoryController.CommitAttempt` | src/orbenchlab/agentic_factory.py:1473-1495 | the run write is one step of the system |
| `FactoryRun.FactoryController.RunAttempt` | src/orbenchlab/agentic_factory.py:1313-1498 | each iteration tries the first ready stage, records what its session came to, and lowers the attempts that remain by one |
| `FactoryRun.FactoryController.RunLoop` | src/orbenchlab/agentic_factory.py:1313-1498 | the loop ends within the attempts that remain; without a checkpoint nothing is ready any more |
| `FactoryRun.FactoryController.Complete` | src/orbenchlab/agentic_factory.py:1499-1511 | a run with nothing ready ends complete or quarantined |
| `FactoryRun.FactoryController.RunFactory` | src/orbenchlab/agentic_factory.py:1270-1511 | without a checkpoint a controller that is not interrupted ends with a complete or a quarantined run |
| `Wilson.IntervalMeaning` | src/orbenchlab/volc_rollout.py:364-372 | the interval lies in [0, 1], brackets the observed rate, and holds exactly the rates x with (s/n - x)^2 <= z^2 x (1 - x) / n |
| `Wilson.ClampsAreIdle` | src/orbenchlab/volc_rollout.py:372 | the clamps to 0 and 1 never change an endpoint |
| `Wilson.IntervalIsScoreTest` | src/orbenchlab/volc_rollout.py:364-372 | the ideal interval is the solution set of the score test |
| `Wilson.IntervalMonotone` | src/orbenchlab/volc_rollout.py:364-372 | neither endpoint falls when the successes rise |
| `Wilson.IntervalMirror` | src/orbenchlab/volc_rollout.py:364-372 | upper(s) = 1 - lower(n - s) |
| `Wilson.SeparationIsStrict` | src/orbenchlab/volc_rollout.py:364-372 | intervals that do not meet come from strictly different counts |
| `Discrimination.GroupTrials` | src/orbenchlab/volc_rollout.py:302-334 | one entry for exactly the arms that occur, which counts outcomes, passes, failure modes and infra errors of its rows |
| `Discrimination.SummarizeTrials` | src/orbenchlab/volc_rollout.py:302-361 | an arm for every model and hint that occurs, which counts the outcomes of its rows and has its rate over the outcomes only |
| `Discrimination.InfraMeansMissing` | src/orbenchlab/volc_rollout.py:318-334 | an arm without infra errors counts all its rows |
| `Discrimination.BuildCells` | src/orbenchlab/volc_rollout.py:384-408 | the cells of the models in order; an error as soon as one interval has no meaning |
| `Discrimination.DiscriminationSummary` | src/orbenchlab/volc_rollout.py:375-443 | raises only if the interval of some model has no meaning; rectangular exactly when every model has a complete arm of that many outcomes; promising exactly for a rectangle of at least five repetitions in which the intervals of some two models are apart, and then the best model has strictly more successes than the baseline, all others lying between |
| `Discrimination.RectangleOfModels` | src/orbenchlab/volc_rollout.py:407-409 | the check on the list of cells is the statement about the models |
| `Discrimination.PairOfModels` | src/orbenchlab/volc_rollout.py:425-443 | two cells are separated exactly when two models are |
| `Discrimination.CellCountsRows` | src/orbenchlab/volc_rollout.py:384-405 | a cell holds the outcomes and the passes of the raw unassisted rows of its model, recovered from the rate |
| `Discrimination.PromisingMeansMorePasses` | src/orbenchlab/volc_rollout.py:302-443 | from raw rows to verdict: promising means that every row of every model is an outcome, each model has as many as there are repetitions, and the best one passed strictly more of them than the baseline |
| `Discrimination.GreedyIsComplete` | src/orbenchlab/volc_rollout.py:425-443 | best against worst is separated exactly when some two models are |
| `Discrimination.PromisingMeans` | src/orbenchlab/volc_rollout.py:425-443 | promising implies at least five repetitions, a rectangle, and strictly more successes for the best model despite the rounding, all others lying between |
| `Discrimination.RoundedSeparationIsStrict` | src/orbenchlab/volc_rollout.py:405-428 | six-place rounding cannot make intervals of equal counts separate |
| `Discrimination.Extremes` | src/orbenchlab/volc_rollout.py:425-426 | the first sorted cell is before every cell and the last is after every cell |
| `Discrimination.OrderOfModels` | src/orbenchlab/volc_rollout.py:384-443 | neither the verdict nor the gap depends on the order in which the models are listed |
| `Discrimination.CellsAreMade` | src/orbenchlab/volc_rollout.py:385-408 | the cells of a rectangle were computed from their counts |
| `Discrimination.Wilson95Qualifies` | src/orbenchlab/volc_rollout.py:364-372 | the Wilson interval has what the comparison needs |
| `Discrimination.ComparisonIsComplete` | src/orbenchlab/volc_rollout.py:364-443 | end to end with the Wilson interval: promising exactly when the arms form a rectangle of at least five repetitions with some separated pair |
| `Difficulty.RectangleIsExact` | src/orbenchlab/difficulty_matrix.py:366-378 | the count together with the set of keys means that every model has every attempt exactly once |
| `Difficulty.ExactTries` | src/orbenchlab/difficulty_matrix.py:379-390 | each model is tried as often as there are repetitions |
| `Difficulty.VariantRows` | src/orbenchlab/difficulty_matrix.py:284-401 | the rows exist exactly when every variant is acceptable, with its control and digest bindings as one flag, and all share one contract |
| `Difficulty.DropMeansSpan` | src/orbenchlab/difficulty_matrix.py:431-438 | in a nonincreasing list some adjacent step drops exactly when the last value is below the first |
| `Difficulty.PromisingIsCounts` | src/orbenchlab/difficulty_matrix.py:431-458 | the decision in terms of counts, in both directions |
| `Difficulty.SeparatedMeansMore` | src/orbenchlab/difficulty_matrix.py:439-451 | at a separated level the frontier model passes strictly more trials |
| `Difficulty.PromisingReceipt` | src/orbenchlab/difficulty_matrix.py:366-458 | a promising receipt: exact rectangles, no model rises between any two levels, the weak model drops from the first to the last, and at some level the frontier model passes strictly more |
| `Reservation.RunInv` | src/orbenchlab/harbor_model_matrix.py:211-269 | the invariant of any number of processes that scan, create, launch and crash |
| `Reservation.GrantsAreExclusive` | src/orbenchlab/harbor_model_matrix.py:255-269 | no two callers get the same job name, every number is in 1..cap, and at most models times cap names are ever granted |
| `Reservation.LaunchesNeverExceedCap` | src/orbenchlab/harbor_model_matrix.py:348-409 | a job is launched only after its reservation, at most once, and at most cap times per model |
| `Reservation.NothingIsRefunded` | src/orbenchlab/harbor_model_matrix.py:228-269 | reservations, grants and launches are never taken back, also by a crash |
| `Reservation.LostRaceRaisesMaximum` | src/orbenchlab/harbor_model_matrix.py:231-268 | each lost race strictly raises what the next scan finds, so a caller loses at most cap races |
| `Reservation.NumbersHaveNoGaps` | src/orbenchlab/harbor_model_matrix.py:239 | the numbers of a model are handed out without gaps |
| `Reservation.ReservedLiabilityBounded` | src/orbenchlab/harbor_model_matrix.py:462-465 | reserved liability is at most models times repetitions times budget times cap, before rounding |
| `Reservation.RecordedLiability` | src/orbenchlab/harbor_model_matrix.py:255 | what n reservations record keeps within the rounded maximum of the receipt if and only if it exceeds the exact maximum by less than half a millionth, or by exactly half and is even |
| `Reservation.RoundedDownIsWithin` | src/orbenchlab/harbor_model_matrix.py:255 | in particular when the rounding of one figure does not go up, which is also exactly when the records keep below the exact liability |
| `Reservation.RunRecordsWithinReceipt` | src/orbenchlab/harbor_model_matrix.py:211-269 | the same condition for the grants of every state of every run, against models times cap; it holds in every run if it holds when every name is granted |
| `Reservation.RecordedCanExceedReceipt` | src/orbenchlab/harbor_model_matrix.py:255 | a run that grants both names of one model, and a budget for which the two recorded figures exceed the maximum that the receipt states |
| `Launcher.HighestNumber` | src/orbenchlab/harbor_model_matrix.py:230-239 | the largest number of the model in the listings, 0 if there is none |
| `Launcher.ValidJob` | src/orbenchlab/harbor_model_matrix.py:272-287 | the latest job of the model that validates, if any does |
| `Launcher.MatrixLauncher.ListNumbers` | src/orbenchlab/harbor_model_matrix.py:230-239 | a scan during which others go on sees everything that was reserved when it began and nothing that is not there when it ends |
| `Launcher.MatrixLauncher.CreateExclusive` | src/orbenchlab/harbor_model_matrix.py:258-269 | one atomic step: the name is new and granted to this caller, or the race is lost |
| `Launcher.MatrixLauncher.TryOnce` | src/orbenchlab/harbor_model_matrix.py:229-269 | a round wins a new name within the cap, loses a race and raises the number it lost, or finds the cap reached |
| `Launcher.MatrixLauncher.ReserveJob` | src/orbenchlab/harbor_model_matrix.py:211-269 | ends under any schedule of the other processes; the caller holds a new name within its cap, or some number of its model has reached the cap; every write is a step of the system |
| `Launcher.MatrixLauncher.LaunchMatrix` | src/orbenchlab/harbor_model_matrix.py:347-443 | one validated job for each model, in order, each reserved before it was launched, and an old one only if its reservation binds these inputs; every write is a step of the system, so all bounds of module Reservation hold |
| `Supervisor.ProviderBudgetStatus` | src/orbenchlab/factory_supervisor.py:342-369 | the loop debits every recorded attempt of both provider stages |
| `Supervisor.BudgetConserved` | src/orbenchlab/factory_supervisor.py:284-369 | within the attempt cap debited plus remaining is the total, for requests and tokens: the clipping never acts |
| `Supervisor.BudgetSpent` | src/orbenchlab/factory_supervisor.py:333-338 | nothing remains exactly when both stages have used all their attempts |
| `Supervisor.Supervisor.constructor` | src/orbenchlab/factory_supervisor.py:466-472 | a new output directory has no state, no receipts and no launches |
| `Supervisor.Supervisor.Record` | src/orbenchlab/factory_supervisor.py:474-480 | the stage entry and the debited budget are written together |
| `Supervisor.Supervisor.Reuse` | src/orbenchlab/factory_supervisor.py:482-501 | raises exactly when the receipt is not the recorded one, and else keeps the attempts |
| `Supervisor.Supervisor.ReserveAttempt` | src/orbenchlab/factory_supervisor.py:508-539 | one more running attempt with a new id is on disk before anything is launched; raises exactly at the cap |
| `Supervisor.Supervisor.CompleteAttempt` | src/orbenchlab/factory_supervisor.py:541-560 | only the last, running attempt with this id takes a result; all others stay as they are |
| `Supervisor.Supervisor.WorkerStage` | src/orbenchlab/factory_supervisor.py:586-721 | the whole effect of a worker stage on stages and receipts; it never raises, and nothing on record is taken back |
| `Supervisor.Supervisor.SpendAttempt` | src/orbenchlab/factory_supervisor.py:594-630 | reserve, launch, let the worker write, complete |
| `Supervisor.Supervisor.FinishRun` | src/orbenchlab/factory_supervisor.py:730-743 | the finalizer is asked only with all five receipts, and its error is the only one; the verdict is the last write |
| `Supervisor.Supervisor.Invoke` | src/orbenchlab/factory_supervisor.py:399-743 | an invocation raises at once, and changes nothing, for invalid bounds or foreign state, and later only if the task check, the cards or the finalizer do; wherever it dies it keeps the invariant; if it lives its stages in order give the state and verdict on disk |
| `Supervisor.Supervisor.RunMore` | src/orbenchlab/factory_supervisor.py:372-743 | over any further invocations, crashes and orphaned workers no receipt changes, no attempt is dropped or renumbered, no finished one is reopened, and the debited budget never falls |
| `Supervisor.RunAll` | src/orbenchlab/factory_supervisor.py:372-743 | over any sequence of invocations, crashes and orphaned workers: launches <= recorded attempts <= cap for every stage, and the persisted budget is conserved |
| `Supervisor.BudgetNeverExceeded` | src/orbenchlab/factory_supervisor.py:342-369 | whatever was started was debited, no stage more often than the cap, and the books balance |
| `Supervisor.ReceiptsPassedTheGates` | src/orbenchlab/factory_supervisor.py:583-643 | a full set of receipts means that the static and the semantic gate were passed |
| `Ledger.WriteIntegrity` | src/orbenchlab/workflow.py:193-210 | refuses exactly for a symlink, and else writes one row for every covered file |
| `Ledger.ParseLedger` | src/orbenchlab/workflow.py:229-242 | the entries of the lines, or an error for a bad row, an unsafe path or a duplicate |
| `Ledger.VerifyIntegrity` | src/orbenchlab/workflow.py:213-369 | accepts exactly when the ledger parses, the manifest, binding and attempt evidence are in order and the files agree outside what may change |
| `Ledger.WrittenReadsBack` | src/orbenchlab/workflow.py:193-242 | what is written for a tree reads back as the digests of its covered files |
| `Ledger.SplitRowInverts` | src/orbenchlab/workflow.py:206-233 | a row splits back into its digest and path, also when the path has blanks |
| `Ledger.LinesOfText` | src/orbenchlab/workflow.py:208-229 | rows without line breaks are read back one by one |
| `Ledger.AcceptsExactlyUnchanged` | src/orbenchlab/workflow.py:193-369 | against a ledger written for an earlier tree, a tree is accepted if and only if it has no symlink, its manifest and binding are in order, and every covered file outside what its manifest lets change is there unchanged, and no other |
| `Ledger.RoundTrip` | src/orbenchlab/workflow.py:193-369 | what the writer leaves is accepted exactly when manifest and binding are in order |
| `Ledger.RoundTripExactly` | src/orbenchlab/workflow.py:193-369 | where manifest and binding are in order, what the writer leaves is accepted exactly when no path that may not change has a line break and the rows that the line breaks of other paths give rise to can be read and hold; where none of those has one, exactly when no covered path has one |
| `Ledger.RoundTripUnlessRunning` | src/orbenchlab/workflow.py:193-369 | unless the run is running, exactly when no covered path has a line break |
| `Ledger.ChangingBreakIsAccepted` | src/orbenchlab/workflow.py:193-369 | while it is running, a tree with a line feed behind the name of a file that may change is accepted |
| `Ledger.JobFileMayBreak` | src/orbenchlab/workflow.py:300-331 | every file of the running job is such a file |
| `Ledger.LineBreakIsRefused` | src/orbenchlab/workflow.py:229-242 | no accepted tree has a covered, immutable path with a line break |
| `Ledger.BrokenRowIsRefused` | src/orbenchlab/workflow.py:204-233 | in every state, also a running one, a path whose row breaks into a piece that is neither blank nor a row makes the ledger unreadable |
| `Ledger.LineBreakExample` | src/orbenchlab/workflow.py:193-242 | a workspace in order but for one file name with a line break: its own ledger is refused |
| `Ledger.SameFilesSameVerdict` | src/orbenchlab/workflow.py:193-369 | folders do not matter to the verifier |
| `Ledger.OtherAttemptsStaySealed` | src/orbenchlab/workflow.py:315-331 | while an attempt runs everything that other attempts left under `logs/` stays sealed |
| `ResumeConfig.CanonicalResumeConfig` | src/orbenchlab/workflow.py:620-638 | the two lists are sorted in place on a copy; None for every policy that is refused |
| `ResumeConfig.CanonicalIs` | src/orbenchlab/workflow.py:620-638 | a canonical form exists exactly for valid configs and changes nothing but the order of the two lists |
| `ResumeConfig.CanonicalTwice` | src/orbenchlab/workflow.py:620-638 | canonicalising is idempotent |
| `ResumeConfig.CanonicalEqual` | src/orbenchlab/workflow.py:620-649 | two configs have the same canonical form if and only if they differ at most in the order of the two exception lists |
| `ResumeConfig.BindingFile.BindResumeConfig` | src/orbenchlab/workflow.py:1106-1121 | raises exactly for a config without canonical form or a binding that does not match; writes a new binding when there is none or an old one is upgraded |
| `ResumeConfig.BoundAcceptsExactly` | src/orbenchlab/workflow.py:652-686 | under a version 3 binding a call is accepted exactly for the same run and a config that differs at most in the order of the two lists |
| `ResumeConfig.LegacyAcceptsExactly` | src/orbenchlab/workflow.py:668-671 | under a version 2 binding a call is accepted exactly for the same run and the very same bytes |
| `ResumeConfig.BindingLasts` | src/orbenchlab/workflow.py:1106-1121 | what an accepted call binds stays bound, the version 2 upgrade included |
| `ResumeConfig.BoundForever` | src/orbenchlab/workflow.py:620-686 | over any sequence of calls, from any binding file, all accepted calls agree on the run and on the canonical config |
| `ExecutionPhase.FreeNumber` | src/orbenchlab/workflow.py:1130-1138 | the first number, from the start, whose folder is not there; the loop ends |
| `ExecutionPhase.AttemptIdValue` | src/orbenchlab/workflow.py:1132 | attempt ids have the form that the verifier asks for and tell the numbers apart |
| `ExecutionPhase.Execution.AllocateAttempt` | src/orbenchlab/workflow.py:1124-1147 | a new folder, and nothing else changes that the manifest or a symlink check could see |
| `ExecutionPhase.Execution.Seal` | src/orbenchlab/workflow.py:1741-1745 | manifest, then ledger: afterwards the verifier accepts, exactly unless a path has a line break or the binding of a running job no longer holds; it raises only for a symlink |
| `ExecutionPhase.SealIsAccepted` | src/orbenchlab/workflow.py:193-369 | the writer and the verifier agree on every state that the phase machine writes |
| `ExecutionPhase.Execution.WriteReceipts` | src/orbenchlab/workflow.py:1195-1230 | the receipt of the attempt and its alias are the same, and the manifest is untouched |
| `ExecutionPhase.Execution.AfterRun` | src/orbenchlab/workflow.py:1775-1951 | every handled end leaves a final manifest without a runner, which says completed if and only if the verifier accepts what the process left with its binding restored, the exit code is 0, the image was inspected, the alias matches and the ingest succeeds; a death strikes before the final manifest or between it and its ledger exactly as the power says |
| `ExecutionPhase.Execution.Restore` | src/orbenchlab/workflow.py:1772-1784 | the second binding call writes at most the binding |
| `ExecutionPhase.Execution.Execute` | src/orbenchlab/workflow.py:1655-1951 | refused exactly by the checks before the first write, and then nothing is written; a completed run is never left; each launch adds one attempt, of the first free number; every handled end after a launch is final, earned if completed, and its ledger is accepted when there is no symlink and no line break; for every power it is said whether and where a death strikes, between final manifest and ledger included, which tree it leaves, which manifest is in it and whether the verifier accepts it |
| `ExecutionPhase.StaleLedgerIsRefused` | src/orbenchlab/workflow.py:1741-1745 | a workspace whose manifest is newer than its ledger is refused |
| `ExecutionPhase.KilledRunIsResumable` | src/orbenchlab/workflow.py:1742-1745 | under a ledger written for the running manifest a workspace is accepted exactly if it agrees with it outside the output of the attempt and its binding holds |
| `ExecutionPhase.Execution.Start` | src/orbenchlab/workflow.py:1735-1745 | the writes before the upstream process; it dies between manifest and ledger exactly if the power is one more than the folder takes |
| `ExecutionPhase.Execution.Launch` | src/orbenchlab/workflow.py:1735-1951 | every exit of the part that writes, with the exact power and point of a death |
| `ExecutionPhase.Execution.Reingest` | src/orbenchlab/workflow.py:1679-1684 | a completed run dies exactly before the ingest or between it and the ledger |
| `ExecutionPhase.TenWritesAreEnough` | src/orbenchlab/workflow.py:1655-1951 | an execution that lives through ten writes does not die |
| `ExecutionPhase.Execution.Run` | src/orbenchlab/workflow.py:1746-1951 | everything from the upstream process on, with the exact power of a death |
| `ExecutionPhase.UnstartedIsAccepted` | src/orbenchlab/workflow.py:1124-1147 | a death before the running manifest leaves the old one, and an accepted workspace |
| `ExecutionPhase.HalfStartedIsRefused` | src/orbenchlab/workflow.py:1741-1745 | a death between the running manifest and its ledger always leaves a refused workspace |
| `ExecutionPhase.InterruptedIsResumable` | src/orbenchlab/workflow.py:1746-1800 | a death during or after the upstream process leaves the running manifest, and a workspace that is accepted exactly if only the output of the attempt changed and the binding holds |
| `ExecutionPhase.HalfEndedIsRefused` | src/orbenchlab/workflow.py:1938-1951 | a death between the final manifest and its ledger leaves a refused workspace, if the upstream process left manifest and ledger of this workspace alone and no path had a line break |
| `ExecutionPhase.ReingestedVerdict` | src/orbenchlab/workflow.py:1679-1684 | a death while a completed run is ingested again leaves the completed manifest, and a workspace that is accepted exactly if the ingest changed nothing that is sealed |
| `ExecutionPhase.DeathHasVerdict` | src/orbenchlab/workflow.py:1655-1951 | these cases are all that a death can leave |
| `Executions.ExecuteNext` | src/orbenchlab/workflow.py:1655-1951 | one execution, dead or alive: only its upstream process takes attempt folders away, and the history in the manifest stays distinct if that process took none and touched neither manifest nor ledger |
| `Executions.ExecuteAll` | src/orbenchlab/workflow.py:1655-1951 | over any sequence of executions, with deaths anywhere: an attempt id is used twice if and only if at some launch the folder of an earlier attempt is missing while those of all lower numbers are there; this takes an upstream process that took a folder away from the workspace it was started in |
| `Executions.TakenExactly` | src/orbenchlab/workflow.py:1130-1138 | a launch takes a number if and only if its folder is missing and those of all lower numbers are there |
| `Executions.TwiceExactly` | src/orbenchlab/workflow.py:1130-1138 | the id of a later launch is that of an earlier one exactly if the earlier one looks free |
| `Executions.KeptFoldersNoIdTwice` | src/orbenchlab/workflow.py:1130-1138 | no id is used twice as long as no upstream process takes a folder away |
| `Executions.LaunchIsRecorded` | src/orbenchlab/workflow.py:1735-1737 | a launch adds an attempt that the history does not have |
| `Executions.RemovedFolderIsAccepted` | src/orbenchlab/workflow.py:1130-1138 | a workspace whose launched attempt lost its folder is accepted, and nothing tells that the number was used |
| `Executions.FolderTakenAway` | src/orbenchlab/workflow.py:1130-1138 | the case occurs: two executions, the first killed after its upstream process removed the folder of its attempt, launch the same id |

## Left out

- Subprocesses, Docker, Harbor, sandboxes, HTTP, `select` and file locks: events and mutual exclusion only.
- Parsing of JSON, TOML and YAML, and SHA-256 itself: abstract values and digest functions.
- Floating-point rounding errors: the arithmetic is real, with six-place rounding on top.
- FactoryPlan.CompilePlan: the fields of a plan that no property here reads (name, source digest, profile, prompt, tools, timeout), and the pattern of stage ids.
- FactoryPlan.CheckBindings: existence and symlinks of the bound paths, their place under the work directory, and the sandbox arguments.
- FactoryPlan.QuarantineFailedOutputs: empty directories, the refusal of symlinks, and the reuse of an archive folder after an interrupted attempt; `retry_safe` is therefore any boolean.
- FactoryView.CompletesOutsideOnly: kinds, sizes and JSON keys of required outputs; the input directory is read-only for the session, so that the digest check, which skips `.git`, sees no less.
- FactoryRun.RestartRecovers: the binding of session receipts and the rehashing of workspace outputs in `_validate_run_chain`; where they raise, the controller stops, which is a step of the system.
- FactoryRun.ReachableSafe: the same checks of `_validate_run_chain`.
- `run_session`: identity, reuse of an earlier session, usage parsing; `captured_output_bytes` is measured after redaction and may exceed the cap.
- Discrimination.SummarizeTrials: an arm is a pair of model and hint level instead of a joined string.
- Difficulty.VariantRows: the preregistration of a held-out matrix, its digests, receipts and control reports are one flag per receipt.
- Launcher.MatrixLauncher.LaunchMatrix: the contents of a job and of a reservation, whose validation is any function of the job; a reusable job is a caller that does not begin.
- Supervisor.Supervisor.Invoke: the checks of plan, genome and paper before the lock, and workers that raise instead of failing; receipts are not edited from outside and a worker does not overwrite a receipt; the static, cards and final stages are one write each; `last_failure_class` and the details of a failure are not kept.
- Ledger.VerifyIntegrity: a job name with `..`, and the error messages and their order; file names are strings without encoding errors.
- Ledger.AcceptsExactlyUnchanged: digests of different contents are taken to differ, as the verifier does.
- Ledger.WriteIntegrity: the order of the rows is that of the listing it is given.
- ResumeConfig.BindingFile.BindResumeConfig: the comparison with the expected config in `_validated_resume_binding`, which can refuse more; a JSON number equals only itself.
- ExecutionPhase.Execution.Execute: cost and auth preconditions, the copy of a legacy receipt, sanitizing of the failed manifest; the first binding call finds the binding that preparation wrote and so writes nothing; an upstream process may leave any tree, and where it changed manifest or ledger, or a path had a line break, the verdict on a death after it is left open.
- ExecutionPhase.HalfEndedIsRefused: the same two assumptions on the upstream process and on the paths.
- ExecutionPhase.Execution.Restore: which binding is written is up to the surroundings; module `ResumeConfig` has that call.
- Real provider spend of the factory: a crash between session and receipt can run a session again, so only recorded attempts are bounded.
- `factory_autopilot.py`, `factory_finalize.py`, `authoring_loop.py`, `export.py`, `task_authoring.py`, `volc_review.py`, `source_intake.py`, `pipeline.py`, the CLI and report rendering: field-by-field checks or easy members.
