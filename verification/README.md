# A verified model of a durable agent harness

The repository runs coding tasks through an event-sourced workflow kernel and a fenced job
pipeline. This project models the parts whose guarantees hold over every history, every
interleaving or every input, and proves those guarantees.

- `Kernel`, `TaskGraph`, `Tasks`, `TaskHistory`, `Runs`, `RunHistory`: values, the dependency
  graph, the two aggregates and everything true of a single history.
- `Database`, `Steps`, `Gating`, `EventLog`, `ExactlyOnce`, `Liveness`, `Store`: the tables,
  what one serialized transaction does to them, the invariants of every reachable state,
  which runs can still be merged, and the store class that works row by row and is proved
  to be that transaction.
- `Jobs`, `Pipeline`, `Workers`: the job ledger, every interleaving of workers, and the
  reconciler each of them runs.
- `Intake`: idempotency reservations and the atomic run intake, on top of the store.
- `VerificationLedger`: the memory ledger and the PostgreSQL ledger that refines it.
- `Paths`, `Authority`, `Candidate`, `Coverage`: the path scopes, the candidate diff check
  and verification coverage.

`dafny verify dfyconfig.toml` checks everything.

## How the model reads the system

- A serialized transaction is one atomic step. A failure anywhere inside it is a rollback.
  Faults can be injected where the store injects them, and the order in which a query
  returns rows is an arbitrary part of each delivery.
- SHA-256 digests and name-based UUIDs (section 5.5 of RFC 9562) are injective: a digest
  stands for its content, and an identity derived from a name is a constructor of its
  parts. Whether a text is a UUID or an absolute URI is part of the value.
- The uniqueness rules are those of the SQL migrations: one row a task identity across all
  runs, one event an identity and one an aggregate revision, one job an identity and one a
  stage of an attempt.
- Workers have arbitrary clocks and may act on a claim, ticket or handle at any later time.
  A crash is a step that never comes.
- A commit is a tree of files, and the diff listing of two commits is what comparing their
  trees gives. A path is clean when lexical cleaning leaves it alone, stated on components.
- Times count microseconds, the resolution of the database, except in the pipeline, where
  they count nanoseconds because delays do.

## Where the code and its surroundings differ

- Releasing the lease of the last attempt leaves a READY task nothing can lease
  (`go/internal/workflow/task.go:503`, `526-540`). `TaskHistory.LeasableExactly` gives the
  exact condition and `TaskHistory.ReleasedLastAttempt` a history; such a task bars its run
  from ever being merged (`Liveness.MergeableExactly`).
- The HTTP cancel route sends a workflow service actor
  (`go/internal/controlapi/server.go:947-949`), but cancelling a run needs a human
  (`go/internal/workflow/run_completion.go:327`). The model follows the kernel:
  `Gating.OnlyHumansCancel` shows that such a command never changes anything.
- The event types for rejected specifications and task graphs do not say whether the run
  became terminal. `RunHistory.RunTypesDetermineState` and
  `RunHistory.RunEventsDetermineState` give the exact condition under which event types
  determine a run's state, and twins where they do not; so runs are replayed from their
  commands and tasks from their events.
- The path check of the reasoning contracts admits `..`, and of all climbing paths only
  this one (`Paths.RepoPathClimbsExactly`); the execution preflight does not.
- The candidate check counts paths, so it is exact only for proposals without repeated
  paths, which the preflight ensures.
- A report without criteria passes the verifier and fails publication's reading, for every
  catalogue (`Coverage.EmptyRequestSplitsVerdicts`).
- The PostgreSQL verification ledger refuses lifetimes that are not positive and the memory
  ledger does not; a refused call completes no operation.

## Model

| member | source | states |
|---|---|---|
| TaskGraph.PlannedTaskGraph | go/internal/workflow/task.go:159-184 | accepts exactly the dependency lists whose edges join known, different tasks without repetition, and its degree and adjacency tables then describe exactly those edges |
| TaskGraph.TaskGraphAcyclic | go/internal/workflow/task.go:186-210 | the queue loop ends and answers true exactly when the relation has no cycle, with a topological rank as witness of true and an actual cycle as witness of false |
| TaskGraph.RankExcludesCycles | go/internal/workflow/task.go:186-210 | a graph with a rank has no cycle at all |
| TaskGraph.StuckHoldsCycle | go/internal/workflow/task.go:186-210 | a non-empty set of tasks each of which misses a prerequisite inside it contains a cycle |
| TaskGraph.Visit | go/internal/reasoning/contracts/planning.go:340-357 | the recursive search from one task either returns a cycle or finishes everything it reaches in an order where prerequisites come first |
| TaskGraph.GraphHasCycle | go/internal/reasoning/contracts/planning.go:333-364 | the depth-first search reports a cycle exactly when the dependency table has one |
| TaskGraph.PlannersAgree | go/internal/reasoning/contracts/planning.go:333-364 | on every graph both layers admit, the queue loop and the recursive search give the same answer |
| Tasks.DecideLease | go/internal/workflow/task.go:502-524 | a lease is legal only from READY with attempts left, by the workflow service, with the next fencing token, and raises the attempt counter by one |
| Tasks.DecideRelease | go/internal/workflow/task.go:526-540 | a release is legal only from LEASED and does not give the attempt back |
| Tasks.DecideReasoning | go/internal/workflow/task.go:542-555 | reasoning starts only from LEASED, by the reasoning service |
| Tasks.DecideProposalRejection | go/internal/workflow/task.go:557-576 | a rejection is legal only from REASONING, by a human or the reasoning service |
| Tasks.DecideProposalAcceptance | go/internal/workflow/task.go:578-596 | execution starts only from REASONING, by the execution service |
| Tasks.DecideExecution | go/internal/workflow/task.go:598-621 | execution is recorded only from EXECUTING, by the execution service |
| Tasks.DecideVerification | go/internal/workflow/task.go:636-658 | verification moves VERIFYING on or back to rework, by the verification service |
| Tasks.DecideReview | go/internal/workflow/task.go:660-682 | review moves REVIEWING on or back to rework, by the review service |
| Tasks.DecideApproval | go/internal/workflow/task.go:684-696 | only a human accepts, and only from AWAITING_APPROVAL |
| Tasks.DecideRework | go/internal/workflow/task.go:698-708 | only a human sends an awaiting task back |
| Tasks.DecideRetry | go/internal/workflow/task.go:723-740 | a retry readies a task only while attempts are left and otherwise fails it |
| Tasks.DecideFailure | go/internal/workflow/task.go:742-755 | a trusted service may fail any live task |
| Tasks.DecideCancellation | go/internal/workflow/task.go:757-767 | the workflow service may cancel any live task |
| Tasks.Decide | go/internal/workflow/task.go:432-469 | whatever the command: the transition is legal from its state, made by an entitled actor, yields the state and attempt counter its event names, and keeps identity and validity |
| Tasks.PlannedTaskIds | go/internal/workflow/task.go:139-157 | accepts exactly non-empty lists of valid definitions with distinct identities |
| Tasks.NewPlannedTasks | go/internal/workflow/task.go:115-137 | a plan is made exactly when definitions and dependencies are valid and the graph is acyclic |
| Tasks.BuildPlannedTasks | go/internal/workflow/task.go:212-243 | each definition yields one task and one event, pending exactly when the task has a prerequisite |
| Tasks.BlockedByDegree | go/internal/workflow/task.go:217-223 | a positive degree is exactly the presence of a prerequisite |
| TaskHistory.DecidesExactly | go/internal/workflow/task.go:421-488 | a live task takes a command if and only if the tables of legal states and entitled actors allow it and its contents fit; state errors come before actor errors, and those before content errors |
| TaskHistory.TransitionIsLegal | go/internal/workflow/task.go:432-469 | every step of every history follows the legal table, including wake-ups and run cancellations |
| TaskHistory.TransitionKeepsIdentity | go/internal/workflow/task.go:490-500 | every step keeps identity and raises the revision by exactly one |
| TaskHistory.TransitionKeepsValid | go/internal/workflow/task.go:70-113 | every step keeps the snapshot reloadable |
| TaskHistory.MeasureFalls | go/internal/workflow/task.go:502-540 | a measure over attempts left and state rank falls at every step |
| TaskHistory.HistoryIsSound | go/internal/workflow/task.go:421-500 | in every history the snapshot is valid and its revision counts its events |
| TaskHistory.BoundedHistory | go/internal/workflow/task.go:723-740 | no history is longer than eight events an attempt plus two |
| TaskHistory.TypesDetermineProgress | go/internal/workflow/task.go:432-469 | the event types alone determine state and attempt counter |
| TaskHistory.LeaseTokens | go/internal/workflow/task.go:502-524 | the k-th lease of every history carries token k, and a bound lease carries the current attempt |
| TaskHistory.BindingsMatchState | go/internal/workflow/task.go:557-740 | every reachable snapshot has exactly the bindings of its state; a task made ready again keeps nothing of the attempt before |
| TaskHistory.StepAdvances | go/internal/workflow/task.go:502-696 | a step that advances an attempt is recorded in the snapshot and disturbs no earlier step |
| TaskHistory.AttemptIsEvidenced | go/internal/workflow/task.go:502-696 | in every history the last events are exactly the steps the current attempt has taken, bound to one lease and one candidate |
| TaskHistory.AcceptedIsEvidenced | go/internal/workflow/task.go:578-696 | an accepted task ends in lease, reasoning, execution start, execution, verification, review and acceptance, all for one candidate, both execution steps before the lease expired |
| TaskHistory.ExecutionResumesAtReasoning | go/internal/stage/handlers.go:362-376 | the recomputed revision exists exactly in REASONING, EXECUTING and VERIFYING and is the one the same attempt had while reasoning; the underflow guards never fire |
| TaskHistory.VerificationResumesAtVerifying | go/internal/stage/handlers.go:419-429 | the recomputed revision exists exactly in VERIFYING and REVIEWING and is the one the same attempt had while verifying |
| TaskHistory.AdvanceIsTaken | go/internal/workflow/task.go:502-696 | every task in an attempt, ready, rejected or sent back with attempts left, accepts some command that takes it one step nearer to acceptance |
| TaskHistory.CanBeAccepted | go/internal/workflow/task.go:502-696 | from every history whose task is accepted, in an attempt or has attempts left, some continuation of exactly the missing entries accepts it |
| TaskHistory.LostForGood | go/internal/workflow/task.go:502-740 | once a task is failed or cancelled, or outside an attempt without attempts left, it stays so in every continuation |
| TaskHistory.AcceptableExactly | go/internal/workflow/task.go:502-740 | a continuation that accepts the task exists if and only if it is accepted, in an attempt, or has attempts left |
| TaskHistory.LeasableExactly | go/internal/workflow/task.go:502-524 | a ready task can be leased by some command if and only if attempts are left |
| TaskHistory.ReleasedLastAttempt | go/internal/workflow/task.go:526-540 | a history whose last attempt was released, after which no lease command is ever accepted |
| Runs.DecideSpecification | go/internal/workflow/run.go:228-280 | specification moves follow the legal table and keep the run valid |
| Runs.DecideTaskGraph | go/internal/workflow/run.go:282-325 | task graph proposals and rejections follow the legal table and keep the run valid |
| Runs.DecideStart | go/internal/workflow/run_completion.go:177-187 | a start follows the legal table and keeps the run valid |
| Runs.DecideRunExecution | go/internal/workflow/run_completion.go:189-205 | an execution record follows the legal table and keeps the run valid |
| Runs.DecideRunEvidence | go/internal/workflow/run_completion.go:207-243 | verification and review records follow the legal table and keep the run valid |
| Runs.DecideRunVerdict | go/internal/workflow/run_completion.go:245-281 | approval and rejection follow the legal table and keep the run valid |
| Runs.DecidePublication | go/internal/workflow/run_completion.go:149-175 | draft pull requests and merges follow the legal table and keep the run valid |
| Runs.DecideEnd | go/internal/workflow/run_completion.go:305-336 | failing and cancelling follow the legal table and keep the run valid |
| Runs.DecideRun | go/internal/workflow/run.go:172-202 | whatever the command: one legal move, the event of that command, identity and validity kept |
| Runs.ApplyApproval | go/internal/workflow/run.go:358-397 | approving a graph plans its tasks exactly when the run is in review, the actor human, the graph the bound one and the plan admissible |
| RunHistory.RunDecidesExactly | go/internal/workflow/run_completion.go:116-147 | a live run takes a command if and only if the legal table has a move for it, the actor is entitled and the contents fit, with errors in that order |
| RunHistory.RunBindingsMatchState | go/internal/workflow/run_completion.go:149-303 | every reachable run has the bindings of its state and no later ones |
| RunHistory.CanBeMerged | go/internal/workflow/run_completion.go:116-147 | as far as its own commands go, every live run has a continuation of exactly the missing moves that merges it; the store gates are the subject of Liveness.MergeableExactly |
| RunHistory.RunIsEvidenced | go/internal/workflow/run_completion.go:189-256 | in every history the steps a run has taken are consecutive commands at its end, all about one candidate; only one draft pull request, for that candidate and under that approval, may follow the approval |
| RunHistory.MergedIsEvidenced | go/internal/workflow/run_completion.go:283-303 | the last five or six commands of every merged run are its execution, verification, review and approval, at most one draft pull request, and its merge, all for the very commit the merge names, the last two under the recorded approval |
| RunHistory.LastTypeGivesState | go/internal/workflow/run.go:228-325 | the last event type gives the state of the run, up to the verdict of a rejection |
| RunHistory.RejectionHasTwin | go/internal/workflow/run.go:248-325 | every history that ends in a rejected specification or task graph has a twin with the same event types and another state |
| RunHistory.RunTypesDetermineState | go/internal/workflow/run.go:228-325 | the event types of a run determine its state if and only if the last one is neither a rejected specification nor a rejected task graph |
| Store.Store.constructor | go/internal/workflow/store.go:33-35 | a new store is empty |
| Store.Store.InsertEvent | go/internal/workflow/store.go:914-930 | an event is appended exactly when neither its identity nor its aggregate revision is taken |
| Store.Store.InsertEvents | go/internal/workflow/store.go:222-226 | the events are appended in order, or the first collision is reported |
| Store.Store.InsertTasks | go/internal/workflow/store.go:227-231 | the planned rows are added exactly when all of them are new |
| Store.Store.InsertDependencies | go/internal/workflow/store.go:232-238 | the dependency rows are added exactly when all of them are new |
| Store.Store.MakeDependentsReady | go/internal/workflow/store.go:596-658 | whatever order rows come in, exactly the pending dependents with no unaccepted prerequisite become ready, each with one event of its next revision |
| Store.Store.CancelRunTasks | go/internal/workflow/store.go:852-894 | exactly the unfinished tasks of the run are cancelled, each with one event of its next revision |
| Store.Store.PersistTaskTransition | go/internal/workflow/store.go:335-377 | every failure point of a task write, in order, and everything a successful one wrote |
| Store.Store.ExecuteTaskTransaction | go/internal/workflow/store.go:301-333 | replay, gate, decision, writes and result of a task command are the specified transaction |
| Store.Store.ExecuteTask | go/internal/workflow/store.go:268-295 | a task command has the whole effect of its transaction or none |
| Store.Store.DecideRunCommand | go/internal/workflow/store.go:163-204 | loading, gating and deciding a run command |
| Store.Store.PersistRunTransition | go/internal/workflow/store.go:206-246 | every failure point of a run write, in order, and everything a successful one wrote |
| Store.Store.ExecuteRunTransaction | go/internal/workflow/store.go:120-161 | replay, gate, decision, cancellations, writes and result of a run command are the specified transaction |
| Store.Store.ExecuteRun | go/internal/workflow/store.go:53-80 | a run command has the whole effect of its transaction or none |
| Steps.WokenExactly | go/internal/workflow/store.go:596-658 | the tasks woken by an acceptance are exactly those it unblocked, each once |
| Steps.TaskTransactionSteps | go/internal/workflow/store.go:301-377 | a committed new task command took exactly one step: gated, decided, collision free |
| Steps.RunTransactionSteps | go/internal/workflow/store.go:120-266 | a committed new run command took exactly one step: gated, decided, collision free |
| Gating.TaskStepKeepsSound | go/internal/workflow/store.go:335-377 | task commands keep tables, acyclicity, gating and run gates |
| Gating.PlanKeepsSound | go/internal/workflow/store.go:206-246 | plan approvals keep them |
| Gating.MoveKeepsSound | go/internal/workflow/store.go:120-161 | every other run command, cancellation included, keeps them |
| Gating.DeliverKeepsSound | go/internal/workflow/store.go:53-333 | every delivery keeps them, whatever its fault or row order |
| Gating.ReachableIsSound | go/internal/workflow/store.go:53-333 | they hold after every sequence of deliveries |
| Gating.Progress | go/internal/workflow/store.go:596-658 | in every reachable state an executing run without failed or cancelled tasks has tasks, and all are accepted or some task is neither pending nor finished |
| Gating.PendingHoldsCycle | go/internal/workflow/task.go:115-137 | if all unfinished tasks of a run were waiting, its graph would contain a cycle |
| Gating.DependencyGating | go/internal/workflow/store.go:364-375 | in every reachable state a pending task has an unaccepted prerequisite, and a task in any state but pending, failed or cancelled has none |
| Gating.CompletionGates | go/internal/workflow/store.go:823-850 | in every reachable state a run from VERIFYING to MERGED has tasks, all accepted, and a cancelled run only finished ones |
| Gating.CompletionGateExactly | go/internal/workflow/store.go:836-848 | the completion gate opens if and only if the run has tasks and all are accepted |
| Gating.CancelTaskNeverCommits | go/internal/workflow/store.go:419-438 | cancelling a single task through the store is refused in every reachable state |
| Gating.StartGatePasses | go/internal/workflow/store.go:825-835 | the start gate never refuses a reachable READY run |
| Gating.OnlyHumansCancel | go/internal/workflow/run_completion.go:323-336 | a run cancellation from any actor but a human, the workflow service included, changes nothing in any store and never commits |
| Liveness.LostRunStays | go/internal/workflow/store.go:823-850 | no delivery makes a run mergeable that is finished unmerged or has a task that can no longer be accepted |
| Liveness.TaskDeliveryCommits | go/internal/workflow/store.go:301-377 | under a fresh identity the store commits every command that a task of an executing run accepts: no event it writes, wake-ups included, can collide |
| Liveness.AcceptAll | go/internal/workflow/store.go:596-658 | if every task of an executing run is accepted, in an attempt or has attempts left, some deliveries accept them all, as its graph allows, without making any task worse or changing a run |
| Liveness.MergeableExactly | go/internal/workflow/store.go:823-850 | in every reachable store some further deliveries merge a run if and only if it is merged, or live with every task accepted, in an attempt, or with attempts left |
| RunHistory.MergedInStore | go/internal/workflow/store.go:823-850 | every merged run in every reachable store rests on such a chain of five or six stored commands and on tasks that were all accepted |
| EventLog.ExtensionAgrees | go/internal/workflow/store.go:335-377 | appending events that each explain one snapshot change keeps log and snapshots in agreement |
| EventLog.TaskStepExtends | go/internal/workflow/store.go:364-375 | the events of a task command, wake-ups included, explain every task it changed, once each |
| EventLog.RunStepExtends | go/internal/workflow/store.go:141-149 | the events of a run command, plans and cancellations included, explain every row it changed, once each |
| EventLog.ReachableLogAgrees | go/internal/workflow/store.go:53-333 | after every sequence of deliveries log and snapshots agree, and every run event carries the type of the command that wrote it |
| EventLog.LogNumbersAggregates | go/internal/workflow/store.go:914-930 | the events of every run and task are numbered 1 to n with n its revision, and every snapshot reloads |
| EventLog.LogFoldsToTask | go/internal/workflow/store.go:649-655 | folding the event types of a stored task gives its state and attempt counter; its revision is bounded and its lease carries the current attempt |
| RunHistory.LogFoldsToRun | go/internal/workflow/store.go:914-930 | the last stored event of a run gives its state, up to the verdict of a rejection |
| RunHistory.RejectionHasStoredTwin | go/internal/workflow/run.go:248-325 | whenever the last stored event of a run is a rejection, other deliveries store the very same events of the run and leave it in another state |
| RunHistory.RunEventsDetermineState | go/internal/workflow/run.go:228-325 | in every reachable store the types of the events of a run determine its state if and only if the last one is no rejection |
| EventLog.AcceptedInStore | go/internal/workflow/task.go:578-696 | the last seven stored events of an accepted task are one evidenced attempt, each issued by a stored command |
| ExactlyOnce.DeliveryRecords | go/internal/workflow/store.go:379-396 | a first accepted delivery records its request and answer; any other delivery changes nothing |
| ExactlyOnce.AnswerDescribes | go/internal/workflow/store.go:248-266 | in every reachable store the answer of an accepted command names the stored state and revision and exactly the events it appended |
| ExactlyOnce.DeliveredExactlyOnce | go/internal/workflow/store.go:120-161 | any sequence of deliveries, with faults, refusals and repetitions, reaches the state of its first accepted deliveries alone |
| ExactlyOnce.KeptAreTheCommands | go/internal/workflow/store.go:687-699 | the command table holds exactly the identities of those deliveries, each once |
| ExactlyOnce.RedeliveryReplays | go/internal/workflow/store.go:660-685 | delivered again at any later time, a command gets its first answer with only the replay mark changed; its identity on another request is a conflict; neither changes anything |
| Jobs.Ledger.constructor | go/internal/runtime/ledger.go:78-78 | a new ledger has no jobs |
| Jobs.Ledger.Enqueue | go/internal/runtime/ledger.go:276-305 | inserts a job, accepts the same job again, refuses another identity for the same stage |
| Jobs.Ledger.ClaimNext | go/internal/runtime/ledger.go:331-378 | claims under the next token the claimable unlocked row that no other comes before, by time and then by the order of identities, and nothing only if there is none |
| Jobs.Ledger.Renew | go/internal/runtime/ledger.go:399-413 | succeeds if and only if the claim is in force; then it still is, until the given time, and nothing else changed; a refusal names its reason and changes nothing |
| Jobs.Ledger.CompleteAndEnqueue | go/internal/runtime/ledger.go:439-471 | completion and successor happen together or not at all |
| Jobs.Ledger.Retry | go/internal/runtime/ledger.go:473-488 | releases exactly a claim in force and charges the retry budget |
| Jobs.Ledger.RescheduleTransient | go/internal/runtime/ledger.go:493-508 | releases exactly a claim in force and charges the other budget |
| Jobs.Ledger.Fail | go/internal/runtime/ledger.go:510-527 | fails exactly a job whose claim is in force |
| Jobs.Ledger.CancelRun | go/internal/runtime/ledger.go:529-534 | cancels exactly the unfinished jobs of the run |
| Jobs.Ledger.PreviousResult | go/internal/runtime/ledger.go:415-437 | finds the result of a completed stage exactly when there is one, and reports a stored result that is not a valid artifact as corrupt |
| Workers.SaturatingBackoff | go/internal/orchestration/reconciler.go:270-282 | the delay is the minimum of initial times two to the n and the maximum, for every n, without overflow |
| Workers.NextStage | go/internal/orchestration/reconciler.go:352-359 | the loop finds the stage one position later, and none for the last |
| Workers.NewReconciler | go/internal/orchestration/reconciler.go:91-111 | a reconciler is made exactly from a valid owner, positive settings and a handler for every stage |
| Workers.Reconciler.Heartbeat | go/internal/orchestration/reconciler.go:308-334 | one heartbeat is one renewal step of the system, and it stays alive exactly while the claim is in force |
| Workers.Reconciler.Once | go/internal/orchestration/reconciler.go:176-188 | one round of a worker is two steps of the system, a claim and the completion or failure of what it claimed, or none when nothing is claimable |
| Workers.Reconciler.Complete | go/internal/orchestration/reconciler.go:218-237 | completing the held job, with its successor under the stable identity, is one completion step of the system |
| Workers.Reconciler.HandleFailure | go/internal/orchestration/reconciler.go:239-268 | leaving, rescheduling, retrying or failing the held job by the counts read at its claim is one failure step of the system |
| Pipeline.ReachableSystem | go/internal/runtime/ledger.go:331-557 | the pipeline invariant holds after every interleaving of enqueues, claims, renewals, completions, failures and cancellations |
| Pipeline.PipelinePrefix | go/internal/orchestration/reconciler.go:218-237 | the jobs of one attempt are a prefix of the seven stages, all but the last completed, one row a stage |
| Pipeline.LookupsSucceedForever | go/internal/stage/handlers.go:555-559 | whatever an existing stage looks up of an earlier one is there, is the only one, and is the same in every later state |
| Pipeline.HandlersFindTheirInputs | go/internal/stage/handlers.go:327-498 | for every job that exists, each stage its handler looks up has exactly one result, a valid artifact, and the same one in every later state |
| Pipeline.RowsEvolve | go/internal/runtime/ledger.go:380-534 | in any continuation a row keeps its identity, and token and counters never fall |
| Pipeline.ClaimsAreFenced | go/internal/runtime/ledger.go:365-377 | a new claim carries a larger token than every claim of that job before it |
| Pipeline.FencesCountClaims | go/internal/runtime/ledger.go:365-377 | the k-th claim of a job carries token k |
| Pipeline.OnlyTheLatestClaimActs | go/internal/runtime/ledger.go:399-527 | a worker changes the table only while its claim is the latest of its job and still in force, whatever the clocks |
| Pipeline.TerminalIsAbsorbing | go/internal/runtime/ledger.go:529-557 | completed, failed and cancelled rows never change again |
| Pipeline.BudgetsHold | go/internal/orchestration/reconciler.go:239-268 | if no worker allows more than a limit, both counters of every job stay below it, and a worker whose claim is in force knows them exactly |
| Pipeline.FailureSpendsBudget | go/internal/orchestration/reconciler.go:239-268 | a failure costs one unit of the right budget of the worker that handles it, and the job fails exactly with the last unit |
| Pipeline.CompletionAdvances | go/internal/runtime/ledger.go:439-471 | a holder completes with its own result and leaves exactly the next stage new and ready |
| Pipeline.SuccessorIsNew | go/internal/runtime/ledger.go:559-582 | the successor of a claimed job never exists yet |
| Pipeline.ClaimableExactly | go/internal/runtime/ledger.go:340-347 | a job can be claimed if and only if it is unfinished and its time has come: none is lost, wherever workers crashed, and no claim is taken before it expires |
| Pipeline.RenewalProtects | go/internal/runtime/ledger.go:399-413 | after a renewal, and for as long as nobody claims past the time it names, its holder does not let go and the run is not cancelled, the claim stays in force and the row stays as renewed |
| Pipeline.CancelledAttemptsStop | go/internal/runtime/ledger.go:529-534 | once a run is cancelled, each of its attempts keeps the jobs it had then, all finished, in every continuation |
| Intake.RunIntakeCoordinator.BeginIdempotency | go/internal/runtime/ledger.go:83-128 | a key is granted if and only if it is new, or matching, unanswered and expired, and then under the next generation; a stored answer is returned if and only if the request matches it; no other key changes |
| Intake.RunIntakeCoordinator.SetExpiry | go/internal/runtime/ledger.go:174-191 | renewal, and abandonment with the current time, succeed if and only if the key is unanswered under that generation, and change nothing but its time |
| Intake.RunIntakeCoordinator.CommitIntakeOnce | go/internal/controlapi/intake.go:249-305 | lock, run, binding and response are one transaction: all of it at a success, nothing at any failure or fault |
| Intake.RunIntakeCoordinator.Accept | go/internal/controlapi/intake.go:104-150 | one request is at most two steps of the system, its answer is the stored one, and a refusal whose reply was not lost leaves workflow and bindings as they were |
| Intake.ReachableWorld | go/internal/controlapi/intake.go:104-150 | the intake invariant holds after every interleaving of reservations, renewals, commits and other workflow deliveries |
| Intake.IntakeAllOrNothing | go/internal/controlapi/intake.go:249-305 | for every key the run, its binding and the stored 201 response exist together or not at all |
| Intake.EveryRunWasAccepted | go/internal/controlapi/intake.go:262-288 | every run has a binding and exactly one key that answered for it |
| Intake.CommitHoldsReservation | go/internal/controlapi/intake.go:249-288 | a commit happens only under the generation that holds the key, before its time runs out, and binds exactly the staged artifacts to the created run |
| Intake.SupersededNeverWrites | go/internal/controlapi/intake.go:336-364 | a superseded generation and an answered key never write |
| Intake.TakeOverSupersedes | go/internal/runtime/ledger.go:119-127 | taking a key over supersedes every ticket handed out for it before |
| Intake.AnswerReplaysForever | go/internal/runtime/ledger.go:107-115 | once answered, every later matching request gets the same response and every other one is refused |
| VerificationLedger.MemoryLedger.TryBegin | go/internal/verification/ledger.go:72-116 | ownership is given if and only if the reservation is new or expired without evidence; a clash, a replay, a resumption and a wait each say what the record holds and change nothing |
| VerificationLedger.MemoryLedger.SaveEvidence | go/internal/verification/ledger.go:141-155 | evidence is stored if and only if the caller owns a record that has none, and nothing else changes |
| VerificationLedger.MemoryLedger.FinalTransitionTime | go/internal/verification/ledger.go:157-173 | a time is returned if and only if the caller owns a record with evidence and no result; it is the first one given, whatever is given later |
| VerificationLedger.MemoryLedger.Complete | go/internal/verification/ledger.go:175-187 | a result is stored if and only if the caller owns a record with evidence and final time and no result, and nothing else changes |
| VerificationLedger.MemoryLedger.Verify | go/internal/verification/service.go:105-141 | a whole verification returns the stored verdict of its request, changes nothing when there was one, and returns none exactly when it clashes or must wait |
| VerificationLedger.PostgresLedger.Insert | go/internal/verification/repository.go:75-86 | a reservation row is inserted exactly when there is none |
| VerificationLedger.PostgresLedger.Recover | go/internal/verification/repository.go:154-167 | a row changes owner exactly when it is expired, still reserved and of the same digest |
| VerificationLedger.PostgresLedger.BeginAttempt | go/internal/verification/repository.go:72-106 | an attempt nobody interferes with is one pass of the memory ledger |
| VerificationLedger.PostgresLedger.SaveEvidence | go/internal/verification/repository.go:211-232 | the guarded update is the memory operation on the records the rows stand for, and keeps the column constraint |
| VerificationLedger.PostgresLedger.FinalTransitionTime | go/internal/verification/repository.go:234-252 | the guarded update that keeps the first final time is the memory operation on those records |
| VerificationLedger.PostgresLedger.Complete | go/internal/verification/repository.go:254-272 | the guarded update to completed is the memory operation on those records |
| VerificationLedger.PostgresLedger.Verify | go/internal/verification/service.go:105-141 | a whole verification through the rows gives the verdict and the records of one through memory |
| VerificationLedger.StepRefines | go/internal/verification/repository.go:72-272 | every statement either completes one memory operation with the same answer or is invisible to memory |
| VerificationLedger.PostgresRefinesMemory | go/internal/verification/repository.go:72-272 | every interleaving of the statements of any number of callers is a run of the one-lock ledger with the same answers and the same records |
| VerificationLedger.ReclaimedOnlyWhenExpired | go/internal/verification/repository.go:154-167 | a reservation changes hands only by a recovery that found it expired and without evidence |
| VerificationLedger.WrittenOnce | go/internal/verification/repository.go:211-272 | evidence, final time and result are each written at most once, owners change only before evidence, and the column constraint always holds |
| Paths.JoinSplit | go/internal/reasoning/contracts/planning.go:290-297 | a path is the join of its components |
| Paths.WithinIsComponentPrefix | go/internal/reasoning/contracts/planning.go:290-297 | the string test holds if and only if the components of the root come first |
| Paths.WithinAnyTransitive | go/internal/reasoning/contracts/planning.go:299-306 | scopes nest |
| Paths.SafeNeverClimbs | go/internal/beta/policy.go:186-189 | a safe policy path has no parent component |
| Paths.RepoPathClimbsExactly | go/internal/reasoning/contracts/planning.go:284-288 | a path passes the contract and climbs if and only if it is the parent directory itself |
| Paths.NeighboursDecide | go/internal/beta/policy.go:165-171 | in a sorted list comparing neighbours finds every duplicate |
| Authority.ValidateGroup | go/internal/beta/policy.go:161-172 | accepts exactly non-empty sorted lists of distinct safe paths |
| Authority.ValidatePathPolicy | go/internal/beta/policy.go:160-184 | accepts exactly policies whose groups are valid, writable inside readable, and writable and prohibited apart |
| Authority.ValidatePathScopes | go/internal/reasoning/contracts/planning.go:308-331 | accepts exactly sound scopes of a request or task |
| Authority.ValidatePlannedPaths | go/internal/runtime/builder.go:422-439 | accepts exactly tasks inside the policy that prohibit at least what it prohibits |
| Authority.PreflightChanges | go/internal/execution/service.go:407-438 | accepts exactly proposals within the limits whose paths are normal and pairwise different, and otherwise reports the problem of the first change that spoils it |
| Authority.AuthorityOnlyNarrows | go/internal/reasoning/contracts/implementation.go:530-559 | every change accepted for a task planned under a valid policy lies under a readable and a writable root of it, under no prohibited one, does not climb and avoids the control directory |
| Authority.AuthorityByComponents | go/internal/reasoning/contracts/implementation.go:530-559 | the same in terms of path components |
| Candidate.CandidatePathStatuses | go/internal/execution/candidate.go:254-273 | from the fields of any proper listing the loop builds the map with exactly the listed pairs |
| Candidate.ListingRoundTrip | go/internal/execution/candidate.go:264-272 | the fields of a listing, read back, give a map with exactly its pairs |
| Candidate.VerifyCandidateDiff | go/internal/execution/candidate.go:226-252 | fed with the fields of a listing of the two trees, it accepts exactly diffs with as many paths as changes, each change among them and verified |
| Candidate.ExactPathsExactlyWhenDistinct | go/internal/execution/candidate.go:235-237 | a passing candidate changes exactly the proposed paths if and only if the proposal repeats none |
| Candidate.RepeatedPathHidesAnother | go/internal/execution/candidate.go:235-237 | with a repeated path a candidate passes that also changes a path nobody proposed |
| Candidate.CandidateIsTheProposal | go/internal/execution/candidate.go:275-341 | without repeated paths the check passes if and only if every change is effective and the candidate is the base with exactly those changes, down to content and mode |
| Coverage.Resolve | go/internal/verification/catalog.go:76-132 | resolves exactly when each criterion is mapped once, to distinct, available, trusted checks |
| Coverage.PlanRunsTheUnion | go/internal/verification/catalog.go:121-131 | the plan runs exactly the union of the mapped checks, each once, and requires exactly the given criteria |
| Coverage.CalculateCoverage | go/internal/verification/catalog.go:134-162 | a criterion passes exactly when it has checks and the last result of each is a pass |
| Coverage.CollectEvidence | go/internal/verification/service.go:242-276 | a report exists exactly when every check could be run, and it reports each planned check in order |
| Coverage.VerdictsAgreeExactly | go/internal/publication/validation.go:154-169 | the verdict of the verifier and the independent reading of the report by publication agree if and only if there is at least one criterion |
| Coverage.EmptyRequestSplitsVerdicts | go/internal/publication/validation.go:154-169 | every catalogue resolves a request without criteria, and the report it leads to passes the verifier and fails publication |

## Left out

- Event payloads, the JSON and protobuf encodings and the HTTP layer: transport of values the model carries directly.
- Retries of serialization failures and the second look at a command after a lost insertion race: each ends in one of the modelled transactions.
- The 32-bit and 64-bit ranges of attempts, revisions and tokens: all are bounded by the proved limits except the configured number of attempts, which is unbounded here.
- RunHistory.CanBeMerged: does not pass the gates of the store, because it is about the commands of one run; Liveness.MergeableExactly passes them.
- Handler work: a handler is whatever happens between a claim and a completion, and the heartbeat beside it any number of renewals.
- Jobs without a task: no caller enqueues one.
- The link from a job's attempt number to the task's attempt counter: handlers read it from the task through calls outside this model.
- The checks of repository root and path policy when an intake coordinator is made: they do not touch its state.
- Artifact staging before an intake commit, remote base checks, Git and Docker: foreign calls that end before or after the modelled steps.
- Approval, publication and execution ledgers: variants of the reservation pattern; the execution memory ledger loses its final time on take-over and is not a refinement target.
- Resource limits of check definitions, regular expressions for identifiers and the sorting of report entries: settled by reading.
- The splitting of the diff listing at its terminators: the model starts from the fields.
- Draft pull request creation on the remote, release checks and deployment: outside the guarantees of this code.
