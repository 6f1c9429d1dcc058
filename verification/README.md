# Pika: a verified model of its assistant core

Pika is a board for coding agents with a persistent assistant beside it. This
project models the parts of it whose correctness is hardest to see by reading
one function, and proves what the design promises of them over every input and
every run. `dafny verify dfyconfig.toml` checks the whole project.

**The metered tool language and its registry** (`Json`, `Texts`, `ToolLanguage`,
`Meanings`, `Metering`, `Evaluator`, `Execution`, `Registry`, `RegistryRuns`,
`GrantRuns`, `Designations`). Tools are small expressions over JSON, run under a
fuel, memory and operation budget. `Meaning` is a plain evaluator with no budget,
whose every form of expression `Meanings` pins down; the metered one is proved to
give the same answers, at a cost that is an exact sum of charges. The registry
keeps candidates, protected suites, evaluations, grants, activations and
retirements, worked on by any number of connections at once.

**The two-store job protocol** (`JobTables`, `JobRuns`, `JobEffects`,
`Coordinator`, `Recovery`). A job lives in a queue table and in a separate call ledger; the
process can die between any two writes, and recovery itself can be interrupted.

**The background controller** (`Control`, `ControlRuns`, `ControlGates`,
`ControlEffects`, `Controller`). Ticks, debounce, reservation, dispatch, settlement, cancellation,
pause, revocation and recovery, where every durable access may fail and the
process may restart.

**Observation** (`Lease`, `Observer`, `Utf8`, `FeedText`, `FeedCodec`,
`FeedReceiver`, `FeedSummary`, `Observations`). A lock lease fenced by reads in
flight, the loop that watches the store, the four-version wire format of the
board feed and its chunked receiver, and the coordinator's observation feed.

**Decisions, guidance and context** (`Memory`, `Decisions`, `DecisionEffects`,
`Lineage`, `Briefing`, `Guidance`, `Context`, `Packing`). Append-only revision
chains, who authored their words and what they rest on, what each operation needs
and leaves, the kind a correction stands for, bounded loading, the evidence walk,
guidance controls, and greedy packing with rollback.

Code that changes things in place is a class whose methods are proved equal to
a function on the state; the properties are lemmas about that function, over
whole runs. A run is a sequence of events; nothing bounds its length.

## Modelling choices

* Text is a sequence of characters. Where bytes count, one character stands for
  one byte (`Json`, `ToolLanguage`, `Observations`, `Memory`); the board feed
  uses real UTF-8. Which characters beyond ASCII are letters is a parameter.
* SHA-256 identities stand for what they are taken of, and JSON text for the
  record it encodes. Encoded lengths are parameters (`Serializer`, `size`).
* The sizes of the host's slots for a value and an object entry are unknown
  constants of at least seven.
* A wall-clock deadline or a cancel flag is an operation count at which a run
  stops, never a value.
* Job, root and scope names are integers ordered as their texts; the child id
  made from a root and a job is the pair. Memory ids are positions in the store.
  Background root ids have two constructors, as their prefixes differ.
* In the controller, `faults` lists the accesses that fail in one operation. A
  crash is a failure followed by a restart.
* In the observer, other connections' commits are counted in at every access.

Where the code does less than one would expect, a lemma gives an input and
another says exactly when:

* A second suite with the same cases is accepted and not stored
  (`DuplicateSuiteIsNotStored`, `AcceptedSuiteIsStored`); nor is one whose id
  another connection takes between its check and its insert (`SameIdIsStoredOnce`).
* A designation that overlaps another may add a suite that an active tool fails
  (`ActiveToolFailsLaterTest`, `AllTestsAreMetForEver`), and one that is cut short
  requires only what it had named (`CutDesignationStaysCut`, `RequiredIsFinal`).
* A restart, or an upkeep outcome, makes a root unknown and leaves context open
  (`RestartLeavesContextOpen`, `UpkeepLeavesContextOpen`, `UnknownBlocksAtOnce`).
* An abandoned job whose settlement cannot be written is dropped from memory
  while its row stays dispatched (`AbandonedJob`).
* A job whose epoch check has passed still starts when another holder of the
  memory store raises the forget epoch before its dispatch mark
  (`RiseAfterCheckIsMissed`, `ForgottenJobsNeverStart`, `OwnForgettingIsAbsolute`).
* A cancellation is a flag in memory: a job whose process dies after it is restored
  without it and starts (`CrashForgetsCancellation`, `CancelledNeverStarts`).
* A job stays active past its time while context is blocked by a revocation that
  cannot be finished (`JobOutlivesItsTime`, `NoJobOutlivesItsTime`).
* A watcher made after the first frame may miss the commits between
  (`StartMayMissCommits`, `StartIsSafeExactlyWithoutGap`, `NoCommitIsLost`).
* A confirmed commitment may be reported or confirmed anew, though never reopened
  (`ConfirmedThenReported`, `ConfirmationIsNotFinal`, `DoneStaysDone`).

## Model

| member | source | states |
|---|---|---|
| Json.MeasureValue | src/assistant_evolution.rs:401-439 | the early-exit measurement answers n exactly when the full size is n, within the limit, and the depth within 64 |
| ToolLanguage.ValidateExpr | src/assistant_evolution.rs:340-399 | validation accepts exactly the expressions within the depth bound whose leaves all fit |
| Metering.ReplayTotals | src/assistant_evolution.rs:441-513 | an accepted list of charges costs exactly its number of operations in fuel and its sum in memory |
| Metering.ReplayIsArithmetic | src/assistant_evolution.rs:441-513 | charges are accepted exactly when their totals fit the fuel, the memory and the stop |
| Metering.AnswerIsMeaning | src/assistant_evolution.rs:560-749 | on every expression the metered evaluation's answer is the reference meaning, refusals included, which `Meanings` gives for each form |
| Metering.MemoryBoundsAnswer | src/assistant_evolution.rs:481-709 | whatever the slots of the host, if at least seven, the size of every answer is at most the memory charged for it plus five |
| Metering.OperationsBoundAnswer | src/assistant_evolution.rs:450-513 | however an expression is evaluated, at least one operation is counted, and at least one for each value in its answer |
| Meanings.LeavesMean | src/assistant_evolution.rs:578-605 | input, current item and literal mean the value given, the item in hand and themselves |
| Meanings.NumbersCompare | src/assistant_evolution.rs:726-749 | what each of the six operators answers on two numbers, by their order, or as they are stored for equality |
| Meanings.StringsCompare | src/assistant_evolution.rs:726-749 | what each answers on two texts: a proper prefix comes first, else the first byte that differs decides |
| Meanings.ComparisonsAnswer | src/assistant_evolution.rs:726-749 | a comparison means something exactly when both operands do and are two numbers, two texts or only asked to be equal |
| Meanings.ConjunctionMeans | src/assistant_evolution.rs:676-688 | a conjunction is true when all items are, false at the first that means anything else, and nothing when one before fails |
| Meanings.DisjunctionMeans | src/assistant_evolution.rs:689-701 | a disjunction is true at its first true item, false when none is, and nothing when one before fails |
| Meanings.NegationMeans | src/assistant_evolution.rs:702-706 | only the value true is negated to false |
| Meanings.MapMeansEach | src/assistant_evolution.rs:620-637 | a map means the meaning of its body for each item, in order, and nothing unless each means something |
| Meanings.FilterMeansKept | src/assistant_evolution.rs:639-658 | a filter means exactly the items whose condition means true, at their places, in order |
| Meanings.FieldMeansMember | src/assistant_evolution.rs:711-724 | a dotted path means the member of a member along its keys, null if there is none, and the whole value if it is empty |
| Evaluator.EvaluationIsSound | src/assistant_evolution.rs:560-709 | any run of the evaluator that follows its trace answers with the reference meaning, spends fuel as it counts operations, and charges for the size of its answer |
| Evaluator.Budget.Check | src/assistant_evolution.rs:450-466 | one operation and one unit of fuel, or a refusal exactly when the fuel is spent, the count is full or the stop is reached |
| Evaluator.Budget.Charge | src/assistant_evolution.rs:468-479 | memory is charged exactly, or refused over the limit |
| Evaluator.Budget.CloneValue | src/assistant_evolution.rs:481-513 | a copy is the value itself and is paid for item by item |
| Evaluator.Budget.Eval | src/assistant_evolution.rs:560-576 | evaluation follows the trace of charges and gives its answer exactly when all charges are accepted |
| Evaluator.Budget.EvalMap | src/assistant_evolution.rs:620-637 | mapping charges for its input, a slot for each item, then each item in order |
| Evaluator.Budget.EvalFilter | src/assistant_evolution.rs:639-658 | filtering keeps and copies exactly the items whose condition holds |
| Execution.ValidateDefinition | src/assistant_evolution.rs:316-338 | a definition is accepted or refused as its name, scope, size and expression require |
| Execution.Execute | src/assistant_evolution.rs:515-558 | a whole run charges its inputs, evaluates, and checks its output, giving exactly the specified result |
| Execution.ExecutionMeansReference | src/assistant_evolution.rs:515-558 | an accepted value is the reference meaning, fuel used equals operations, and an invalid-definition refusal is one the reference also gives |
| Execution.ExecutesExactlyWhenAffordable | src/assistant_evolution.rs:441-558 | a run succeeds exactly when the definition is valid, means something, is affordable, and its output fits |
| Execution.LargerBudgetsAgree | src/assistant_evolution.rs:441-558 | more fuel or memory never changes an answer or its cost |
| Registry.Store.Protect | src/assistant_evolution.rs:853-908 | protecting a suite changes the table exactly as specified, the silent duplicate included |
| Registry.Store.Designate | src/assistant_evolution.rs:910-960 | a candidate's required suites are named once, all existing |
| Registry.SuitePassesCheckExactlyWhen | src/assistant_evolution.rs:853-906 | a suite passes its check exactly if it is named, non-empty and within every bound, and no other cases are under its id; expected values are bounded only where a case has inputs |
| Registry.DesignatedExactlyWhen | src/assistant_evolution.rs:910-960 | undisturbed, designating succeeds exactly for some stored suites of a candidate, or those already required |
| Registry.Store.Evaluate | src/assistant_evolution.rs:962-992 | an evaluation appends one report that says whether every case passed |
| Registry.EvaluateCases | src/assistant_evolution.rs:1562-1585 | the case loop passes exactly when every case's own run gives its expected value |
| Registry.Store.Activate | src/assistant_evolution.rs:1155-1229 | activation succeeds exactly under a grant of that tool and scope that covers its labels, is not revoked and has not ended, with no retirement, every required suite passed and never failed, and the name's scope unchanged |
| Registry.Store.Assess | src/assistant_evolution.rs:1485-1520 | a regression or retirement retires, revokes and deactivates in one step; other outcomes change nothing |
| Registry.Store.Invoke | src/assistant_evolution.rs:1241-1303 | a result is returned exactly when the tool is active, its grant is not revoked, has not ended and covers the labels of tool and inputs, and the run succeeds; it is the tool's meaning, with the inputs' labels |
| RegistryRuns.AcceptedSuiteIsStored | src/assistant_evolution.rs:853-908 | over any interleaving, a suite that passed its check is stored by its insert exactly when no other cases have come under its id and no other id holds the same, and no two suites are ever alike |
| RegistryRuns.SameIdIsStoredOnce | src/assistant_evolution.rs:889-908 | a concrete run in which two connections protect different cases under one id, both pass the check, and only the first are stored |
| RegistryRuns.RetirementFence | src/assistant_evolution.rs:1112-1229 | under any interleaving a retired tool has only revoked grants and no active activation, and every activation's grant is its own tool's |
| RegistryRuns.RetiredNeverReturns | src/assistant_evolution.rs:1241-1303 | an invocation whose final recheck follows the retirement never returns a result |
| RegistryRuns.ReturnedResultIsTested | src/assistant_evolution.rs:1241-1303 | whatever returns is the meaning of the tool of the name asked for, which meets all that was required of it when its eligibility was read; its scope is the inputs' labels, within its grant |
| RegistryRuns.ActiveToolsMeetTheirTestsForEver | src/assistant_evolution.rs:853-1229 | a tool ever activated maps, for ever, every case of the suites required when its eligibility was read, which were some and stay required, to the expected value; its name's scope never changes |
| GrantRuns.ReturnedExactlyWhenGranted | src/assistant_evolution.rs:1241-1303 | over any run an evaluated result is returned exactly when its grant is not revoked and its end, if any, is still to come; the grant covers every label of the inputs and of the tool |
| GrantRuns.InvocationGoesOnExactlyWhen | src/assistant_evolution.rs:1241-1295 | each step of an invocation: the tool active, its grant standing and covering tool and inputs, the run successful within scope |
| GrantRuns.ActivationGoesOnExactlyWhen | src/assistant_evolution.rs:1155-1190 | each step of an activation before its write: a candidate, exactly the approved grant, standing and covering it, and no retirement |
| GrantRuns.ActivationIsWritten | src/assistant_evolution.rs:1202-1229 | over any run the last step of an activation writes it exactly when the grant is not revoked or ended, the tool not retired and its name not of another scope |
| GrantRuns.ActivationsAreGranted | src/assistant_evolution.rs:1155-1229 | whatever makes an activation active is such a step, under a grant of that tool that stands, covers its labels and has not ended |
| GrantRuns.RevocationIsFinal | src/assistant_evolution.rs:1144-1153 | once a grant is revoked nothing is ever returned under it and no activation by it is written |
| GrantRuns.ExpiryIsFinal | src/assistant_evolution.rs:1241-1303 | a grant past its end, which never moves, returns nothing and activates nothing at any point of any run |
| GrantRuns.RetirementIsFinal | src/assistant_evolution.rs:1485-1520 | an assessment that retires a tool revokes all its grants, deactivates it, and lets it be granted and return nothing ever after |
| GrantRuns.AssessmentRetiresExactlyWhen | src/assistant_evolution.rs:1485-1520 | an assessment takes effect exactly if it retires and names a candidate by its scope, and then on just that tool's rows |
| GrantRuns.EligibilityIsReadExactlyWhen | src/assistant_evolution.rs:1178-1200 | a tool is eligible exactly when a suite is required of it and each has a passing report stored and no failing one |
| GrantRuns.FailureIsFinal | src/assistant_evolution.rs:1178-1200 | after one failing report on a required suite no connection ever reads the tool as eligible again |
| GrantRuns.GrantsAreIssued | src/assistant_evolution.rs:1112-1142 | a grant appears only by being issued to a candidate not retired, covering its labels, its end still to come |
| GrantRuns.IssuedExactlyWhen | src/assistant_evolution.rs:1112-1142 | and exactly then a request for one succeeds, under a new id, with just that scope and end |
| GrantRuns.RegisteredExactlyWhen | src/assistant_evolution.rs:840-851 | a definition is registered exactly if its name, expression, size and evidence are within bounds, and keeps its first evidence |
| GrantRuns.OnlyCandidatesAreTried | src/assistant_evolution.rs:910-1229 | over any run suites are required, evaluated and activated only of candidates, and evaluated only if stored |
| GrantRuns.CandidatesAreValid | src/assistant_evolution.rs:316-338 | every candidate of every run has a name without blanks and fits the bounds of a definition |
| Designations.RequiredIsFinal | src/assistant_evolution.rs:910-960 | wherever a run has come, a tool's required suites never change again exactly if no designation in hand would add to them |
| Designations.AllTestsAreMetForEver | src/assistant_evolution.rs:910-1198 | a tool meets all that is required of it through every continuation exactly if it does now and no designation in hand would add a suite it fails or one not yet stored |
| Designations.ActiveToolFailsLaterTest | src/assistant_evolution.rs:910-1229 | a run in which any tool that passes one case and fails another is activated on the first, and another connection then adds the second to what is required of it |
| Designations.CutDesignationStaysCut | src/assistant_evolution.rs:924-960 | a run in which a designation of any tool dies after its first suite, which alone is required for ever after |
| JobTables.RepairLeavesEnd | src/assistant_coordinator.rs:653-881 | any recovery write on any rows leaves the state recovery will end in unchanged |
| JobTables.InterruptedRecoveryEndsAlike | src/assistant_coordinator.rs:653-881 | a recovery interrupted after any writes and run again ends where one uninterrupted run would |
| JobRuns.WorkerStartsAtMostOnce | src/assistant_coordinator.rs:286-555 | over any run with crashes and recoveries a job's worker starts at most once |
| JobRuns.DispatchedIsNeverReleased | src/assistant_coordinator.rs:446-555 | a reservation ever dispatched is never reserved again or released |
| JobRuns.ReservationsAreWrittenAhead | src/assistant_coordinator.rs:286-318 | no reservation is reserved or dispatched without its durable queue row |
| JobRuns.ForgottenJobsNeverStart | src/assistant_coordinator.rs:413-521 | whoever raises the forget epoch, and wherever a run has come, no job of an older epoch starts after it through any crashes and recoveries, exactly unless one is already past its last check of the epoch |
| JobRuns.OwnForgettingIsAbsolute | src/assistant_coordinator.rs:413-427 | in a run where only the coordinator forgets no older job is ever past that check, and every start is of the epoch its job was enqueued under |
| JobRuns.RiseAfterCheckIsMissed | src/assistant_coordinator.rs:450-521 | a concrete run in which the epoch rises between the check and the dispatch mark, and the job starts |
| JobEffects.CancelledNeverStarts | src/assistant_coordinator.rs:385-470 | wherever a run has come, a waiting job that is cancelled is not started by any events, unless the process dies or the job is enqueued anew |
| JobEffects.CrashForgetsCancellation | src/assistant_coordinator.rs:385-881 | a concrete run in which the process dies after the cancellation, recovery restores the job and it starts |
| JobEffects.OrphanNeverStarts | src/assistant_coordinator.rs:446-470 | a job taken without a record it depends on is not started by any events, under the same exceptions |
| JobEffects.HeadStartsExactlyWhen | src/assistant_coordinator.rs:446-521 | the head of the queue starts exactly when the epoch is its own, its dependencies are there and it was not cancelled; else it is released and its row deleted, and nothing else changes |
| JobEffects.EnqueuedExactlyWhen | src/assistant_coordinator.rs:286-318 | a job joins the end of the queue exactly within the bounds, admitted, under new ids and accepted by the ledger; a refusal by the ledger leaves the intent row, any other nothing |
| JobEffects.OutcomeIsTheAnswer | src/assistant_coordinator.rs:523-555 | row and ledger both end completed or failed exactly as the worker answered, and unknown otherwise |
| JobEffects.OutcomesAreAnswered | src/assistant_coordinator.rs:523-555 | over any run with crashes and recoveries a row or reservation is completed or failed only if its own worker answered so |
| JobEffects.ForgettingLeavesNothing | src/assistant_coordinator.rs:413-427 | wherever a run has come, forgetting ends with no job waiting, every waiting reservation released, no undispatched row, and all else as it was |
| JobEffects.RecoveryDecides | src/assistant_coordinator.rs:653-881 | what recovery makes of each row and reservation: exactly a current reservation stays waiting, what may have been sent is unknown, what is set aside loses its prompt, what was finished stays |
| JobEffects.SettledForEver | src/assistant_coordinator.rs:413-881 | from any stores, a settled or released entry and a finished row never change again |
| Coordinator.Host.EnqueueChild | src/assistant_coordinator.rs:286-318 | enqueueing is the write-ahead run: intent, reservation, reserved row, queue |
| Coordinator.Host.TakeReadyJob | src/assistant_coordinator.rs:446-487 | the next job is given, or released and deleted, as the run specifies, whose exact condition is `JobEffects.HeadStartsExactlyWhen` |
| Coordinator.Host.BeginDispatch | src/assistant_coordinator.rs:500-521 | the ledger, then the row, are marked dispatched before the worker starts |
| Coordinator.Host.FinishDispatch | src/assistant_coordinator.rs:523-555 | the outcome goes to the ledger, then to the row; anything unclear is unknown |
| Coordinator.Host.RunOne | src/assistant_coordinator.rs:435-498 | running a job is exactly the specified run of steps, and starts at most one worker |
| Coordinator.Host.CancelJob | src/assistant_coordinator.rs:385-399 | exactly the waiting entries of the job are marked, and it says whether the job was there |
| Coordinator.Host.ForgetAll | src/assistant_coordinator.rs:413-427 | the epoch rises first, then every waiting job is released, then undispatched rows go |
| Recovery.Process.QuarantineUnknown | src/assistant_coordinator.rs:674-698 | the unknown rows are listed, each once, wherever the process dies the same end remains |
| Recovery.Process.RecoverIntents | src/assistant_coordinator.rs:700-743 | every intent is released or set aside, in any order of rows, and the end stays the same |
| Recovery.Process.RecoverStaleReservations | src/assistant_coordinator.rs:745-797 | reservations of an older epoch are released or set aside |
| Recovery.Process.RestoreReservedJobs | src/assistant_coordinator.rs:809-881 | current reservations are queued again, each once, in order of creation and id |
| Recovery.Process.RecoverQueuedJobs | src/assistant_coordinator.rs:653-672 | a recovery that lives ends in the recovered state, no row an intent or dispatched and every reserved one current and reserved in the ledger, with the queue and the quarantine list exact; one that dies leaves the same end to reach |
| Observations.Feed.Observe | src/assistant_coordinator.rs:169-270 | a batch is taken whole exactly when admissible, else nothing changes; memory and table agree and the revision counts the changes |
| Observations.TakenExactlyWhen | src/assistant_coordinator.rs:169-211 | a batch is admissible exactly if it has at most 256 items, its identities are of 1 to 256 bytes and its summaries of at most four KiB without control characters, and at most 256 keys would be on file |
| Observations.ReportedExactlyWhen | src/assistant_coordinator.rs:212-236 | an item is reported exactly if none on file is newer and it is the first of its key or differs in project, status, summary or revision |
| Observations.QuietBatchOnlyRefreshes | src/assistant_coordinator.rs:222-236 | a batch that reports nothing changes nothing but times, which only rise |
| Observations.WinnerIsLatest | src/assistant_coordinator.rs:169-270 | the item kept for a key is its last arrival among those observed latest |
| Observations.LastWriterWins | src/assistant_coordinator.rs:169-270 | after any batches, failed writes, deaths and restarts, in the midst of a batch or not, each key holds the latest arrival among the greatest observation times, and at most 256 keys exist |
| ControlRuns.DispatchIsControlled | src/assistant_control.rs:683-972 | over any run with failures and restarts each request is begun at most once, never while paused, blocked or active, ten seconds after its material appeared, on a shared board under an enabled approval that has not ended, with its dispatch on record |
| ControlRuns.ChargesStayApproved | src/assistant_lifecycle.rs:285-393 | the calls charged to background work never exceed the largest approved allowance |
| ControlRuns.PendingRevocationsBlock | src/assistant_control.rs:218-271 | a pending revocation implies that context is blocked |
| ControlRuns.OnlyRecoveryUnblocks | src/assistant_control.rs:277-307 | only recovery unblocks, exactly when every revocation can be finished and its writes succeed, and then every unknown root is acknowledged |
| ControlRuns.UnknownBlocksAtOnce | src/assistant_control.rs:533-796 | whatever turns a root unknown leaves context as it was, except a tick, which blocks it exactly unless the blocking write fails; only ticks, restarts and unknown upkeep outcomes do |
| ControlRuns.AbandonedJob | src/assistant_control.rs:742-749 | an abandoned job is unknown if its settlement is written and else stays dispatched, and context is blocked exactly when that write and its own succeed |
| ControlRuns.RestartDoesNotBlock | src/assistant_lifecycle.rs:96-118 | a restart makes exactly the dispatched roots unknown and leaves context as open as it was |
| ControlRuns.JobIsBegun | src/assistant_control.rs:683-972 | a concrete run that begins a job, with context open |
| ControlRuns.RestartLeavesContextOpen | src/assistant_lifecycle.rs:96-118 | that run and a restart reach an unknown root with context open |
| ControlRuns.UpkeepLeavesContextOpen | src/assistant_control.rs:533-566 | a concrete run in which upkeep ends unknown with context open |
| ControlRuns.NoJobOutlivesItsTime | src/assistant_control.rs:683-796 | a tick whose accesses all work ends a job that is past its deadline or its time on either clock, and begins none under its id, exactly unless context is blocked, no cancellation is pending and a revocation cannot be finished |
| ControlRuns.JobOutlivesItsTime | src/assistant_control.rs:242-276 | a concrete run after which a job stays active through any number of ticks at any times, because its board's cleanup keeps failing |
| ControlGates.PauseHolds | src/assistant_control.rs:628-654 | from every reachable state, once a pause is written no events but a resumption begin, reserve or dispatch anything, through restarts, forgetting and failures, and approval and upkeep are refused |
| ControlGates.PauseEndsTheJob | src/assistant_control.rs:628-749 | the first tick without failures after a pause ends the active job, whatever but a resumption comes between |
| ControlGates.DisablementHolds | src/assistant_control.rs:655-664 | a disablement holds in the same way until work is approved anew, resumed or not |
| ControlGates.RevokedBoardStaysOut | src/assistant_control.rs:218-240 | once a board is withdrawn no job is begun for it until it is shared again |
| ControlGates.BegunTwiceSeen | src/assistant_control.rs:798-972 | the material of every job begun was on the board at its tick and at one ten seconds before or more, with the board shared and the approval enabled, unpaused and not ended |
| ControlGates.ApprovedExactlyWhen | src/assistant_control.rs:399-484 | approval succeeds exactly when context is open and unpaused, the board shared, the calls within the foreground's, the end to come and no access fails; then just that is approved and queued roots are cancelled |
| ControlGates.ResumedExactlyWhen | src/assistant_control.rs:634-654 | resuming succeeds exactly when context is open, what is enabled has not ended and no access fails |
| ControlGates.UpkeepAdmittedExactlyWhen | src/assistant_control.rs:486-531 | an upkeep call is admitted exactly under the expected approval, unpaused, open, nothing uncertain, the foreground idle and a call left, and is charged before it is sent |
| ControlGates.ReceiptSettlesTheJob | src/assistant_control.rs:778-796 | a completed receipt of one to four calls settles the active job with just those calls |
| ControlGates.StoppedExactlyWhen | src/assistant_control.rs:628-664 | pausing and disabling succeed exactly when no access of theirs fails, and save their flag, cancel queued roots and mark the job for cancellation |
| ControlEffects.BeginsExactlyWhen | src/assistant_control.rs:683-972 | with no job active, context open and no failures, a tick begins one exactly when the clock has moved on, the session is free and permitted for it, nothing is paused, a board approval covers it and new material has stood for ten seconds |
| ControlEffects.UnreceiptedExactlyWhen | src/assistant_control.rs:742-796 | without a receipt the active job ends as unknown, blocking context, exactly when it is past its deadline or terminal, and is else left alone |
| ControlEffects.EarlyTickChangesNothing | src/assistant_control.rs:712-776 | a tick too soon after the last, on a clock that did not go back, changes nothing |
| ControlEffects.RestoresExactlyWhen | src/assistant_control.rs:846-905 | a missing session is restored once, unless the native conversation has the foreground, and anything uncertain blocks context instead |
| ControlEffects.CompletionsAreReceipted | src/assistant_control.rs:778-796 | over any run a board job is completed only by its own receipt of one to four calls, found at a tick while it was active, and just those are charged |
| ControlEffects.UpkeepFinishedExactlyWhen | src/assistant_control.rs:533-566 | an upkeep call ends as its worker says exactly when its root is dispatched, already ended so, or unknown and delivered |
| ControlEffects.UpkeepReleasedExactlyWhen | src/assistant_control.rs:568-626 | a call that never left is completed at no cost, in the same way |
| ControlEffects.RestartAbandons | src/assistant_lifecycle.rs:96-118 | what a restart makes of every root and of what was in memory |
| ControlEffects.ForgettingWithdraws | src/assistant_retention.rs:170-262 | forgetting withdraws every share, keeps pending revocations, blocks context and takes the approval away |
| ControlEffects.WithdrawalIsRecorded | src/assistant_control.rs:218-271 | a withdrawn board's revocation blocks context and stays on record until its memory is forgotten and cleaned up |
| Controller.TotalSpent | src/assistant_lifecycle.rs:460-467 | the charged total is the sum over all roots of confirmed or reserved calls |
| Controller.Host.AbandonActive | src/assistant_control.rs:742-749 | the active job is dropped, settled as unknown and context blocked, up to the write that fails |
| Controller.Host.DispatchBackground | src/assistant_control.rs:939-972 | reservation and dispatch mark precede the session; an error from it is settled as unknown and blocks |
| Controller.Host.Tick | src/assistant_control.rs:683-710 | one tick is exactly its phases in order, ending at the first that stops or fails |
| Controller.Host.Pause | src/assistant_control.rs:628-633 | the pause flag, the saved approval and the queued roots change in order, up to the write that fails; what that prevents is `ControlGates.PauseHolds` |
| Controller.Host.Resume | src/assistant_control.rs:634-654 | resuming is refused while blocked or expired |
| Controller.Host.RevokeBoard | src/assistant_control.rs:218-240 | the share goes as its revocation is recorded and context blocked, then work stops and cleanup starts |
| Controller.Host.Recovered | src/assistant_control.rs:277-307 | revocations first, then acknowledgements, then the unblocking |
| Lease.OneHolder | src/activity_lease.rs:39-74 | all handles alive at one time are of one open file and one observer |
| Lease.AcquiredExactlyWhenFree | src/activity_lease.rs:39-66 | asking gives a lease exactly when the asker still has it or nobody has anything, and then it is the living handles' own |
| Lease.NobodyWhileDraining | src/activity_lease.rs:68-74 | while a released lease still has a handle, nobody gets a new one |
| Lease.DeathFreesItsOwn | src/activity_lease.rs:39-74 | a process that dies loses its own leases and handles and no others, and the lock is free exactly if it had all there was |
| Lease.HandleStaysUntilEnded | src/activity_lease.rs:39-74 | a handle stays on its file until a step that ends it, and a new one is of its observer's lease |
| Lease.System.Acquire | src/activity_lease.rs:41-66 | acquisition, refusal and the disabled case change slots, handles and lock as specified |
| Lease.System.Current | src/activity_lease.rs:68-70 | a remote worker shares what its observer holds and never takes the lock itself |
| Lease.System.Release | src/activity_lease.rs:72-74 | release empties the slot and gives up the lock only with the last reference |
| Observer.NoCommitIsLost | src/activity_observer.rs:300-341 | over any run the held baseline exceeds what was published exactly before the first reload and after a gap at start-up, and a working poll publishes every earlier commit exactly unless it finds that baseline again |
| Observer.StartIsSafeExactlyWithoutGap | src/activity_observer.rs:35-66 | from start-up the baseline is safe over every run exactly if there is no watcher yet or no commit before it |
| Observer.StartMayMissCommits | src/activity_observer.rs:35-158 | a follower whose watcher came after the first frame shows nothing of the commits between, for any number of quiet turns |
| Observer.HandoffClosesTheGap | src/activity_observer.rs:66-98 | after an exact open, however long it stays paused, the first turn that is let run shows them if its cache read works, and the baseline is safe for ever after |
| Observer.LivenessIsExact | src/activity_observer.rs:66-251 | at every publication a launch is shown live exactly if the latest successful reconciliation's inventory has it pending and alive, every read since has the identical row, and there was no pause, lost lease or failure |
| Observer.LivenessIsEarned | src/activity_observer.rs:66-251 | whatever is held as live was proven by the inventory of the latest turn that reconciled, and the loop was let run and held the lease ever since |
| Observer.TurnLeaves | src/activity_observer.rs:66-158 | a turn that is paused, without the lease or fails to reconcile leaves no evidence; one that reconciles leaves what its inventory proves; any other only what there was |
| Observer.ProvenIsPublished | src/activity_observer.rs:99-138 | a turn that reconciles and can read the board publishes exactly the launches pending and alive in its inventory and still stored unchanged |
| Observer.ReconcilesExactlyWhenDue | src/activity_observer.rs:66-138 | a turn reconciles exactly when it is let run, holds the lease, its time has come and it is neither stopped nor the handoff |
| Observer.NextIsDue | src/activity_observer.rs:66-158 | the next reconciliation is due at once after a pause or a request, and twenty seconds after the last one or the handoff |
| Observer.PollReadsExactlyWhen | src/activity_observer.rs:300-341 | a poll reads and shows the board exactly when its look works and there was no baseline or something was committed since; a failure leaves no baseline |
| Observer.Loop.ShowChanges | src/activity_observer.rs:308-341 | a poll reloads exactly when asked to, and a failed reload forgets the watcher |
| Observer.Loop.InvalidateEvidence | src/activity_observer.rs:242-251 | evidence is dropped and the board shown without it, if there was any |
| Observer.Loop.TakeTurn | src/activity_observer.rs:66-158 | one turn of the loop is exactly its parts in order |
| Utf8.RoundTrip | src/activity_feed.rs:776-780 | every text is read back from its bytes |
| Utf8.DecodeIsStrict | src/activity_feed.rs:776-780 | only the encoding of a text is accepted as that text |
| FeedText.BuildSafeLabel | src/activity_feed.rs:904-916 | the loop keeps whole inert characters up to 160 bytes, trimmed |
| FeedText.SafeLabelIsSafe | src/activity_feed.rs:904-916 | a label is always safe, and exactly the safe texts are labels of themselves |
| FeedText.LabelsAreInert | src/activity_feed.rs:904-916 | the characters of a label, by code point: no control character and none that a terminal multiplexer expands |
| FeedText.InertIsKept | src/activity_feed.rs:904-916 | and every such character is kept |
| FeedCodec.PrintedIsRead | src/activity_feed.rs:918-1032 | every version of a valid summary is read as what that version says, which is valid |
| FeedCodec.CurrentVersionRoundTrip | src/activity_feed.rs:948-1032 | the current version carries a summary exactly when it is valid |
| FeedCodec.ReadIsValid | src/activity_feed.rs:957-1032 | whatever is read is valid for the wire |
| FeedCodec.ReturnRoundTrip | src/activity_feed.rs:104-156 | a return status is carried exactly when its session id is valid |
| FeedReceiver.Receiver.Push | src/activity_feed.rs:776-797 | one byte is held, ends a frame or ends the feed, and at most 512 bytes are ever held |
| FeedReceiver.Receiver.Receive | src/activity_feed.rs:735-797 | however the bytes are cut the outcome is that of the whole stream |
| FeedReceiver.CutAnywhere | src/activity_feed.rs:735-797 | any list of valid frames, in any versions, cut at any bytes, is received as exactly what it meant |
| FeedReceiver.PublishedIsValid | src/activity_feed.rs:776-797 | whatever bytes arrive, only valid frames are published |
| FeedReceiver.ReceivedExactlyWhen | src/activity_feed.rs:735-797 | a feed is received as these frames exactly if it consists of as many ended lines of at most 512 bytes of UTF-8 that read as them |
| FeedSummary.GreatestIsGreatest | src/activity_feed.rs:850-885 | the chosen row calls for attention and no calling row comes later in the order |
| FeedSummary.ComparedIsBefore | src/activity_feed.rs:861-880 | the order of rows is by time, then machine, of which none comes first, then provider name, then session id |
| FeedSummary.AttentionIsLatest | src/activity_feed.rs:850-899 | the label is that of the latest confirmed row that needs the user, else of the latest ready one, none exactly without such a row or a safe label, and the kind says what is wrong with it |
| FeedSummary.CountsAddUp | src/activity_feed.rs:817-849 | every matching row is counted in exactly one group |
| FeedSummary.CountsAreOfRows | src/activity_feed.rs:817-849 | the four counts are the numbers of matching rows that need the user, work or are ready while their machine is current, and of all others |
| FeedSummary.SummariesAreValid | src/activity_feed.rs:830-899 | a summary of any board is valid for the wire exactly when no count exceeds a million |
| Decisions.AuthorshipSurvives | src/assistant_decisions.rs:336-499 | after any operations on a decision without lineage, with any other records and revisions in between, recall names exactly the last record whose words changed, and its author |
| Decisions.PredecessorIsKept | src/assistant_decisions.rs:210-399 | after any chain, the next revision lists its predecessor within 64 dependencies, and a confirmation its receipt |
| Decisions.LinksAreKept | src/assistant_memory.rs:829-860 | over any chain, with any other records in between, every link goes to an earlier record of a scope that permits it, and nothing stored changes |
| Decisions.GroundsAreKept | src/assistant_decisions.rs:336-399 | the closure of the current record contains the first record and all it rested on, even when the list is cut |
| Decisions.GrantedExactlyWhenCurrent | src/assistant_memory.rs:721-769 | after any chain in a well-linked store, an operation with a record to append is granted exactly when its predecessor is current and its texts fit |
| Decisions.ConfirmationIsNotFinal | src/assistant_decisions.rs:84-239 | after any chain, a confirmed commitment is changed by exactly a granted report or a confirmation by another receipt |
| Decisions.DoneStaysDone | src/assistant_decisions.rs:84-239 | over any chain a commitment reported or confirmed is never open again, and is never scheduled again |
| Decisions.ConfirmedThenReported | src/assistant_decisions.rs:142-239 | a concrete commitment that is confirmed by its receipt and then ends as merely reported |
| DecisionEffects.PerformedExactlyWhen | src/assistant_decisions.rs:84-499 | an operation is granted exactly to a person on the current record of an unprotected, unsuperseded decision in its scope with what it needs, and changes the state, due time, completion or words as asked and nothing else |
| DecisionEffects.ConfirmationsHaveReceipts | src/assistant_decisions.rs:180-239 | over any chain a commitment is confirmed only by a successful native receipt of its scope |
| DecisionEffects.CorrectedExactlyWhen | src/assistant_decisions.rs:501-534 | a correction is recorded exactly for a person's stated text on an unprotected record in scope that is no decision, and replaces its words alone |
| Memory.AuthorityIsHuman | src/assistant_memory.rs:634-670 | whatever a store was asked to append, only people's records instruct, protect, supersede or decide, and every link goes to an earlier record whose scope permits it |
| Memory.AppendedExactlyWhen | src/assistant_memory.rs:505-860 | a record is appended, after all that is stored, exactly if its texts fit and it claims no more than that |
| Memory.RevisedExactlyWhen | src/assistant_memory.rs:721-769 | a revision is granted exactly to a person who lists what it replaces and is the first to replace it |
| Memory.PermittedExactlyIfNarrower | src/assistant_memory.rs:50-59 | a destination is permitted exactly if it meets every demand of the scope |
| Decisions.History.Perform | src/assistant_decisions.rs:84-499 | an operation appends exactly its revision or changes nothing |
| Lineage.FindSemanticKind | src/assistant_briefing.rs:187-234 | the loop gives the specified walk's answer and leaves its lookups |
| Lineage.CorrectionsKeepTheirRoot | src/assistant_decisions.rs:501-534 | a correction of any length is an instruction exactly when its root is a person's, and both classifiers agree whatever is supplied |
| Lineage.NothingIsPromoted | src/assistant_briefing.rs:342-368 | even with older corrections neither classifier calls anything else an instruction |
| Lineage.LegacyIsFoundWhenNear | src/assistant_briefing.rs:187-234 | an older correction's kind is found exactly within 128 ancestors and the lookups left |
| Lineage.LegacyIsFoundWhenSupplied | src/assistant_briefing.rs:342-368 | a briefing calls an older correction an instruction exactly when its root is one and every record up to the one that tells it is supplied |
| Briefing.ReadPage | src/assistant_memory.rs:1115-1133 | the page loop keeps rows within its count and bytes and says when it cut |
| Briefing.AppendBounded | src/assistant_briefing.rs:170-184 | records are appended in order while bytes allow |
| Briefing.LoadAt | src/assistant_briefing.rs:106-169 | due commitments, then seven typed pages, are loaded as specified |
| Briefing.LoadIsBounded | src/assistant_briefing.rs:106-184 | at most 256 records and 256 KiB are loaded, none twice |
| Briefing.OmissionsAreDisclosed | src/assistant_briefing.rs:106-184 | a returned record that is missing is always covered by the disclosed limits |
| Briefing.ClassifyCorrections | src/assistant_briefing.rs:143-155 | corrections called instructions have an instruction as root, and those that do are called so or reported unresolved |
| Guidance.EvidenceSupport | src/assistant_guidance.rs:229-267 | the walk ends on every graph and succeeds exactly when the reachable records are at most 64 and all active, with exact flags |
| Guidance.ApplicableGuidance | src/assistant_guidance.rs:430-508 | the loop walks each candidate's evidence and gives the first enabled standing record of each key, up to the limit |
| Guidance.WhatSpeaksIsSupported | src/assistant_guidance.rs:205-267 | all that applies is lasting and rests on at most 64 reachable records, all active, one of them a person's and none of those transient or quoted |
| Guidance.WithdrawnEvidenceSilences | src/assistant_guidance.rs:323-508 | once a record is forgotten or superseded, with any others then or later, no guidance that it was reachable evidence of applies, whatever the switches |
| Guidance.OneVoicePerKey | src/assistant_guidance.rs:324-508 | at most one record per key; after a switch no other record of that scope and key, and it only if on |
| Guidance.SwitchedOnSpeaks | src/assistant_guidance.rs:324-508 | a record switched on applies exactly unless its key is taken by an earlier one of another scope |
| Guidance.SpeaksExactlyWhen | src/assistant_guidance.rs:430-508 | a candidate applies exactly when it is standing, is not displaced by a selection, was not switched off, and no earlier one contends for its key, on or off |
| Guidance.Switchboard.Switch | src/assistant_guidance.rs:324-392 | a control changes one switch and one selection exactly for current standing guidance that nothing disturbed, else nothing |
| Context.Builder.TryInclude | src/assistant_context.rs:299-333 | a rejected record leaves the package exactly as before |
| Context.Builder.PutMethod | src/assistant_context.rs:216-247 | a method comes with all its sources or not at all |
| Context.Builder.PutTools | src/assistant_context.rs:188-214 | tools that do not fit are taken out again |
| Context.Builder.BuildPackage | src/assistant_context.rs:31-75 | a build is exactly its phases in order and the final check |
| Context.BuiltIsSound | src/assistant_context.rs:31-333 | for any size function a built package is within its limit, has at most 64 sources, distinct records with one current source each, and all required records |
| Context.EnvelopeCheckFires | src/assistant_context.rs:31-75 | the final check fires exactly when nothing was added and the empty package does not fit |
| Packing.BuiltExactlyWhen | src/assistant_context.rs:31-187 | where every record has a version, a package is built exactly when the request is within bounds, every required record may be sent and is no draft, and all of them together fit |
| Packing.LeftOutDoesNotFit | src/assistant_context.rs:86-333 | for any encoding that is no shorter with more in it, whatever the queries gave and the package lacks would exceed its limit or 64 sources |
| Packing.ToolsAndMethodsDoNotFit | src/assistant_context.rs:188-247 | so would the tools, all or none, and any method left out; no others are put in |
| Packing.EarlyIsNotDisplaced | src/assistant_context.rs:31-247 | policy, guidance and the eight latest instructions go in before anything else, and one is left out only if it did not fit even then |
| Packing.OnlyWhatWasFound | src/assistant_context.rs:86-298 | nothing else is in a package, and what was learned only as guidance, due, standing, policy or required |

## Left out

- SQLite, files, permissions, processes, sockets and threads as such: only durable tables, locks and the order of writes are modelled.
- Registry.Store.Assess: an assessment without evidence text or with an unknown outcome, which is refused and changes nothing, is not modelled.
- Registry catalog, comparisons, observations and baselines, which change no state that the theorems speak of; `rollback` is an activation with a name check. Full forgetting deletes the registry's tables; the registry's theorems hold between forgettings.
- Looking up a candidate, and the suites a designation wants, is one step with the read after or before it: both tables only grow, so no run is lost.
- Failure texts and error subtypes beyond the ones the branches need.
- Evaluator.Budget.Check: says nothing of the budget after a refusal, because a refusal ends the run and its budget with it.
- Json.MeasureValue: saturation of size arithmetic at the machine word is not modelled, because no value that fits its limit comes near it; object entries are in key order with distinct keys, and the two signed zeros are not told apart.
- Execution.Execute: the order of numbers is that of their IEEE total order rank, and the blank check of a name covers ASCII only.
- Coordinator.Host.EnqueueChild: the worker runs synchronously and there is one host; besides crashes, only enqueueing may be refused. A refused dispatch mark is not modelled, because forgetting could then drop a row without releasing its reservation.
- Coordinator.Host.ForgetAll: no other holder of the memory store raises the forget epoch while one of the host's methods runs; between any two steps of a run it may (`JobRuns`).
- Observations.Feed.Observe: the memory records appended for each change are not modelled, and its writes succeed; a batch that a failed write cuts short is an event of `Observations.LastWriterWins`.
- Controller.Host.Tick: the prompt text, the notices, the observer's start and the policy's stored allowance are not modelled; of the first three only failure matters, and the last never feeds back.
- Controller.Host.FinishMeasured: confirmed calls and deadlines are unbounded integers except where a deadline would overflow 64 bits.
- Secondary components attached to the same owner store, and board previews before sharing.
- Lease.System.Acquire: errors of the lock call other than contention count as the file not opening.
- Observer.Loop.TakeTurn: the failure counter behind the delay indicator, remote refreshes and the publisher's stop flag.
- FeedReceiver.Receiver.Receive: the fifteen-second silence limit, and publication to the terminal, whose errors are ignored.
- FeedSummary.AttentionIsLatest: the board filter is any predicate, and an agent's display name is a field.
- Exact canonicity of frames: numbers may be written with leading zeros or a plus, so only reading after printing is the identity.
- Decisions.History.Perform: white space beyond ASCII counts as text; repeating a request id, which returns the first answer, and deletion of records are not modelled; record sizes are one condition.
- Lineage.FindSemanticKind: provenance longer than 16 KiB, which the ancestry lookup cuts, is not modelled.
- Briefing.LoadAt: the queries' selection and order are their result; the briefing's own sections are not built.
- Guidance.ApplicableGuidance: candidate selection, and whether a candidate's wording, source versions and source scopes are still valid, are parameters.
- Guidance.EvidenceSupport: the wording rules for transient or quoted text are one predicate.
- Context.Builder.BuildPackage: searches, working set, guidance and methods are what their queries return; the methods' sources are current, as their own validation leaves them.
- The terminal interface, client, consultation permissions, continuity, authoring, feedback and investigation wrappers, which would add only single-step members.
