# Durable protocols of the telco health-check operator

This project models, in Dafny 4.11, the protocols by which the operator keeps its promises across
failures, conflicts and crashes, and proves them over all runs. `dafny verify dfyconfig.toml` checks it.

| files | subject |
|---|---|
| `Options`, `RunStatus`, `HubRunStatus`, `HubRunRead` | the stored run status, its sync from the hub run, the reads behind it, event routing |
| `AlertDelivery`, `AlertPasses`, `AlertMachine`, `AlertRefinement`, `AlertGuarantees`, `AlertRenewal` | the durable queue of action-required alerts and their renewal |
| `RunRecord`, `RunRecordClient`, `CreationMachine`, `CreationRefinement`, `CreationGuarantees`, `CreationLimits` | record-before-run creation, its two-write finish, recovery |
| `PeriodicSchedule`, `ScheduleMachine` | schedule claims and the next wake-up |
| `RunNames`, `AlertRules`, `AlertManagerConfig` | run names, the rules printer and its two scanners, configuration rewriting |

Code that works step by step is a class or a method with the same loops and branches, proved equal to a
specification function (`PassSpec`, `Finish`, `Created`, `Recovered`, `ChecksSpec`, ...). Those functions take as
input all that the code meets: how each read and write ends (it works, fails, or takes effect although its answer is
lost), what others write in between, and the clock. The protocols are also state machines whose steps are single
accesses to the API server or single POSTs, in any interleaving, with a crash possible after each.
`AlertRefinement.PassRun`, `CreationRefinement.CreationRun` and `RecoveryRun`, and `ScheduleMachine.PassRun` show that
what such a specification function returns is reached by a run of the machine, so what holds of every run of a machine
holds of the code, under the conditions named in their rows. Interference that those functions do not take as input,
such as two finishes of one record at once, is in the machines only.

Conventions. Instants are nanoseconds and stored instants are floored to seconds. Optimistic locking is modelled
by a version that every write raises. The digest behind run keys and run names, the lower-casing of alert names,
clock readings and answers of servers are parameters; nothing is assumed about them except where a lemma says so.
A POST that the Alertmanager took counts as accepted even when its response was lost.
A create that the API server turns down as unacceptable (a status from 400 on, but for 409 and 429) has not taken
effect; behind a conflict, throttling, an error of the server or a lost answer it may have.

Findings, each with a concrete run or an exact condition:

- Switching delivery off and on can leave a delivered firing unresolved (`SwitchingOffLeavesFiring` is such a run).
  With an empty queue, and no initial firing missing, the Alertmanager was last told something else than the record
  says exactly when its last POST is a firing and something queued after it was dropped (`AgreementExactly`). While
  delivery stays configured nothing is dropped, and only a missing initial firing, that of a record first seen with
  the action "True", can make the two disagree (`QuietAgreement`).
- Two firing periods that begin within one second share their start. The acknowledgement of an older firing sets the
  delivery time of the current one exactly when the queue still ends with a firing of that same start
  (`OlderFiringMarks`; `SameSecondMarksEarly` is a run). So a set delivery time tells of a delivery only when the
  queue is empty (`QuietFiringWasPosted`).
- Recovery deletes an incomplete record by name, without a version. If `Begin` writes the identity after that record
  was listed, the run it goes on to create has no record, and a second create can be sent under the same name
  (`LooseBoundsRace` gives both runs). If recovery passes do not overlap, the race is excluded exactly when the time
  that `Begin` may take and the lag of a pass add up to no more than the grace period (`GraceIsExact`). (Passes that
  overlap are not covered by that bound.) A run is free of the race exactly when it never loses the record of a
  committed identity (`RaceFreeExactly`).
- `Failed` is untrue if a create takes effect after the grace period (`LateCreateContradictsFailed`) or if a run is
  deleted while its record is pending (`DeletedRunCalledFailed`). It is true exactly when neither can happen and the
  race above cannot either (`FailedIsExact`; `FailedIsExactWithoutRace` for runs free of the race). `Created` is true
  in every run free of the race (`TruthfulOutcomes`), and in no run at all is it written without a run
  (`CreatedMeansRun`).
- A condition whose reason is `Pending`, or empty with no summary, is overwritten by a late finish, and only such a
  one (`OverwrittenExactlyWhenOpen`). Elsewhere reasons are assumed to be neither.
- Claims of a check exclude each other even when others write the stored times, exactly as long as nobody sets the
  time of a claimed check back before its claim (`ScheduleExclusive`, `ResetExactly`).
- A claim of a check that is committed although its answer is lost takes the interval without a run
  (`LostAnswerSkipsRun`); every claim that is answered gets its tasks, and no other (`TasksMatchClaims`).
- A route that is present but not a map is replaced by an upsert, and only such a one (`RouteKeptExactly`).

## Model

| member | source | states |
|---|---|---|
| AlertGuarantees.LosslessFifo | internal/controller/runalerts.go:201-275 | in every reachable state, settled notifications followed by the queue are exactly those ever queued; each delivered one was accepted by a POST made for its own place in the queue; every accepted POST is for a notification at its own place, in order, or a renewal of a delivered firing, after which that firing is not delivered again; a firing is posted to end five minutes after the POST, a resolution with the end it was queued with, after its start |
| AlertGuarantees.PostsInTurn | internal/controller/runalerts.go:201-275 | in every reachable state, a step adds to the log at most one POST, and that is the head of the queue in its own place or, with an empty queue, a renewal of the notification settled last, a delivered firing; each with the right end |
| AlertGuarantees.NeverDeliveredAgain | internal/controller/runalerts.go:206-218 | between any two reachable states, no POST delivers a notification that had left the queue, and only the last of those may be renewed |
| AlertGuarantees.NothingDropped | internal/controller/runalerts.go:169-180 | while delivery stays configured, everything taken off the queue was accepted by the Alertmanager, each at its own place |
| AlertGuarantees.QuietFiringWasPosted | internal/controller/runalerts.go:184-244 | with an empty queue and a start time set, the last accepted POST is a firing of that period and its delivery time is known, even after delivery was switched off and on |
| AlertGuarantees.QuietAgreement | internal/controller/hubrunstatus.go:135-165 | while delivery stays configured and the queue is empty, the last accepted POST is a firing exactly when the action is "True", if and only if the record does not still need its initial firing; and it never does unless it was first seen with "True" |
| AlertGuarantees.AgreementExactly | internal/controller/runalerts.go:169-180 | in any reachable state with an empty queue and no initial firing missing, that agreement holds if and only if it is not the case that the last POST is a firing and something queued after it was dropped |
| AlertGuarantees.SwitchingOffLeavesFiring | internal/controller/runalerts.go:169-180 | a run that switches delivery off and on and ends configured, with action "False", nothing queued, and a firing as the last POST |
| AlertGuarantees.OlderFiringMarks | internal/controller/runalerts.go:206-212 | in every reachable state, acknowledging the firing of the current period sets the delivery time, and acknowledging an older one does if and only if the queue ends with a firing of the same start |
| AlertGuarantees.SameSecondMarksEarly | internal/controller/runalerts.go:206-212 | a run in which the delivery time is set while that firing and the resolution before it are still queued |
| AlertGuarantees.AlertStateInvariant | internal/controller/hubrunstatus.go:105-165 | every reachable status: action follows type, the queue alternates, a resolution closes its firing and ends after it starts, the last entry tells the action, and the start and delivery times are set only as they may be |
| AlertPasses.CalmPass | internal/controller/runalerts.go:146-245 | field by field, all that an undisturbed pass does to queue, start and delivery time and log, and what it returns, in each of its six situations |
| AlertPasses.FailureReportedExactly | internal/controller/runalerts.go:146-245 | for whatever a pass meets: it ends in an error if and only if a read failed, or the sync did with nothing left to deliver, or its POST or its patch did |
| AlertPasses.DoneMeansFinished | internal/controller/runalerts.go:169-221 | a pass that read everything and ends without asking to run again leaves nothing queued, no firing missing and none to renew |
| AlertPasses.MissingEndsPass | internal/controller/runalerts.go:151-169 | an object that is missing ends the pass without an error and without a requeue, with what the sync has written |
| AlertPasses.FailedPassKeepsQueue | internal/controller/runalerts.go:201-219 | a pass whose POST failed, or whose patch did not take effect, leaves queue and alert as they were |
| AlertPasses.SyncTriesFiveTimes | internal/controller/hubrunstatus.go:91-122 | a sync succeeds after up to four conflicts, and the record says what was observed; after five in front of a change of the action it fails and nothing is queued |
| AlertGuarantees.HeadAlwaysSendable | internal/controller/runalerts.go:266-272 | no queued resolution ever lacks its end, so the queue never jams |
| AlertGuarantees.SyncOnce | internal/controller/hubrunstatus.go:91-122 | a sync, however it ends and after any conflicts, queues one notification exactly when the action enters or leaves "True"; repeating one that succeeded changes nothing |
| AlertGuarantees.Draining | internal/controller/runalerts.go:182-219 | undisturbed passes ask for an immediate requeue exactly for the first 2·(initial firing missing) + queue length passes, after which the queue is empty |
| AlertRenewal.RenewalNeverEarly | internal/controller/runalerts.go:223-244 | whatever a pass meets, it makes at most one POST, and a renewal only of the stored alert, with nothing queued, a minute or more after the stored delivery time |
| AlertRenewal.DelayIsRight | internal/controller/runalerts.go:223-244 | of two undisturbed passes over a quiet firing alert, the second renews it if it comes when the delay that the first asked for is over, and not before if the first had to wait |
| AlertRenewal.RenewalWhenDue | internal/controller/runalerts.go:220-244 | a quiet firing alert is renewed exactly when a minute has passed since the stored delivery time; before that the pass changes nothing and asks for the remainder |
| AlertRenewal.NoLapse | internal/controller/runalerts.go:32-33 | if response time, transit and scheduling delay together stay under four minutes, some accepted POST of the alert is in force at every instant up to the end of the last renewal, counted from sending (transit 0) or from arrival |
| AlertMachine.StepInv | internal/controller/runalerts.go:146-245 | every step of a pass or of its environment keeps the invariant behind these results, snapshots and optimistic locks included |
| AlertRefinement.PassRun | internal/controller/runalerts.go:146-245 | a whole pass, whatever its reads, patches and POST meet, is a run of the step machine |
| AlertDelivery.RunAlertReconciler.Reconcile | internal/controller/runalerts.go:146-245 | the new stored state, log and result of one pass as a function of the old state and of everything it meets, missing objects and failed or unanswered calls included |
| AlertDelivery.RunAlertReconciler.SyncHubRunStatus | internal/controller/hubrunstatus.go:91-122 | five attempts, each with its own read and identity test; a patch only on a change; an end without error when the record is gone or is another; false after a failed call or five conflicts |
| AlertDelivery.RunAlertReconciler.Send | internal/controller/runalerts.go:254-307 | what is posted, with which end, and when the send is an error |
| AlertDelivery.WorkingCopy.QueueActionAlert | internal/controller/hubrunstatus.go:135-165 | the in-place change equals the transition function whose invariants are proved |
| HubRunStatus.SyncKeepsAlertFields | internal/controller/hubrunstatus.go:105-165 | a sync keeps the alert fields consistent |
| HubRunStatus.SyncAppends | internal/controller/hubrunstatus.go:135-165 | a sync only appends, one entry exactly when the action enters or leaves "True" |
| HubRunStatus.SyncedCondition | internal/controller/hubrunstatus.go:101-121 | field by field, what a sync makes of type, phase, summary and action |
| HubRunStatus.SyncedQueue | internal/controller/hubrunstatus.go:135-165 | what it queues: a firing that starts now, or a resolution of the firing on record that ends now or one second after its start, with the summary as it is by then; and what becomes of start and delivery time |
| HubRunRead.LatestCondition | internal/controller/hubrunstatus.go:169-190 | type and reason of the newest dated condition, the last among equals, or nothing |
| HubRunRead.LatestUnique | internal/controller/hubrunstatus.go:169-190 | that description leaves one answer only |
| HubRunRead.ExtractResultSummary | internal/controller/hubrunstatus.go:192-214 | the diagnosis, else the first option that says something, else the failure reason |
| HubRunRead.FirstSummaryExactly | internal/controller/hubrunstatus.go:194-208 | the summary taken from the options is that of the first option that says something, and empty exactly when none does |
| HubRunRead.SummaryByField | internal/controller/hubrunstatus.go:192-214 | on the fields read: the diagnosis, else the diagnosis or else the summary of the first option that has one, else the failure reason |
| HubRunRead.ReadForSync | internal/controller/hubrunstatus.go:36-90 | exactly when a sync reads nothing, fails (by a failed read, too) or observes, and that it observes only its own run and that run's own result |
| HubRunRead.UsableByField | internal/controller/hubrunstatus.go:47-87 | on the fields read: when a sync accepts a run, and when its latest result is usable |
| HubRunRead.RoutingIsFullScan | internal/controller/runalerts.go:69-96 | the records found through the hashed label are exactly those whose sync accepts the run, with no assumption on collisions |
| HubRunRead.MapHubRunToRecords | internal/controller/runalerts.go:69-96 | the requests of a run event, none when the list fails |
| HubRunRead.MapHubResultToRecords | internal/controller/runalerts.go:98-115 | a result event reaches exactly the records whose sync accepts the run it names, and none when the read or the list fails |
| HubRunRead.ResultReachesItsRecord | internal/controller/hubrunstatus.go:56-90 | a result that a sync would read names the run of that record, so its event is routed to it |
| HubRunRead.AtMostOneRecord | internal/healthcheckrun/record.go:45-58 | among records named after their run, at most one accepts a run |
| CreationGuarantees.RecordBeforeRun | internal/healthcheckrun/record.go:36-72 | in every interleaving, a create is sent and a run exists only for an identity that was committed to the record before |
| CreationGuarantees.AtMostOneRunAndOutcome | internal/controller/agenticrun.go:156-173 | in runs free of the race: at most one create, at most one outcome, the record of a created run stays, and a record that is not pending has something recorded |
| CreationGuarantees.FirstOutcomeWins | internal/healthcheckrun/record.go:95-129 | in runs free of the race, once an outcome or a condition is recorded, the phase changes only by conditions, a condition stays one, and without syncs the whole condition stays as it is, whatever finishes run concurrently |
| CreationGuarantees.DecidedStep | internal/healthcheckrun/record.go:105-114 | step by step and without the race: no finish and no recovery touches what is decided, not even the phase of a condition; only a sync does |
| CreationGuarantees.TruthfulOutcomes | internal/controller/runrecovery.go:36-68 | in runs free of the race, Created, written or stored, means the run existed with the identity of the record; and if creates land within the grace period or never and no run is deleted while its record is pending, Failed, written or stored, means that it never did |
| CreationGuarantees.CreatedMeansRun | internal/healthcheckrun/record.go:74-77 | in every run whatever, Created is written only if a run of a committed identity has existed |
| CreationGuarantees.OnlyPhaseWritten | internal/healthcheckrun/record.go:110-114 | although a finish writes a whole status back, it changes nothing but the phase, so the alert queue is safe from it |
| CreationGuarantees.CoreStep | internal/healthcheckrun/record.go:95-129 | every step of any process, but for a delete that makes the race, keeps the protocol invariant |
| CreationGuarantees.RaceFreeExactly | internal/controller/runrecovery.go:40-45 | a run is free of the race if and only if in each of its states the record of a committed identity is there |
| CreationGuarantees.GraceRulesOutRace | internal/controller/runrecovery.go:19-45 | if Begin and the lag of a recovery pass fit into the grace period and passes do not overlap, recovery never deletes a completed record |
| CreationLimits.GraceIsExact | internal/controller/runrecovery.go:19-45 | for timely runs without overlapping recovery passes: the race is excluded, at most one create is ever sent, and no run is without its record, each if and only if the two times add up to no more than the grace period |
| CreationLimits.LooseBoundsRace | internal/controller/runrecovery.go:40-45 | for every pair of times beyond that bound, a timely run that ends with a run without a record, and one that sends two creates under one name |
| CreationLimits.FailedIsExact | internal/controller/runrecovery.go:46-54 | for all bounds on Begin, recovery and creates: in every run that keeps them a written, and a stored, Failed is true if and only if the grace period covers Begin with recovery, and the create, and no run of a pending record is deleted |
| CreationLimits.FailedIsExactWithoutRace | internal/controller/runrecovery.go:46-54 | in runs free of the race, whatever the times of Begin and recovery: if and only if the create is covered and no such run is deleted |
| CreationLimits.LateCreateContradictsFailed | internal/controller/runrecovery.go:46-54 | a create landing after the grace period contradicts Failed |
| CreationLimits.DeletedRunCalledFailed | internal/controller/runrecovery.go:46-54 | a run deleted while its record is pending is recorded as Failed although it existed |
| CreationRefinement.CreationRun | internal/alertreceiver/handler.go:332-346 | one creation, with every input of CreateRun, is a run of the machine that ends with the record and the run that the specification says; syncs meet its finish only when the run of its record exists by then |
| CreationRefinement.RecoveryRun | internal/controller/runrecovery.go:30-69 | the turn of a record in a recovery pass, with conflicting syncs and failed or unanswered calls, is a run of the machine with the specified result |
| RunRecord.FinishSettles | internal/healthcheckrun/record.go:95-129 | a finish that succeeds leaves a settled record; however its attempts go, one that is no longer pending has something recorded, and what was recorded before changes only by the syncs in between |
| RunRecord.FinishWritesOnce | internal/healthcheckrun/record.go:95-129 | however its attempts go, a finish changes the status only by those syncs and at most one outcome, written while nothing else was recorded |
| RunRecord.FinishByField | internal/healthcheckrun/record.go:95-129 | an undisturbed finish of a pending record clears the mark, writes the outcome exactly if nothing was recorded, and changes nothing else |
| RunRecord.FinishTriesFiveTimes | internal/healthcheckrun/record.go:99-128 | each loop of a finish succeeds after up to four conflicts; five leave the mark |
| RunRecord.FiveConflictsLeavePending | internal/healthcheckrun/record.go:99-117 | five conflicts leave a pending record without an outcome |
| RunRecord.SecondFinishChangesNothing | internal/healthcheckrun/record.go:74-84 | of two finishes the first decides and the second changes nothing |
| RunRecord.OverwrittenExactlyWhenOpen | internal/healthcheckrun/record.go:105-108 | a condition survives a late finish if and only if its reason is not "Pending" and not empty without a summary |
| RunRecordClient.Client.Begin | internal/healthcheckrun/record.go:39-72 | what each way of failing leaves behind, and success exactly when both writes went through |
| RunRecordClient.CalmBegin | internal/healthcheckrun/record.go:45-72 | an undisturbed Begin succeeds and leaves a pending record of hub origin with the key, the stamp and the identity of the run, phase "Pending" and nothing else |
| RunRecordClient.Client.FinishCreation | internal/healthcheckrun/record.go:95-129 | both retry loops, with syncs between read and write and calls that fail or lose their answer, against the specification |
| RunRecordClient.Client.CreateRun | internal/controller/agenticrun.go:156-173 | the record and the run of the name after one creation, as the specification function that the next rows are about, the server included; nothing happens under other names |
| RunRecordClient.CreationTells | internal/controller/agenticrun.go:156-173 | a run appears only beside its matching record; after Begin the record ceases to be pending when the answer reports or excludes a creation and the finish goes through, and is untouched after an answer that leaves it open |
| RunRecordClient.UndisturbedCreation | internal/controller/agenticrun.go:161-173 | left undisturbed: Created beside its run, Failed after every refusal that excludes a run, pending after all others |
| RunRecordClient.FailedMeansNoRun | internal/healthcheckrun/record.go:86-93 | whatever it meets, a creation never leaves Failed beside a run that its own create has made, for a server that may have made it behind any conflict, throttling, server error or lost answer |
| RunRecordClient.DefinitiveExactly | internal/healthcheckrun/record.go:86-93 | the errors taken for definitive are exactly those whose status codes exclude that the run was created |
| RunRecordClient.Client.RecoverPendingRuns | internal/controller/runrecovery.go:24-71 | every record after a pass, finishes that stop half-way included, and true exactly when a hub-origin record was pending at the start |
| RunRecordClient.RecoverySettles | internal/controller/runrecovery.go:32-68 | on the stored fields: a record is deleted exactly when it is pending, of hub origin, two minutes old and incomplete; finished as Failed or Created exactly when its run does not exist or is its own; untouched otherwise; and no failed call leaves a record unmarked without an outcome |
| ScheduleMachine.ScheduleExclusive | internal/controller/telcohealthcheck_controller.go:316-331 | for any number of reconciles with copies of any age and any foreign writes: claims of a check are at least its period apart if nobody sets its stored time back before a claim, and stored times never go back unless somebody sets them back or into the future |
| ScheduleMachine.ResetExactly | internal/controller/telcohealthcheck_controller.go:316-331 | after any rewrite of the stored times, claims go on excluding each other in all continuations if and only if no claimed check was set back before its claim |
| ScheduleMachine.TasksAreOfClaims | internal/controller/agenticrun.go:80-104 | over every run of all reconciles, the tasks launched serve the answered claims, in order, the k-th task of a claim for its k-th cluster |
| ScheduleMachine.PassRun | internal/controller/telcohealthcheck_controller.go:278-346 | a pass from any copy, whatever others write meanwhile, is a run of that machine |
| PeriodicSchedule.Reconciler.RunPeriodicChecks | internal/controller/telcohealthcheck_controller.go:278-346 | the loop, with its early errors, against the specification |
| PeriodicSchedule.DueChecksClaimed | internal/controller/telcohealthcheck_controller.go:299-343 | a pass from a current copy succeeds exactly when nothing is in its way, and then has claimed exactly the enabled checks whose own or else global period has elapsed, in order, and set their stored times and no others |
| PeriodicSchedule.TasksMatchClaims | internal/controller/agenticrun.go:80-104 | for one pass: its claims are of enabled checks and for its clusters; each claim whose answer arrives has one task per cluster, the k-th for the k-th cluster, and there are no others; one whose answer is lost launches nothing and ends the pass; a stale copy commits and launches nothing |
| PeriodicSchedule.LostAnswerSkipsRun | internal/controller/telcohealthcheck_controller.go:316-331 | a pass whose claim is committed while its answer is lost: the interval is taken and no task launched |
| PeriodicSchedule.NextWakeUp | internal/controller/telcohealthcheck_controller.go:293-345 | the wake-up is the least of the global period, the enabled checks' periods and the times until they are due |
| PeriodicSchedule.Clamp | internal/controller/telcohealthcheck_controller.go:159-161 | with pending runs the wake-up is one minute, or what the checks ask for if that is sooner |
| RunNames.NameIsSubdomain | internal/controller/agenticrun.go:109-120 | valid prefixes and cluster names give valid names of at most 253 characters, by the rule Kubernetes applies (which does not limit single labels to 63 characters) |
| RunNames.NamesDistinct | internal/controller/agenticrun.go:109-120 | clusters with different digests never share a name, whatever is truncated |
| RunNames.PeriodicRunName | internal/controller/agenticrun.go:109-120 | for any prefix and cluster: at most 253 characters, made of all that fits of the prefix, all that fits of the cluster into 40 characters (each up to hyphens and dots at its end), and the whole digest of 16 characters |
| RunNames.ShortClusterKept | internal/controller/agenticrun.go:111-115 | a valid cluster name of at most 40 characters is kept whole |
| AlertRules.PrintedNames | internal/controller/alertrules.go:151-166 | for any alerts, scanning the printed rules gives exactly the names on the lines of the trimmed rules and the group names |
| AlertRules.PrinterScannerAgreement | internal/controller/alertrules.go:151-209 | with one-line group names that do not mention "alert:", exactly the names of the rules |
| AlertRules.ScanIndented | internal/controller/alertrules.go:162 | indentation neither adds nor loses a name |
| AlertRules.BuildCustomRulesYAML | internal/controller/alertrules.go:151-166 | the printed text |
| AlertRules.Names.ParseAlertNamesFromString | internal/controller/alertrules.go:177-190 | adds exactly the scanned names |
| AlertRules.ParseAlertNamesFromRulesYAML | internal/alertreceiver/handler.go:230-245 | the receiver's scanner finds the same names as the controller's |
| AlertRules.ExtractAlertName | internal/controller/alertrules.go:193-209 | what follows the first "alert:" that anything follows |
| AlertRules.ExtractAlertNameForReceiver | internal/alertreceiver/handler.go:248-263 | the same, although its loop stops earlier |
| AlertRules.NameOnLine | internal/controller/alertrules.go:193-209 | the name on a line is what follows its first "alert:" and the spaces and tabs behind that |
| AlertRules.NoNameOnLine | internal/controller/alertrules.go:193-209 | there is none on a line without "alert:" or with nothing but spaces and tabs behind it |
| AlertRules.ScanExactly | internal/controller/alertrules.go:177-190 | a scan finds a name if and only if it is the name on some line of the text |
| AlertRules.RuleLineFound | internal/controller/alertrules.go:151-209 | the name on any line of any trimmed rule is found in the printed rules |
| AlertRules.PrintedLines | internal/controller/alertrules.go:151-166 | the printed text line by line: groups with their default names, headers, and each trimmed rule shifted by four spaces |
| AlertRules.TrimExactly | internal/controller/alertrules.go:162 | a trimmed rule is what is left between the white space at both ends |
| AlertManagerConfig.UpsertIdempotent | internal/controller/alertmanager.go:55-92 | a second upsert changes nothing |
| AlertManagerConfig.DeleteUndoesUpsert | internal/controller/alertmanager.go:126-143 | delete after upsert leaves the same receivers and routes as delete alone |
| AlertManagerConfig.ListsUntouched | internal/controller/alertmanager.go:55-208 | for the lists under "receivers" and "routes", whatever else stands there counting as none: both rewrites keep every other entry in its place among the others; the upsert has the wanted entry, with URL, send_resolved, continue and repeat_interval, the delete leaves none of that name and a second delete changes nothing |
| AlertManagerConfig.KeysUntouched | internal/controller/alertmanager.go:76-143 | all other keys of the document and of the route are kept; a delete leaves alone a missing document and a route that is no map |
| AlertManagerConfig.RouteKeptExactly | internal/controller/alertmanager.go:79-85 | what stood under "route" survives an upsert, but for its list of routes, if and only if it was absent or a map |
| AlertManagerConfig.RemoveKeepsOthers | internal/controller/alertmanager.go:145-173 | removal keeps an entry if and only if it is no map or its own field holds another name, a missing one counting as "" |
| AlertManagerConfig.UpsertEntry | internal/controller/alertmanager.go:175-208 | the first entry of the name is replaced, else the entry is appended |
| AlertManagerConfig.UpsertAt | internal/controller/alertmanager.go:175-208 | the upsert replaces the first map whose field holds the name, in its place, or else appends |
| AlertManagerConfig.RemoveEntries | internal/controller/alertmanager.go:145-173 | the filtered list |

## Left out

- AlertMachine.Apply: passes of one record never overlap, as the controller serialises them; a second active controller is not modelled.
- AlertDelivery.RunAlertReconciler.Send: models which notification is posted, its start, end and outcome; labels, annotations, console link, authentication and HTTP are not part of this model. A POST that arrives after a later one is not modelled.
- CreationMachine.Apply: covers one run name, since all objects are keyed by it; deletion of old records by the purge job is not modelled.
- RunRecordClient.Client.Begin: the trigger, the managed-by label and the owner reference of a record are left out; they decide nothing here.
- RunRecordClient.Client.CreateRun: between its writes come syncs, a deletion of the record during Begin, and calls that fail or lose their answer; another finish at the same time, or a record deleted during its finish, appears in the machine only.
- RunRecordClient.Client.RecoverPendingRuns: the reads and the delete of recovery itself either work or have no effect.
- CreationRefinement.CreationRun: names and clusters are not empty, as the callers take them from the monitored clusters and generate the names.
- PeriodicSchedule.Reconciler.RunPeriodicChecks: reads the clock once for each check where the code reads it twice, and launches all tasks of a claim; the jitter delay, its cancellation and the configuration lookup are inputs or left out.
- AlertRules.PrintedNames: treats text as a sequence of characters and lower-casing as a parameter.
- AlertManagerConfig.UpsertEntry: builds a new list where the code overwrites a slot of the parsed list, whose only holder is the document being rewritten.
- Secrets, ConfigMap reconciliation, metrics, the webhook server, RBAC, caches and watches: I/O or library behaviour.
- Parsing of YAML and JSON: documents start as parsed value trees.
- Jitter resolution, metric allowlists, the purge CronJob object and the singleton webhook: they would add easy members only.
