# Verified model of the hardening operator

The repository is a Kubernetes operator. For a workload it clones the namespace, records a baseline twice,
runs one experiment per hardening check in a namespace of its own, compares the logs of each experiment with
the baseline, merges the settings of the checks that did no harm into a recommendation, and runs that once
more. This project models the four parts of it that hold hard properties, and proves them in Dafny.

| File | What it models |
| --- | --- |
| `Prelude.dfy` | optional values, check types, kinds of run |
| `SecurityContexts.dfy` | pod and container contexts, the two merges, application to a pod template in place |
| `Checks.dfy` | the five checks: defaults on shared or fresh objects, when a check is required |
| `Recommendation.dfy` | log verdicts, the fold over a map, the projection for the final run |
| `Names.dfy` | target namespace names and recording keys |
| `Metrics.dfy` | the metrics oracle over the reals |
| `RoleBindings.dfy` | cloning and deleting cluster role bindings |
| `Status.dfy` | the status object, its conditions, and the changes that are committed to it |
| `Serialisation.dfy` | any number of Get / change / Update loops in flight at once |
| `Trace.dfy` | everything that happens to one object as a trace of events, and what every trace keeps |
| `Provenance.dfy` | where verdicts and recommendations come from: following the marks of a trace back |
| `World.dfy` | the API server, the recording store, and interference by others between any two steps |
| `Manager.dfy` | the check manager: retried status updates, the predicates that refresh, analysis, recommendation |
| `Decisions.dfy` | what one reconcile decides and does if nobody interferes, and why it is never stuck |
| `Looks.dfy` | the looks of one reconcile at the status, what they come to together, and when they contradict each other |
| `Controller.dfy` | the reconciler |
| `Runner.dfy` | the check runner |
| `Witnesses.dfy` | reachable runs, most of which show what the code does not guarantee |
| `Lease.dfy` | atomic reconciles and runners with program counters: the lease on a check |

## How the protocol is modelled

`Serialisation.dfy` proves once, for any number of clients, that the optimistic update loop makes the stored
status the sequence of accepted changes. On that footing `Trace.dfy` describes a run as a sequence of events:
a runner is launched, a recording is stored, a status change is committed, the workload is edited, and five marks
that the reconciler leaves on its way to a recommendation: a survey of the template, the verdict that everything
surveyed is recorded, the comparison of the listed runs with the recordings, the end of the analysis, and the choice
of a recommendation. `Trace.Allowed` says what the reconciler and each runner may do next; in particular runs and
recommendation may only be committed as the latest mark has them. `Provenance.Truthful` says what a mark must say:
a survey what the template requires at that moment, a comparison what the recordings of that moment make of the runs
of an earlier status, a choice the fold of the verdicts onto the template of that moment. The classes
`Manager.CheckManager`, `Controller.WorkloadReconciler` and `CheckRunner.WorkloadCheckRunner` follow the
source statement by statement against a `World` in which any number of allowed events of the others may happen
between two of their own steps, and are proved to do nothing that is not allowed and truthful. Hence every theorem
about well-formed and honest traces holds for every interleaving of one reconciler and any number of runners.

`World` counts failed operations (`failures`), and failed operations together with the events of others
(`noise`). A clause guarded by an unchanged `failures` holds under every interleaving, as long as no operation of
the method itself has failed; a clause guarded by an unchanged `noise` is about a call that nothing fell into.
For the latter, `Decisions.CarriedOut` says exactly what a reconcile does; the reconciler is proved to carry its
decision out, and `Lease.dfy` builds its atomic reconcile steps from the same predicate.

## What the code does not guarantee

* **Stuck between two reads.** The looks of one reconcile are not taken at once, and the controller ignores status
  changes. A reconcile that no operation of its own fails in, in parallel mode and with a positive duration, ends
  unfinished and unscheduled exactly if none of its looks found anything to do (`Looks.FoundNothing`,
  `Controller.WorkloadReconciler.Reconcile`), whatever others do between them. From a settled status that takes two looks
  that contradict each other, in one of three ways (`Looks.WhyOvertaken`, `Controller.WorkloadReconciler.Operate`), and
  each of the three occurs: the last check is recorded between the two questions whether all are
  (`Witnesses.LastCheckOvertakes`), the final check between the two questions about it (`Witnesses.FinalOvertakes`), or
  the second baseline runner takes the shared condition back (`Witnesses.BaselineIsLost`). A reconcile that nobody else
  falls into is never stuck.
* **A recorded check may be launched again.** Whether a check is recorded and whether it is in progress are two looks as
  well. A launch means that it was not recorded at the first, and not in progress or overdue at the second
  (`Controller.WorkloadReconciler.RecordCheck`); if it is recorded by the time of the launch, then it was recorded after
  the first look (`Looks.RelaunchedOnlyIf`). Both happens: the new runner takes the True condition back
  (`Witnesses.RelaunchedThoughRecorded`), or the reconciler does, which had found the recording overdue
  (`Witnesses.OverruledThoughRecorded`).
* **Stuck after a failed write.** Errors of `SetRecommendation` are ignored, so that the analysis can be declared
  finished without a recommendation (`Witnesses.StuckAfterFailedWrite`). `Decisions.NothingToDoExactly` gives the exact
  condition; without a failed operation it does not arise from the beginning of the object on (`Decisions.NeverStuck`).
* **Unreadable workload.** If the workload cannot be read, no check counts as required and all count as finished: a
  verdict covers what the template requires exactly if the template could be read (`Witnesses.CoverageExactly`), and
  otherwise a run can reach the end without a single check (`Witnesses.UnreadableFinishes`).
* **A zero recording duration**, which the pattern of the field admits, makes the waiting branches return without a
  requeue (`Witnesses.ZeroDurationAwaitsBaseline`, `Witnesses.ZeroDurationAwaitsFinal`), and
* **sequential mode** does not run one check at a time: a check is launched exactly if one is due, whether or not
  another one is being recorded (`Decisions.SequentialExactly`, `Witnesses.SequentialOverlaps`). If none is due, because
  every required check is still being recorded, it returns without a requeue (`Witnesses.SequentialIsStuck`). Besides
  having nothing to do, these are the only cases in which an undisturbed reconcile schedules nothing
  (`Decisions.UnscheduledExactly`).
* **Exclusion of runners** needs all three of its assumptions (`Lease.ExclusionExactly`), and reconciles that look at
  everything at once.
* **The merge laws** hold on the nose only if no drop list is empty but present
  (`SecurityContexts.ContainerMergeIsAMonoid` has the exact conditions), and always up to nil versus empty.
* **The order of the checks** matters for the container's user if the user's defaults set the pod's user to something
  other than 1000 and not the container's (`Recommendation.OrderIndependence`, `Checks.AccumulationOrder`).
* **Checks need not discharge**: a container, or the user's own defaults, may hold the opposite value
  (`Checks.ChecksDischarge`).
* **The final run** drops recommended fields that the projection does not carry and the template does not set, for
  instance a seccomp profile (`Recommendation.FinalRunReproduces`).
* **A binding whose name has 253 characters** cannot be cloned, and a longer one, which the API server admits, makes the
  program ask for a random string of negative length and panic (`RoleBindings.CloneName`). Bindings left behind by a
  failed deletion stay, a deletion takes an original along if it carries the label of the deleted namespace
  (`RoleBindings.DeletionKeepsExactly`), and with several source namespaces clones of a shared binding disturb the other
  source (`RoleBindings.SharedBindingsDisturb`).
* **The timeout**: the code tests for the recording duration plus one minute
  (`internal/workload/condition_checks.go:182`); the state diagram says two minutes and the messages say twice the
  duration. The model follows the code.

## Premises

* A Get of the object succeeds and replaces the local copy, including the user's defaults; the first read of a
  reconcile is current; the object is not deleted while the model runs; one reconcile at a time per object.
* In `Lease.dfy` a reconcile is one atomic step: nothing happens between its looks, nor between them and its writes.
* Times are in nanoseconds. The stored transition time has whole seconds only, so that a lease in the cluster can be up
  to one second shorter than in the model.
* An update that reports an error has not been applied. Stored recordings do not expire.
* The recordings of one analysis are read at one instant. A key that is missing in the store is reported as such, which
  is what `internal/valkey/client.go:44-55` expects of its client library; should the library report it as an error
  instead, then that read is one of the failed operations, and the analysis is aborted where the model skips it.
* User defaults, when present, have both halves; the checks dereference them.
* Floating point is modelled by the reals, with NaN kept; the two functions of the statistics library, and the match
  predicate of the log miner, are parameters.
* The source namespace is never the target of a clone. Names are ASCII.

## Model

| member | source | states |
| --- | --- | --- |
| `Serialisation.CommitsAreSerial` | internal/workload/condition_checks.go:16-42 | under every interleaving of reads, updates, conflicts and refusals of any number of retry loops, the stored status is the accepted changes applied in commit order, and an operation is among them exactly once if it succeeded and not at all otherwise |
| `Serialisation.AcceptedKeeps` | internal/workload/condition_checks.go:21-37 | an update is accepted only on the version it was computed from, so it adds its own change to the current status and keeps everybody else's |
| `Serialisation.StepKeeps` | internal/workload/condition_checks.go:18-39 | every step of every client keeps: version = number of commits, status = their replay, every held copy is its change on the status of its version |
| `HardeningStatus.ConditionNamesAreDistinct` | api/v1alpha1/workloadhardeningcheck_types.go:190-201 | the type strings of all conditions, including the five built from check types, are pairwise distinct |
| `Trace.RecordingBeforeStatus` | internal/runner/runner.go:457-489 | in every reachable state every CheckRuns key and every check condition that is True, and likewise the final check and the baseline, has a stored recording under the key the analysis reads; every entry carries a context that sets what its check sets |
| `Trace.StoredIsRecorded` | internal/valkey/client.go:67-77 | what a launched runner has stored is found under the key of its kind ever after |
| `Provenance.PhaseOrder` | internal/controller/workload/workloadhardeningcheck_controller.go:79-209 | whenever Finished is committed as finished, the trace before it contains, in this order: baseline recorded, the verdict on a survey of the template, the comparison of the runs listed after the verdict with the recordings of the moment, the end of the analysis, the choice and the commit of one and the same recommendation, the launch of the final runner with its projection, and the recording by that very runner; and if the survey could read the template, every check that the template then required had been recorded by the verdict |
| `Provenance.RecommendationTracesBack` | internal/workload/manager.go:250-447 | whatever anybody does at any time, a stored recommendation is the fold of the runs found successful by the recordings of one moment onto the template of a later one; with both baselines recorded and a run listed, each of its fields is the template's or asked for by a check that did no harm, nothing such a check asks for is missing except the container's runAsNonRoot, and the drops are exactly the union; otherwise the runs are folded as they were entered |
| `Provenance.CommitHasBasis` | internal/controller/workload/workloadhardeningcheck_controller.go:121-141 | the same for every commit of a recommendation, also one that is later replaced |
| `Provenance.VerdictHasSurvey` | internal/workload/condition_checks.go:191-210 | every verdict is on the latest survey, with no other mark in between, and all that this survey found had been set True by then |
| `Trace.FinishedIsFinal` | internal/controller/workload/workloadhardeningcheck_controller.go:78-82 | once Finished is True the condition survives every later reconcile and every late runner write, unchanged |
| `Trace.OnlyCleaningUp` | internal/controller/workload/workloadhardeningcheck_controller.go:96-102 | after that no runner is launched and the reconciler commits nothing but the removal of check conditions |
| `Trace.NothingElseIsLost` | internal/workload/condition_checks.go:44-77 | between any two moments a condition disappears only through RemoveCheckConditions, a check entry only through the replacement after an analysis that did not list it; baseline entries, final run and recommendation never disappear |
| `Trace.BaselineEntriesAreKept` | internal/runner/runner.go:294-301 | the list of baseline runs is exactly the committed baseline entries in commit order |
| `Trace.EntriesAreSingle` | internal/runner/runner.go:282-315 | no runner ever commits a second entry; that a runner keeps to this is CheckRunner.StageAllows |
| `Trace.CommittedEntryIsListed` | internal/runner/runner.go:282-315 | a committed entry is listed under its kind exactly as it was committed, and nothing else of the status changes |
| `CheckRunner.StageAllows` | internal/runner/runner.go:282-315 | a runner that has not come to its entry yet has committed none, and one that is about to set its condition True or to enter its run has stored its recording |
| `Trace.TrueWasSeen` | internal/workload/condition_checks.go:79-86 | a condition that is True was set True by some commit |
| `Trace.FinalNeedsRecommendation` | internal/controller/workload/workloadhardeningcheck_controller.go:192-209 | a final check that was ever recorded implies a recommendation that is still there |
| `Trace.MayIsStable` | internal/workload/condition_checks.go:16-42 | what an actor may commit it may still commit after any events of the others, so that a retried change stays a legal one |
| `Trace.OthersLeave` | internal/controller/workload/workloadhardeningcheck_controller.go:104-105 | the others never touch Finished, Analysis or the recommendation, nor the reconciler's progress from a survey to a recommendation, which is why reads of them from the beginning of a reconcile stay valid |
| `Trace.OwnEventsDecide` | internal/controller/workload/workloadhardeningcheck_controller.go:61-261 | what only the reconciler writes, what has been launched, and the progress of an analysis are functions of the reconciler's own events |
| `Environment.World.Update` | internal/workload/condition_checks.go:31-37 | an update commits exactly the submitted change if the version it read is current, and changes nothing on conflict or error |
| `Environment.World.Interfere` | internal/controller/workload/workloadhardeningcheck_controller.go:197-199 | any number of allowed events of others and any amount of time: nothing of the actor's own, and nothing at all without noise |
| `Environment.World.StoreRecording` | internal/valkey/client.go:67-77 | a stored recording replaces the one under the same key and nothing else; a refusal stores nothing |
| `Manager.CheckManager.UpdateStatus` | internal/workload/condition_checks.go:16-42 | committed exactly once or not at all whatever the others do; given up only after exactly five conflicts or on another error; without noise it succeeds at once and applies its change to the status it found |
| `Manager.CheckManager.SetCondition` | internal/workload/condition_checks.go:16-42 | the same for one condition, with the transition time moving only when the status does; other conditions and the recommendation stay |
| `Manager.CheckManager.RemoveCheckConditions` | internal/workload/condition_checks.go:44-77 | only Finished and Analysis survive, and everything else of the status is kept |
| `Manager.CheckManager.BaselineRecorded` | internal/workload/condition_checks.go:79-86 | True exactly if the condition in the refreshed status is True with the reason that the baseline is finished or has failed; and then a commit has set it True |
| `Manager.CheckManager.BaselineInProgress` | internal/workload/condition_checks.go:88-95 | True exactly if the condition in the refreshed status is False with the recording reason |
| `Manager.CheckManager.BaselineOverdue` | internal/workload/condition_checks.go:97-113 | True exactly if the condition is False with the recording reason and, at the time of the answer, its last transition is longer ago than the recording duration plus 60 seconds |
| `Manager.CheckManager.FinalCheckRecorded` | internal/workload/condition_checks.go:115-123 | True exactly if the condition in the refreshed status is True with the reason that the final check is finished or has failed; and then a commit has set it True |
| `Manager.CheckManager.FinalCheckInProgress` | internal/workload/condition_checks.go:125-133 | True exactly if the condition in the refreshed status is False with the recording reason |
| `Manager.CheckManager.FinalCheckOverdue` | internal/workload/condition_checks.go:135-151 | True exactly if the condition is False with the recording reason and, at the time of the answer, its last transition is longer ago than the recording duration plus 60 seconds |
| `Manager.CheckManager.CheckRecorded` | internal/workload/condition_checks.go:153-161 | True exactly if the condition in the refreshed status is True with the reason that the check is finished or has failed; and then a commit has set it True |
| `Manager.CheckManager.CheckInProgress` | internal/workload/condition_checks.go:163-171 | True exactly if the condition in the refreshed status is False with the recording reason |
| `Manager.CheckManager.CheckOverdue` | internal/workload/condition_checks.go:173-189 | True exactly if the condition is False with the recording reason and, at the time of the answer, its last transition is longer ago than the recording duration plus 60 seconds |
| `Manager.CheckManager.GetRequiredCheckRuns` | internal/workload/check_types.go:16-56 | whatever others do, exactly the checks that the template required at the moment it was read, or none if it could not be read, which counts as a failure; without noise missing conditions are announced as not started and nothing else is changed |
| `Manager.CheckManager.AllRecordedOneByOne` | internal/workload/condition_checks.go:200-206 | reads one condition after another; True means that each of them was set True by a commit, whatever changes in between |
| `Manager.CheckManager.AllChecksFinished` | internal/workload/condition_checks.go:191-210 | whatever others do, True means that a survey of this very call found certain checks, which are those the template required unless the read failed, and that the baseline and all of them had been recorded by commits; False means that the baseline or a check found was unrecorded at a look of this very call; without noise it is exact for the current status and template |
| `Manager.CheckManager.AnalyzeCheckRuns` | internal/workload/manager.go:250-392 | the missing-recording error is unreachable: an error means a failed read or write; otherwise the local runs, and what the trace says has been analyzed, are the verdicts on the runs read after the verdict by the recordings of one moment of this very call; without noise they replace the stored runs |
| `Manager.NothingIsMissing` | internal/workload/manager.go:304-306 | the error of a run without a recording cannot occur for entries that are recorded, and judging a run leaves its context alone |
| `Manager.CheckManager.SetRecommendation` | internal/workload/manager.go:394-456 | commits the fold of the successful runs, in some order, onto the template of one moment of this very call, and nothing else; an error leaves the old recommendation |
| `Manager.CheckManager.GetSecurityContextForCheckType` | internal/workload/check_types.go:58-70 | the context of a check keeps every value that the user has set, sets everything the check sets, and asking for it again adds nothing |
| `Decisions.NothingToDoExactly` | internal/controller/workload/workloadhardeningcheck_controller.go:254-261 | in reachable states a reconcile finds nothing to do exactly when all is recorded, no baseline failed, the analysis is over without a recommendation and no final check is left over |
| `Decisions.UnscheduledExactly` | internal/controller/workload/workloadhardeningcheck_controller.go:61-261 | what a carried-out decision comes to is unfinished and unscheduled exactly if there was nothing to do, or it waits for half of a duration that is zero, or in sequential mode it has launched nothing; it launches something if a check was due at its beginning, and nothing if none is due at its end |
| `Decisions.FailedBaselineAborts` | internal/controller/workload/workloadhardeningcheck_controller.go:239-252 | over the trace: a reconcile that finds the baseline recorded and gets past the final check declares the object finished with the failed baseline as the reason, and launches nothing, if some committed baseline entry is not successful; if all are, it leaves the object unfinished |
| `Decisions.WaitRunsOut` | internal/controller/workload/workloadhardeningcheck_controller.go:173-189 | a recording of the final check or the baseline that is waited for is set to Unknown if and only if it is older than the duration plus 60 seconds, and left as it is otherwise |
| `Decisions.SchedulesAfter` | internal/controller/workload/workloadhardeningcheck_controller.go:61-261 | the next reconcile is scheduled ten seconds after a duration when something was launched, half a duration later when a recording is waited for, and otherwise only in parallel mode |
| `Decisions.SequentialExactly` | internal/controller/workload/workloadhardeningcheck_controller.go:348-383 | in sequential mode a reconcile at one moment launches a check if and only if one is due, whether or not others are being recorded, and then one that is required and due |
| `Decisions.NeverStuck` | internal/controller/workload/workloadhardeningcheck_controller.go:61-261 | in any run of carried-out reconciles from the very beginning, with anything of others in between, the case of nothing to do does not occur: a reconcile leaves the object unfinished and unscheduled exactly in the other two cases, and in parallel mode with a positive duration never |
| `Decisions.RunsAreSettled` | internal/controller/workload/workloadhardeningcheck_controller.go:141-155 | in such a run an analysis that is over has always left a recommendation or a finished object |
| `Witnesses.FirstRound` | internal/controller/workload/workloadhardeningcheck_controller.go:263-287 | every workload has such a run: its first reconcile launches the two baseline runners |
| `Witnesses.SecondBaselineFails` | internal/controller/workload/workloadhardeningcheck_controller.go:239-252 | a reachable run in which only the second baseline runner finds its workload not ready, and the next reconcile gives up |
| `Witnesses.CoverageExactly` | internal/workload/check_types.go:19-23 | a verdict guarantees that all checks required at its survey have been recorded if and only if the survey could read the template |
| `Witnesses.UnreadableFinishes` | internal/workload/check_types.go:19-23 | a reachable run in which a single failed read leads to Finished with a recommendation, although the workload requires every check and none has been launched |
| `Witnesses.StuckAfterFailedWrite` | internal/controller/workload/workloadhardeningcheck_controller.go:141-148 | a reachable status in which every reconcile finds nothing to do and schedules nothing, because the recommendation could not be committed |
| `Witnesses.ZeroDurationAwaitsBaseline` | internal/controller/workload/workloadhardeningcheck_controller.go:215-232 | a reachable status in which the wait for the baseline schedules nothing if the duration is zero |
| `Witnesses.ZeroDurationAwaitsFinal` | internal/controller/workload/workloadhardeningcheck_controller.go:173-189 | likewise for the final check |
| `Witnesses.SequentialIsStuck` | internal/controller/workload/workloadhardeningcheck_controller.go:348-383 | a reachable status in which, in sequential mode and whatever the duration, a running check keeps the reconcile from launching or scheduling anything |
| `Witnesses.SequentialOverlaps` | internal/controller/workload/workloadhardeningcheck_controller.go:348-380 | a reachable run in which, in sequential mode and whatever the duration, a second check is launched while the first is being recorded and not overdue |
| `Witnesses.LastCheckOvertakes` | internal/controller/workload/workloadhardeningcheck_controller.go:105-256 | a reachable run in which the last check is recorded between the two questions whether all are: neither part of the reconcile finds anything to do, it would have requeued with the first answers, and launched the final run with the last |
| `Witnesses.FinalOvertakes` | internal/controller/workload/workloadhardeningcheck_controller.go:87-192 | likewise with the final check recorded between the question whether it is recorded and the question whether it is in progress |
| `Witnesses.BaselineIsLost` | internal/controller/workload/workloadhardeningcheck_controller.go:235-256 | likewise with the second baseline runner setting the shared condition back to False |
| `Witnesses.RelaunchedThoughRecorded` | internal/controller/workload/workloadhardeningcheck_controller.go:311-343 | a reachable run in which a check is recorded between the question whether it is recorded and the question whether it is in progress: it is launched again, and its new runner takes the True condition back without any removal |
| `Witnesses.OverruledThoughRecorded` | internal/controller/workload/workloadhardeningcheck_controller.go:318-343 | likewise with the check found overdue before its runner sets the condition True: the reconciler sets it to Unknown and launches the check again |
| `Decisions.ChecksLaunchedFrom` | internal/controller/workload/workloadhardeningcheck_controller.go:308-380 | looking at the checks one after another launches, of the checks due when the reconcile began, every one in parallel mode, each once, and none that is not due by its end |
| `Decisions.LookedAtOneMore` | internal/controller/workload/workloadhardeningcheck_controller.go:311-344 | one more check looked at: launched if and only if due at that moment, its overdue condition set to Unknown, all others kept |
| `Decisions.EndsInFinalPhase` | internal/controller/workload/workloadhardeningcheck_controller.go:159-209 | ending with the final check is what the decision on the first status demands, also after an analysis |
| `Decisions.EndsInBaselinePhase` | internal/controller/workload/workloadhardeningcheck_controller.go:211-252 | likewise for the baseline |
| `Decisions.EndsInLastPhase` | internal/controller/workload/workloadhardeningcheck_controller.go:254-260 | likewise for the checks |
| `Decisions.PassesFinalPhase` | internal/controller/workload/workloadhardeningcheck_controller.go:157-209 | a reconcile gets past the final check only if there was nothing to analyze |
| `Controller.WorkloadReconciler.Reconcile` | internal/controller/workload/workloadhardeningcheck_controller.go:61-261 | under every interleaving only allowed and honest events, so that a recommendation has a basis; unless an operation fails a settled status stays settled, and in parallel mode with a positive duration it leaves the object unfinished and unscheduled if and only if it found it unfinished and none of its looks, taken in the stated order, found anything to do, for which two of them must contradict each other if the status was settled; without noise it carries out its decision, with the verdicts and the recommendation that the analysis of the first status gives, and is not stuck |
| `Controller.WorkloadReconciler.Operate` | internal/controller/workload/workloadhardeningcheck_controller.go:61-261 | from the creation of the object on, for any number of reconciles with others acting in between and inside: as long as nothing has failed, each of them leaves Finished True or requeues, unless two of its looks contradict each other, which they do not if nobody else has acted during it |
| `Looks.WhyOvertaken` | internal/controller/workload/workloadhardeningcheck_controller.go:79-261 | from a settled status, a reconcile none of whose looks found anything to do has seen the baseline recorded and then not, or the final check unrecorded and then recorded, or a check unrecorded and then all of them recorded; that a final recording can precede a recommendation is excluded |
| `Looks.RelaunchedOnlyIf` | internal/controller/workload/workloadhardeningcheck_controller.go:311-343 | a check that is launched though it is recorded was set True after the look that found it unrecorded |
| `Controller.WorkloadReconciler.Analyze` | internal/controller/workload/workloadhardeningcheck_controller.go:105-157 | whatever others do, unless an operation fails the recommendation is there in the end and is based on a comparison and a choice made in this very call: the fold, onto the template as it was then, of the runs found harmless by the recordings as they were then; without noise that is the fold for the first status |
| `Controller.WorkloadReconciler.AbortAnalysis` | internal/controller/workload/workloadhardeningcheck_controller.go:123-139 | unless one of its writes fails, both conditions say that the analysis failed, and Finished is True |
| `Controller.WorkloadReconciler.FinishIfReady` | internal/controller/workload/workloadhardeningcheck_controller.go:86-102 | declares the object finished, keeping only Finished and Analysis, exactly if the recommendation is there and the final check was recorded at its look, whatever others do |
| `Controller.WorkloadReconciler.AnalyzeIfReady` | internal/controller/workload/workloadhardeningcheck_controller.go:104-157 | analyzes exactly if all is recorded and not yet analyzed; stops only after a failure; whatever others do, if it does not analyze then the analysis was over at first or something was unrecorded at a look of this call |
| `Controller.WorkloadReconciler.HandleFinalCheck` | internal/controller/workload/workloadhardeningcheck_controller.go:159-209 | fails the object if the final check was Unknown at first, waits for or overrules a running final check, or launches one with the projected recommendation, in this order of precedence; under every interleaving it goes on exactly if the final check was not Unknown at first, not running at the first look, and recorded at the second unless there was no recommendation |
| `Controller.WorkloadReconciler.AwaitFinal` | internal/controller/workload/workloadhardeningcheck_controller.go:173-189 | waits exactly if the final check was running at its look, whatever others do; without noise it is set to Unknown if it was overdue already and left alone if it is not overdue at the end |
| `Controller.WorkloadReconciler.LaunchFinal` | internal/controller/workload/workloadhardeningcheck_controller.go:191-209 | launched exactly if there is a recommendation and the final check was not recorded at its look, whatever others do |
| `Controller.WorkloadReconciler.HandleBaseline` | internal/controller/workload/workloadhardeningcheck_controller.go:211-252 | waits for a running baseline, or records one if there is none, or aborts if a run listed at first was not successful; under every interleaving it goes on exactly if the baseline was not running at the first look, recorded at the second, and not recorded at the third or no listed run has failed |
| `Controller.WorkloadReconciler.RecordBaseline` | internal/controller/workload/workloadhardeningcheck_controller.go:263-287 | launches the two baseline runners in order, both with the user's defaults, and nothing else, under every interleaving |
| `Controller.WorkloadReconciler.AbortOnFailedBaseline` | internal/controller/workload/workloadhardeningcheck_controller.go:239-252 | aborts exactly if the baseline was recorded at its look and some run listed at first lacks a positive verdict, whatever others do |
| `Controller.WorkloadReconciler.RecordCheck` | internal/controller/workload/workloadhardeningcheck_controller.go:311-344 | under every interleaving a launch rests on two looks of this call, one after the other: the check was not recorded at the first, and not in progress or overdue at the second; without a launch it is recorded at the end, or was in progress at a look of this call and is not overdue at the end; it is launched with its settings on top of the user's; without noise exactly if it is due, and an overdue condition is set to Unknown first |
| `Controller.WorkloadReconciler.RecordInParallel` | internal/controller/workload/workloadhardeningcheck_controller.go:308-347 | only required checks are launched, each at most once, whatever others do; without noise every due check is |
| `Controller.WorkloadReconciler.RecordInSequence` | internal/controller/workload/workloadhardeningcheck_controller.go:348-380 | at most one check is launched, and a required one, whatever others do; without noise none only if none was due |
| `Controller.WorkloadReconciler.RecordChecks` | internal/controller/workload/workloadhardeningcheck_controller.go:289-384 | the checks phase of the decision, with requeue unless in sequential mode nothing was launched |
| `Controller.WorkloadReconciler.FinishUp` | internal/controller/workload/workloadhardeningcheck_controller.go:254-261 | the checks phase if the baseline is recorded and some check is not, otherwise nothing; under every interleaving, in parallel mode, nothing is scheduled exactly if the baseline was unrecorded at its look or all checks were found finished |
| `CheckRunner.WorkloadCheckRunner.RunCheck` | internal/runner/runner.go:340-498 | under every interleaving the runner's own events are legal; without a failed operation it begins by setting its condition to False and ends with its entry, or with its condition Unknown, or never begins; if it gets as far as a recording, the last thing it does is to enter its run, successful exactly if the workload was ready, with its own context, and with all logged containers if it was not |
| `CheckRunner.EnteredTells` | internal/runner/runner.go:457-489 | a legal run that has ended stored its recording first, declared its condition True at most once, and put its entry once and last; the entry's two flags and the reason say exactly whether the recording that was stored last is of a ready workload, and the entry has the launch's context |
| `CheckRunner.UnreadyBaselineAborts` | internal/controller/workload/workloadhardeningcheck_controller.go:239-252 | a baseline runner that has found its workload not ready makes every reconcile that finds the baseline recorded, and gets past the final check, declare the object finished with the failed baseline as the reason, and launch nothing |
| `CheckRunner.UnreadyIsNotSuccessful` | internal/runner/runner.go:217-224 | a check whose workload was not ready when it was recorded never counts as successful once its run is entered, before or after any analysis |
| `CheckRunner.MarkedTells` | internal/runner/runner.go:264-269 | between the two updates the condition is True, with the finished reason exactly if the recording that was stored last is of a ready workload and the failed reason otherwise, and the entry is not yet there |
| `CheckRunner.WorkloadCheckRunner.SetStatusRunning` | internal/runner/runner.go:161-173 | the condition of the runner's kind becomes False with its recording reason |
| `CheckRunner.WorkloadCheckRunner.SetStatusFailed` | internal/runner/runner.go:175-190 | it becomes Unknown with its failure reason |
| `CheckRunner.WorkloadCheckRunner.SetStatusFinished` | internal/runner/runner.go:192-315 | first the condition, then the entry, successful exactly if the stored recording is; never the other way round |
| `CheckRunner.WorkloadCheckRunner.WaitForUpdatedPods` | internal/runner/runner.go:500-569 | a timeout sets the condition to Unknown and stores a failed recording, and the runner can still go on legally |
| `CheckRunner.WorkloadCheckRunner.RecordSignals` | internal/runner/runner.go:397-489 | after a failed wait the runner carries on and may still declare and enter a result |
| `Lease.LeasesHold` | internal/controller/workload/workloadhardeningcheck_controller.go:311-344 | with atomic reconciles, in every reachable state of a reliable run there is at most one live runner per check type, and every live runner's lease is valid |
| `Lease.ExclusionExactly` | internal/workload/condition_checks.go:173-189 | with atomic reconciles, exclusion holds in all runs if and only if runners start promptly, avoid the wait timeout, and finish within the duration plus one minute |
| `Lease.PromptnessIsNeeded` | internal/runner/runner.go:360-375 | a reconcile before the first write of a launched runner launches a second one |
| `Lease.PatienceIsNeeded` | internal/runner/runner.go:399-420 | a runner that carries on after the wait timeout is joined by a second one |
| `Lease.PunctualityIsNeeded` | internal/workload/condition_checks.go:182-185 | a runner that has recorded for one nanosecond more than the duration plus 60 seconds is joined by a second one |
| `Lease.ConditionsMove` | docs/charts/check-run-state-diagram.drawio:7-58 | with atomic reconciles, until the check conditions are removed, a check's condition moves only along the diagram: announced as not started; from not started or to be retried to recording; from recording to finished, failed or to be retried; it never vanishes |
| `Lease.DoneStays` | internal/workload/condition_checks.go:44-77 | with atomic reconciles, a True condition stays, unchanged, also past the end of the object, until a reconcile declares the object finished and removes the check conditions; without, Witnesses.RelaunchedThoughRecorded shows that it need not |
| `Lease.StepKeepsLeases` | internal/controller/workload/workloadhardeningcheck_controller.go:311-344 | every step of atomic reconciles and of runners keeps the leases, also past the end of the object |
| `Lease.LaunchDecision` | internal/controller/workload/workloadhardeningcheck_controller.go:318-343 | launched checks were due; they have a condition now, which is to be retried if a recording was overruled and otherwise as before or newly announced; all other checks are as before or newly announced |
| `Lease.LeaseRunsOut` | internal/workload/condition_checks.go:173-189 | a check in recording is launched again, and its condition set to be retried, if and only if the recording is older than the duration plus 60 seconds; at exactly that age it is left alone |
| `SecurityContexts.MergePodSecurityContexts` | internal/workload/securityContext.go:17-65 | the left-biased merge, all eight fields |
| `SecurityContexts.MergeContainerSecurityContexts` | internal/workload/securityContext.go:67-135 | the left-biased merge without runAsNonRoot; a merged drop list is the union and free of duplicates |
| `SecurityContexts.MergeBlocks` | internal/workload/securityContext.go:90-111 | the capability blocks as objects: without a block of the base the result is the extension's own block, its drop list replaced in place; otherwise it is a new object and neither argument changes |
| `SecurityContexts.MergeDropLists` | internal/workload/securityContext.go:94-111 | the union as a list without duplicates in some order, nil if it is empty |
| `SecurityContexts.PodMergeIsAMonoid` | internal/workload/securityContext.go:17-65 | nil is the identity, the merge is associative and idempotent |
| `SecurityContexts.ContainerMergeIsAMonoid` | internal/workload/securityContext.go:67-135 | the same up to nil versus empty drop lists, and on the nose exactly if no empty list is involved in the stated way |
| `SecurityContexts.NormalIsCongruent` | internal/workload/securityContext.go:94-111 | forgetting the difference between nil and empty is compatible with the merge |
| `SecurityContexts.MergeDropsTheUnion` | internal/workload/securityContext.go:96-108 | what is dropped after a merge is exactly the union of what either side drops |
| `SecurityContexts.PodSpec.ApplySecurityContext` | internal/workload/securityContext.go:156-178 | the template in place becomes the applied template: pod, every container and every init container, names kept |
| `SecurityContexts.AppliedHasAll` | internal/workload/securityContext.go:156-178 | every value that the defaults ask for and the template does not set, supplemental groups and seccomp types included, is in the applied pod, in every container and in every init container; nothing else changes |
| `SecurityContexts.SkippingIsApplying` | internal/runner/runner.go:385-395 | applying defaults has no effect on any template if and only if they are empty by the code's test and hold no seccomp profile with an empty type; so that skipping empty defaults equals applying them exactly then |
| `Checks.GetSecurityContextDefaults` | pkg/checks/group.go:16-37 | edits the object it is given, fills in exactly the fields of the check and hands the same object back |
| `Checks.DefaultsAreKept` | pkg/checks/group.go:16-37 | a check overrides nothing that was set, and adds its fields once |
| `Checks.ChecksAsk` | pkg/checks/group.go:16-37 | what each of the five checks asks for on its own, field by field, and nothing else |
| `Checks.CheckContexts.GetSecurityContextForCheckType` | internal/workload/check_types.go:58-70 | a fresh object without user defaults, the user's own object, edited, with them |
| `Checks.CheckContexts.GetAll` | internal/workload/check_types.go:58-70 | for any sequence of types: disjoint objects with only their own fields, or one shared object with the composition of all |
| `Checks.ComposeIsTogether` | pkg/checks/group.go:16-37 | under the user condition the composition equals an order-free definition of all the checks at once |
| `Checks.AccumulationOrder` | pkg/checks/user.go:16-32 | the order of the calls never matters if and only if the container's user is set or the pod's is unset or 1000 |
| `Checks.ComposeIsIdempotentPerType` | pkg/checks/group.go:16-37 | asking again for a type adds nothing, whatever came in between |
| `Checks.ChecksDischarge` | pkg/checks/dropallcapabilities.go:29-58 | after applying a check's context the check is required if and only if a container, or the user's defaults for an unsatisfied container, hold the opposite |
| `Checks.RequiredExactly` | pkg/checks/user.go:35-40 | a check is required if and only if the pod lacks a value of its own for something the user or the group check asks of it, or some container does not have the value that one of the other checks asks for |
| `Checks.RequiredOnlyShrinks` | pkg/checks/readonlyrootfilesystem.go:25-38 | applying any context never makes a check required |
| `Recommendation.AnalyzeTarget` | pkg/orakel/logs.go:82-100 | computes the anomalies of a container's lines |
| `Recommendation.TrimCutsSpaces` | pkg/orakel/logs.go:86-91 | trimming cuts off nothing but white space at either end |
| `Recommendation.TrimmedEnds` | pkg/orakel/logs.go:86-91 | a trimmed line neither begins nor ends with white space |
| `Recommendation.AnomaliesAreTheUnmatched` | pkg/orakel/logs.go:82-100 | the anomalies are the trimmed forms of exactly those lines that are not blank and match nothing, in order |
| `Recommendation.AnomaliesAreUnmatchedLines` | pkg/orakel/logs.go:82-100 | there are anomalies if and only if some non-empty line matches nothing |
| `Recommendation.LoadBaseline` | internal/workload/manager.go:267-281 | each container's miner is trained further, on top of what it knows already; a container without lines in this recording keeps what it has |
| `Recommendation.TrainedOnBoth` | internal/workload/manager.go:267-281 | the lines known for a container are the trimmed forms of exactly the lines that are not blank, those of the first baseline before those of the second, each in order |
| `Recommendation.TrainedLines` | internal/workload/manager.go:267-281 | a line is known for a container if and only if it is the trimmed form, not empty, of a line that the container logged in the first or in the second baseline |
| `Recommendation.AnalyzeRun` | internal/workload/manager.go:308-357 | the verdict is the run's own flag, or else the recording's, overruled by any suspicious container |
| `Recommendation.AnalyzeCheckRuns` | internal/workload/manager.go:250-363 | computes that analysis: skipped without both baselines or without runs, an error for a run without recording, otherwise every run judged |
| `Recommendation.VerdictsAreMeant` | internal/workload/manager.go:308-352 | a run counts as successful if and only if it became ready and no baselined container logged an unmatched line |
| `Recommendation.AnalysisExactly` | internal/workload/manager.go:250-363 | skipped, failed or done by exactly these conditions: both baselines recorded and a run listed, and every listed run recorded |
| `Recommendation.JudgedRun` | internal/workload/manager.go:308-357 | an analyzed run keeps its context and its recording flag, has a verdict, and lists in addition exactly the known containers with an unmatched line |
| `Recommendation.FamiliarRunsAreSuccessful` | internal/workload/manager.go:308-352 | with a miner that accepts what it was trained on, a run of a ready workload is successful if every line of its known containers occurs in a baseline; with a miner that accepts nothing else, only then |
| `Recommendation.SetRecommendation` | internal/workload/manager.go:394-431 | the fold of exactly the runs that have not been found unsuccessful, each once, in the order the map yields; without any it is the template's own pod context and that of its first container |
| `Recommendation.MergesAreLeftBiased` | internal/workload/securityContext.go:17-135 | both merges take each of the sixteen fields from the base if it is set there and otherwise from the extension, except the container's runAsNonRoot, which stays the base's; added capabilities come from one side |
| `Recommendation.FoldIsJustified` | internal/workload/manager.go:428-431 | after any fold a field is the original's, or one that a folded check asks for, or unset because none does; drops are the union |
| `Recommendation.RecommendationIsSound` | internal/workload/manager.go:294-447 | both directions end to end, from recordings and runs to the recommended fields and drops |
| `Recommendation.AgreeingFoldsAreEqual` | internal/workload/manager.go:428-431 | contexts that agree wherever they overlap fold to the same result in every order |
| `Recommendation.OrderIndependence` | internal/workload/manager.go:396-431 | for all workloads and all sets of checks the order does not matter if and only if the user condition holds; always without user defaults |
| `Recommendation.InconsistentOrder` | pkg/checks/user.go:24-26 | the concrete pair of orders with different results whenever the condition fails |
| `Recommendation.FinalRunReproduces` | internal/workload/manager.go:458-499 | projecting and re-applying reproduces a field if and only if it is carried or the template's own, and always the drops |
| `Names.TargetNamespace` | internal/runner/runner.go:104-122 | never longer than 63 characters (section 2.3.4 of RFC 1035) |
| `Names.NameBeginsWith` | internal/runner/runner.go:104-122 | the name consists of the namespace, as far as its first 45 characters, the whole suffix, and the type as far as there is room |
| `Names.NamesAreDistinct` | internal/runner/runner.go:104-122 | two different kinds share a namespace if and only if they are the two baselines and the name is too long by the stated arithmetic |
| `Names.RecordingKeysAreDistinct` | internal/valkey/client.go:67-68 | recordings of different kinds never share a key |
| `Names.KeysIdentifyRecordings` | internal/valkey/client.go:67-68 | no two recordings of any two resources share a key, for names that the API server admits |
| `Metrics.MetricsSummary.UpdateSummary` | pkg/orakel/metrics.go:57-96 | sorts in place and makes the summary that of the multiset of samples, each value normalised to its distance from the smallest in units of the range; does nothing without samples |
| `Metrics.WrapsAround` | pkg/orakel/metrics.go:69-72 | the total wraps around as a 64-bit integer does: it fits, and differs from the true total by a multiple of 2^64 |
| `Metrics.AverageOfSamples` | pkg/orakel/metrics.go:66-74 | the average times the number of samples is their total as a 64-bit integer |
| `Metrics.NormalizedByRange` | pkg/orakel/metrics.go:76-84 | for any sorting of the samples, a normalised value times the range is the distance from the smallest sample, and zero without a range |
| `Metrics.MedianByPosition` | pkg/orakel/metrics.go:86-92 | the median is that of the sorted samples, the middle one or half of both, as a distance from the smallest in units of the range |
| `Metrics.MetricsOrakel.LoadBaseline` | pkg/orakel/metrics.go:112-127 | after any number of loads the summary is that of all samples at once |
| `Metrics.MetricsOrakel.AnalyzeTarget` | pkg/orakel/metrics.go:129-147 | the verdicts are a function of the loaded and the new samples, and the baseline stays |
| `Metrics.LoadingOnTop` | pkg/orakel/metrics.go:112-127 | adding samples to a sorted list and summarising equals summarising the concatenation |
| `Metrics.SummaryDependsOnMultiset` | pkg/orakel/metrics.go:59-96 | order and split of the samples make no difference to any statistic |
| `Metrics.SummaryBounds` | pkg/orakel/metrics.go:59-96 | Min ≤ Avg ≤ Max, normalised values ascending in [0,1], median in [0,1], variance at most n/(4(n-1)) ≤ 1/2, deviation its root and below 1 |
| `Metrics.VarianceBound` | pkg/orakel/metrics.go:94-95 | the variance bound for any values in [0,1] |
| `Metrics.ThresholdsBracket` | pkg/orakel/metrics.go:133-137 | the thresholds bracket a non-negative average, and the lower one is positive when the average is |
| `Metrics.VerdictByVariance` | pkg/orakel/metrics.go:133-142 | for a non-negative average a and variance v the target average t deviates if and only if (t-a)² > a²·v |
| `Metrics.VarianceBySamples` | pkg/orakel/metrics.go:76-95 | the variance times n-1 and the squared range is the sum of the squared distances of the samples from their mean |
| `Metrics.VerdictOnSamples` | pkg/orakel/metrics.go:129-147 | on the samples themselves, for a baseline of n of them whose total is not negative and does not overflow: the target deviates if and only if (t-a)²·(n-1)·(max-min)² > a²·Σ(x-a)²; without a range, if and only if the averages differ |
| `Metrics.SelfAnalysis` | pkg/orakel/metrics.go:129-142 | a baseline against itself deviates if and only if its total, as the code computes it, is negative and two of its samples differ; a single sample never deviates from anything |
| `Metrics.PositiveDeviation` | pkg/orakel/metrics.go:81-95 | of two or more samples the deviation is a number, and positive if and only if two of the samples differ |
| `Metrics.VerdictIgnoresUnit` | pkg/orakel/metrics.go:129-142 | scaling baseline and target by any positive integer factor changes no verdict, short of overflow |
| `RoleBindings.CloneName` | internal/namespace/clone.go:163-174 | a clone's name is the original's and the target's while that is short enough, and otherwise the original's with ten random characters, as far as 253 characters go; it equals the original's if and only if that has 253; if and only if that has more, the program panics |
| `RoleBindings.RewrittenNames` | internal/namespace/clone.go:186-192 | a clone never names the source, and names a third namespace exactly if the original does |
| `RoleBindings.ClonesBindTheSame` | internal/namespace/clone.go:176-192 | a clone binds to the same role exactly the accounts of the target that the original binds in the source or in the target, and whatever else the original binds; its labels say where it comes from, and others are kept |
| `RoleBindings.Cluster.CloneClusterRoleBindings` | internal/namespace/clone.go:133-204 | existing bindings stay, new ones are rewritten copies of bindings naming the source, with names of at most 253 characters; if the bindings could be listed and it succeeds, all are cloned, and under free names; if they could not be listed, it reports success and has done nothing; it panics only on a binding naming the source whose own name is longer |
| `RoleBindings.Cluster.Clone` | internal/namespace/clone.go:16-51 | refuses an existing target and then changes nothing; if the bindings could be listed, it succeeds only if all of them are cloned and none has a name of more than 253 characters, and it panics only if one has |
| `RoleBindings.Cluster.Delete` | internal/namespace/delete.go:13-47 | removes the namespace and exactly the bindings labelled with it; does nothing for a missing namespace |
| `RoleBindings.Conservation` | internal/namespace/clone.go:141-198 | over any run of clones and deletions, half-failed ones included, the bindings naming the source stay exactly the same and every binding is an original or a copy of an original, never a copy of a copy |
| `RoleBindings.DeletionKeepsExactly` | internal/namespace/delete.go:33-44 | a deletion is sure to keep the bindings of the source if and only if none of them carries the label of the deleted namespace |
| `RoleBindings.DeleteRemovesTheClones` | internal/namespace/delete.go:33-44 | after any run, deleting an existing target removes exactly the copies made for it |
| `RoleBindings.SharedBindingsDisturb` | internal/namespace/clone.go:145-151 | a complete clone disturbs another source if a binding names both |
| `RoleBindings.OtherSourcesAreKept` | internal/namespace/clone.go:145-151 | and only then, even if it fails half-way |

## Left out

- Kubernetes clients, discovery, log and metrics recording, events, log messages and message strings: I/O without effect on the properties; their results are parameters.
- The Drain log miner: an uninterpreted match predicate; the templates kept for more than ten anomalies are not modelled, only which containers had anomalies.
- Processor and memory deviations stored with each run: computed but not evaluated further by the source.
- Valkey beyond a finite map.
- Deletion of the object and the cleanup of its namespaces; webhooks, manifests, generated code and command-line wiring.
- The namespace-wide controller: an easier copy of the protocol with blocking waits.
- Namespaced resources cloned with a namespace, and the namespace steps inside `RunCheck`; role bindings are modelled on their own.
- `ApplySecurityContext` for ready-made Kubernetes contexts: the same loops on other types.
- Capability checks registered on demand: the registry is never read.
- Sharing of capability blocks beyond one merge: every caller in the model hands over a context that has just been made from defaults, so that contexts are values outside `SecurityContexts.MergeBlocks`.
- An entry committed between the read and the write of `AnalyzeCheckRuns` can be lost; the trace allows it and `Trace.NothingElseIsLost` names it.
- White space beyond ASCII in log lines, and names that are not ASCII.
- Liveness of retries and exclusivity in sequential mode: the code does not guarantee them.
- The rules of the trace let the reconciler announce or requeue a check at any time before the end, which is more than the code does; what it does exactly without interference is in `Decisions.CarriedOut`.
