# gvhmr-batch-process: control plane, dispatch and workers

A Dafny model of the batch service that runs GVHMR jobs on GPU workers, with proofs about it.

Four tables record the work: jobs, worker heartbeats, assignment attempts and batches. The API creates and cancels
jobs, the scheduler moves them through Redis queues to workers, and workers claim, execute and complete them. Two
recovery sweeps take work back: one from workers whose heartbeat went stale, one from workers that never claimed.

The files follow the components:

| file | content |
|---|---|
| `Schema.dfy` | the tables as values |
| `BatchStatusView.dfy` | the batch status as a view of the job statuses |
| `Transitions.dfy` | every committed store call as a function on the tables |
| `Outcomes.dfy`, `CallOutcomes.dfy` | what each call leaves in which column, stated without those functions, and the proofs |
| `StoreInvariants.dfy`, `StoreRuns.dfy` | what holds after any sequence of calls with any arguments |
| `Agreement.dfy`, `Sweeps.dfy` | agreement of the three "who works on what" tables under holder discipline; the sweeps |
| `Ordering.dfy`, `ControlPlaneStore.dfy` | `ORDER BY`, and the store object whose methods update the tables step by step |
| `DispatchQueue.dfy` | the Redis keys as an object |
| `Dispatch.dfy`, `Scheduler.dfy`, `SchedulerRound.dfy` | the dispatch loop, the startup rebuild and one scheduler round |
| `Worker.dfy`, `WorkerFailures.dfy` | the worker process and its failure classification |
| `OutsideCalls.dfy` | what API and scheduler calls can do to jobs in workers' hands |
| `SystemRuns.dfy`, `RetryMarks.dfy` | interleavings of API, scheduler and workers, each worker action in one step |
| `FineRuns.dfy` | the same system with the worker's actions cut wherever the code can be interrupted |
| `SampleRuns.dfy` | runs that do happen, so that no statement about runs is empty |
| `VideoType.dfy`, `CacheKeys.dfy`, `Decimal.dfy` | the `video_type` normaliser, the cache keys, the command line |

Three strengths of statement are kept apart.

- *Unconditional* results (`StoreInv`, `IsRun`) hold for any sequence of store calls by anybody.
- *Interruptible worker* results (`FineInv`, `IsFineRun`) hold for the system as the code runs it: cancels and sweeps
  come between fetch and claim, and the heartbeat loop may write a job that it read before its completion was
  committed. All that is asked is that a worker declared lost has stopped executing. No two workers ever execute the
  same job and no success is lost. Both rest on `max_retries` being 1, which is what every job is created with;
  `LateBeatTakesRunningJob` shows a running job queued again where it is larger.
- *Holder-discipline* results (`Agree`, `SysInv`) need callers that behave as holders. `SystemRuns` takes fetch and
  claim as one step, completing and letting go as one step, and a beat as one step. From this it derives that every
  beat names a job its worker holds and that every completion comes from the holder, so that the three tables agree.
  `CoarseRunIsFineRun` ties these runs to the finer ones.

Where a careless call breaks something, a lemma gives the exact guard under which it does not
(`HeartbeatAgreesExactly`, `MarkRunningAgreesExactly`, `SucceedAgreesExactly`, `FailAgreesExactly`,
`TerminalLeftExactly`, `FinishedLeftExactly`, `RunningStopsExactly`, `RequeueFrontKeepsInvExactly`). The code does make
such calls: `CancelLostBetweenFetchAndClaim`, `LateBeatDisagrees` and `LateBeatTakesRunningJob` start from any sound
state.

The functions of `Transitions` only compute. What a call means is said in `Outcomes`, which knows the tables but none of
those functions; each store method promises its outcome in these terms, and `EveryCallHasOutcome` does so for runs.

`DispatchAvailableWork` and `RunIteration` return the handed-out pairs as ghost results, so that their contracts can say
which job went where; `RunIteration` also returns the swept tables and the topped-up queue. The two sweeps visit
workers or rows one at a time; `StaleSweep` and `ClaimSweep` are closed forms without any order, and the loops are
proved to reach them.

## Model

| member | source | states |
|---|---|---|
| BatchStatusView.BuildBatchCounts | packages/common/src/gvhmr_batch_common/control_plane.py:1107-1125 | the counting loop yields each status's multiplicity in the job list, counter by counter |
| BatchStatusView.CountersSumToTotal | packages/common/src/gvhmr_batch_common/control_plane.py:1107-1125 | the six status counters add up to the number of jobs |
| BatchStatusView.ClassifyByCounts | packages/common/src/gvhmr_batch_common/control_plane.py:1132-1149 | the cascade over the job list equals a cascade over the seven counters alone |
| BatchStatusView.ClassifyMeans | packages/common/src/gvhmr_batch_common/control_plane.py:1132-1149 | for each verdict, exactly which jobs there are; drafts never come up |
| BatchStatusView.ClassifyIgnoresOrder | packages/common/src/gvhmr_batch_common/control_plane.py:1132-1149 | permuting the jobs changes neither counters nor verdict |
| BatchStatusView.ClassifyByPresence | packages/common/src/gvhmr_batch_common/control_plane.py:1132-1149 | the verdict depends only on which statuses occur |
| BatchStatusView.RefreshKeepsView | packages/common/src/gvhmr_batch_common/control_plane.py:1127-1152 | refreshing just the batches of the written jobs keeps every batch status exact, also when many jobs of many batches move |
| BatchStatusView.RefreshTwice | packages/common/src/gvhmr_batch_common/control_plane.py:540-541 | refreshing inside a sweep after each job equals one refresh at its end |
| BatchStatusView.ReadingChangesNoStatus | packages/common/src/gvhmr_batch_common/control_plane.py:383-389 | the refresh in `get_batch` never changes a status |
| StoreInvariants.RetireKeepsInv | packages/common/src/gvhmr_batch_common/control_plane.py:970-1022 | any set of jobs may leave their workers at once: rows, unique open attempts, claim budget and batch view survive |
| StoreInvariants.AssignFindsNoOpenRow | packages/common/src/gvhmr_batch_common/control_plane.py:571-605 | the guards of an accepted assignment exclude any open attempt of that job or worker |
| StoreInvariants.AssignKeepsInv | packages/common/src/gvhmr_batch_common/control_plane.py:552-649 | assigning keeps all unconditional invariants |
| StoreInvariants.MarkRunningKeepsInv | packages/common/src/gvhmr_batch_common/control_plane.py:828-852 | marking running, even on a job in any other status, keeps all unconditional invariants |
| StoreInvariants.ClaimingCosts | packages/common/src/gvhmr_batch_common/control_plane.py:844-846 | a claim adds at most one claimed attempt, and none when the open attempt was already claimed |
| StoreInvariants.FailKeepsInv | packages/common/src/gvhmr_batch_common/control_plane.py:888-919 | a failure report by anybody on any job keeps all unconditional invariants |
| StoreInvariants.SucceedKeepsInv | packages/common/src/gvhmr_batch_common/control_plane.py:861-886 | a success report by anybody on any job keeps all unconditional invariants |
| StoreInvariants.CancelKeepsInv | packages/common/src/gvhmr_batch_common/control_plane.py:282-310 | canceling in any status keeps all unconditional invariants |
| StoreInvariants.RevertKeepsInv | packages/common/src/gvhmr_batch_common/control_plane.py:759-789 | reverting keeps all unconditional invariants |
| StoreInvariants.CreateJobKeepsInv | packages/common/src/gvhmr_batch_common/control_plane.py:243-275 | a new job, alone or joining any existing batch, keeps all unconditional invariants |
| StoreInvariants.JoiningReopensBatch | packages/common/src/gvhmr_batch_common/control_plane.py:271-272 | a batch that a job joins is never left succeeded, failed or canceled |
| StoreInvariants.CreateBatchKeepsInv | packages/common/src/gvhmr_batch_common/control_plane.py:334-381 | a new batch starts with an exact status and clean jobs |
| StoreInvariants.LoseWorkersKeepsInv | packages/common/src/gvhmr_batch_common/control_plane.py:522-544 | losing any set of workers keeps all unconditional invariants |
| StoreInvariants.TakeBackKeepsInv | packages/common/src/gvhmr_batch_common/control_plane.py:676-702 | taking back any set of expired attempts keeps all unconditional invariants |
| CallOutcomes.CreateJobOutcome | packages/common/src/gvhmr_batch_common/control_plane.py:243-275 | the new row, column by column, nothing else but the stamp of the joined batch |
| CallOutcomes.CreateBatchOutcome | packages/common/src/gvhmr_batch_common/control_plane.py:334-381 | the new rows, column by column, each with its own priority; all else unchanged |
| CallOutcomes.CancelHasOutcome | packages/common/src/gvhmr_batch_common/control_plane.py:282-310 | a queued or scheduled job ends canceled now; a running one keeps running with a request made now; a finished job and all other rows stay |
| CallOutcomes.BeatHasOutcome | packages/common/src/gvhmr_batch_common/control_plane.py:455-502 | the row says what the beat says; only a silent beat of a known worker that holds jobs is recorded as busy with the one updated first |
| CallOutcomes.IdleBeatMakesEligible | packages/common/src/gvhmr_batch_common/control_plane.py:494-500 | a silent idle beat of a worker that holds nothing makes it eligible for work, for any cutoff up to now |
| CallOutcomes.ClaimHasOutcome | packages/common/src/gvhmr_batch_common/control_plane.py:828-852 | the job runs, a first start time is kept, its open attempt is claimed now |
| CallOutcomes.SuccessHasOutcome | packages/common/src/gvhmr_batch_common/control_plane.py:861-886 | the job has succeeded now, its worker is free, its attempt closed |
| CallOutcomes.FailureHasOutcome | packages/common/src/gvhmr_batch_common/control_plane.py:970-1008 | a repeatable failure waits out its delay, never less than nothing, and costs one retry; any other is final, failed or canceled |
| CallOutcomes.EligibleMeans | packages/common/src/gvhmr_batch_common/control_plane.py:571-613 | who may take work and what may start, column by column |
| CallOutcomes.AssignHasOutcome | packages/common/src/gvhmr_batch_common/control_plane.py:552-649 | job, worker and new attempt, column by column, exactly for an eligible worker and a startable job |
| CallOutcomes.RevertHasOutcome | packages/common/src/gvhmr_batch_common/control_plane.py:759-789 | a job scheduled for that worker is queued again, the worker is free unless offline, the attempt is closed |
| CallOutcomes.StaleSweepHasOutcome | packages/common/src/gvhmr_batch_common/control_plane.py:504-550 | exactly the unheard workers go offline; exactly the active jobs they point at fail or are repeated; their attempts are closed |
| CallOutcomes.ClaimSweepHasOutcome | packages/common/src/gvhmr_batch_common/control_plane.py:651-705 | exactly the open, unclaimed attempts from before the cutoff whose job is scheduled are closed, their jobs queued, their workers idle or offline; every other job, worker and row stays |
| CallOutcomes.SweepResultsAre | packages/common/src/gvhmr_batch_common/control_plane.py:518-550 | the two result lists of the stale sweep, in the same terms |
| CallOutcomes.ReusableAreHandedBack | packages/common/src/gvhmr_batch_common/control_plane.py:690-697 | the workers handed back: they did not claim, but were heard of since the cutoff |
| CallOutcomes.ComesBeforeMeans | packages/common/src/gvhmr_batch_common/control_plane.py:433-444 | the dispatch order: high before normal before low, then by creation time |
| CallOutcomes.EveryCallHasOutcome | packages/common/src/gvhmr_batch_common/control_plane.py:146 | every call that a run is made of has its outcome |
| StoreRuns.RunKeepsInv | packages/common/src/gvhmr_batch_common/control_plane.py:146 | every state of every sequence of store calls satisfies the unconditional invariants |
| StoreRuns.ClaimsAreBounded | packages/common/src/gvhmr_batch_common/control_plane.py:982-998 | under any interleaving a job is claimed at most `retry_count` times plus one once it has left the queue, hence at most `max_retries + 1` times |
| StoreRuns.OpenAttemptsAreDisciplined | packages/common/src/gvhmr_batch_common/models.py:105-116 | an open attempt names an active job and its assignee, is unclaimed exactly while the job is scheduled, and is the only open one of its job and of its worker |
| StoreRuns.ScheduledJobsHaveAnAttempt | packages/common/src/gvhmr_batch_common/control_plane.py:618-635 | every scheduled job has an open unclaimed attempt naming its assignee |
| StoreRuns.BatchStatusIsExact | packages/common/src/gvhmr_batch_common/control_plane.py:1127-1152 | at any time the stored batch status equals the cascade over any listing of its jobs' statuses |
| StoreRuns.RunExtendsHistory | packages/common/src/gvhmr_batch_common/control_plane.py:1087-1105 | attempt rows are never removed or reopened, and claims are never taken back |
| Agreement.ThreeTablesSayTheSame | packages/common/src/gvhmr_batch_common/control_plane.py:618-635 | job row, heartbeat row and open attempt name the same pair, as equivalences |
| Agreement.OneJobOneWorker | packages/common/src/gvhmr_batch_common/control_plane.py:571-589 | the pairing is one-to-one, and idle or offline workers hold nothing |
| Agreement.RetireKeepsAgreement | packages/common/src/gvhmr_batch_common/control_plane.py:1010-1022 | if exactly the workers pointing at the leaving jobs let go, agreement survives |
| Agreement.CancelAgrees | packages/common/src/gvhmr_batch_common/control_plane.py:282-310 | canceling keeps agreement in every status |
| Agreement.HarmlessBeatAgrees | packages/common/src/gvhmr_batch_common/control_plane.py:455-502 | a harmless beat keeps agreement and never changes which job the worker is recorded with |
| Agreement.HeartbeatAgreesExactly | packages/common/src/gvhmr_batch_common/control_plane.py:470-500 | a beat keeps agreement exactly when it names a job its worker holds, or is silent and does not claim to be busy with nothing |
| Agreement.LateBeatDisagrees | services/worker/src/gvhmr_batch_worker/main.py:330-337 | a beat written between the commit of a completion and letting go leaves a busy worker pointing at a finished job |
| Agreement.OneScheduledJobPerWorker | services/scheduler/src/gvhmr_batch_scheduler/main.py:45-48 | unconditionally, no worker has two scheduled jobs |
| Agreement.AssignAgrees | packages/common/src/gvhmr_batch_common/control_plane.py:552-649 | assigning keeps agreement |
| Agreement.RevertAgrees | packages/common/src/gvhmr_batch_common/control_plane.py:759-789 | reverting keeps agreement |
| Agreement.MarkRunningAgreesExactly | packages/common/src/gvhmr_batch_common/control_plane.py:833-846 | the assignee check alone keeps agreement exactly when the job is still active |
| Agreement.SucceedAgreesExactly | packages/common/src/gvhmr_batch_common/control_plane.py:868-886 | a success report keeps agreement exactly when the reporter holds the job, or nobody does and the reporter holds nothing |
| Agreement.FailAgreesExactly | packages/common/src/gvhmr_batch_common/control_plane.py:899-919 | the same exact guard for failure reports |
| Agreement.CancelLostBetweenFetchAndClaim | services/worker/src/gvhmr_batch_worker/main.py:485-503 | a cancel between fetch and claim is overwritten: the job runs without an open attempt |
| Sweeps.LoseOneMore | packages/common/src/gvhmr_batch_common/control_plane.py:522-544 | one loop iteration of the stale sweep equals adding one worker to the set lost at once |
| Sweeps.StaleSweepPartitions | packages/common/src/gvhmr_batch_common/control_plane.py:504-550 | nobody stays stale; each job that a stale worker points at is retried with one more retry or failed, never both; all else is untouched |
| Sweeps.StaleSweepAgrees | packages/common/src/gvhmr_batch_common/control_plane.py:504-550 | the stale sweep keeps agreement |
| Sweeps.TakeBackOneMore | packages/common/src/gvhmr_batch_common/control_plane.py:676-702 | one loop iteration of the claim sweep equals adding one attempt to the set taken back at once |
| Sweeps.ClaimSweepIsComplete | packages/common/src/gvhmr_batch_common/control_plane.py:651-705 | no expired unclaimed attempt remains; exactly their jobs went back to the queue with the same retry count; all else is untouched |
| Sweeps.ClaimSweepAgrees | packages/common/src/gvhmr_batch_common/control_plane.py:651-705 | the claim sweep keeps agreement |
| Sweeps.ReusableWorkersAreFree | packages/common/src/gvhmr_batch_common/control_plane.py:690-697 | the workers handed back are dispatchable and point at no job |
| ControlPlane.ControlPlaneStore.GetActiveAssignmentForJob | packages/common/src/gvhmr_batch_common/control_plane.py:1043-1051 | finds an open attempt of the job with the latest assignment time, or none exists; under the unique index it is the only one |
| ControlPlane.ControlPlaneStore.ListQueuedJobs | packages/common/src/gvhmr_batch_common/control_plane.py:433-444 | lists exactly the queued jobs whose retry time has come, once each, high before normal before low and then by age |
| ControlPlane.ControlPlaneStore.ListScheduledJobs | packages/common/src/gvhmr_batch_common/control_plane.py:446-453 | lists exactly the scheduled jobs, once each, by update and then by creation |
| ControlPlane.ControlPlaneStore.FindActiveJob | packages/common/src/gvhmr_batch_common/control_plane.py:471-478 | finds the worker's active job with the oldest update |
| ControlPlane.ControlPlaneStore.RefreshBatchState | packages/common/src/gvhmr_batch_common/control_plane.py:1127-1152 | writes the verdict on the batch's jobs and nothing else |
| ControlPlane.ControlPlaneStore.ReleaseWorkerForJob | packages/common/src/gvhmr_batch_common/control_plane.py:1010-1022 | frees the worker unless offline, and closes the job's attempt |
| ControlPlane.ControlPlaneStore.CreateAssignment | packages/common/src/gvhmr_batch_common/control_plane.py:1087-1105 | closes open attempts of both sides, then appends one |
| ControlPlane.ControlPlaneStore.CreateJob | packages/common/src/gvhmr_batch_common/control_plane.py:243-275 | the new row column by column, also the stamp of the batch that the job joins, or an error for an unknown upload or batch and no change |
| ControlPlane.ControlPlaneStore.CreateBatch | packages/common/src/gvhmr_batch_common/control_plane.py:334-381 | all new rows column by column, or an error and no change when any upload is missing |
| ControlPlane.ControlPlaneStore.CancelJob | packages/common/src/gvhmr_batch_common/control_plane.py:282-310 | a queued or scheduled job ends canceled now, a running one gets a request, a finished one and all others stay; an error for an unknown job |
| ControlPlane.ControlPlaneStore.GetBatch | packages/common/src/gvhmr_batch_common/control_plane.py:383-389 | reading leaves the status as it was and stamps this batch only |
| ControlPlane.ControlPlaneStore.UpsertWorkerHeartbeat | packages/common/src/gvhmr_batch_common/control_plane.py:455-502 | the stored row, column by column: what the beat says, or for a silent beat of a known worker that holds jobs, busy with the one updated first |
| ControlPlane.ControlPlaneStore.MarkStaleWorkersOffline | packages/common/src/gvhmr_batch_common/control_plane.py:504-550 | the loop reaches the outcome in any visiting order; each job of an unheard worker is reported once, in the right list |
| ControlPlane.ControlPlaneStore.AssignJobToWorker | packages/common/src/gvhmr_batch_common/control_plane.py:552-649 | every field of the decision, and the new rows, in terms of who may work and what may start; the state changes exactly when the decision is to schedule |
| ControlPlane.ControlPlaneStore.RequeueStaleScheduledJobs | packages/common/src/gvhmr_batch_common/control_plane.py:651-705 | exactly the attempts unclaimed since before the cutoff are taken back, reported oldest first; every other job, worker and row stays; the workers heard of since are handed back once each |
| ControlPlane.ControlPlaneStore.RevertScheduledJob | packages/common/src/gvhmr_batch_common/control_plane.py:759-789 | the queued job and the freed worker, column by column; nothing happens to a job that is not scheduled for that worker |
| ControlPlane.ControlPlaneStore.MarkJobRunning | packages/common/src/gvhmr_batch_common/control_plane.py:828-852 | the running job and its claimed attempt, column by column, or the error for unknown job or foreign assignee |
| ControlPlane.ControlPlaneStore.CompleteJobSuccess | packages/common/src/gvhmr_batch_common/control_plane.py:861-886 | the finished job and the freed worker, column by column, or an error for an unknown job |
| ControlPlane.ControlPlaneStore.CompleteJobFailure | packages/common/src/gvhmr_batch_common/control_plane.py:888-919 | the repeated or finished job and the freed worker, column by column, or an error for an unknown job |
| DispatchQueue.EnqueueAllKeepsInv | packages/common/src/gvhmr_batch_common/queue.py:24-37 | enqueueing any list, repetitions included, adds exactly its ids and keeps the queue duplicate free |
| DispatchQueue.EnqueueSorted | packages/common/src/gvhmr_batch_common/queue.py:24-37 | a list ordered by priority goes into an empty queue unchanged |
| DispatchQueue.EnqueueAllGrows | packages/common/src/gvhmr_batch_common/queue.py:27-37 | each list is its old content followed by the unknown ids whose first occurrence carries that priority, in list order |
| DispatchQueue.PopServesHead | packages/common/src/gvhmr_batch_common/queue.py:62-68 | popping removes the head of high, then normal, then low, and nothing else |
| DispatchQueue.PopThenRequeue | packages/common/src/gvhmr_batch_common/queue.py:62-72 | pop followed by requeue-front restores the queue exactly |
| DispatchQueue.RequeueFrontKeepsInvExactly | packages/common/src/gvhmr_batch_common/queue.py:70-72 | requeue-front keeps the queue duplicate free exactly for an id that is not queued |
| DispatchQueue.RedisDispatchQueue.EnqueueJobs | packages/common/src/gvhmr_batch_common/queue.py:24-37 | each of the three lists is its old content followed by the unknown ids whose first occurrence carries its priority, in list order; the dedup set grows by all ids |
| DispatchQueue.RedisDispatchQueue.PopIdleWorker | packages/common/src/gvhmr_batch_common/queue.py:55-57 | removes some idle worker, if there is one |
| DispatchQueue.RedisDispatchQueue.PopNextJob | packages/common/src/gvhmr_batch_common/queue.py:62-68 | high before normal before low: the first id of the first nonempty list comes out of list and dedup set, with that list's priority |
| DispatchQueue.RedisDispatchQueue.ClearDispatchState | packages/common/src/gvhmr_batch_common/queue.py:84-95 | every key is gone |
| Dispatch.AssignAllEffect | services/scheduler/src/gvhmr_batch_scheduler/main.py:73-82 | handing out pairs schedules each job to its own worker and touches no other job or worker |
| Dispatch.Hand | services/scheduler/src/gvhmr_batch_scheduler/main.py:79-88 | one scheduling round keeps the progress record of a pass |
| Dispatch.PassIsComplete | services/scheduler/src/gvhmr_batch_scheduler/main.py:61-102 | once workers or jobs run out, exactly min(able workers, ready jobs) jobs were handed out, and they are the first ones |
| Dispatch.NothingIsLost | services/scheduler/src/gvhmr_batch_scheduler/main.py:61-102 | ready jobs before = handed-out jobs followed by the ready jobs still queued, in the old order |
| Dispatch.FailedPushRollsBack | services/scheduler/src/gvhmr_batch_scheduler/main.py:80-87 | the whole state after assign and revert: the old one but for a closed attempt, time stamps, a lapsed retry mark and a stale pointer of the worker |
| Dispatch.RollbackIsInvisible | services/scheduler/src/gvhmr_batch_scheduler/main.py:80-87 | after the rollback every job is ready whenever it was, no job is held or batch status changed, and the worker row is as before exactly if it pointed at no job |
| Dispatch.FailedPushRestoresQueue | services/scheduler/src/gvhmr_batch_scheduler/main.py:83-87 | the rollback restores lists, dedup set and idle set exactly |
| Scheduler.DecisionMeaning | packages/common/src/gvhmr_batch_common/control_plane.py:561-649 | every decision drops the worker, drops the job or schedules the pair, and says which |
| Scheduler.DispatchAvailableWork | services/scheduler/src/gvhmr_batch_scheduler/main.py:61-102 | terminates and, whatever the idle set yields, hands out the first min(able workers, ready jobs) jobs; a failed push was of an acceptable pair, and leaves exactly the rolled-back tables; agreement survives both |
| Scheduler.ReconcileDispatchState | services/scheduler/src/gvhmr_batch_scheduler/main.py:16-58 | whatever the queue held: each list holds exactly the startable jobs of its priority, once each, oldest first; worker queues hold exactly the scheduled jobs; the idle set is the fresh idle workers that point at no job and the workers handed back, and under agreement all fresh idle workers |
| Scheduler.PassAfterRebuildIsGlobal | services/scheduler/src/gvhmr_batch_scheduler/main.py:118-119 | the pass after a rebuild serves the whole table by priority and age |
| CallOutcomes.HandedBackMeans | services/scheduler/src/gvhmr_batch_scheduler/main.py:135-151 | which workers the claim sweep hands back after the stale sweep, in terms of the rows before both |
| SchedulerRound.SweepAndTopUp | services/scheduler/src/gvhmr_batch_scheduler/main.py:125-151 | both sweeps; then the lists grow by the jobs taken back, oldest attempt first, and by all startable jobs in dispatch order; the idle set grows by exactly the workers handed back |
| SchedulerRound.WorkersOfRound | services/scheduler/src/gvhmr_batch_scheduler/main.py:150-158 | every eligible worker that was listed or handed back gets a job or stays listed, and no other worker gets one |
| SchedulerRound.CountsOfRound | services/scheduler/src/gvhmr_batch_scheduler/main.py:150-158 | without a failed push, the smaller of the number of these workers and the number of startable jobs is handed out |
| SchedulerRound.RunIteration | services/scheduler/src/gvhmr_batch_scheduler/main.py:125-158 | the two above on the code's own steps, with the topped-up queue and the progress of the pass; without a failed push it ends with no listed worker or no startable job; after one the tables are the rolled-back ones; agreement survives |
| Worker.WorkerProcess.ReadJobInHand | services/worker/src/gvhmr_batch_worker/main.py:410 | the first half of a beat is one step of `FineRuns` |
| Worker.WorkerProcess.WriteBeat | services/worker/src/gvhmr_batch_worker/main.py:411-419 | the second half reports what was read, and is one step |
| Worker.WorkerProcess.Fetch | services/worker/src/gvhmr_batch_worker/main.py:472-496 | takes one pushed job and returns it exactly if the fetch step is possible for it |
| Worker.WorkerProcess.ClaimFetched | services/worker/src/gvhmr_batch_worker/main.py:498-511 | claims if still assigned, otherwise lets go; one step |
| Worker.WorkerProcess.Complete | services/worker/src/gvhmr_batch_worker/main.py:330-398 | commits success, cancellation or a classified failure of the job in hand, and says when the process ends; one step |
| Worker.WorkerProcess.LetGo | services/worker/src/gvhmr_batch_worker/main.py:399-400 | drops the job in hand after its completion; one step |
| WorkerFailures.DelayMeansTransient | services/worker/src/gvhmr_batch_worker/main.py:197-217 | a retry delay is granted exactly to transient infrastructure failures |
| WorkerFailures.CategoryTellsCause | services/worker/src/gvhmr_batch_worker/main.py:197-217 | each category is given to exactly its causes |
| WorkerFailures.RetriedExactlyOnCuda | packages/gvhmr_runner/src/gvhmr_runner/runner.py:323-341 | from runner log to worker decision: a crashed run is retried exactly when its log shows a CUDA pattern, and blamed on the algorithm exactly when it shows no known pattern |
| OutsideCalls.OutsideMoves | packages/common/src/gvhmr_batch_common/control_plane.py:282-310 | no call of API or scheduler revives a finished job, hands a running job to somebody else or lowers a retry count |
| OutsideCalls.RunningUnderOutside | packages/common/src/gvhmr_batch_common/control_plane.py:522-541 | such a call stops a running job exactly when it is a stale sweep and a lost worker's row points at the job |
| SystemRuns.OutsideSparesRunning | services/scheduler/src/gvhmr_batch_scheduler/main.py:125-158 | API and scheduler calls leave a running job with its worker, unless its worker is declared lost |
| SystemRuns.StepKeepsInv | services/worker/src/gvhmr_batch_worker/main.py:466-522 | every step of API, scheduler or worker keeps invariants, agreement and "executed means running and assigned" |
| SystemRuns.RunIsSafe | services/worker/src/gvhmr_batch_worker/main.py:466-522 | all reachable states are safe, so the preconditions of holder discipline are met by the worker's own steps |
| SystemRuns.MutualExclusion | services/worker/src/gvhmr_batch_worker/main.py:466-522 | an executed job is running, assigned to its executor in all three tables, and no second worker executes it |
| SystemRuns.TerminalForever | packages/common/src/gvhmr_batch_common/control_plane.py:290-291 | in system runs the row of a finished job never changes again |
| SystemRuns.TerminalLeftExactly | packages/common/src/gvhmr_batch_common/control_plane.py:828-919 | the exact guard under which a bare store call changes the status of a finished job |
| SystemRuns.RequestMadeDuringAttempt | packages/common/src/gvhmr_batch_common/control_plane.py:293-295 | a pending cancel request of a running job was made while this attempt was running |
| SystemRuns.CanceledOnlyOnRequest | services/worker/src/gvhmr_batch_worker/main.py:339-357 | a running attempt ends canceled only if cancel was called during that attempt |
| SampleRuns.CancelReachesTheAttempt | services/worker/src/gvhmr_batch_worker/main.py:339-357 | whenever a job is executed, calling cancel, polling and stopping the runner ends the attempt canceled |
| SampleRuns.NoPollNoCancel | packages/gvhmr_runner/src/gvhmr_runner/runner.py:176-185 | an attempt cannot be reported canceled before a poll has seen a request |
| SampleRuns.AttemptStarts | services/worker/src/gvhmr_batch_worker/main.py:466-522 | an eligible resting worker and a startable job: one dispatch and one claim start the attempt |
| SampleRuns.SomeAttemptEndsCanceled | services/worker/src/gvhmr_batch_worker/main.py:339-357 | a whole run in which a running attempt ends canceled |
| FineRuns.SweepSparesExecuted | packages/common/src/gvhmr_batch_common/control_plane.py:522-544 | a stale sweep never takes an executed job from a worker that is not lost; at worst it fails one that was already repeated |
| FineRuns.ClaimSweepKeepsPointers | packages/common/src/gvhmr_batch_common/control_plane.py:676-702 | the claim sweep leaves no heartbeat row pointing at a job of another worker that may still be repeated |
| FineRuns.StepKeepsFineInv | services/worker/src/gvhmr_batch_worker/main.py:466-522 | every step, however fine, keeps "an executed job is assigned to its executor" and what it rests on |
| FineRuns.FineRunIsSafe | services/worker/src/gvhmr_batch_worker/main.py:403-522 | all states that any interleaving of these steps reaches are safe |
| FineRuns.NoTwoExecutors | services/worker/src/gvhmr_batch_worker/main.py:403-522 | no two workers ever execute the same job, with late claims and late beats allowed |
| FineRuns.RunningStopsExactly | packages/common/src/gvhmr_batch_common/control_plane.py:522-541 | an executed job stops running exactly by its executor's completion or by a sweep that finds a lost worker's old pointer to it |
| FineRuns.FinishedLeftExactly | packages/common/src/gvhmr_batch_common/control_plane.py:828-919 | the exact steps that change the status of a finished job; a success is never changed |
| FineRuns.SucceededForever | packages/common/src/gvhmr_batch_common/control_plane.py:861-886 | the row of a succeeded job never changes again, with late claims and late beats allowed |
| FineRuns.LateBeatTakesRunningJob | services/worker/src/gvhmr_batch_worker/main.py:409-419 | a late beat of a worker that exits makes the sweep fail a job that a beating worker executes, and requeue it if it may be repeated again |
| FineRuns.CoarseStepIsFineSteps | services/worker/src/gvhmr_batch_worker/main.py:466-522 | every step of `SystemRuns` is a sequence of the finer steps |
| FineRuns.CoarseRunIsFineRun | services/worker/src/gvhmr_batch_worker/main.py:466-522 | whatever `SystemRuns` reaches is reached by finer steps |
| RetryMarks.CallKeepsMarks | packages/common/src/gvhmr_batch_common/control_plane.py:988-1005 | calls that grant delays to transient failures only keep the retry marks truthful |
| RetryMarks.FailKeepsMarkExactly | packages/common/src/gvhmr_batch_common/control_plane.py:988-1005 | the exact guard for one failure transition |
| RetryMarks.RunKeepsMarks | services/worker/src/gvhmr_batch_worker/main.py:359-382 | in system runs a queued job has a retry time exactly after a transient failure and otherwise no failure category |
| VideoType.SplitJoin | packages/gvhmr_runner/src/gvhmr_runner/cache.py:18-19 | splitting undoes joining for comma-free parts |
| VideoType.LowerSplits | packages/gvhmr_runner/src/gvhmr_runner/cache.py:13-18 | lower-casing before or after splitting gives the same parts |
| VideoType.AsciiLowers | packages/gvhmr_runner/src/gvhmr_runner/cache.py:13 | lower-casing of ASCII letters meets what the normaliser lemmas ask of lower-casing |
| VideoType.OrderedIsUnique | packages/gvhmr_runner/src/gvhmr_runner/cache.py:18 | an ordered list is determined by its elements with multiplicity |
| VideoType.SortSorts | packages/gvhmr_runner/src/gvhmr_runner/cache.py:18 | sorting orders and keeps every element as often as it was |
| VideoType.TextLeMeans | packages/gvhmr_runner/src/gvhmr_runner/cache.py:18 | the order of texts: a prefix first, else the smaller character at the first difference |
| VideoType.SpaceCodes | packages/gvhmr_runner/src/gvhmr_runner/cache.py:13-18 | the code points that `str.strip` removes |
| VideoType.TrimCutsSpace | packages/gvhmr_runner/src/gvhmr_runner/cache.py:13-18 | trimming cuts white space off both ends, all of it and nothing else |
| VideoType.NormalizedNone | packages/gvhmr_runner/src/gvhmr_runner/cache.py:14-19 | the normal form is `none` exactly when that is the only part or there is none |
| VideoType.NormalizeIsJoinedRequest | packages/gvhmr_runner/src/gvhmr_runner/cache.py:12-19 | the early returns and the outer trim agree with the general path |
| VideoType.NormalizeDecidesRequest | packages/gvhmr_runner/src/gvhmr_runner/cache.py:12-19 | two texts normalise alike exactly when they have the same lower-cased trimmed parts with multiplicity, none counting as `none` |
| VideoType.NormalizeIsIdempotent | packages/gvhmr_runner/src/gvhmr_runner/cache.py:12-19 | a normal form is its own normal form and is never empty |
| CacheKeys.BuildCommand | packages/gvhmr_runner/src/gvhmr_runner/runner.py:133-150 | the appending code builds the paths followed by exactly these flags |
| CacheKeys.FlagsAre | packages/gvhmr_runner/src/gvhmr_runner/runner.py:139-150 | the flags, word for word, by job fields |
| CacheKeys.AsksWhenRequested | packages/gvhmr_runner/src/gvhmr_runner/runner.py:148-150 | a video is asked for exactly when rendering is on and some part other than `none` alone is requested |
| CacheKeys.PlanArtifacts | packages/gvhmr_runner/src/gvhmr_runner/runner.py:86-89 | the appending code lists the render output exactly when a video is asked for |
| CacheKeys.CoreKeyIsExact | packages/gvhmr_runner/src/gvhmr_runner/cache.py:22-39 | core keys agree exactly when input, effective upstream version, camera mode, effective DPVO and focal length agree; equivalently the flags |
| CacheKeys.RenderKeyIsExact | packages/gvhmr_runner/src/gvhmr_runner/cache.py:42-54 | render keys agree exactly when core keys, render switch and requested parts agree |
| CacheKeys.RenderKeyIsSound | packages/gvhmr_runner/src/gvhmr_runner/cache.py:42-54 | equal render keys give equal commands, paths apart, and equal expected artifacts |
| CacheKeys.RenderKeyMatchesCommand | packages/gvhmr_runner/src/gvhmr_runner/runner.py:139-150 | given equal core keys, the exact condition under which the render key separates exactly the different commands |
| CacheKeys.ArtifactsMatchCommand | packages/gvhmr_runner/src/gvhmr_runner/runner.py:86-89 | a render output is expected exactly when the command asks for one |
| Decimal.DecimalInjective | packages/gvhmr_runner/src/gvhmr_runner/runner.py:145-146 | different focal lengths are written differently |
| Decimal.DecimalDenotes | packages/gvhmr_runner/src/gvhmr_runner/runner.py:145-146 | the notation denotes the number in base ten, with a minus sign and no leading zero |

## Left out

- NoTwoExecutors: assumes that a worker past the offline cutoff has stopped executing, because the code does not enforce
  it.
- MutualExclusion: assumes the same, and that fetch and claim are one step, that completing and letting go are one step,
  and that a beat reads and writes in one step. NoTwoExecutors needs none of these three; that the three tables name the
  executor and that the job is still running does need them, as CancelLostBetweenFetchAndClaim, LateBeatDisagrees and
  LateBeatTakesRunningJob show.
- TerminalForever: holds under the assumptions of MutualExclusion only. For bare store calls it is false, and
  TerminalLeftExactly gives the guard; for interruptible workers it holds of successes (SucceededForever), and
  FinishedLeftExactly gives the guard for the others.
- DispatchAvailableWork: no API or worker call comes between the steps of a pass, and there is one clock reading for the
  whole pass, where the code reads the clock at every call; a push that raises is taken to have had no effect in Redis.
- RunIteration: no API or worker call comes between its steps either. Interleaved with such calls, the single store calls
  of a round are outside steps of `SystemRuns` and `FineRuns`.
- ReconcileDispatchState: Redis pushes during the rebuild are taken to succeed, because a failure there ends the process.
- NormalizeIsJoinedRequest: lower-casing is a parameter of which `Lowers` says what is used; that `str.lower` meets it is
  not proved (`AsciiLowers` proves it of ASCII letters). White space is that of `str.strip`.
- CoreKeyIsExact: takes the digest to be free of collisions instead of modelling SHA-256 and JSON.
- `schedule_next_job` has no caller in the repository.
- SQL sessions, isolation and Redis or MinIO failures: each store call and each queue call is one atomic step that reads
  the clock once.
- Error message texts, artifact rows and `artifact_count`; of uploads only whether the named upload exists.
- The scheduler's signal list, which only shortens its sleep.
- New identifiers are parameters that differ from all existing ones; rows of equal sort key come in any order.
- Liveness: a quickly restarted worker's heartbeat keeps its old running job alive, so such a job may never be retried.
- Global age order across scheduler rounds: requeued jobs go to the tail of their list.
- Subprocess polling, timeouts, preflight checks, scratch clean-up, health file, identity and clock-skew checks.
- HTTP routes, dashboard, deployment scripts, database migrations, rendering and numeric code.
