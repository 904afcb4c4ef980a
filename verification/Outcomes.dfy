/**
 * What each store call leaves behind, column by column. Nothing here is defined by the functions of `Transitions`:
 * these are the outcomes that the calls are proved to have.
 */
module Outcomes {
  import opened Schema

  // ---------------------------------------------------------------- shared parts

  /** `j` is scheduled for `w` or running there. */
  predicate HoldsJob(jobs: map<JobId, Job>, w: WorkerId, j: JobId) {
    j in jobs && (jobs[j].status.Scheduled? || jobs[j].status.Running?) && jobs[j].assignee == Some(w)
  }

  ghost predicate HoldsNothing(jobs: map<JobId, Job>, w: WorkerId) {
    forall j :: !HoldsJob(jobs, w, j)
  }

  /** All jobs but `j` are as before; `j` has become `job`. */
  ghost predicate OnlyJob(before: Db, after: Db, j: JobId, job: Job) {
    && j in before.jobs && after.jobs.Keys == before.jobs.Keys && after.jobs[j] == job
    && forall k :: k in before.jobs && k != j ==> after.jobs[k] == before.jobs[k]
  }

  ghost predicate OnlyWorker(before: Db, after: Db, w: WorkerId, worker: Worker) {
    && w in before.workers && after.workers.Keys == before.workers.Keys && after.workers[w] == worker
    && forall v :: v in before.workers && v != w ==> after.workers[v] == before.workers[v]
  }

  /** The batches of the changed jobs are stamped; names, creation times and all other batches stay. */
  ghost predicate BatchesFollow(before: Db, after: Db, changed: set<JobId>, now: Time) {
    && after.batches.Keys == before.batches.Keys
    && forall b :: b in before.batches ==>
         if exists j :: j in changed && j in after.jobs && after.jobs[j].batchId == Some(b)
         then after.batches[b].name == before.batches[b].name
              && after.batches[b].createdAt == before.batches[b].createdAt && after.batches[b].updatedAt == now
         else after.batches[b] == before.batches[b]
  }

  /** Exactly the open attempts of `j` are closed. */
  ghost predicate AttemptClosed(before: Db, after: Db, j: JobId, now: Time) {
    && |after.rows| == |before.rows|
    && forall i :: 0 <= i < |before.rows| ==>
         after.rows[i] == if before.rows[i].completedAt.None? && before.rows[i].jobId == j
                          then before.rows[i].(completedAt := Some(now)) else before.rows[i]
  }

  /** `w` no longer points at `j`, and is idle unless it is offline. */
  ghost predicate WorkerFreed(before: Db, after: Db, j: JobId, w: Option<WorkerId>) {
    if w.Some? && w.value in before.workers then
      var worker := before.workers[w.value];
      OnlyWorker(before, after, w.value, worker.(
        status := if worker.status.Offline? then Offline else Idle,
        runningJobId := if worker.runningJobId == Some(j) then None else worker.runningJobId))
    else after.workers == before.workers
  }

  // ---------------------------------------------------------------- API calls

  ghost predicate JobCreated(before: Db, after: Db, j: JobId, priority: Priority, into: Option<BatchId>, now: Time) {
    && after.jobs == before.jobs[j := Job(into, Queued, priority, None, None, 0, 1, None, None, None, None, None,
                                          now, now)]
    && after.workers == before.workers && after.rows == before.rows
    && BatchesFollow(before, after, {j}, now)
  }

  ghost predicate BatchCreated(before: Db, after: Db, b: BatchId, name: string, ids: seq<JobId>,
                               items: seq<JobRequest>, now: Time)
    requires |ids| == |items|
  {
    && (forall i :: 0 <= i < |ids| ==>
          && ids[i] in after.jobs
          && after.jobs[ids[i]] == Job(Some(b), Queued, items[i].priority, None, None, 0, 1, None, None, None, None,
                                       None, now, now))
    && after.jobs.Keys == before.jobs.Keys + (set j | j in ids)
    && (forall j :: j in before.jobs ==> after.jobs[j] == before.jobs[j])
    && after.workers == before.workers && after.rows == before.rows
    && after.batches.Keys == before.batches.Keys + {b}
    && after.batches[b] == Batch(name, after.batches[b].status, now, now)
    && ((forall j :: j in before.jobs ==> before.jobs[j].batchId != Some(b)) ==> after.batches[b].status.BatchQueued?)
    && (forall c :: c in before.batches && c != b ==> after.batches[c] == before.batches[c])
  }

  /** Queued and scheduled jobs end here; a running job is asked to; a finished one is left alone. */
  ghost predicate CancelOutcome(before: Db, after: Db, j: JobId, now: Time) {
    if j !in before.jobs then after == before
    else
      var job := before.jobs[j];
      match job.status
      case Running =>
        && OnlyJob(before, after, j, job.(cancelRequestedAt := Some(now), updatedAt := now))
        && after.workers == before.workers && after.rows == before.rows && BatchesFollow(before, after, {j}, now)
      case Queued =>
        && OnlyJob(before, after, j, job.(status := Canceled, finishedAt := Some(now), updatedAt := now))
        && after.workers == before.workers && after.rows == before.rows && BatchesFollow(before, after, {j}, now)
      case Scheduled =>
        && OnlyJob(before, after, j, job.(status := Canceled, finishedAt := Some(now), updatedAt := now))
        && WorkerFreed(before, after, j, job.assignee) && AttemptClosed(before, after, j, now)
        && BatchesFollow(before, after, {j}, now)
      case _ => after == before
  }

  // ---------------------------------------------------------------- worker calls

  /**
   * The row says what the beat says, except that a silent beat of a known worker that holds jobs is recorded as busy
   * with the one that was updated first.
   */
  ghost predicate BeatOutcome(before: Db, after: Db, w: WorkerId, node: string, slot: int, status: WorkerStatus,
                              running: Option<JobId>, now: Time) {
    && after.jobs == before.jobs && after.rows == before.rows && after.batches == before.batches
    && after.workers.Keys == before.workers.Keys + {w}
    && (forall v :: v in before.workers && v != w ==> after.workers[v] == before.workers[v])
    && var worker := after.workers[w];
       && worker.nodeName == node && worker.gpuSlot == slot && worker.lastHeartbeatAt == now
       && if running.Some? || w !in before.workers || HoldsNothing(before.jobs, w)
          then worker.status == status && worker.runningJobId == running
          else && worker.status.Busy? && worker.runningJobId.Some?
               && HoldsJob(before.jobs, w, worker.runningJobId.value)
               && forall k :: HoldsJob(before.jobs, w, k) ==>
                    before.jobs[worker.runningJobId.value].updatedAt <= before.jobs[k].updatedAt
  }

  /** The open attempt of the job is claimed; a first start time is kept. */
  ghost predicate ClaimOutcome(before: Db, after: Db, j: JobId, w: WorkerId, now: Time) {
    if j in before.jobs && before.jobs[j].assignee == Some(w) then
      var job := before.jobs[j];
      && OnlyJob(before, after, j, job.(
           status := Running, startedAt := if job.startedAt.None? then Some(now) else job.startedAt,
           failure := None, nextRetryAt := None, updatedAt := now))
      && after.workers == before.workers
      && |after.rows| == |before.rows|
      && (forall i :: 0 <= i < |before.rows| ==>
            after.rows[i] == if before.rows[i].completedAt.None? && before.rows[i].jobId == j
                             then before.rows[i].(claimedAt := Some(now)) else before.rows[i])
      && BatchesFollow(before, after, {j}, now)
    else after == before
  }

  ghost predicate SuccessOutcome(before: Db, after: Db, j: JobId, w: WorkerId, now: Time) {
    if j in before.jobs then
      && OnlyJob(before, after, j, before.jobs[j].(
           status := Succeeded, failure := None, nextRetryAt := None, finishedAt := Some(now), updatedAt := now))
      && WorkerFreed(before, after, j, Some(w)) && AttemptClosed(before, after, j, now)
      && BatchesFollow(before, after, {j}, now)
    else after == before
  }

  /** A failure that may be repeated waits out its delay, never less than nothing; any other one is final. */
  ghost predicate FailedTo(job: Job, failed: Job, category: Option<FailureCategory>, delay: Option<int>,
                           canceled: bool, now: Time) {
    if delay.Some? && job.retryCount < job.maxRetries && !canceled then
      failed == job.(
        status := Queued, assignee := None, gpuSlot := None, retryCount := job.retryCount + 1, failure := category,
        nextRetryAt := Some(if 0 < delay.value then now + delay.value else now), finishedAt := None, updatedAt := now,
        cancelRequestedAt := None)
    else
      failed == job.(
        status := if canceled then Canceled else Failed, failure := category, nextRetryAt := None,
        finishedAt := Some(now), updatedAt := now)
  }

  ghost predicate FailureOutcome(before: Db, after: Db, j: JobId, w: WorkerId, category: Option<FailureCategory>,
                                 delay: Option<int>, canceled: bool, now: Time) {
    if j in before.jobs then
      && j in after.jobs && FailedTo(before.jobs[j], after.jobs[j], category, delay, canceled, now)
      && OnlyJob(before, after, j, after.jobs[j])
      && WorkerFreed(before, after, j, Some(w)) && AttemptClosed(before, after, j, now)
      && BatchesFollow(before, after, {j}, now)
    else after == before
  }

  // ---------------------------------------------------------------- scheduler calls

  /** A known idle worker with a recent beat that holds no job. */
  ghost predicate MayWork(db: Db, w: WorkerId, cutoff: Time) {
    && w in db.workers && db.workers[w].status.Idle? && cutoff <= db.workers[w].lastHeartbeatAt
    && HoldsNothing(db.jobs, w)
  }

  /** A known queued job whose retry time, if it has one, has come. */
  predicate MayStart(db: Db, j: JobId, now: Time) {
    && j in db.jobs && db.jobs[j].status.Queued?
    && (db.jobs[j].nextRetryAt == None || db.jobs[j].nextRetryAt.value <= now)
  }

  /** What is to be done with job and worker, and why. */
  ghost predicate DecisionOutcome(db: Db, j: JobId, w: WorkerId, cutoff: Time, now: Time, decision: DispatchDecision) {
    var able, ready := MayWork(db, w, cutoff), MayStart(db, j, now);
    && (decision.scheduled <==> able && ready)
    && (decision.requeueJob <==> !able)
    && (decision.requeueWorker <==> able && !ready)
    && (decision.reason.WorkerMissing? <==> w !in db.workers)
    && (decision.reason.WorkerNotDispatchable? <==> w in db.workers && !able)
    && (decision.reason.JobMissing? <==> able && j !in db.jobs)
    && (decision.reason.JobNotQueued? <==> able && j in db.jobs && !db.jobs[j].status.Queued?)
    && (decision.reason.Accepted? <==> able && ready)
  }

  ghost predicate AssignOutcome(before: Db, after: Db, j: JobId, w: WorkerId, cutoff: Time, now: Time) {
    if MayWork(before, w, cutoff) && MayStart(before, j, now) then
      && OnlyJob(before, after, j, before.jobs[j].(
           status := Scheduled, assignee := Some(w), gpuSlot := Some(before.workers[w].gpuSlot), failure := None,
           nextRetryAt := None, updatedAt := now))
      && OnlyWorker(before, after, w, before.workers[w].(status := Busy, runningJobId := Some(j)))
      && after.rows == before.rows + [Assignment(j, w, now, None, None)]
      && BatchesFollow(before, after, {j}, now)
    else after == before
  }

  ghost predicate RevertOutcome(before: Db, after: Db, j: JobId, w: WorkerId, now: Time) {
    if j in before.jobs && before.jobs[j].status.Scheduled? && before.jobs[j].assignee == Some(w) then
      && OnlyJob(before, after, j, before.jobs[j].(
           status := Queued, assignee := None, gpuSlot := None, updatedAt := now))
      && (if w in before.workers && before.workers[w].status.Offline? then after.workers == before.workers
          else WorkerFreed(before, after, j, Some(w)))
      && AttemptClosed(before, after, j, now) && BatchesFollow(before, after, {j}, now)
    else after == before
  }

  /** Of two waiting jobs, the first is served first: by priority, and then by age. */
  predicate Precedes(first: Job, second: Job) {
    match first.priority
    case High => second.priority.High? ==> first.createdAt <= second.createdAt
    case Normal => second.priority.Low? || (second.priority.Normal? && first.createdAt <= second.createdAt)
    case Low => second.priority.Low? && first.createdAt <= second.createdAt
  }

  // ---------------------------------------------------------------- sweeps

  /** The worker has not been heard of since the cutoff, and this was not yet noticed. */
  predicate Unheard(db: Db, w: WorkerId, cutoff: Time) {
    w in db.workers && !db.workers[w].status.Offline? && db.workers[w].lastHeartbeatAt < cutoff
  }

  /** `j` is scheduled or running, and an unheard worker points at it. */
  ghost predicate LosesWorker(db: Db, j: JobId, cutoff: Time) {
    && j in db.jobs && (db.jobs[j].status.Scheduled? || db.jobs[j].status.Running?)
    && exists w :: Unheard(db, w, cutoff) && db.workers[w].runningJobId == Some(j)
  }

  predicate MayRepeat(job: Job, delay: Option<int>) {
    delay.Some? && job.retryCount < job.maxRetries
  }

  ghost predicate StaleSweepOutcome(before: Db, after: Db, cutoff: Time, delay: Option<int>, now: Time) {
    && after.workers.Keys == before.workers.Keys && after.jobs.Keys == before.jobs.Keys
    && |after.rows| == |before.rows|
    && (forall w :: w in before.workers ==>
          after.workers[w] == if Unheard(before, w, cutoff)
                              then before.workers[w].(status := Offline, runningJobId := None) else before.workers[w])
    && (forall j :: j in before.jobs ==>
          if LosesWorker(before, j, cutoff)
          then FailedTo(before.jobs[j], after.jobs[j], Some(InfraTransient), delay, false, now)
          else after.jobs[j] == before.jobs[j])
    && (forall i :: 0 <= i < |before.rows| ==>
          after.rows[i] == if before.rows[i].completedAt.None? && LosesWorker(before, before.rows[i].jobId, cutoff)
                           then before.rows[i].(completedAt := Some(now)) else before.rows[i])
    && BatchesFollow(before, after, (set j | j in before.jobs && LosesWorker(before, j, cutoff)), now)
  }

  /** Attempt `i` is open and unclaimed since before the cutoff, and its job is still scheduled. */
  predicate Unclaimed(db: Db, i: int, cutoff: Time) {
    && 0 <= i < |db.rows| && db.rows[i].completedAt.None? && db.rows[i].claimedAt.None?
    && db.rows[i].assignedAt < cutoff
    && db.rows[i].jobId in db.jobs && db.jobs[db.rows[i].jobId].status.Scheduled?
  }

  ghost predicate JobUnclaimed(db: Db, j: JobId, cutoff: Time) {
    exists i :: Unclaimed(db, i, cutoff) && db.rows[i].jobId == j
  }

  ghost predicate WorkerUnclaiming(db: Db, w: WorkerId, cutoff: Time) {
    exists i :: Unclaimed(db, i, cutoff) && db.rows[i].workerId == w
  }

  ghost predicate ClaimSweepOutcome(before: Db, after: Db, claimCutoff: Time, offlineCutoff: Time, now: Time) {
    && after.workers.Keys == before.workers.Keys && after.jobs.Keys == before.jobs.Keys
    && |after.rows| == |before.rows|
    && (forall j :: j in before.jobs ==>
          after.jobs[j] == if JobUnclaimed(before, j, claimCutoff)
                           then before.jobs[j].(status := Queued, assignee := None, gpuSlot := None,
                                                nextRetryAt := None, updatedAt := now)
                           else before.jobs[j])
    && (forall i :: 0 <= i < |before.rows| ==>
          after.rows[i] == if Unclaimed(before, i, claimCutoff) then before.rows[i].(completedAt := Some(now))
                           else before.rows[i])
    && (forall w :: w in before.workers && !WorkerUnclaiming(before, w, claimCutoff) ==>
          after.workers[w] == before.workers[w])
    && (forall i :: Unclaimed(before, i, claimCutoff) && before.rows[i].workerId in before.workers ==>
          var worker := before.workers[before.rows[i].workerId];
          after.workers[before.rows[i].workerId] == worker.(
            status := if worker.lastHeartbeatAt < offlineCutoff then Offline else Idle,
            runningJobId := if worker.runningJobId == Some(before.rows[i].jobId) then None else worker.runningJobId))
    && BatchesFollow(before, after, (set j | j in before.jobs && JobUnclaimed(before, j, claimCutoff)), now)
  }

  /** The stale sweep and then the claim sweep, on one clock reading. */
  ghost predicate BothSweepsOutcome(before: Db, after: Db, offlineCutoff: Time, claimCutoff: Time, delay: Option<int>,
                                    now: Time) {
    exists mid ::
      && StaleSweepOutcome(before, mid, offlineCutoff, delay, now)
      && ClaimSweepOutcome(mid, after, claimCutoff, offlineCutoff, now)
  }

  /** A worker that the claim sweep hands back: it did not claim, but was heard of recently. */
  ghost predicate HandedBack(db: Db, w: WorkerId, claimCutoff: Time, offlineCutoff: Time) {
    WorkerUnclaiming(db, w, claimCutoff) && w in db.workers && offlineCutoff <= db.workers[w].lastHeartbeatAt
  }

  /** A worker that is handed back when the stale sweep comes first: that sweep has not closed its attempt. */
  ghost predicate HandedBackAfterStale(db: Db, w: WorkerId, claimCutoff: Time, offlineCutoff: Time) {
    && w in db.workers && offlineCutoff <= db.workers[w].lastHeartbeatAt
    && exists i :: Unclaimed(db, i, claimCutoff) && db.rows[i].workerId == w
                   && !LosesWorker(db, db.rows[i].jobId, offlineCutoff)
  }
}
