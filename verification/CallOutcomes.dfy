/** Every store call has the outcome that `Outcomes` spells out. */
module CallOutcomes {
  import opened Schema
  import opened BatchStatusView
  import opened Transitions
  import opened StoreInvariants
  import opened Sweeps
  import opened StoreRuns
  import opened Outcomes

  // ---------------------------------------------------------------- shared parts

  /** Refreshing the batches of the written jobs stamps exactly these. */
  lemma RefreshFollows(before: Db, after: Db, js: map<JobId, Job>, now: Time)
    requires after.jobs == before.jobs + js
    requires after.batches == Refresh(before.batches, after.jobs, BatchesOf(js), now)
    ensures BatchesFollow(before, after, js.Keys, now)
  {
    hide Present, ClassifyPresent;
    forall b | b in before.batches
      ensures b in BatchesOf(js) <==> exists j :: j in js.Keys && j in after.jobs && after.jobs[j].batchId == Some(b)
    {
      if b in BatchesOf(js) {
        var j :| j in js && js[j].batchId == Some(b);
        assert j in js.Keys && j in after.jobs && after.jobs[j].batchId == Some(b);
      }
    }
  }

  lemma PutFollows(before: Db, after: Db, j: JobId, job: Job, now: Time)
    requires after.jobs == before.jobs + map[j := job]
    requires after.batches == Refresh(before.batches, after.jobs, BatchesOf(map[j := job]), now)
    ensures BatchesFollow(before, after, {j}, now)
    ensures j in before.jobs ==> OnlyJob(before, after, j, job)
    ensures after.jobs == before.jobs[j := job]
  {
    assert map[j := job].Keys == {j};
    RefreshFollows(before, after, map[j := job], now);
    hide Refresh, BatchesOf, BatchesFollow;
  }

  lemma ReleaseFrees(before: Db, after: Db, j: JobId, w: Option<WorkerId>)
    requires after.workers == ReleaseWorker(before.workers, j, w)
    ensures WorkerFreed(before, after, j, w)
  {
  }

  lemma ClosingCloses(before: Db, after: Db, j: JobId, now: Time)
    requires after.rows == CloseRows(before.rows, {j}, now)
    ensures AttemptClosed(before, after, j, now)
  {
  }

  lemma HeldJobsAre(jobs: map<JobId, Job>, w: WorkerId)
    ensures forall j :: j in HeldJobs(jobs, w) <==> HoldsJob(jobs, w, j)
    ensures HeldJobs(jobs, w) == {} <==> HoldsNothing(jobs, w)
  {
    assert forall j :: j in HeldJobs(jobs, w) <==> HoldsJob(jobs, w, j);
    if HoldsNothing(jobs, w) {
      assert forall j :: !HoldsJob(jobs, w, j);
    }
  }

  /** Everything that one written job, one released worker and one closed attempt amount to. */
  lemma ReleaseOutcome(before: Db, j: JobId, job: Job, w: Option<WorkerId>, now: Time)
    requires j in before.jobs
    ensures var after := Release(PutJobs(before, map[j := job], now), j, w, now);
            && OnlyJob(before, after, j, job) && WorkerFreed(before, after, j, w)
            && AttemptClosed(before, after, j, now) && BatchesFollow(before, after, {j}, now)
  {
    hide Refresh, BatchesOf, CloseRows, ReleaseWorker, OnlyJob, WorkerFreed, AttemptClosed, BatchesFollow;
    var after := Release(PutJobs(before, map[j := job], now), j, w, now);
    PutFollows(before, after, j, job, now);
    ReleaseFrees(before, after, j, w);
    ClosingCloses(before, after, j, now);
  }

  lemma PutOutcome(before: Db, j: JobId, job: Job, now: Time)
    requires j in before.jobs
    ensures var after := PutJobs(before, map[j := job], now);
            && OnlyJob(before, after, j, job) && BatchesFollow(before, after, {j}, now)
            && after.workers == before.workers && after.rows == before.rows
  {
    hide Refresh, BatchesOf, OnlyJob, BatchesFollow;
    PutFollows(before, PutJobs(before, map[j := job], now), j, job, now);
  }

  // ---------------------------------------------------------------- each call

  lemma CreateJobOutcome(before: Db, j: JobId, request: JobRequest, into: Option<BatchId>, now: Time)
    requires request.uploadExists && (into.None? || into.value in before.batches)
    ensures JobCreated(before, CreateJob(before, j, request, into, now), j, request.priority, into, now)
  {
    hide Refresh, BatchesOf, BatchesFollow;
    PutFollows(before, CreateJob(before, j, request, into, now), j, NewJob(request, into, now), now);
  }

  lemma CancelHasOutcome(before: Db, j: JobId, now: Time)
    ensures CancelOutcome(before, CancelJob(before, j, now), j, now)
  {
    hide Refresh, BatchesOf, CloseRows, ReleaseWorker, OnlyJob, WorkerFreed, AttemptClosed, BatchesFollow, PutJobs,
      Release;
    if j in before.jobs {
      var job := before.jobs[j];
      match job.status {
        case Running => PutOutcome(before, j, job.(cancelRequestedAt := Some(now), updatedAt := now), now);
        case Queued => PutOutcome(before, j, job.(status := Canceled, finishedAt := Some(now), updatedAt := now), now);
        case Scheduled =>
          ReleaseOutcome(before, j, job.(status := Canceled, finishedAt := Some(now), updatedAt := now),
                         job.assignee, now);
        case _ =>
      }
    }
  }

  lemma BeatHasOutcome(before: Db, w: WorkerId, node: string, slot: int, status: WorkerStatus,
                       running: Option<JobId>, held: Option<JobId>, now: Time)
    requires IsFirstHeld(before.jobs, w, held)
    ensures BeatOutcome(before, Heartbeat(before, w, node, slot, status, running, held, now), w, node, slot, status,
                        running, now)
  {
    HeldJobsAre(before.jobs, w);
    hide HeldJobs, HoldsJob;
  }

  /** A silent idle beat of a worker that holds nothing makes it eligible for work, for any cutoff up to now. */
  lemma IdleBeatMakesEligible(before: Db, after: Db, w: WorkerId, node: string, slot: int, now: Time, cutoff: Time)
    requires BeatOutcome(before, after, w, node, slot, Idle, None, now)
    requires HoldsNothing(before.jobs, w) && cutoff <= now
    ensures MayWork(after, w, cutoff) && Dispatchable(after, w, cutoff)
  {
    HeldJobsAre(after.jobs, w);
  }

  lemma ClaimHasOutcome(before: Db, j: JobId, w: WorkerId, now: Time)
    ensures ClaimOutcome(before, MarkRunning(before, j, w, now), j, w, now)
  {
    hide Refresh, BatchesOf, BatchesFollow, OnlyJob;
    if j in before.jobs && before.jobs[j].assignee == Some(w) {
      PutFollows(before, MarkRunning(before, j, w, now), j, RunningJob(before.jobs[j], now), now);
    }
  }

  lemma SuccessHasOutcome(before: Db, j: JobId, w: WorkerId, now: Time)
    ensures SuccessOutcome(before, Succeed(before, j, w, now), j, w, now)
  {
    hide OnlyJob, WorkerFreed, AttemptClosed, BatchesFollow, PutJobs, Release;
    if j in before.jobs {
      ReleaseOutcome(before, j, SucceededJob(before.jobs[j], now), Some(w), now);
    }
  }

  lemma AfterFailureIs(job: Job, category: Option<FailureCategory>, delay: Option<int>, canceled: bool, now: Time)
    ensures FailedTo(job, AfterFailure(job, category, delay, canceled, now), category, delay, canceled, now)
  {
  }

  lemma FailureHasOutcome(before: Db, j: JobId, w: WorkerId, category: Option<FailureCategory>, delay: Option<int>,
                          canceled: bool, now: Time)
    ensures FailureOutcome(before, Fail(before, j, w, category, delay, canceled, now), j, w, category, delay,
                           canceled, now)
  {
    if j in before.jobs {
      var job := AfterFailure(before.jobs[j], category, delay, canceled, now);
      AfterFailureIs(before.jobs[j], category, delay, canceled, now);
      ReleaseOutcome(before, j, job, Some(w), now);
      assert Fail(before, j, w, category, delay, canceled, now).jobs[j] == job;
      hide WorkerFreed, AttemptClosed, BatchesFollow, PutJobs, Release, AfterFailure, FailedTo;
    }
  }

  lemma EligibleMeans(db: Db, j: JobId, w: WorkerId, cutoff: Time, now: Time)
    ensures Dispatchable(db, w, cutoff) <==> MayWork(db, w, cutoff)
    ensures Ready(db.jobs, j, now) <==> MayStart(db, j, now)
  {
    HeldJobsAre(db.jobs, w);
    hide HeldJobs, HoldsNothing;
  }

  lemma AssignHasOutcome(before: Db, j: JobId, w: WorkerId, cutoff: Time, now: Time)
    ensures AssignOutcome(before, Assign(before, j, w, cutoff, now), j, w, cutoff, now)
  {
    EligibleMeans(before, j, w, cutoff, now);
    if MayWork(before, w, cutoff) && MayStart(before, j, now) {
      assert Dispatchable(before, w, cutoff) && Ready(before.jobs, j, now);
      hide Refresh, BatchesOf, BatchesFollow, OnlyJob, HeldJobs, HoldsNothing, Dispatchable, Ready;
      PutFollows(before, Assign(before, j, w, cutoff, now), j,
                 ScheduledJob(before.jobs[j], w, before.workers[w].gpuSlot, now), now);
    }
  }

  lemma RevertHasOutcome(before: Db, j: JobId, w: WorkerId, now: Time)
    requires StoreInv(before)
    ensures RevertOutcome(before, Revert(before, j, w, now), j, w, now)
  {
    if j in before.jobs && before.jobs[j].status.Scheduled? && before.jobs[j].assignee == Some(w) {
      assert JobOk(before.jobs[j]) && w in before.workers;
      hide StoreInv, Refresh, BatchesOf, BatchesFollow, OnlyJob, CloseRows, AttemptClosed;
      var after := Revert(before, j, w, now);
      PutFollows(before, after, j, BackToQueue(before.jobs[j], now), now);
      ClosingCloses(before, after, j, now);
    }
  }

  lemma NewBatchJobsAre(b: BatchId, ids: seq<JobId>, items: seq<JobRequest>, now: Time)
    requires |ids| == |items| && Distinct(ids)
    ensures var js := NewBatchJobs(b, ids, items, now);
            && js.Keys == (set j | j in ids)
            && (forall i :: 0 <= i < |ids| ==> ids[i] in js && js[ids[i]] == NewJob(items[i], Some(b), now))
            && (forall j :: j in js ==> js[j].status.Queued?)
  {
    var js := NewBatchJobs(b, ids, items, now);
    forall i | 0 <= i < |ids| ensures ids[i] in js && js[ids[i]] == NewJob(items[i], Some(b), now) {
      assert ids[i] in ids;
    }
  }

  lemma NewBatchIsQueued(jobs: map<JobId, Job>, js: map<JobId, Job>, b: BatchId)
    requires forall j :: j in jobs ==> jobs[j].batchId != Some(b)
    requires forall j :: j in js ==> js[j].status.Queued?
    ensures ClassifyPresent(Present(jobs + js, b)) == BatchQueued
  {
    assert Present(jobs + js, b) <= {Queued};
  }

  lemma CreateBatchOutcome(before: Db, b: BatchId, name: string, ids: seq<JobId>, items: seq<JobRequest>, now: Time)
    requires |ids| == |items| && Distinct(ids)
    requires forall j :: j in ids ==> j !in before.jobs
    requires forall i :: 0 <= i < |items| ==> items[i].uploadExists
    ensures BatchCreated(before, CreateBatch(before, b, name, ids, items, now), b, name, ids, items, now)
  {
    var js := NewBatchJobs(b, ids, items, now);
    NewBatchJobsAre(b, ids, items, now);
    var after := CreateBatch(before, b, name, ids, items, now);
    hide NewBatchJobs, Present, ClassifyPresent;
    assert after.jobs == before.jobs + js && after.workers == before.workers && after.rows == before.rows;
    assert after.batches.Keys == before.batches.Keys + {b};
    assert after.batches[b] == Batch(name, ClassifyPresent(Present(after.jobs, b)), now, now);
    assert forall c :: c in before.batches && c != b ==> after.batches[c] == before.batches[c];
    hide CreateBatch;
    if forall j :: j in before.jobs ==> before.jobs[j].batchId != Some(b) {
      NewBatchIsQueued(before.jobs, js, b);
    }
  }

  // ---------------------------------------------------------------- sweeps

  lemma OrphansAreLosing(db: Db, cutoff: Time)
    ensures forall w :: w in StaleWorkers(db, cutoff) <==> Unheard(db, w, cutoff)
    ensures forall j :: j in Orphans(db, StaleWorkers(db, cutoff)) <==> LosesWorker(db, j, cutoff)
  {
    var ws := StaleWorkers(db, cutoff);
    forall j ensures j in Orphans(db, ws) <==> LosesWorker(db, j, cutoff) {
      if j in Orphans(db, ws) {
        var w :| w in ws && w in db.workers && db.workers[w].runningJobId == Some(j);
        assert Unheard(db, w, cutoff) && db.workers[w].runningJobId == Some(j);
      }
      if LosesWorker(db, j, cutoff) {
        var w :| Unheard(db, w, cutoff) && db.workers[w].runningJobId == Some(j);
        assert w in ws;
      }
    }
  }

  lemma StaleSweepParts(before: Db, cutoff: Time, delay: Option<int>, now: Time)
    ensures var ws := StaleWorkers(before, cutoff);
            var after := StaleSweep(before, cutoff, delay, now);
            var js := TimedOutJobs(before, ws, delay, now);
            && after.jobs == before.jobs + js && after.workers == TakeOffline(before.workers, ws)
            && after.rows == CloseRows(before.rows, js.Keys, now)
            && after.batches == Refresh(before.batches, after.jobs, BatchesOf(js), now)
  {
    hide StaleWorkers, TimedOutJobs, TakeOffline, CloseRows, Refresh, BatchesOf;
  }

  lemma TimedOutJobsAre(before: Db, cutoff: Time, delay: Option<int>, now: Time)
    ensures var js := TimedOutJobs(before, StaleWorkers(before, cutoff), delay, now);
            && js.Keys == (set j | j in before.jobs && LosesWorker(before, j, cutoff))
            && (forall j :: j in js ==> FailedTo(before.jobs[j], js[j], Some(InfraTransient), delay, false, now))
            && (forall j :: LosesWorker(before, j, cutoff) ==> j in before.jobs)
  {
    OrphansAreLosing(before, cutoff);
    assert forall j :: LosesWorker(before, j, cutoff) ==> j in before.jobs;
    hide Orphans, StaleWorkers, LosesWorker, FailedTo, AfterFailure;
    forall j | j in before.jobs
      ensures FailedTo(before.jobs[j], AfterFailure(before.jobs[j], Some(InfraTransient), delay, false, now),
                       Some(InfraTransient), delay, false, now)
    {
      AfterFailureIs(before.jobs[j], Some(InfraTransient), delay, false, now);
    }
  }

  lemma StaleSweepHasOutcome(before: Db, cutoff: Time, delay: Option<int>, now: Time)
    ensures StaleSweepOutcome(before, StaleSweep(before, cutoff, delay, now), cutoff, delay, now)
  {
    var after := StaleSweep(before, cutoff, delay, now);
    var js := TimedOutJobs(before, StaleWorkers(before, cutoff), delay, now);
    StaleSweepParts(before, cutoff, delay, now);
    TimedOutJobsAre(before, cutoff, delay, now);
    OrphansAreLosing(before, cutoff);
    hide Orphans, StaleWorkers, LosesWorker, Unheard, FailedTo, Refresh, BatchesOf, BatchesFollow, TimedOutJobs,
      StaleSweep;
    RefreshFollows(before, after, js, now);
  }

  lemma ExpiredAreUnclaimed(db: Db, cutoff: Time)
    ensures forall i: nat :: i in ExpiredRows(db, cutoff) <==> Unclaimed(db, i, cutoff)
    ensures forall j :: j in JobsOfRows(db.rows, ExpiredRows(db, cutoff)) <==> JobUnclaimed(db, j, cutoff)
    ensures forall w :: w in WorkersOfRows(db.rows, ExpiredRows(db, cutoff)) <==> WorkerUnclaiming(db, w, cutoff)
  {
    var expired := ExpiredRows(db, cutoff);
    forall i: nat ensures i in expired <==> Unclaimed(db, i, cutoff) {}
    hide Expired, Unclaimed;
    forall j ensures j in JobsOfRows(db.rows, expired) <==> JobUnclaimed(db, j, cutoff) {
      if JobUnclaimed(db, j, cutoff) {
        UnclaimedAreRows(db, cutoff);
      }
    }
    forall w ensures w in WorkersOfRows(db.rows, expired) <==> WorkerUnclaiming(db, w, cutoff) {
      if WorkerUnclaiming(db, w, cutoff) {
        UnclaimedAreRows(db, cutoff);
      }
    }
  }

  lemma UnclaimedAreRows(db: Db, cutoff: Time)
    ensures forall i :: Unclaimed(db, i, cutoff) ==> 0 <= i < |db.rows|
  {
  }

  /** An unclaimed attempt is the only open one of its job and of its worker. */
  lemma UnclaimedIsAlone(db: Db, i: int, cutoff: Time)
    requires StoreInv(db) && Unclaimed(db, i, cutoff)
    ensures FreedFor(db.rows, ExpiredRows(db, cutoff), db.rows[i].workerId) == {db.rows[i].jobId}
    ensures forall k :: 0 <= k < |db.rows| && IsOpen(db.rows[k]) && db.rows[k].jobId == db.rows[i].jobId ==> k == i
  {
    hide JobsOk, RowsOk, ScheduledHaveRow, AttemptsOk, ViewExact;
    assert i in ExpiredRows(db, cutoff);
    forall k | k in ExpiredRows(db, cutoff) && db.rows[k].workerId == db.rows[i].workerId ensures k == i {}
  }

  lemma SweptRow(before: Db, i: int, claimCutoff: Time, now: Time)
    requires StoreInv(before) && 0 <= i < |before.rows|
    ensures CloseRow(before.rows[i], JobsOfRows(before.rows, ExpiredRows(before, claimCutoff)), now)
         == if Unclaimed(before, i, claimCutoff) then before.rows[i].(completedAt := Some(now)) else before.rows[i]
  {
    ExpiredAreUnclaimed(before, claimCutoff);
    hide StoreInv, ExpiredRows, Expired, JobsOfRows, WorkersOfRows;
    if JobUnclaimed(before, before.rows[i].jobId, claimCutoff) {
      var k :| Unclaimed(before, k, claimCutoff) && before.rows[k].jobId == before.rows[i].jobId;
      UnclaimedIsAlone(before, k, claimCutoff);
    }
  }

  lemma SweptJobs(before: Db, claimCutoff: Time, now: Time)
    ensures var js := UnclaimedJobs(before, ExpiredRows(before, claimCutoff), now);
            && js.Keys == JobsOfRows(before.rows, ExpiredRows(before, claimCutoff))
            && js.Keys == (set j | j in before.jobs && JobUnclaimed(before, j, claimCutoff))
            && forall j :: j in js ==>
                 js[j] == before.jobs[j].(status := Queued, assignee := None, gpuSlot := None, nextRetryAt := None,
                                          updatedAt := now)
  {
    ExpiredAreUnclaimed(before, claimCutoff);
    assert forall j :: JobUnclaimed(before, j, claimCutoff) ==> j in before.jobs;
    hide ExpiredRows, JobsOfRows, JobUnclaimed;
  }

  lemma SweptWorkerRows(before: Db, claimCutoff: Time, offlineCutoff: Time)
    requires StoreInv(before)
    ensures var after := UnclaimedWorkers(before, ExpiredRows(before, claimCutoff), offlineCutoff);
            && after.Keys == before.workers.Keys
            && (forall w :: w in before.workers && !WorkerUnclaiming(before, w, claimCutoff) ==>
                  after[w] == before.workers[w])
            && (forall i :: Unclaimed(before, i, claimCutoff) && before.rows[i].workerId in before.workers ==>
                  var worker := before.workers[before.rows[i].workerId];
                  after[before.rows[i].workerId] == worker.(
                    status := if worker.lastHeartbeatAt < offlineCutoff then Offline else Idle,
                    runningJobId := if worker.runningJobId == Some(before.rows[i].jobId) then None
                                    else worker.runningJobId))
  {
    ExpiredAreUnclaimed(before, claimCutoff);
    UnclaimedAreRows(before, claimCutoff);
    var after := UnclaimedWorkers(before, ExpiredRows(before, claimCutoff), offlineCutoff);
    hide StoreInv, ExpiredRows, FreedFor, WorkersOfRows;
    forall i | Unclaimed(before, i, claimCutoff) && before.rows[i].workerId in before.workers
      ensures var worker := before.workers[before.rows[i].workerId];
              after[before.rows[i].workerId] == worker.(
                status := if worker.lastHeartbeatAt < offlineCutoff then Offline else Idle,
                runningJobId := if worker.runningJobId == Some(before.rows[i].jobId) then None
                                else worker.runningJobId)
    {
      UnclaimedIsAlone(before, i, claimCutoff);
      assert WorkerUnclaiming(before, before.rows[i].workerId, claimCutoff);
    }
  }

  lemma ClaimSweepParts(before: Db, claimCutoff: Time, offlineCutoff: Time, now: Time)
    ensures var after := ClaimSweep(before, claimCutoff, offlineCutoff, now);
            var js := UnclaimedJobs(before, ExpiredRows(before, claimCutoff), now);
            && after.jobs == before.jobs + js
            && after.workers == UnclaimedWorkers(before, ExpiredRows(before, claimCutoff), offlineCutoff)
            && after.rows == CloseRows(before.rows, js.Keys, now)
            && after.batches == Refresh(before.batches, after.jobs, BatchesOf(js), now)
  {
    hide ExpiredRows, UnclaimedJobs, UnclaimedWorkers, Refresh, BatchesOf, CloseRows;
  }

  lemma SweptRows(before: Db, claimCutoff: Time, now: Time)
    requires StoreInv(before)
    ensures var after := CloseRows(before.rows, JobsOfRows(before.rows, ExpiredRows(before, claimCutoff)), now);
            && |after| == |before.rows|
            && forall i :: 0 <= i < |before.rows| ==>
                 after[i] == if Unclaimed(before, i, claimCutoff) then before.rows[i].(completedAt := Some(now))
                             else before.rows[i]
  {
    hide StoreInv, ExpiredRows, JobsOfRows, Unclaimed, CloseRow;
    forall i | 0 <= i < |before.rows|
      ensures CloseRow(before.rows[i], JobsOfRows(before.rows, ExpiredRows(before, claimCutoff)), now)
           == if Unclaimed(before, i, claimCutoff) then before.rows[i].(completedAt := Some(now)) else before.rows[i]
    {
      SweptRow(before, i, claimCutoff, now);
    }
  }

  lemma ClaimSweepHasOutcome(before: Db, claimCutoff: Time, offlineCutoff: Time, now: Time)
    requires StoreInv(before)
    ensures ClaimSweepOutcome(before, ClaimSweep(before, claimCutoff, offlineCutoff, now), claimCutoff, offlineCutoff,
                              now)
  {
    hide StoreInv, ClaimSweep, ExpiredRows, JobsOfRows, Refresh, BatchesOf, BatchesFollow, JobUnclaimed,
      WorkerUnclaiming, Unclaimed, UnclaimedJobs, UnclaimedWorkers, CloseRows;
    ClaimSweepParts(before, claimCutoff, offlineCutoff, now);
    SweptJobs(before, claimCutoff, now);
    SweptRows(before, claimCutoff, now);
    SweptWorkerRows(before, claimCutoff, offlineCutoff);
    RefreshFollows(before, ClaimSweep(before, claimCutoff, offlineCutoff, now),
                   UnclaimedJobs(before, ExpiredRows(before, claimCutoff), now), now);
  }

  /** The lists that the sweeps report, in the same vocabulary. */
  lemma SweepResultsAre(db: Db, cutoff: Time, delay: Option<int>)
    ensures forall j :: j in RetriedJobs(db, StaleWorkers(db, cutoff), delay) <==>
              LosesWorker(db, j, cutoff) && MayRepeat(db.jobs[j], delay)
    ensures forall j :: j in FailedJobs(db, StaleWorkers(db, cutoff), delay) <==>
              LosesWorker(db, j, cutoff) && !MayRepeat(db.jobs[j], delay)
  {
    OrphansAreLosing(db, cutoff);
    assert forall j :: LosesWorker(db, j, cutoff) ==> j in db.jobs;
    hide Orphans, StaleWorkers, LosesWorker;
  }

  lemma ReusableAreHandedBack(db: Db, claimCutoff: Time, offlineCutoff: Time)
    ensures forall w :: IsReusable(db, ExpiredRows(db, claimCutoff), w, offlineCutoff) <==>
              HandedBack(db, w, claimCutoff, offlineCutoff)
  {
    ExpiredAreUnclaimed(db, claimCutoff);
    hide WorkersOfRows, ExpiredRows, WorkerUnclaiming;
  }

  // ---------------------------------------------------------------- what the two sweeps leave together

  /** An attempt is unclaimed after the stale sweep if it was before and the sweep did not take its job. */
  lemma UnclaimedAfterStale(before: Db, mid: Db, cutoff: Time, delay: Option<int>, now: Time, claimCutoff: Time)
    requires StaleSweepOutcome(before, mid, cutoff, delay, now)
    ensures forall i :: Unclaimed(mid, i, claimCutoff) <==>
              Unclaimed(before, i, claimCutoff) && !LosesWorker(before, before.rows[i].jobId, cutoff)
    ensures |mid.rows| == |before.rows|
    ensures forall i :: 0 <= i < |mid.rows| ==>
              && mid.rows[i].jobId == before.rows[i].jobId && mid.rows[i].workerId == before.rows[i].workerId
              && mid.rows[i].assignedAt == before.rows[i].assignedAt
  {
    hide LosesWorker, FailedTo, BatchesFollow;
  }

  lemma HandedBackMeans(before: Db, mid: Db, cutoff: Time, delay: Option<int>, now: Time, claimCutoff: Time)
    requires StaleSweepOutcome(before, mid, cutoff, delay, now)
    ensures forall w ::
              HandedBack(mid, w, claimCutoff, cutoff) <==> HandedBackAfterStale(before, w, claimCutoff, cutoff)
  {
    UnclaimedAfterStale(before, mid, cutoff, delay, now, claimCutoff);
    assert forall w :: w in before.workers ==> mid.workers[w].lastHeartbeatAt == before.workers[w].lastHeartbeatAt;
    assert mid.workers.Keys == before.workers.Keys;
    hide LosesWorker, Unclaimed, StaleSweepOutcome;
    forall w ensures HandedBack(mid, w, claimCutoff, cutoff) <==> HandedBackAfterStale(before, w, claimCutoff, cutoff) {
      if HandedBack(mid, w, claimCutoff, cutoff) {
        var i :| Unclaimed(mid, i, claimCutoff) && mid.rows[i].workerId == w;
        UnclaimedAreRows(mid, claimCutoff);
        assert Unclaimed(before, i, claimCutoff) && before.rows[i].workerId == w;
      }
      if HandedBackAfterStale(before, w, claimCutoff, cutoff) {
        var i :| Unclaimed(before, i, claimCutoff) && before.rows[i].workerId == w
                 && !LosesWorker(before, before.rows[i].jobId, cutoff);
        UnclaimedAreRows(before, claimCutoff);
        assert Unclaimed(mid, i, claimCutoff) && mid.rows[i].workerId == w;
      }
    }
  }

  // ---------------------------------------------------------------- dispatch order

  /** The dispatch order, spelled out. */
  lemma ComesBeforeMeans(jobs: map<JobId, Job>, j: JobId, k: JobId)
    requires j in jobs && k in jobs
    ensures ComesBefore(jobs, j, k) <==> Precedes(jobs[j], jobs[k])
  {
  }

  // ---------------------------------------------------------------- all calls

  /** The outcome of a call by its name and arguments. */
  ghost predicate OutcomeOf(before: Db, after: Db, call: Call)
    requires Possible(before, call)
  {
    match call
    case DoCreateJob(j, request, into, now) =>
      if request.uploadExists && (into.None? || into.value in before.batches)
      then JobCreated(before, after, j, request.priority, into, now) else after == before
    case DoCreateBatch(b, name, ids, items, now) =>
      if forall i :: 0 <= i < |items| ==> items[i].uploadExists
      then BatchCreated(before, after, b, name, ids, items, now) else after == before
    case DoCancel(j, now) => CancelOutcome(before, after, j, now)
    case DoGetBatch(b, now) =>
      after == before.(batches := after.batches) && after.batches.Keys == before.batches.Keys
      && forall c :: c in before.batches ==>
           after.batches[c] == if c == b then before.batches[c].(updatedAt := now) else before.batches[c]
    case DoHeartbeat(w, node, slot, status, running, held, now) =>
      BeatOutcome(before, after, w, node, slot, status, running, now)
    case DoMarkStale(cutoff, delay, now) => StaleSweepOutcome(before, after, cutoff, delay, now)
    case DoAssign(j, w, cutoff, now) => AssignOutcome(before, after, j, w, cutoff, now)
    case DoRequeueStale(claimCutoff, offlineCutoff, now) =>
      ClaimSweepOutcome(before, after, claimCutoff, offlineCutoff, now)
    case DoRevert(j, w, now) => RevertOutcome(before, after, j, w, now)
    case DoMarkRunning(j, w, now) => ClaimOutcome(before, after, j, w, now)
    case DoSucceed(j, w, now) => SuccessOutcome(before, after, j, w, now)
    case DoFail(j, w, category, delay, canceled, now) =>
      FailureOutcome(before, after, j, w, category, delay, canceled, now)
  }

  lemma EveryCallHasOutcome(before: Db, call: Call)
    requires StoreInv(before) && Possible(before, call)
    ensures OutcomeOf(before, Apply(before, call), call)
  {
    hide StoreInv, IsFirstHeld, JobCreated, BatchCreated, CancelOutcome, BeatOutcome, StaleSweepOutcome, AssignOutcome,
      ClaimSweepOutcome, RevertOutcome, ClaimOutcome, SuccessOutcome, FailureOutcome, PutJobs, CancelJob, Heartbeat,
      StaleSweep, Assign, ClaimSweep, Revert, MarkRunning, Succeed, Fail;
    match call {
      case DoCreateJob(j, request, into, now) =>
        if request.uploadExists && (into.None? || into.value in before.batches) {
          CreateJobOutcome(before, j, request, into, now);
        }
      case DoCreateBatch(b, name, ids, items, now) =>
        if forall i :: 0 <= i < |items| ==> items[i].uploadExists {
          CreateBatchOutcome(before, b, name, ids, items, now);
        }
      case DoCancel(j, now) => CancelHasOutcome(before, j, now);
      case DoGetBatch(b, now) => ViewIsExact(before);
      case DoHeartbeat(w, node, slot, status, running, held, now) =>
        BeatHasOutcome(before, w, node, slot, status, running, held, now);
      case DoMarkStale(cutoff, delay, now) => StaleSweepHasOutcome(before, cutoff, delay, now);
      case DoAssign(j, w, cutoff, now) => AssignHasOutcome(before, j, w, cutoff, now);
      case DoRequeueStale(claimCutoff, offlineCutoff, now) =>
        ClaimSweepHasOutcome(before, claimCutoff, offlineCutoff, now);
      case DoRevert(j, w, now) => RevertHasOutcome(before, j, w, now);
      case DoMarkRunning(j, w, now) => ClaimHasOutcome(before, j, w, now);
      case DoSucceed(j, w, now) => SuccessHasOutcome(before, j, w, now);
      case DoFail(j, w, category, delay, canceled, now) =>
        FailureHasOutcome(before, j, w, category, delay, canceled, now);
    }
  }

  lemma ViewIsExact(db: Db)
    requires StoreInv(db)
    ensures ViewExact(db.jobs, db.batches)
  {
  }
}
