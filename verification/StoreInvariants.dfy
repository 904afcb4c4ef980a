/** What every store call keeps, whoever calls it and with whatever arguments. */
module StoreInvariants {
  import opened Schema
  import opened BatchStatusView
  import opened Transitions

  ghost predicate JobOk(job: Job) {
    && (job.status.Queued? ==> job.assignee.None?)
    && (Active(job.status) ==> job.assignee.Some?)
    && (job.status.Queued? || job.status.Scheduled? ==> job.cancelRequestedAt.None?)
    && job.retryCount <= job.maxRetries
  }

  /** Job rows are locally consistent and name known workers only. */
  ghost predicate JobsOk(jobs: map<JobId, Job>, workers: map<WorkerId, Worker>) {
    forall j :: j in jobs ==> JobOk(jobs[j]) && (jobs[j].assignee.Some? ==> jobs[j].assignee.value in workers)
  }

  /** An open row names an active job and its assignee, and is claimed exactly when the job runs. */
  ghost predicate RowOk(jobs: map<JobId, Job>, row: Assignment) {
    && row.jobId in jobs
    && (IsOpen(row) ==>
          && Active(jobs[row.jobId].status)
          && jobs[row.jobId].assignee == Some(row.workerId)
          && (row.claimedAt.Some? <==> jobs[row.jobId].status.Running?))
  }

  ghost predicate RowsOk(jobs: map<JobId, Job>, rows: seq<Assignment>) {
    forall i :: 0 <= i < |rows| ==> RowOk(jobs, rows[i])
  }

  /** The two partial unique indexes of the assignment table. */
  ghost predicate OpenUnique(rows: seq<Assignment>) {
    forall i, k :: 0 <= i < k < |rows| && IsOpen(rows[i]) && IsOpen(rows[k]) ==>
      rows[i].jobId != rows[k].jobId && rows[i].workerId != rows[k].workerId
  }

  ghost predicate ScheduledHaveRow(jobs: map<JobId, Job>, rows: seq<Assignment>) {
    forall j :: j in jobs && jobs[j].status.Scheduled? ==> j in OpenJobs(rows)
  }

  /** The attempts of `j` that a worker claimed. */
  function ClaimedRows(rows: seq<Assignment>, j: JobId): set<nat> {
    set i: nat | i < |rows| && rows[i].jobId == j && rows[i].claimedAt.Some?
  }

  /** How many attempts of a job may have been claimed by now. */
  function Budget(job: Job): nat {
    job.retryCount + if job.status.Queued? || job.status.Scheduled? then 0 else 1
  }

  ghost predicate AttemptsOk(jobs: map<JobId, Job>, rows: seq<Assignment>) {
    forall j :: j in jobs ==> |ClaimedRows(rows, j)| <= Budget(jobs[j])
  }

  ghost predicate StoreInv(db: Db) {
    && JobsOk(db.jobs, db.workers)
    && RowsOk(db.jobs, db.rows)
    && OpenUnique(db.rows)
    && ScheduledHaveRow(db.jobs, db.rows)
    && AttemptsOk(db.jobs, db.rows)
    && ViewExact(db.jobs, db.batches)
  }

  // ---------------------------------------------------------------- rows under closing, claiming, appending

  lemma ClosingRows(rows: seq<Assignment>, closing: set<JobId>, now: Time)
    ensures OpenJobs(CloseRows(rows, closing, now)) == OpenJobs(rows) - closing
    ensures forall j :: ClaimedRows(CloseRows(rows, closing, now), j) == ClaimedRows(rows, j)
    ensures OpenUnique(rows) ==> OpenUnique(CloseRows(rows, closing, now))
  {
    var after := CloseRows(rows, closing, now);
    forall j | j in OpenJobs(rows) - closing ensures j in OpenJobs(after) {
      var i :| 0 <= i < |rows| && IsOpen(rows[i]) && rows[i].jobId == j;
      assert after[i] == rows[i];
    }
    forall j | j in OpenJobs(after) ensures j in OpenJobs(rows) - closing {
      var i :| 0 <= i < |after| && IsOpen(after[i]) && after[i].jobId == j;
      assert after[i] == rows[i];
    }
    forall j ensures ClaimedRows(after, j) == ClaimedRows(rows, j) {}
  }

  lemma ClaimingRows(rows: seq<Assignment>, j: JobId, now: Time)
    ensures OpenJobs(ClaimRows(rows, j, now)) == OpenJobs(rows)
    ensures forall k :: k != j ==> ClaimedRows(ClaimRows(rows, j, now), k) == ClaimedRows(rows, k)
    ensures OpenUnique(rows) ==> OpenUnique(ClaimRows(rows, j, now))
  {
    var after := ClaimRows(rows, j, now);
    forall k | k in OpenJobs(rows) ensures k in OpenJobs(after) {
      var i :| 0 <= i < |rows| && IsOpen(rows[i]) && rows[i].jobId == k;
      assert IsOpen(after[i]) && after[i].jobId == k;
    }
    forall k | k in OpenJobs(after) ensures k in OpenJobs(rows) {
      var i :| 0 <= i < |after| && IsOpen(after[i]) && after[i].jobId == k;
      assert IsOpen(rows[i]) && rows[i].jobId == k;
    }
    forall k | k != j ensures ClaimedRows(after, k) == ClaimedRows(rows, k) {}
  }

  lemma ClaimTouchesOne(rows: seq<Assignment>, i: nat, j: JobId, now: Time)
    requires OpenUnique(rows) && i < |rows| && IsOpen(rows[i]) && rows[i].jobId == j
    ensures ClaimedRows(ClaimRows(rows, j, now), j) == ClaimedRows(rows, j) + {i}
  {
    assert forall k :: 0 <= k < |rows| && k != i && IsOpen(rows[k]) ==> rows[k].jobId != j;
    hide OpenUnique;
  }

  lemma ClaimTouchesNone(rows: seq<Assignment>, j: JobId, now: Time)
    requires forall i :: 0 <= i < |rows| && IsOpen(rows[i]) ==> rows[i].jobId != j
    ensures ClaimRows(rows, j, now) == rows
  {
  }

  /** Claiming spends at most one attempt, and none when the open row was already claimed. */
  lemma ClaimingCosts(rows: seq<Assignment>, j: JobId, now: Time)
    requires OpenUnique(rows)
    ensures |ClaimedRows(ClaimRows(rows, j, now), j)| <= |ClaimedRows(rows, j)| + 1
    ensures (forall i :: 0 <= i < |rows| && IsOpen(rows[i]) && rows[i].jobId == j ==> rows[i].claimedAt.Some?) ==>
              ClaimedRows(ClaimRows(rows, j, now), j) == ClaimedRows(rows, j)
  {
    if i: nat :| i < |rows| && IsOpen(rows[i]) && rows[i].jobId == j {
      ClaimTouchesOne(rows, i, j, now);
      assert rows[i].claimedAt.Some? ==> i in ClaimedRows(rows, j);
      hide ClaimedRows, ClaimRows, OpenUnique;
    } else {
      ClaimTouchesNone(rows, j, now);
    }
  }

  lemma AppendingRow(rows: seq<Assignment>, row: Assignment)
    requires IsOpen(row) && row.claimedAt.None?
    ensures OpenJobs(rows + [row]) == OpenJobs(rows) + {row.jobId}
    ensures forall j :: ClaimedRows(rows + [row], j) == ClaimedRows(rows, j)
  {
    var after := rows + [row];
    assert after[|rows|] == row;
    forall j | j in OpenJobs(rows) ensures j in OpenJobs(after) {
      var i :| 0 <= i < |rows| && IsOpen(rows[i]) && rows[i].jobId == j;
      assert after[i] == rows[i];
    }
    forall j ensures ClaimedRows(after, j) == ClaimedRows(rows, j) {}
  }

  lemma OpenJobsAreActive(jobs: map<JobId, Job>, rows: seq<Assignment>)
    requires RowsOk(jobs, rows)
    ensures forall j :: j in OpenJobs(rows) ==> j in jobs && Active(jobs[j].status)
  {
    forall j | j in OpenJobs(rows) ensures j in jobs && Active(jobs[j].status) {
      var i :| 0 <= i < |rows| && IsOpen(rows[i]) && rows[i].jobId == j;
      assert RowOk(jobs, rows[i]);
    }
  }

  // ---------------------------------------------------------------- one lemma for every way of leaving a worker

  /** Writes inactive job rows and closes their attempts. */
  function Retire(db: Db, js: map<JobId, Job>, workers: map<WorkerId, Worker>, now: Time): Db {
    PutJobs(db, js, now).(workers := workers, rows := CloseRows(db.rows, js.Keys, now))
  }

  ghost predicate CanRetire(db: Db, js: map<JobId, Job>, workers: map<WorkerId, Worker>) {
    && js.Keys <= db.jobs.Keys
    && SameBatches(db.jobs, js)
    && db.workers.Keys <= workers.Keys
    && forall j :: j in js ==>
         && JobOk(js[j])
         && !Active(js[j].status)
         && (js[j].assignee.Some? ==> js[j].assignee.value in db.workers)
         && Budget(db.jobs[j]) <= Budget(js[j])
  }

  lemma RetireKeepsRows(jobs: map<JobId, Job>, rows: seq<Assignment>, js: map<JobId, Job>, now: Time)
    requires RowsOk(jobs, rows)
    requires js.Keys <= jobs.Keys
    ensures RowsOk(jobs + js, CloseRows(rows, js.Keys, now))
  {
    var after := CloseRows(rows, js.Keys, now);
    forall i | 0 <= i < |after| ensures RowOk(jobs + js, after[i]) {
      assert RowOk(jobs, rows[i]);
    }
  }

  lemma RetireKeepsInv(db: Db, js: map<JobId, Job>, workers: map<WorkerId, Worker>, now: Time)
    requires StoreInv(db) && CanRetire(db, js, workers)
    ensures StoreInv(Retire(db, js, workers, now))
  {
    hide RowsOk, OpenUnique, ViewExact, SameBatches, Refresh, CloseRows, BatchesOf, OpenJobs, ClaimedRows;
    ClosingRows(db.rows, js.Keys, now);
    RetireKeepsRows(db.jobs, db.rows, js, now);
    RefreshKeepsView(db.jobs, db.batches, js, BatchesOf(js), now);
  }

  /** The single-job case. */
  function RetireOne(db: Db, j: JobId, job: Job, workers: map<WorkerId, Worker>, now: Time): Db {
    PutJobs(db, map[j := job], now).(workers := workers, rows := CloseRows(db.rows, {j}, now))
  }

  ghost predicate MayReplace(db: Db, j: JobId, job: Job) {
    && j in db.jobs
    && job.batchId == db.jobs[j].batchId
    && JobOk(job)
    && !Active(job.status)
    && (job.assignee.None? || job.assignee == db.jobs[j].assignee)
    && Budget(db.jobs[j]) <= Budget(job)
  }

  lemma RetireOneKeepsInv(db: Db, j: JobId, job: Job, workers: map<WorkerId, Worker>, now: Time)
    requires StoreInv(db) && MayReplace(db, j, job)
    requires db.workers.Keys <= workers.Keys
    ensures StoreInv(RetireOne(db, j, job, workers, now))
  {
    hide RowsOk, OpenUnique, ScheduledHaveRow, AttemptsOk, ViewExact, Refresh, CloseRows, BatchesOf;
    var js := map[j := job];
    assert js.Keys == {j};
    assert RetireOne(db, j, job, workers, now) == Retire(db, js, workers, now);
    assert JobOk(db.jobs[j]) && (db.jobs[j].assignee.Some? ==> db.jobs[j].assignee.value in db.workers);
    assert CanRetire(db, js, workers);
    hide StoreInv, CanRetire;
    RetireKeepsInv(db, js, workers, now);
  }

  // ---------------------------------------------------------------- each call

  lemma CreateJobKeepsInv(db: Db, id: JobId, request: JobRequest, into: Option<BatchId>, now: Time)
    requires StoreInv(db) && id !in db.jobs
    ensures StoreInv(CreateJob(db, id, request, into, now))
  {
    var job := NewJob(request, into, now);
    var js := map[id := job];
    assert js.Keys == {id} && JobOk(job);
    hide JobsOk, RowsOk, OpenUnique, AttemptsOk, ViewExact, Refresh, OpenJobs, BatchesOf;
    WritesKeepJobs(db.jobs, db.workers, js, db.workers);
    NewJobsKeepRows(db.jobs, db.rows, js);
    RefreshKeepsView(db.jobs, db.batches, js, BatchesOf(js), now);
  }

  /** A batch that a job joins is open again, whatever it was before. */
  lemma JoiningReopensBatch(db: Db, id: JobId, request: JobRequest, b: BatchId, now: Time)
    requires id !in db.jobs && MayCreate(db, request, Some(b))
    ensures var status := CreateJob(db, id, request, Some(b), now).batches[b].status;
            status.BatchQueued? || status.BatchRunning? || status.BatchPartialFailed?
  {
    var job := NewJob(request, Some(b), now);
    var after := db.jobs[id := job];
    assert db.jobs + map[id := job] == after && after[id] == job;
    assert Queued in Present(after, b);
    assert BatchesOf(map[id := job]) == {b} by {
      assert id in map[id := job];
    }
  }

  lemma NewJobsKeepRows(jobs: map<JobId, Job>, rows: seq<Assignment>, js: map<JobId, Job>)
    requires RowsOk(jobs, rows) && AttemptsOk(jobs, rows)
    requires js.Keys !! jobs.Keys
    ensures RowsOk(jobs + js, rows) && AttemptsOk(jobs + js, rows)
  {
    forall i | 0 <= i < |rows| ensures RowOk(jobs + js, rows[i]) {
      assert RowOk(jobs, rows[i]);
    }
    forall j | j in js ensures ClaimedRows(rows, j) == {} {
      assert forall i :: 0 <= i < |rows| ==> RowOk(jobs, rows[i]) && rows[i].jobId != j;
    }
  }

  lemma NewBatchKeepsView(jobs: map<JobId, Job>, batches: map<BatchId, Batch>, js: map<JobId, Job>,
                          b: BatchId, batch: Batch, now: Time)
    requires ViewExact(jobs, batches)
    requires js.Keys !! jobs.Keys && BatchesOf(js) <= {b}
    ensures ViewExact(jobs + js, Refresh(batches[b := batch], jobs + js, {b}, now))
  {
    forall c | c in batches && c != b ensures Present(jobs + js, c) == Present(jobs, c) {
      PresentUntouched(jobs, js, c);
    }
  }

  lemma CreateBatchKeepsInv(db: Db, b: BatchId, name: string, ids: seq<JobId>, items: seq<JobRequest>, now: Time)
    requires StoreInv(db) && b !in db.batches && |ids| == |items| && Distinct(ids)
    requires forall j :: j in ids ==> j !in db.jobs
    ensures StoreInv(CreateBatch(db, b, name, ids, items, now))
  {
    var js := NewBatchJobs(b, ids, items, now);
    assert js.Keys !! db.jobs.Keys && BatchesOf(js) <= {b};
    assert forall j :: j in js ==> JobOk(js[j]) && js[j].assignee.None? && js[j].status.Queued?;
    hide JobsOk, RowsOk, OpenUnique, AttemptsOk, ViewExact, Refresh, OpenJobs, NewBatchJobs, BatchesOf;
    WritesKeepJobs(db.jobs, db.workers, js, db.workers);
    NewJobsKeepRows(db.jobs, db.rows, js);
    NewBatchKeepsView(db.jobs, db.batches, js, b, Batch(name, BatchQueued, now, now), now);
  }

  lemma CancelKeepsInv(db: Db, j: JobId, now: Time)
    requires StoreInv(db)
    ensures StoreInv(CancelJob(db, j, now))
  {
    if j in db.jobs {
      var job := db.jobs[j];
      var canceled := CanceledJob(job, now);
      match job.status {
        case Running =>
          SameStatusKeepsInv(db, j, job.(cancelRequestedAt := Some(now), updatedAt := now), now);
        case Scheduled =>
          RetireOneKeepsInv(db, j, canceled, ReleaseWorker(db.workers, j, job.assignee), now);
        case Queued =>
          RetireOneKeepsInv(db, j, canceled, db.workers, now);
          NothingToClose(db, {j}, now);
          assert CancelJob(db, j, now) == RetireOne(db, j, canceled, db.workers, now);
        case _ =>
      }
    }
  }

  /** Closing the attempts of inactive jobs changes no row. */
  lemma NothingToClose(db: Db, closing: set<JobId>, now: Time)
    requires RowsOk(db.jobs, db.rows)
    requires forall j :: j in closing && j in db.jobs ==> !Active(db.jobs[j].status)
    ensures CloseRows(db.rows, closing, now) == db.rows
  {
    forall i | 0 <= i < |db.rows| ensures CloseRow(db.rows[i], closing, now) == db.rows[i] {
      assert RowOk(db.jobs, db.rows[i]);
    }
  }

  lemma SameStatusKeepsInv(db: Db, j: JobId, job: Job, now: Time)
    requires StoreInv(db) && j in db.jobs && JobOk(job)
    requires job.status == db.jobs[j].status && job.assignee == db.jobs[j].assignee
    requires job.batchId == db.jobs[j].batchId && job.retryCount == db.jobs[j].retryCount
    ensures StoreInv(PutJobs(db, map[j := job], now))
  {
    hide OpenUnique, OpenJobs, ClaimedRows, ViewExact, Refresh, BatchesOf;
    forall i | 0 <= i < |db.rows| ensures RowOk(db.jobs + map[j := job], db.rows[i]) {
      assert RowOk(db.jobs, db.rows[i]);
    }
    RefreshKeepsView(db.jobs, db.batches, map[j := job], BatchesOf(map[j := job]), now);
  }

  lemma GetBatchKeepsInv(db: Db, b: BatchId, now: Time)
    requires StoreInv(db)
    ensures StoreInv(GetBatch(db, b, now))
  {
  }

  lemma HeartbeatKeepsInv(db: Db, w: WorkerId, node: string, slot: int, status: WorkerStatus,
                          running: Option<JobId>, held: Option<JobId>, now: Time)
    requires StoreInv(db)
    ensures StoreInv(Heartbeat(db, w, node, slot, status, running, held, now))
  {
  }

  /** An accepted assignment finds no attempt to close, so both unique indexes hold for the new row. */
  lemma AssignFindsNoOpenRow(db: Db, j: JobId, w: WorkerId, cutoff: Time, now: Time)
    requires StoreInv(db) && Dispatchable(db, w, cutoff) && Ready(db.jobs, j, now)
    ensures forall i :: 0 <= i < |db.rows| && IsOpen(db.rows[i]) ==> db.rows[i].jobId != j && db.rows[i].workerId != w
  {
    forall i | 0 <= i < |db.rows| && IsOpen(db.rows[i]) ensures db.rows[i].jobId != j && db.rows[i].workerId != w {
      assert RowOk(db.jobs, db.rows[i]);
      assert db.rows[i].jobId !in HeldJobs(db.jobs, w);
    }
  }

  lemma AssignKeepsRows(jobs: map<JobId, Job>, rows: seq<Assignment>, j: JobId, job: Job, w: WorkerId, now: Time)
    requires RowsOk(jobs, rows) && OpenUnique(rows) && ScheduledHaveRow(jobs, rows) && AttemptsOk(jobs, rows)
    requires j in jobs && jobs[j].status.Queued? && job.status.Scheduled? && job.assignee == Some(w)
    requires job.retryCount == jobs[j].retryCount
    requires forall i :: 0 <= i < |rows| && IsOpen(rows[i]) ==> rows[i].jobId != j && rows[i].workerId != w
    ensures var rows' := rows + [Assignment(j, w, now, None, None)];
            var jobs' := jobs + map[j := job];
            RowsOk(jobs', rows') && OpenUnique(rows') && ScheduledHaveRow(jobs', rows') && AttemptsOk(jobs', rows')
  {
    hide OpenJobs, ClaimedRows;
    AppendingRow(rows, Assignment(j, w, now, None, None));
    forall i | 0 <= i < |rows| ensures RowOk(jobs + map[j := job], rows[i]) {
      assert RowOk(jobs, rows[i]);
    }
  }

  lemma AssignKeepsInv(db: Db, j: JobId, w: WorkerId, cutoff: Time, now: Time)
    requires StoreInv(db)
    ensures StoreInv(Assign(db, j, w, cutoff, now))
  {
    hide RowsOk, OpenUnique, ScheduledHaveRow, AttemptsOk, ViewExact, Refresh, BatchesOf, HeldJobs;
    if Dispatchable(db, w, cutoff) && Ready(db.jobs, j, now) {
      var job := ScheduledJob(db.jobs[j], w, db.workers[w].gpuSlot, now);
      var js := map[j := job];
      AssignFindsNoOpenRow(db, j, w, cutoff, now);
      AssignKeepsRows(db.jobs, db.rows, j, job, w, now);
      RefreshKeepsView(db.jobs, db.batches, js, BatchesOf(js), now);
    }
  }

  lemma RevertKeepsInv(db: Db, j: JobId, w: WorkerId, now: Time)
    requires StoreInv(db)
    ensures StoreInv(Revert(db, j, w, now))
  {
    hide RowsOk, OpenUnique, ScheduledHaveRow, AttemptsOk, ViewExact, Refresh, CloseRows, BatchesOf;
    if j in db.jobs && db.jobs[j].assignee == Some(w) && db.jobs[j].status.Scheduled? {
      var workers := Revert(db, j, w, now).workers;
      RetireOneKeepsInv(db, j, BackToQueue(db.jobs[j], now), workers, now);
      assert Revert(db, j, w, now) == RetireOne(db, j, BackToQueue(db.jobs[j], now), workers, now);
    }
  }

  /** Writing sound job rows keeps the job table sound. */
  lemma WritesKeepJobs(jobs: map<JobId, Job>, workers: map<WorkerId, Worker>, js: map<JobId, Job>,
                       workers': map<WorkerId, Worker>)
    requires JobsOk(jobs, workers) && workers.Keys <= workers'.Keys
    requires forall j :: j in js ==> JobOk(js[j]) && (js[j].assignee.Some? ==> js[j].assignee.value in workers')
    ensures JobsOk(jobs + js, workers')
  {
  }

  lemma ClaimKeepsRows(jobs: map<JobId, Job>, rows: seq<Assignment>, j: JobId, job: Job, now: Time)
    requires RowsOk(jobs, rows) && OpenUnique(rows) && ScheduledHaveRow(jobs, rows)
    requires j in jobs && job.status.Running? && job.assignee == jobs[j].assignee
    ensures var rows' := ClaimRows(rows, j, now);
            var jobs' := jobs + map[j := job];
            RowsOk(jobs', rows') && OpenUnique(rows') && ScheduledHaveRow(jobs', rows')
  {
    hide OpenUnique, OpenJobs, ClaimedRows;
    ClaimingRows(rows, j, now);
    forall i | 0 <= i < |rows| ensures RowOk(jobs + map[j := job], ClaimRow(rows[i], j, now)) {
      assert RowOk(jobs, rows[i]);
    }
  }

  lemma ClaimKeepsAttempts(jobs: map<JobId, Job>, rows: seq<Assignment>, j: JobId, job: Job, now: Time)
    requires RowsOk(jobs, rows) && OpenUnique(rows) && AttemptsOk(jobs, rows)
    requires j in jobs && !jobs[j].status.Queued? && job.status.Running? && job.retryCount == jobs[j].retryCount
    ensures AttemptsOk(jobs + map[j := job], ClaimRows(rows, j, now))
  {
    ClaimingRows(rows, j, now);
    ClaimingCosts(rows, j, now);
    if !jobs[j].status.Scheduled? {
      forall i | 0 <= i < |rows| && IsOpen(rows[i]) && rows[i].jobId == j ensures rows[i].claimedAt.Some? {
        assert RowOk(jobs, rows[i]);
      }
    }
  }

  lemma MarkRunningKeepsInv(db: Db, j: JobId, w: WorkerId, now: Time)
    requires StoreInv(db)
    ensures StoreInv(MarkRunning(db, j, w, now))
  {
    if j in db.jobs && db.jobs[j].assignee == Some(w) {
      var job := RunningJob(db.jobs[j], now);
      var js := map[j := job];
      assert JobOk(db.jobs[j]) && w in db.workers;
      hide JobsOk, RowsOk, OpenUnique, ScheduledHaveRow, AttemptsOk, ViewExact, Refresh, BatchesOf, ClaimRows;
      WritesKeepJobs(db.jobs, db.workers, js, db.workers);
      ClaimKeepsRows(db.jobs, db.rows, j, job, now);
      ClaimKeepsAttempts(db.jobs, db.rows, j, job, now);
      RefreshKeepsView(db.jobs, db.batches, js, BatchesOf(js), now);
    }
  }

  lemma SucceedKeepsInv(db: Db, j: JobId, w: WorkerId, now: Time)
    requires StoreInv(db)
    ensures StoreInv(Succeed(db, j, w, now))
  {
    hide RowsOk, OpenUnique, ScheduledHaveRow, AttemptsOk, ViewExact, Refresh, CloseRows, BatchesOf;
    if j in db.jobs {
      RetireOneKeepsInv(db, j, SucceededJob(db.jobs[j], now), ReleaseWorker(db.workers, j, Some(w)), now);
    }
  }

  lemma FailKeepsInv(db: Db, j: JobId, w: WorkerId, category: Option<FailureCategory>, delay: Option<int>,
                     canceled: bool, now: Time)
    requires StoreInv(db)
    ensures StoreInv(Fail(db, j, w, category, delay, canceled, now))
  {
    hide RowsOk, OpenUnique, ScheduledHaveRow, AttemptsOk, ViewExact, Refresh, CloseRows, BatchesOf;
    if j in db.jobs {
      RetireOneKeepsInv(db, j, AfterFailure(db.jobs[j], category, delay, canceled, now),
                        ReleaseWorker(db.workers, j, Some(w)), now);
    }
  }

  lemma TimedOutMayRetire(db: Db, ws: set<WorkerId>, delay: Option<int>, now: Time)
    requires JobsOk(db.jobs, db.workers)
    ensures CanRetire(db, TimedOutJobs(db, ws, delay, now), TakeOffline(db.workers, ws))
  {
    hide Orphans;
    var js := TimedOutJobs(db, ws, delay, now);
    assert forall j :: j in js ==> js[j] == AfterFailure(db.jobs[j], Some(InfraTransient), delay, false, now)
                                   && JobOk(db.jobs[j]);
  }

  lemma LoseWorkersKeepsInv(db: Db, ws: set<WorkerId>, delay: Option<int>, now: Time)
    requires StoreInv(db)
    ensures StoreInv(LoseWorkers(db, ws, delay, now))
  {
    TimedOutMayRetire(db, ws, delay, now);
    hide RowsOk, OpenUnique, ScheduledHaveRow, AttemptsOk, ViewExact, Refresh, CloseRows, CanRetire, TimedOutJobs,
      TakeOffline;
    RetireKeepsInv(db, TimedOutJobs(db, ws, delay, now), TakeOffline(db.workers, ws), now);
  }

  lemma ExpiredAreScheduled(db: Db, taken: set<nat>, claimCutoff: Time)
    requires taken <= ExpiredRows(db, claimCutoff)
    ensures forall j :: j in JobsOfRows(db.rows, taken) ==> j in db.jobs && db.jobs[j].status.Scheduled?
  {
    forall j | j in JobsOfRows(db.rows, taken) ensures j in db.jobs && db.jobs[j].status.Scheduled? {
      var i :| i in taken && i < |db.rows| && db.rows[i].jobId == j;
      assert i in ExpiredRows(db, claimCutoff);
    }
  }

  lemma ExpiredMayRetire(db: Db, taken: set<nat>, claimCutoff: Time, offlineCutoff: Time, now: Time)
    requires JobsOk(db.jobs, db.workers) && taken <= ExpiredRows(db, claimCutoff)
    ensures CanRetire(db, UnclaimedJobs(db, taken, now), UnclaimedWorkers(db, taken, offlineCutoff))
  {
    ExpiredAreScheduled(db, taken, claimCutoff);
    var js := UnclaimedJobs(db, taken, now);
    assert forall j :: j in js ==> js[j] == UnclaimedJob(db.jobs[j], now) && JobOk(db.jobs[j]);
    assert UnclaimedWorkers(db, taken, offlineCutoff).Keys == db.workers.Keys;
  }

  lemma TakeBackKeepsInv(db: Db, taken: set<nat>, claimCutoff: Time, offlineCutoff: Time, now: Time)
    requires StoreInv(db) && taken <= ExpiredRows(db, claimCutoff)
    ensures StoreInv(TakeBack(db, taken, offlineCutoff, now))
  {
    ExpiredMayRetire(db, taken, claimCutoff, offlineCutoff, now);
    RetireKeepsInv(db, UnclaimedJobs(db, taken, now), UnclaimedWorkers(db, taken, offlineCutoff), now);
  }
}
