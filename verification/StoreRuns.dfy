/** Any sequence of store calls, by anybody, with any arguments. */
module StoreRuns {
  import opened Schema
  import opened BatchStatusView
  import opened Transitions
  import opened StoreInvariants
  import opened Sweeps

  datatype Call =
    | DoCreateJob(id: JobId, request: JobRequest, into: Option<BatchId>, now: Time)
    | DoCreateBatch(batch: BatchId, name: string, ids: seq<JobId>, items: seq<JobRequest>, now: Time)
    | DoCancel(id: JobId, now: Time)
    | DoGetBatch(batch: BatchId, now: Time)
    | DoHeartbeat(worker: WorkerId, node: string, slot: int, status: WorkerStatus, running: Option<JobId>,
                  held: Option<JobId>, now: Time)
    | DoMarkStale(cutoff: Time, delay: Option<int>, now: Time)
    | DoAssign(id: JobId, worker: WorkerId, cutoff: Time, now: Time)
    | DoRequeueStale(claimCutoff: Time, offlineCutoff: Time, now: Time)
    | DoRevert(id: JobId, worker: WorkerId, now: Time)
    | DoMarkRunning(id: JobId, worker: WorkerId, now: Time)
    | DoSucceed(id: JobId, worker: WorkerId, now: Time)
    | DoFail(id: JobId, worker: WorkerId, category: Option<FailureCategory>, delay: Option<int>, canceled: bool,
             now: Time)

  /** New identifiers are new, and a query answer is an answer to the query. Nothing else is asked of a caller. */
  ghost predicate Possible(db: Db, call: Call) {
    match call
    case DoCreateJob(id, _, _, _) => id !in db.jobs
    case DoCreateBatch(b, _, ids, items, _) =>
      b !in db.batches && |ids| == |items| && Distinct(ids) && forall j :: j in ids ==> j !in db.jobs
    case DoHeartbeat(w, _, _, _, _, held, _) => IsFirstHeld(db.jobs, w, held)
    case _ => true
  }

  ghost function Apply(db: Db, call: Call): Db
    requires Possible(db, call)
  {
    match call
    case DoCreateJob(id, request, into, now) => CreateJob(db, id, request, into, now)
    case DoCreateBatch(b, name, ids, items, now) => CreateBatch(db, b, name, ids, items, now)
    case DoCancel(id, now) => CancelJob(db, id, now)
    case DoGetBatch(b, now) => GetBatch(db, b, now)
    case DoHeartbeat(w, node, slot, status, running, held, now) =>
      Heartbeat(db, w, node, slot, status, running, held, now)
    case DoMarkStale(cutoff, delay, now) => StaleSweep(db, cutoff, delay, now)
    case DoAssign(id, w, cutoff, now) => Assign(db, id, w, cutoff, now)
    case DoRequeueStale(claimCutoff, offlineCutoff, now) => ClaimSweep(db, claimCutoff, offlineCutoff, now)
    case DoRevert(id, w, now) => Revert(db, id, w, now)
    case DoMarkRunning(id, w, now) => MarkRunning(db, id, w, now)
    case DoSucceed(id, w, now) => Succeed(db, id, w, now)
    case DoFail(id, w, category, delay, canceled, now) => Fail(db, id, w, category, delay, canceled, now)
  }

  lemma CallKeepsInv(db: Db, call: Call)
    requires StoreInv(db) && Possible(db, call)
    ensures StoreInv(Apply(db, call))
  {
    hide StoreInv, CreateJob, CreateBatch, CancelJob, GetBatch, Heartbeat, StaleSweep, Assign, ClaimSweep, Revert,
      MarkRunning, Succeed, Fail, IsFirstHeld;
    match call {
      case DoCreateJob(id, request, into, now) => CreateJobKeepsInv(db, id, request, into, now);
      case DoCreateBatch(b, name, ids, items, now) => CreateBatchKeepsInv(db, b, name, ids, items, now);
      case DoCancel(id, now) => CancelKeepsInv(db, id, now);
      case DoGetBatch(b, now) => GetBatchKeepsInv(db, b, now);
      case DoHeartbeat(w, node, slot, status, running, held, now) =>
        HeartbeatKeepsInv(db, w, node, slot, status, running, held, now);
      case DoMarkStale(cutoff, delay, now) => StaleSweepKeepsInv(db, cutoff, delay, now);
      case DoAssign(id, w, cutoff, now) => AssignKeepsInv(db, id, w, cutoff, now);
      case DoRequeueStale(claimCutoff, offlineCutoff, now) => ClaimSweepKeepsInv(db, claimCutoff, offlineCutoff, now);
      case DoRevert(id, w, now) => RevertKeepsInv(db, id, w, now);
      case DoMarkRunning(id, w, now) => MarkRunningKeepsInv(db, id, w, now);
      case DoSucceed(id, w, now) => SucceedKeepsInv(db, id, w, now);
      case DoFail(id, w, category, delay, canceled, now) => FailKeepsInv(db, id, w, category, delay, canceled, now);
    }
  }

  /** `dbs[n]` is the state before call number `n`. */
  ghost predicate IsRun(dbs: seq<Db>, calls: seq<Call>) {
    && |dbs| == |calls| + 1
    && dbs[0] == EMPTY
    && forall n :: 0 <= n < |calls| ==> Possible(dbs[n], calls[n]) && dbs[n + 1] == Apply(dbs[n], calls[n])
  }

  lemma EmptyIsOk()
    ensures StoreInv(EMPTY)
  {
  }

  lemma {:induction false} RunKeepsInv(dbs: seq<Db>, calls: seq<Call>, n: nat)
    requires IsRun(dbs, calls) && n < |dbs|
    ensures StoreInv(dbs[n])
  {
    hide StoreInv;
    if n == 0 {
      EmptyIsOk();
    } else {
      RunKeepsInv(dbs, calls, n - 1);
      CallKeepsInv(dbs[n - 1], calls[n - 1]);
    }
  }

  /** However calls interleave, a job is claimed at most once per attempt it was allowed. */
  lemma ClaimsAreBounded(dbs: seq<Db>, calls: seq<Call>, n: nat, j: JobId)
    requires IsRun(dbs, calls) && n < |dbs| && j in dbs[n].jobs
    ensures var job := dbs[n].jobs[j];
            && |ClaimedRows(dbs[n].rows, j)|
                 <= job.retryCount + (if job.status.Queued? || job.status.Scheduled? then 0 else 1)
                 <= job.maxRetries + 1
    ensures dbs[n].jobs[j].retryCount <= dbs[n].jobs[j].maxRetries
  {
    RunKeepsInv(dbs, calls, n);
    assert JobOk(dbs[n].jobs[j]);
  }

  /** At any time of any run: at most one open attempt per job and per worker, always on an active job. */
  lemma OpenAttemptsAreDisciplined(dbs: seq<Db>, calls: seq<Call>, n: nat, i: nat)
    requires IsRun(dbs, calls) && n < |dbs| && i < |dbs[n].rows| && IsOpen(dbs[n].rows[i])
    ensures var db := dbs[n];
            var row := db.rows[i];
            && row.jobId in db.jobs && Active(db.jobs[row.jobId].status)
            && db.jobs[row.jobId].assignee == Some(row.workerId) && row.workerId in db.workers
            && (row.claimedAt.None? <==> db.jobs[row.jobId].status.Scheduled?)
            && forall k :: 0 <= k < |db.rows| && k != i && IsOpen(db.rows[k]) ==>
                 db.rows[k].jobId != row.jobId && db.rows[k].workerId != row.workerId
  {
    RunKeepsInv(dbs, calls, n);
    assert RowOk(dbs[n].jobs, dbs[n].rows[i]);
  }

  /** Every scheduled job has its open, unclaimed attempt; with the lemma above, exactly one. */
  lemma ScheduledJobsHaveAnAttempt(dbs: seq<Db>, calls: seq<Call>, n: nat, j: JobId)
    requires IsRun(dbs, calls) && n < |dbs| && j in dbs[n].jobs && dbs[n].jobs[j].status.Scheduled?
    ensures exists i :: OpenAt(dbs[n].rows, i, j) && dbs[n].rows[i].claimedAt.None?
                        && dbs[n].jobs[j].assignee == Some(dbs[n].rows[i].workerId)
  {
    RunKeepsInv(dbs, calls, n);
    var rows := dbs[n].rows;
    var i :| 0 <= i < |rows| && IsOpen(rows[i]) && rows[i].jobId == j;
    assert RowOk(dbs[n].jobs, rows[i]) && OpenAt(rows, i, j);
  }

  /** The status column of every batch is exact at any time of any run. */
  lemma BatchStatusIsExact(dbs: seq<Db>, calls: seq<Call>, n: nat, b: BatchId, statuses: seq<JobStatus>)
    requires IsRun(dbs, calls) && n < |dbs| && b in dbs[n].batches
    requires forall s :: s in statuses <==> exists j :: j in dbs[n].jobs && dbs[n].jobs[j].batchId == Some(b)
                                                       && dbs[n].jobs[j].status == s
    ensures dbs[n].batches[b].status == Classify(statuses)
  {
    RunKeepsInv(dbs, calls, n);
    ClassifyByPresence(statuses);
    assert (set s | s in statuses) == Present(dbs[n].jobs, b);
  }

  // ---------------------------------------------------------------- attempt history

  /** Rows keep their place and identity; claims and completions are never taken back. */
  ghost predicate Extends(before: seq<Assignment>, after: seq<Assignment>) {
    && |before| <= |after|
    && forall i :: 0 <= i < |before| ==>
         && after[i].jobId == before[i].jobId && after[i].workerId == before[i].workerId
         && after[i].assignedAt == before[i].assignedAt
         && (before[i].claimedAt.Some? ==> after[i].claimedAt.Some?)
         && (before[i].completedAt.Some? ==> after[i] == before[i])
  }

  /** History is append only. */
  lemma CallExtendsHistory(db: Db, call: Call)
    requires Possible(db, call)
    ensures Extends(db.rows, Apply(db, call).rows)
  {
    hide Refresh, BatchesOf, Dispatchable, Ready, IsFirstHeld, TimedOutJobs, UnclaimedJobs, ReleaseWorker,
      StaleWorkers, ExpiredRows;
  }

  lemma {:induction false} RunExtendsHistory(dbs: seq<Db>, calls: seq<Call>, m: nat, n: nat)
    requires IsRun(dbs, calls) && m <= n < |dbs|
    ensures Extends(dbs[m].rows, dbs[n].rows)
    decreases n - m
  {
    hide Apply, Possible, Extends;
    if m < n {
      RunExtendsHistory(dbs, calls, m, n - 1);
      CallExtendsHistory(dbs[n - 1], calls[n - 1]);
      ExtendsTransitive(dbs[m].rows, dbs[n - 1].rows, dbs[n].rows);
    } else {
      ExtendsReflexive(dbs[m].rows);
    }
  }

  lemma ExtendsReflexive(rows: seq<Assignment>)
    ensures Extends(rows, rows)
  {
  }

  lemma ExtendsTransitive(a: seq<Assignment>, b: seq<Assignment>, c: seq<Assignment>)
    requires Extends(a, b) && Extends(b, c)
    ensures Extends(a, c)
  {
  }
}
