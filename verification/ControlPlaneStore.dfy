/** The store object: every method is one transaction, reading the clock once. */
module ControlPlane {
  import opened Schema
  import opened BatchStatusView
  import opened Ordering
  import opened Transitions
  import opened StoreInvariants
  import opened Sweeps
  import opened Outcomes
  import opened CallOutcomes

  lemma ClosingTheOne(rows: seq<Assignment>, i: int, j: JobId, now: Time)
    requires OpenUnique(rows) && OpenAt(rows, i, j)
    ensures rows[i := rows[i].(completedAt := Some(now))] == CloseRows(rows, {j}, now)
  {
  }

  lemma ClaimingTheOne(rows: seq<Assignment>, i: int, j: JobId, now: Time)
    requires OpenUnique(rows) && OpenAt(rows, i, j)
    ensures rows[i := rows[i].(claimedAt := Some(now))] == ClaimRows(rows, j, now)
  {
  }

  lemma ClosingNone(rows: seq<Assignment>, j: JobId, now: Time)
    requires forall i :: !OpenAt(rows, i, j)
    ensures CloseRows(rows, {j}, now) == rows
  {
    forall i | 0 <= i < |rows| ensures CloseRow(rows[i], {j}, now) == rows[i] {
      assert !OpenAt(rows, i, j);
    }
  }

  lemma ClaimingNone(rows: seq<Assignment>, j: JobId, now: Time)
    requires forall i :: !OpenAt(rows, i, j)
    ensures ClaimRows(rows, j, now) == rows
  {
    forall i | 0 <= i < |rows| ensures ClaimRow(rows[i], j, now) == rows[i] {
      assert !OpenAt(rows, i, j);
    }
  }

  lemma ClosingTheOneOfWorker(rows: seq<Assignment>, i: int, w: WorkerId, now: Time)
    requires OpenUnique(rows) && 0 <= i < |rows| && IsOpen(rows[i]) && rows[i].workerId == w
    ensures rows[i := rows[i].(completedAt := Some(now))] == CloseRowsOfWorker(rows, w, now)
  {
  }

  lemma NothingToCloseFor(rows: seq<Assignment>, j: JobId, w: WorkerId, now: Time)
    requires forall i :: 0 <= i < |rows| && IsOpen(rows[i]) ==> rows[i].jobId != j && rows[i].workerId != w
    ensures CloseRowsOfWorker(CloseRows(rows, {j}, now), w, now) == rows
  {
    assert CloseRows(rows, {j}, now) == rows;
  }

  lemma BatchesOfOne(j: JobId, job: Job)
    ensures BatchesOf(map[j := job]) == if job.batchId.Some? then {job.batchId.value} else {}
  {
    var js := map[j := job];
    assert j in js;
  }

  lemma InvGivesUnique(db: Db)
    requires StoreInv(db)
    ensures OpenUnique(db.rows)
  {
  }

  lemma IdsOneMore(items: seq<(JobId, Priority)>, item: (JobId, Priority))
    ensures Ids(items + [item]) == Ids(items) + [item.0]
  {
  }

  lemma NewBatchStart(b: BatchId, now: Time)
    ensures NewBatchJobs(b, [], [], now) == map[]
  {
  }

  lemma NewBatchOneMore(b: BatchId, ids: seq<JobId>, items: seq<JobRequest>, i: nat, now: Time)
    requires |ids| == |items| && Distinct(ids) && i < |ids|
    ensures Distinct(ids[..i]) && Distinct(ids[..i + 1])
    ensures NewBatchJobs(b, ids[..i + 1], items[..i + 1], now)
         == NewBatchJobs(b, ids[..i], items[..i], now)[ids[i] := NewJob(items[i], Some(b), now)]
  {
  }

  function Elements(s: seq<nat>): set<nat> {
    set i | i in s
  }

  lemma ElementsOfNothing(s: seq<nat>)
    ensures Elements(s[..0]) == {}
  {
  }

  lemma ElementsAre(s: seq<nat>, all: set<nat>)
    requires forall i: nat :: i in s <==> i in all
    ensures Elements(s) == all
  {
  }

  lemma ElementsOneMore(s: seq<nat>, n: nat)
    requires Distinct(s) && n < |s|
    ensures Elements(s[..n + 1]) == Elements(s[..n]) + {s[n]} && s[n] !in Elements(s[..n])
  {
  }

  /** Everything the claim-timeout loop needs to know about its visit number `n`. */
  lemma VisitExpired(db: Db, order: seq<nat>, n: nat, claimCutoff: Time, offlineCutoff: Time, now: Time)
    requires StoreInv(db) && Distinct(order) && n < |order|
    requires forall i :: i in order ==> i in ExpiredRows(db, claimCutoff)
    ensures var i, taken := order[n], Elements(order[..n]);
            var before := TakeBack(db, taken, offlineCutoff, now);
            var after := TakeBack(db, Elements(order[..n + 1]), offlineCutoff, now);
            && i < |db.rows| && i < |before.rows| && before.rows[i] == db.rows[i] && IsOpen(db.rows[i])
            && OpenUnique(before.rows)
            && db.rows[i].jobId in before.jobs && db.rows[i].jobId in db.jobs
            && before.jobs[db.rows[i].jobId] == db.jobs[db.rows[i].jobId]
            && db.jobs[db.rows[i].jobId].status.Scheduled?
            && TakeBackOne(before, i, offlineCutoff, now) == after
            && StoreInv(after)
            && (var w := db.rows[i].workerId;
                && !IsReusable(db, taken, w, offlineCutoff)
                && (w in before.workers <==> w in db.workers)
                && (w in db.workers ==> before.workers[w] == db.workers[w])
                && forall v :: IsReusable(db, Elements(order[..n + 1]), v, offlineCutoff) <==>
                     IsReusable(db, taken, v, offlineCutoff) ||
                       (v == w && w in db.workers && offlineCutoff <= db.workers[w].lastHeartbeatAt))
  {
    hide StoreInv, TakeBackOne, OpenUnique, IsReusable;
    var i, taken := order[n], Elements(order[..n]);
    ElementsOneMore(order, n);
    assert i in ExpiredRows(db, claimCutoff);
    ExpiredAreApart(db, taken, i, claimCutoff);
    TakeBackOneMore(db, taken, i, offlineCutoff, now);
    TakeBackKeepsInv(db, taken, claimCutoff, offlineCutoff, now);
    TakeBackKeepsInv(db, taken + {i}, claimCutoff, offlineCutoff, now);
    InvGivesUnique(TakeBack(db, taken, offlineCutoff, now));
    ReusableOneMore(db, taken, i, offlineCutoff, now);
  }

  class ControlPlaneStore {
    var jobs: map<JobId, Job>
    var workers: map<WorkerId, Worker>
    var rows: seq<Assignment>
    var batches: map<BatchId, Batch>

    ghost function Tables(): Db
      reads this
    {
      Db(jobs, workers, rows, batches)
    }

    ghost predicate Valid()
      reads this
    {
      StoreInv(Tables())
    }

    constructor ()
      ensures Valid() && Tables() == EMPTY
    {
      jobs, workers, rows, batches := map[], map[], [], map[];
    }

    // -------------------------------------------------------------- queries

    /** First open row of the job, latest assignment first. The unique index leaves the order nothing to decide. */
    method GetActiveAssignmentForJob(j: JobId) returns (found: Option<nat>)
      ensures found.None? ==> forall i :: !OpenAt(rows, i, j)
      ensures found.Some? ==>
                && OpenAt(rows, found.value, j)
                && forall i :: OpenAt(rows, i, j) ==> rows[i].assignedAt <= rows[found.value].assignedAt
      ensures OpenUnique(rows) && found.Some? ==> forall i :: OpenAt(rows, i, j) ==> i == found.value
    {
      found := None;
      for i := 0 to |rows|
        invariant found.None? ==> forall k :: OpenAt(rows, k, j) ==> i <= k
        invariant found.Some? ==>
                    && OpenAt(rows, found.value, j)
                    && forall k :: OpenAt(rows, k, j) && k < i ==> rows[k].assignedAt <= rows[found.value].assignedAt
      {
        if IsOpen(rows[i]) && rows[i].jobId == j
           && (found.None? || rows[found.value].assignedAt <= rows[i].assignedAt) {
          found := Some(i);
        }
      }
    }

    /** First open row of the worker, latest assignment first. */
    method GetActiveAssignmentForWorker(w: WorkerId) returns (found: Option<nat>)
      ensures found.None? ==> forall i :: 0 <= i < |rows| && IsOpen(rows[i]) ==> rows[i].workerId != w
      ensures found.Some? ==>
                && found.value < |rows| && IsOpen(rows[found.value]) && rows[found.value].workerId == w
                && forall i :: 0 <= i < |rows| && IsOpen(rows[i]) && rows[i].workerId == w ==>
                     rows[i].assignedAt <= rows[found.value].assignedAt
    {
      found := None;
      for i := 0 to |rows|
        invariant found.None? ==> forall k :: 0 <= k < i && IsOpen(rows[k]) ==> rows[k].workerId != w
        invariant found.Some? ==>
                    && found.value < |rows| && IsOpen(rows[found.value]) && rows[found.value].workerId == w
                    && forall k :: 0 <= k < i && IsOpen(rows[k]) && rows[k].workerId == w ==>
                         rows[k].assignedAt <= rows[found.value].assignedAt
      {
        if IsOpen(rows[i]) && rows[i].workerId == w
           && (found.None? || rows[found.value].assignedAt <= rows[i].assignedAt) {
          found := Some(i);
        }
      }
    }

    /** First active job of the worker, oldest update first. */
    method FindActiveJob(w: WorkerId) returns (held: Option<JobId>)
      ensures IsFirstHeld(jobs, w, held)
      ensures held.None? ==> HoldsNothing(jobs, w)
      ensures held.Some? ==>
                && HoldsJob(jobs, w, held.value)
                && forall k :: HoldsJob(jobs, w, k) ==> jobs[held.value].updatedAt <= jobs[k].updatedAt
    {
      HeldJobsAre(jobs, w);
      var keys: map<JobId, (int, int)> := map j | j in HeldJobs(jobs, w) :: (jobs[j].updatedAt, 0);
      if keys.Keys == {} {
        held := None;
      } else {
        var j := First(keys, keys.Keys);
        assert forall k :: k in HeldJobs(jobs, w) ==> KeyLe(keys[j], keys[k]);
        held := Some(j);
      }
    }

    /** Ready jobs, highest priority first and oldest first within a priority. */
    method ListQueuedJobs(now: Time) returns (ids: seq<JobId>)
      ensures forall j :: j in ids <==> Ready(jobs, j, now)
      ensures Distinct(ids)
      ensures forall i, k :: 0 <= i < k < |ids| ==> ComesBefore(jobs, ids[i], ids[k])
      ensures forall j :: j in ids <==> MayStart(Tables(), j, now)
      ensures forall i :: 0 <= i < |ids| ==> ids[i] in jobs
      ensures forall i, k :: 0 <= i < k < |ids| ==> Precedes(jobs[ids[i]], jobs[ids[k]])
    {
      var keys: map<JobId, (int, int)> :=
        map j | j in jobs && Ready(jobs, j, now) :: (-(Rank(jobs[j].priority) as int), jobs[j].createdAt);
      ids := OrderBy(keys);
      assert forall i :: 0 <= i < |ids| ==> ids[i] in ids;
      forall i, k | 0 <= i < k < |ids|
        ensures ComesBefore(jobs, ids[i], ids[k]) && Precedes(jobs[ids[i]], jobs[ids[k]])
      {
        assert ids[i] in ids && ids[k] in ids && KeyLe(keys[ids[i]], keys[ids[k]]);
      }
    }

    /** Scheduled jobs, oldest update first. */
    method ListScheduledJobs() returns (ids: seq<JobId>)
      ensures forall j :: j in ids <==> j in jobs && jobs[j].status.Scheduled?
      ensures Distinct(ids)
      ensures forall i, k :: 0 <= i < k < |ids| ==>
                || jobs[ids[i]].updatedAt < jobs[ids[k]].updatedAt
                || (jobs[ids[i]].updatedAt == jobs[ids[k]].updatedAt
                    && jobs[ids[i]].createdAt <= jobs[ids[k]].createdAt)
    {
      var keys: map<JobId, (int, int)> :=
        map j | j in jobs && jobs[j].status.Scheduled? :: (jobs[j].updatedAt, jobs[j].createdAt);
      ids := OrderBy(keys);
    }

    /** Whether the job is still scheduled for this worker. */
    method GetScheduledJobByIdForWorker(w: WorkerId, j: JobId) returns (job: Option<Job>)
      ensures job.Some? <==> j in jobs && jobs[j].assignee == Some(w) && jobs[j].status.Scheduled?
      ensures job.Some? ==> job.value == jobs[j]
    {
      if j in jobs && jobs[j].assignee == Some(w) && jobs[j].status.Scheduled? {
        job := Some(jobs[j]);
      } else {
        job := None;
      }
    }

    // -------------------------------------------------------------- shared steps

    method RefreshBatchState(b: BatchId, now: Time)
      modifies this`batches
      ensures batches == Refresh(old(batches), jobs, {b}, now) && batches.Keys == old(batches).Keys
    {
      hide Counted;
      if b !in batches {
        return;
      }
      var statuses: seq<JobStatus> := [];
      var todo := jobs.Keys;
      while todo != {}
        invariant todo <= jobs.Keys
        invariant forall s :: s in statuses <==>
                    exists j :: j in jobs.Keys - todo && jobs[j].batchId == Some(b) && jobs[j].status == s
      {
        var j :| j in todo;
        todo := todo - {j};
        if jobs[j].batchId == Some(b) {
          statuses := statuses + [jobs[j].status];
        }
      }
      var counts := BuildBatchCounts(statuses);
      var status;
      if statuses != [] && AllIn(statuses, {Canceled}) {
        status := BatchCanceled;
      } else if Running in statuses {
        status := BatchRunning;
      } else if Scheduled in statuses {
        status := BatchQueued;
      } else if statuses != [] && AllIn(statuses, {Succeeded}) {
        status := BatchSucceeded;
      } else if statuses != [] && AllIn(statuses, {Failed, Canceled}) {
        status := BatchFailed;
      } else if counts.succeeded > 0 && (counts.failed > 0 || counts.canceled > 0) {
        status := BatchPartialFailed;
      } else {
        status := BatchQueued;
      }
      ClassifyByPresence(statuses);
      assert (set s | s in statuses) == Present(jobs, b);
      batches := batches[b := batches[b].(status := status, updatedAt := now)];
    }

    method RefreshBatchOf(j: JobId, job: Job, now: Time)
      modifies this`batches
      ensures batches == Refresh(old(batches), jobs, BatchesOf(map[j := job]), now)
    {
      BatchesOfOne(j, job);
      if job.batchId.Some? {
        RefreshBatchState(job.batchId.value, now);
      }
    }

    method CompleteActiveAssignmentForJob(j: JobId, now: Time)
      requires OpenUnique(rows)
      modifies this`rows
      ensures rows == CloseRows(old(rows), {j}, now)
    {
      var found := GetActiveAssignmentForJob(j);
      if found.Some? {
        ClosingTheOne(rows, found.value, j, now);
        rows := rows[found.value := rows[found.value].(completedAt := Some(now))];
      } else {
        ClosingNone(rows, j, now);
      }
    }

    method ReleaseWorkerForJob(j: JobId, w: Option<WorkerId>, now: Time)
      requires OpenUnique(rows)
      modifies this`workers, this`rows
      ensures Tables() == Release(old(Tables()), j, w, now)
    {
      if w.Some? && w.value in workers {
        var worker := workers[w.value];
        if !worker.status.Offline? {
          worker := worker.(status := Idle);
        }
        if worker.runningJobId == Some(j) {
          worker := worker.(runningJobId := None);
        }
        workers := workers[w.value := worker];
      }
      CompleteActiveAssignmentForJob(j, now);
    }

    method TransitionJobAfterFailure(j: JobId, w: Option<WorkerId>, category: Option<FailureCategory>,
                                     delay: Option<int>, canceled: bool, now: Time) returns (retried: bool)
      requires j in jobs && OpenUnique(rows)
      modifies this`jobs, this`workers, this`rows
      ensures retried == WillRetry(old(jobs)[j], delay, canceled)
      ensures jobs == old(jobs) + map[j := AfterFailure(old(jobs)[j], category, delay, canceled, now)]
      ensures workers == ReleaseWorker(old(workers), j, w)
      ensures rows == CloseRows(old(rows), {j}, now)
    {
      var job := jobs[j];
      retried := !canceled && delay.Some? && job.retryCount < job.maxRetries;
      if retried {
        var wait := if delay.value < 0 then 0 else delay.value;
        job := job.(status := Queued, assignee := None, gpuSlot := None);
        job := job.(retryCount := job.retryCount + 1, failure := category, nextRetryAt := Some(now + wait));
        job := job.(finishedAt := None, updatedAt := now, cancelRequestedAt := None);
      } else {
        job := job.(status := if canceled then Canceled else Failed, failure := category, nextRetryAt := None);
        job := job.(finishedAt := Some(now), updatedAt := now);
      }
      jobs := jobs + map[j := job];
      ReleaseWorkerForJob(j, w, now);
    }

    method CreateAssignment(j: JobId, w: WorkerId, now: Time)
      requires OpenUnique(rows)
      modifies this`rows
      ensures rows == CloseRowsOfWorker(CloseRows(old(rows), {j}, now), w, now) + [Assignment(j, w, now, None, None)]
    {
      CompleteActiveAssignmentForJob(j, now);
      ClosingRows(old(rows), {j}, now);
      var found := GetActiveAssignmentForWorker(w);
      if found.Some? {
        ClosingTheOneOfWorker(rows, found.value, w, now);
        rows := rows[found.value := rows[found.value].(completedAt := Some(now))];
      } else {
        assert CloseRowsOfWorker(rows, w, now) == rows;
      }
      rows := rows + [Assignment(j, w, now, None, None)];
    }

    // -------------------------------------------------------------- API calls

    /** `id` is a new identifier; a job that joins a batch changes that batch's status. */
    method CreateJob(id: JobId, request: JobRequest, into: Option<BatchId>, now: Time)
      returns (r: Result<Job, StoreError>)
      requires Valid() && id !in jobs
      modifies this
      ensures Valid() && Tables() == Transitions.CreateJob(old(Tables()), id, request, into, now)
      ensures r == if !request.uploadExists then Err(UnknownUpload)
                   else if into.Some? && into.value !in old(batches) then Err(UnknownBatch)
                   else Ok(jobs[id])
      ensures r.Ok? ==> JobCreated(old(Tables()), Tables(), id, request.priority, into, now)
      ensures r.Err? ==> Tables() == old(Tables())
    {
      hide StoreInv, OpenUnique, Refresh, CloseRows, ClaimRows, BatchesOf, JobCreated;
      InvGivesUnique(Tables());
      CreateJobKeepsInv(Tables(), id, request, into, now);
      if !request.uploadExists {
        return Err(UnknownUpload);
      }
      if into.Some? && into.value !in batches {
        return Err(UnknownBatch);
      }
      CreateJobOutcome(Tables(), id, request, into, now);
      var job := NewJob(request, into, now);
      jobs := jobs + map[id := job];
      RefreshBatchOf(id, job, now);
      r := Ok(job);
    }

    /** `b` and `ids` are new identifiers. */
    method CreateBatch(b: BatchId, name: string, ids: seq<JobId>, items: seq<JobRequest>, now: Time)
      returns (r: Result<Batch, StoreError>)
      requires Valid() && b !in batches && |ids| == |items| && Distinct(ids)
      requires forall j :: j in ids ==> j !in jobs
      modifies this
      ensures Valid() && Tables() == Transitions.CreateBatch(old(Tables()), b, name, ids, items, now)
      ensures r.Ok? <==> forall i :: 0 <= i < |items| ==> items[i].uploadExists
      ensures r.Ok? ==> r.value == batches[b] && BatchCreated(old(Tables()), Tables(), b, name, ids, items, now)
      ensures r.Err? ==> Tables() == old(Tables())
    {
      hide StoreInv, OpenUnique, Refresh, BatchCreated;
      CreateBatchKeepsInv(Tables(), b, name, ids, items, now);
      if exists i :: 0 <= i < |items| && !items[i].uploadExists {
        return Err(UnknownUpload);
      }
      CreateBatchOutcome(Tables(), b, name, ids, items, now);
      batches := batches[b := Batch(name, BatchQueued, now, now)];
      AddBatchJobs(b, ids, items, now);
      RefreshBatchState(b, now);
      r := Ok(batches[b]);
    }

    method AddBatchJobs(b: BatchId, ids: seq<JobId>, items: seq<JobRequest>, now: Time)
      requires |ids| == |items| && Distinct(ids)
      modifies this`jobs
      ensures jobs == old(jobs) + NewBatchJobs(b, ids, items, now)
    {
      hide NewBatchJobs;
      NewBatchStart(b, now);
      assert ids[..0] == [] && items[..0] == [];
      for i := 0 to |items|
        invariant Distinct(ids[..i])
        invariant jobs == old(jobs) + NewBatchJobs(b, ids[..i], items[..i], now)
      {
        NewBatchOneMore(b, ids, items, i, now);
        jobs := jobs[ids[i] := NewJob(items[i], Some(b), now)];
      }
      assert ids[..|items|] == ids && items[..|items|] == items;
    }

    method CancelJob(j: JobId, now: Time) returns (r: Result<Job, StoreError>)
      requires Valid()
      modifies this
      ensures Valid() && Tables() == Transitions.CancelJob(old(Tables()), j, now)
      ensures CancelOutcome(old(Tables()), Tables(), j, now)
      ensures r == if j in jobs then Ok(jobs[j]) else Err(UnknownJob)
    {
      hide StoreInv, OpenUnique, Refresh, CloseRows, ClaimRows, BatchesOf, CancelOutcome;
      InvGivesUnique(Tables());
      CancelKeepsInv(Tables(), j, now);
      CancelHasOutcome(Tables(), j, now);
      if j !in jobs {
        return Err(UnknownJob);
      }
      var job := jobs[j];
      if Terminal(job.status) {
        return Ok(job);
      }
      if job.status.Running? {
        job := job.(cancelRequestedAt := Some(now), updatedAt := now);
        jobs := jobs + map[j := job];
      } else if job.status.Scheduled? {
        job := job.(status := Canceled, finishedAt := Some(now), updatedAt := now);
        jobs := jobs + map[j := job];
        ReleaseWorkerForJob(j, job.assignee, now);
      } else {
        job := job.(status := Canceled, finishedAt := Some(now), updatedAt := now);
        jobs := jobs + map[j := job];
      }
      RefreshBatchOf(j, job, now);
      r := Ok(job);
    }

    method GetBatch(b: BatchId, now: Time) returns (r: Option<Batch>)
      requires Valid()
      modifies this`batches
      ensures Valid() && Tables() == Transitions.GetBatch(old(Tables()), b, now)
      ensures r == if b in batches then Some(batches[b]) else None
      ensures batches.Keys == old(batches).Keys
      ensures forall c :: c in batches ==>
                batches[c] == if c == b then old(batches)[c].(updatedAt := now) else old(batches)[c]
    {
      GetBatchKeepsInv(Tables(), b, now);
      if b !in batches {
        return None;
      }
      RefreshBatchState(b, now);
      r := Some(batches[b]);
    }

    // -------------------------------------------------------------- worker calls

    method UpsertWorkerHeartbeat(w: WorkerId, node: string, slot: int, status: WorkerStatus,
                                 running: Option<JobId>, now: Time) returns (ghost held: Option<JobId>)
      requires Valid()
      modifies this`workers
      ensures IsFirstHeld(jobs, w, held)
      ensures Valid() && Tables() == Heartbeat(old(Tables()), w, node, slot, status, running, held, now)
      ensures BeatOutcome(old(Tables()), Tables(), w, node, slot, status, running, now)
    {
      hide BeatOutcome;
      var active := FindActiveJob(w);
      held := active;
      HeartbeatKeepsInv(Tables(), w, node, slot, status, running, held, now);
      BeatHasOutcome(Tables(), w, node, slot, status, running, held, now);
      var preservedJob, preservedStatus := running, status;
      if w in workers && running.None? && active.Some? {
        preservedJob, preservedStatus := active, Busy;
      }
      workers := workers[w := Worker(node, slot, preservedStatus, now, preservedJob)];
    }

    method MarkJobRunning(j: JobId, w: WorkerId, now: Time) returns (r: Result<Job, StoreError>)
      requires Valid()
      modifies this
      ensures Valid() && Tables() == MarkRunning(old(Tables()), j, w, now)
      ensures ClaimOutcome(old(Tables()), Tables(), j, w, now)
      ensures r == if j !in jobs then Err(UnknownJob)
                   else if old(jobs)[j].assignee != Some(w) then Err(NotAssignedToWorker)
                   else Ok(jobs[j])
    {
      hide StoreInv, OpenUnique, Refresh, CloseRows, ClaimRows, BatchesOf, ClaimOutcome;
      InvGivesUnique(Tables());
      MarkRunningKeepsInv(Tables(), j, w, now);
      ClaimHasOutcome(Tables(), j, w, now);
      if j !in jobs {
        return Err(UnknownJob);
      }
      var job := jobs[j];
      if job.assignee != Some(w) {
        return Err(NotAssignedToWorker);
      }
      job := job.(status := Running, startedAt := if job.startedAt.Some? then job.startedAt else Some(now));
      job := job.(failure := None, nextRetryAt := None, updatedAt := now);
      jobs := jobs + map[j := job];
      var found := GetActiveAssignmentForJob(j);
      if found.Some? {
        ClaimingTheOne(rows, found.value, j, now);
        rows := rows[found.value := rows[found.value].(claimedAt := Some(now))];
      } else {
        ClaimingNone(rows, j, now);
      }
      RefreshBatchOf(j, job, now);
      r := Ok(job);
    }

    method CompleteJobSuccess(j: JobId, w: WorkerId, now: Time) returns (r: Result<Job, StoreError>)
      requires Valid()
      modifies this
      ensures Valid() && Tables() == Succeed(old(Tables()), j, w, now)
      ensures SuccessOutcome(old(Tables()), Tables(), j, w, now)
      ensures r == if j in jobs then Ok(jobs[j]) else Err(UnknownJob)
    {
      hide StoreInv, OpenUnique, Refresh, CloseRows, ClaimRows, BatchesOf, SuccessOutcome;
      InvGivesUnique(Tables());
      SucceedKeepsInv(Tables(), j, w, now);
      SuccessHasOutcome(Tables(), j, w, now);
      if j !in jobs {
        return Err(UnknownJob);
      }
      var job := jobs[j].(status := Succeeded, failure := None, nextRetryAt := None);
      job := job.(finishedAt := Some(now), updatedAt := now);
      jobs := jobs + map[j := job];
      ReleaseWorkerForJob(j, Some(w), now);
      RefreshBatchOf(j, job, now);
      r := Ok(job);
    }

    method CompleteJobFailure(j: JobId, w: WorkerId, category: Option<FailureCategory>, delay: Option<int>,
                              canceled: bool, now: Time) returns (r: Result<Job, StoreError>)
      requires Valid()
      modifies this
      ensures Valid() && Tables() == Fail(old(Tables()), j, w, category, delay, canceled, now)
      ensures FailureOutcome(old(Tables()), Tables(), j, w, category, delay, canceled, now)
      ensures r == if j in jobs then Ok(jobs[j]) else Err(UnknownJob)
    {
      hide StoreInv, OpenUnique, Refresh, CloseRows, ClaimRows, BatchesOf, FailureOutcome;
      InvGivesUnique(Tables());
      FailKeepsInv(Tables(), j, w, category, delay, canceled, now);
      FailureHasOutcome(Tables(), j, w, category, delay, canceled, now);
      if j !in jobs {
        return Err(UnknownJob);
      }
      var retried := TransitionJobAfterFailure(j, Some(w), category, delay, canceled, now);
      RefreshBatchOf(j, jobs[j], now);
      r := Ok(jobs[j]);
    }

    // -------------------------------------------------------------- scheduler calls

    method AssignJobToWorker(j: JobId, w: WorkerId, offlineAfter: int, now: Time) returns (decision: DispatchDecision)
      requires Valid()
      modifies this
      ensures Valid()
      ensures decision == Decide(old(Tables()), j, w, now - offlineAfter, now)
      ensures Tables() == Assign(old(Tables()), j, w, now - offlineAfter, now)
      ensures decision.scheduled <==> Tables() != old(Tables())
      ensures AssignOutcome(old(Tables()), Tables(), j, w, now - offlineAfter, now)
      ensures DecisionOutcome(old(Tables()), j, w, now - offlineAfter, now, decision)
    {
      hide StoreInv, OpenUnique, Refresh, CloseRows, ClaimRows, BatchesOf, AssignOutcome, HoldsNothing;
      InvGivesUnique(Tables());
      EligibleMeans(Tables(), j, w, now - offlineAfter, now);
      AssignHasOutcome(Tables(), j, w, now - offlineAfter, now);
      var cutoff := now - offlineAfter;
      AssignKeepsInv(Tables(), j, w, cutoff, now);
      if w !in workers {
        return DispatchDecision(false, true, false, WorkerMissing);
      }
      var worker := workers[w];
      var held := FindActiveJob(w);
      if !worker.status.Idle? || worker.lastHeartbeatAt < cutoff || held.Some? {
        return DispatchDecision(false, true, false, WorkerNotDispatchable);
      }
      if j !in jobs {
        return DispatchDecision(false, false, true, JobMissing);
      }
      var job := jobs[j];
      if !job.status.Queued? {
        return DispatchDecision(false, false, true, JobNotQueued);
      }
      if job.nextRetryAt.Some? && job.nextRetryAt.value > now {
        return DispatchDecision(false, false, true, JobNotReady);
      }
      AssignFindsNoOpenRow(Tables(), j, w, cutoff, now);
      NothingToCloseFor(rows, j, w, now);
      job := job.(status := Scheduled, assignee := Some(w), gpuSlot := Some(worker.gpuSlot));
      job := job.(failure := None, nextRetryAt := None, updatedAt := now);
      jobs := jobs + map[j := job];
      workers := workers[w := worker.(status := Busy, runningJobId := Some(j))];
      CreateAssignment(j, w, now);
      RefreshBatchOf(j, job, now);
      decision := DispatchDecision(true, false, false, Accepted);
    }

    method RevertScheduledJob(j: JobId, w: WorkerId, now: Time)
      requires Valid()
      modifies this
      ensures Valid() && Tables() == Revert(old(Tables()), j, w, now)
      ensures RevertOutcome(old(Tables()), Tables(), j, w, now)
    {
      hide StoreInv, OpenUnique, Refresh, CloseRows, ClaimRows, BatchesOf, RevertOutcome;
      InvGivesUnique(Tables());
      RevertHasOutcome(Tables(), j, w, now);
      RevertKeepsInv(Tables(), j, w, now);
      if j !in jobs || jobs[j].assignee != Some(w) || !jobs[j].status.Scheduled? {
        return;
      }
      var job := jobs[j].(status := Queued, assignee := None, gpuSlot := None, updatedAt := now);
      jobs := jobs + map[j := job];
      if w in workers && !workers[w].status.Offline? {
        var worker := workers[w].(status := Idle);
        if worker.runningJobId == Some(j) {
          worker := worker.(runningJobId := None);
        }
        workers := workers[w := worker];
      }
      CompleteActiveAssignmentForJob(j, now);
      RefreshBatchOf(j, job, now);
    }

    /** Visits the stale workers in any order; the result does not depend on it. */
    method MarkStaleWorkersOffline(offlineAfter: int, delay: Option<int>, now: Time)
      returns (failed: seq<JobId>, retried: seq<(JobId, Priority)>)
      requires Valid()
      modifies this
      ensures Valid() && Tables() == StaleSweep(old(Tables()), now - offlineAfter, delay, now)
      ensures var ws := StaleWorkers(old(Tables()), now - offlineAfter);
              && Distinct(failed) && (forall j :: j in failed <==> j in FailedJobs(old(Tables()), ws, delay))
              && Distinct(Ids(retried))
              && (forall j :: j in Ids(retried) <==> j in RetriedJobs(old(Tables()), ws, delay))
              && forall i :: 0 <= i < |retried| ==>
                   retried[i].0 in old(jobs) && retried[i].1 == old(jobs)[retried[i].0].priority
      ensures StaleSweepOutcome(old(Tables()), Tables(), now - offlineAfter, delay, now)
      ensures forall j :: j in failed <==>
                LosesWorker(old(Tables()), j, now - offlineAfter) && !MayRepeat(old(jobs)[j], delay)
      ensures forall j :: j in Ids(retried) <==>
                LosesWorker(old(Tables()), j, now - offlineAfter) && MayRepeat(old(jobs)[j], delay)
    {
      hide StoreInv, LoseWorkers, LoseOne, RetriedJobs, FailedJobs, StaleSweepOutcome, LosesWorker;
      StaleSweepHasOutcome(Tables(), now - offlineAfter, delay, now);
      SweepResultsAre(Tables(), now - offlineAfter, delay);
      ghost var db := Tables();
      var stale := set w | w in workers && workers[w].lastHeartbeatAt < now - offlineAfter
                           && !workers[w].status.Offline?;
      assert stale == StaleWorkers(db, now - offlineAfter);
      failed, retried := [], [];
      ghost var done := {};
      var todo := stale;
      LoseNobody(db, delay, now);
      while todo != {}
        invariant todo <= stale <= db.workers.Keys && done == stale - todo
        invariant Tables() == LoseWorkers(db, done, delay, now)
        invariant Valid()
        invariant Distinct(failed) && forall j :: j in failed <==> j in FailedJobs(db, done, delay)
        invariant Distinct(Ids(retried)) && forall j :: j in Ids(retried) <==> j in RetriedJobs(db, done, delay)
        invariant forall i :: 0 <= i < |retried| ==>
                    retried[i].0 in db.jobs && retried[i].1 == db.jobs[retried[i].0].priority
      {
        var w :| w in todo;
        todo := todo - {w};
        ghost var before := Tables();
        SweptWorkers(db, done, w, delay, now);
        LoseOneMore(db, done, w, delay, now);
        LoseWorkersKeepsInv(db, done + {w}, delay, now);
        var outcome := LoseWorker(w, delay, now);
        ResultsOneMore(db, done, w, delay, now);
        if outcome.Some? {
          var (j, priority, again) := outcome.value;
          if again {
            IdsOneMore(retried, (j, priority));
            retried := retried + [(j, priority)];
          } else {
            failed := failed + [j];
          }
        }
        done := done + {w};
      }
      assert done == stale;
    }

    /** One iteration; reports the job it took from the worker, if any, and whether that job was retried. */
    method LoseWorker(w: WorkerId, delay: Option<int>, now: Time) returns (outcome: Option<(JobId, Priority, bool)>)
      requires Valid() && w in workers
      modifies this
      ensures Tables() == LoseOne(old(Tables()), w, delay, now)
      ensures var running := old(workers)[w].runningJobId;
              outcome == if running.Some? && running.value in old(jobs) && Active(old(jobs)[running.value].status)
                         then var job := old(jobs)[running.value];
                              Some((running.value, job.priority, WillRetry(job, delay, false)))
                         else None
    {
      hide StoreInv, OpenUnique, Refresh, CloseRows, ClaimRows, BatchesOf;
      InvGivesUnique(Tables());
      outcome := None;
      var worker := workers[w];
      if worker.runningJobId.Some? && worker.runningJobId.value in jobs {
        var j := worker.runningJobId.value;
        if Active(jobs[j].status) {
          var again := TransitionJobAfterFailure(j, Some(w), Some(InfraTransient), delay, false, now);
          RefreshBatchOf(j, jobs[j], now);
          outcome := Some((j, jobs[j].priority, again));
        }
      }
      workers := workers[w := workers[w].(status := Offline, runningJobId := None)];
    }

    /** Unclaimed open attempts of scheduled jobs older than the cutoff, oldest first. */
    method ListExpiredAssignments(claimCutoff: Time) returns (order: seq<nat>)
      ensures Distinct(order) && forall i: nat :: i in order <==> i in ExpiredRows(Tables(), claimCutoff)
      ensures forall i :: 0 <= i < |order| ==> order[i] < |rows|
      ensures forall i, k :: 0 <= i < k < |order| ==> rows[order[i]].assignedAt <= rows[order[k]].assignedAt
    {
      var keys: map<nat, (int, int)> :=
        map i: nat | i < |rows| && Expired(Db(jobs, workers, rows, batches), i, claimCutoff) :: (rows[i].assignedAt, 0);
      order := OrderBy(keys);
      assert forall i :: 0 <= i < |order| ==> order[i] in order;
    }

    /** Visits the expired attempts oldest first; `order` is that order. */
    method RequeueStaleScheduledJobs(claimTimeout: int, offlineAfter: int, now: Time)
      returns (requeued: seq<(JobId, Priority)>, reusable: seq<WorkerId>, order: seq<nat>)
      requires Valid()
      modifies this
      ensures Valid() && Tables() == ClaimSweep(old(Tables()), now - claimTimeout, now - offlineAfter, now)
      ensures forall i :: 0 <= i < |order| ==> order[i] < |old(rows)|
      ensures Distinct(order) && (forall i: nat :: i in order <==> i in ExpiredRows(old(Tables()), now - claimTimeout))
      ensures forall i, k :: 0 <= i < k < |order| ==>
                old(rows)[order[i]].assignedAt <= old(rows)[order[k]].assignedAt
      ensures |requeued| == |order|
      ensures forall i :: 0 <= i < |order| ==>
                && requeued[i].0 == old(rows)[order[i]].jobId && requeued[i].0 in old(jobs)
                && requeued[i].1 == old(jobs)[requeued[i].0].priority
      ensures Distinct(reusable)
      ensures forall w :: w in reusable <==>
                IsReusable(old(Tables()), ExpiredRows(old(Tables()), now - claimTimeout), w, now - offlineAfter)
      ensures ClaimSweepOutcome(old(Tables()), Tables(), now - claimTimeout, now - offlineAfter, now)
      ensures forall i: nat :: i in order <==> Unclaimed(old(Tables()), i, now - claimTimeout)
      ensures forall w :: w in reusable <==> HandedBack(old(Tables()), w, now - claimTimeout, now - offlineAfter)
    {
      hide StoreInv, TakeBack, TakeBackOne, IsReusable, OpenUnique, Elements, ExpiredRows, Expired, ClaimSweepOutcome,
        HandedBack, Unclaimed;
      ClaimSweepHasOutcome(Tables(), now - claimTimeout, now - offlineAfter, now);
      ReusableAreHandedBack(Tables(), now - claimTimeout, now - offlineAfter);
      ExpiredAreUnclaimed(Tables(), now - claimTimeout);
      ghost var db := Tables();
      var claimCutoff, offlineCutoff := now - claimTimeout, now - offlineAfter;
      order := ListExpiredAssignments(claimCutoff);
      requeued, reusable := [], [];
      TakeBackNothing(db, offlineCutoff, now);
      NobodyReusable(db, offlineCutoff);
      assert Elements(order[..0]) == {} by { ElementsOfNothing(order); }
      for n := 0 to |order|
        invariant Tables() == TakeBack(db, Elements(order[..n]), offlineCutoff, now)
        invariant Valid()
        invariant |requeued| == n
        invariant forall i :: 0 <= i < n ==>
                    && requeued[i].0 == db.rows[order[i]].jobId && requeued[i].0 in db.jobs
                    && requeued[i].1 == db.jobs[requeued[i].0].priority
        invariant Distinct(reusable)
        invariant forall w :: w in reusable <==> IsReusable(db, Elements(order[..n]), w, offlineCutoff)
      {
        var i := order[n];
        VisitExpired(db, order, n, claimCutoff, offlineCutoff, now);
        var row, priority := rows[i], jobs[rows[i].jobId].priority;
        var returned, usable := TakeBackRow(i, offlineCutoff, now);
        if returned {
          if usable {
            reusable := reusable + [row.workerId];
          }
          requeued := requeued + [(row.jobId, priority)];
        }
      }
      assert order[..|order|] == order;
      ElementsAre(order, ExpiredRows(db, claimCutoff));
    }

    /** One iteration on row `i`; reports whether its job went back and whether its worker can take another. */
    method TakeBackRow(i: nat, offlineCutoff: Time, now: Time) returns (returned: bool, usable: bool)
      requires OpenUnique(rows) && i < |rows| && IsOpen(rows[i])
      modifies this
      ensures |rows| == |old(rows)|
      ensures returned <==> rows[i].jobId in old(jobs) && old(jobs)[rows[i].jobId].status.Scheduled?
      ensures rows[i].jobId == old(rows)[i].jobId && rows[i].workerId == old(rows)[i].workerId
      ensures returned ==> Tables() == TakeBackOne(old(Tables()), i, offlineCutoff, now)
      ensures !returned ==> Tables() == old(Tables())
      ensures usable <==>
                returned && rows[i].workerId in old(workers)
                && offlineCutoff <= old(workers)[rows[i].workerId].lastHeartbeatAt
    {
      hide Refresh, CloseRows, BatchesOf, OpenUnique;
      var j, w := rows[i].jobId, rows[i].workerId;
      if j !in jobs || !jobs[j].status.Scheduled? {
        return false, false;
      }
      var job := jobs[j].(status := Queued, assignee := None, gpuSlot := None);
      job := job.(nextRetryAt := None, updatedAt := now);
      jobs := jobs + map[j := job];
      returned, usable := true, false;
      if w in workers {
        var worker := workers[w];
        if worker.lastHeartbeatAt < offlineCutoff {
          worker := worker.(status := Offline);
        } else {
          worker := worker.(status := Idle);
          usable := true;
        }
        if worker.runningJobId == Some(j) {
          worker := worker.(runningJobId := None);
        }
        workers := workers[w := worker];
      }
      ClosingTheOne(rows, i, j, now);
      rows := rows[i := rows[i].(completedAt := Some(now))];
      RefreshBatchOf(j, job, now);
    }
  }
}
