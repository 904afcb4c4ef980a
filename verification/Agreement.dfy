/**
 * The three records of "who works on what" (job rows, heartbeat rows, open assignment rows) agree,
 * provided that callers keep holder discipline.
 */
module Agreement {
  import opened Schema
  import opened BatchStatusView
  import opened Transitions
  import opened StoreInvariants

  /** A worker row is busy exactly when it points at a job, and then at an active job assigned to it. */
  ghost predicate WorkerAgrees(db: Db, w: WorkerId)
    requires w in db.workers
  {
    var worker := db.workers[w];
    && (worker.status.Busy? <==> worker.runningJobId.Some?)
    && (worker.runningJobId.Some? ==> worker.runningJobId.value in HeldJobs(db.jobs, w))
  }

  /** An active job is pointed at by its assignee and has an open attempt. */
  ghost predicate JobAgrees(db: Db, j: JobId)
    requires j in db.jobs
  {
    var job := db.jobs[j];
    Active(job.status) ==>
      && job.assignee.Some?
      && job.assignee.value in db.workers
      && db.workers[job.assignee.value].runningJobId == Some(j)
      && j in OpenJobs(db.rows)
  }

  ghost predicate Agree(db: Db) {
    && (forall w :: w in db.workers ==> WorkerAgrees(db, w))
    && (forall j :: j in db.jobs ==> JobAgrees(db, j))
  }

  // ---------------------------------------------------------------- what agreement says

  ghost predicate ByJob(db: Db, j: JobId, w: WorkerId) {
    j in db.jobs && Active(db.jobs[j].status) && db.jobs[j].assignee == Some(w)
  }

  ghost predicate ByWorker(db: Db, j: JobId, w: WorkerId) {
    w in db.workers && db.workers[w].runningJobId == Some(j)
  }

  ghost predicate ByRow(db: Db, j: JobId, w: WorkerId) {
    exists i :: OpenAt(db.rows, i, j) && db.rows[i].workerId == w
  }

  lemma OpenJobHasRow(db: Db, j: JobId)
    requires RowsOk(db.jobs, db.rows) && j in OpenJobs(db.rows)
    ensures j in db.jobs && exists i :: OpenAt(db.rows, i, j) && db.jobs[j].assignee == Some(db.rows[i].workerId)
  {
    var i :| 0 <= i < |db.rows| && IsOpen(db.rows[i]) && db.rows[i].jobId == j;
    assert RowOk(db.jobs, db.rows[i]);
    assert OpenAt(db.rows, i, j);
  }

  lemma ThreeTablesSayTheSame(db: Db, j: JobId, w: WorkerId)
    requires StoreInv(db) && Agree(db)
    ensures ByJob(db, j, w) <==> ByWorker(db, j, w)
    ensures ByJob(db, j, w) <==> ByRow(db, j, w)
  {
    if ByRow(db, j, w) {
      var i :| OpenAt(db.rows, i, j) && db.rows[i].workerId == w;
      assert RowOk(db.jobs, db.rows[i]);
    }
    if ByWorker(db, j, w) {
      assert WorkerAgrees(db, w);
    }
    if ByJob(db, j, w) {
      assert JobAgrees(db, j);
      OpenJobHasRow(db, j);
    }
  }

  /** Each of the three relations is one-to-one, and an idle or offline worker holds nothing. */
  lemma OneJobOneWorker(db: Db)
    requires StoreInv(db) && Agree(db)
    ensures forall j, w, v :: ByJob(db, j, w) && ByJob(db, j, v) ==> w == v
    ensures forall j, k, w :: ByJob(db, j, w) && ByJob(db, k, w) ==> j == k
    ensures forall w :: w in db.workers && !db.workers[w].status.Busy? ==> HeldJobs(db.jobs, w) == {}
  {
    forall j, w | ByJob(db, j, w) ensures ByWorker(db, j, w) {
      assert JobAgrees(db, j);
    }
    forall w | w in db.workers && !db.workers[w].status.Busy? ensures HeldJobs(db.jobs, w) == {} {
      assert WorkerAgrees(db, w);
      assert forall j :: !ByWorker(db, j, w);
      assert forall j :: j in HeldJobs(db.jobs, w) <==> ByJob(db, j, w);
    }
  }

  /** A worker has at most one scheduled job, whoever called the store before. */
  lemma OneScheduledJobPerWorker(db: Db, j: JobId, k: JobId)
    requires StoreInv(db)
    requires j in db.jobs && db.jobs[j].status.Scheduled? && k in db.jobs && db.jobs[k].status.Scheduled?
    requires db.jobs[j].assignee == db.jobs[k].assignee
    ensures j == k
  {
    OpenJobHasRow(db, j);
    OpenJobHasRow(db, k);
    var a :| OpenAt(db.rows, a, j) && db.jobs[j].assignee == Some(db.rows[a].workerId);
    var b :| OpenAt(db.rows, b, k) && db.jobs[k].assignee == Some(db.rows[b].workerId);
  }

  // ---------------------------------------------------------------- jobs leaving their workers

  /** Exactly the workers that point at `freed` jobs let go, and nobody else changes hands. */
  ghost predicate LetsGo(before: map<WorkerId, Worker>, after: map<WorkerId, Worker>, freed: set<JobId>) {
    && after.Keys == before.Keys
    && forall w :: w in before ==>
         if before[w].runningJobId.Some? && before[w].runningJobId.value in freed
         then after[w].runningJobId.None? && !after[w].status.Busy?
         else after[w].runningJobId == before[w].runningJobId && (after[w].status.Busy? <==> before[w].status.Busy?)
  }

  lemma RetireKeepsAgreement(db: Db, js: map<JobId, Job>, workers: map<WorkerId, Worker>, now: Time)
    requires Agree(db)
    requires js.Keys <= db.jobs.Keys
    requires forall j :: j in js ==> !Active(js[j].status)
    requires LetsGo(db.workers, workers, js.Keys)
    ensures Agree(Retire(db, js, workers, now))
  {
    var after := Retire(db, js, workers, now);
    ClosingRows(db.rows, js.Keys, now);
    forall w | w in after.workers ensures WorkerAgrees(after, w) {
      assert WorkerAgrees(db, w);
    }
    forall j | j in after.jobs ensures JobAgrees(after, j) {
      assert JobAgrees(db, j);
    }
  }

  lemma RetireOneKeepsAgreement(db: Db, j: JobId, job: Job, workers: map<WorkerId, Worker>, now: Time)
    requires Agree(db)
    requires j in db.jobs && !Active(job.status)
    requires LetsGo(db.workers, workers, {j})
    ensures Agree(RetireOne(db, j, job, workers, now))
  {
    var js := map[j := job];
    assert js.Keys == {j};
    assert RetireOne(db, j, job, workers, now) == Retire(db, js, workers, now);
    RetireKeepsAgreement(db, js, workers, now);
  }

  /** Releasing the assignee of an active job frees exactly that job. */
  lemma ReleasingHolder(db: Db, j: JobId, w: WorkerId)
    requires StoreInv(db) && Agree(db) && ByJob(db, j, w)
    ensures w in db.workers
    ensures LetsGo(db.workers, db.workers[w := ReleasedWorker(db.workers[w], j)], {j})
  {
    assert JobAgrees(db, j);
    forall v | v in db.workers && db.workers[v].runningJobId == Some(j) ensures v == w {
      assert WorkerAgrees(db, v);
    }
  }

  // ---------------------------------------------------------------- each call under holder discipline

  lemma CreateJobAgrees(db: Db, id: JobId, request: JobRequest, into: Option<BatchId>, now: Time)
    requires Agree(db) && id !in db.jobs
    ensures Agree(CreateJob(db, id, request, into, now))
  {
    if MayCreate(db, request, into) {
      QueuedJobsAgree(db, map[id := NewJob(request, into, now)], CreateJob(db, id, request, into, now).batches);
    }
  }

  lemma QueuedJobsAgree(db: Db, js: map<JobId, Job>, batches: map<BatchId, Batch>)
    requires Agree(db)
    requires js.Keys !! db.jobs.Keys && forall j :: j in js ==> js[j].status.Queued?
    ensures Agree(db.(jobs := db.jobs + js, batches := batches))
  {
    var after := db.(jobs := db.jobs + js, batches := batches);
    forall w | w in after.workers ensures WorkerAgrees(after, w) {
      assert WorkerAgrees(db, w);
    }
    forall j | j in after.jobs ensures JobAgrees(after, j) {
      assert j in db.jobs ==> JobAgrees(db, j);
    }
  }

  lemma CreateBatchAgrees(db: Db, b: BatchId, name: string, ids: seq<JobId>, items: seq<JobRequest>, now: Time)
    requires Agree(db) && |ids| == |items| && Distinct(ids)
    requires forall j :: j in ids ==> j !in db.jobs
    ensures Agree(CreateBatch(db, b, name, ids, items, now))
  {
    if forall i :: 0 <= i < |items| ==> items[i].uploadExists {
      QueuedJobsAgree(db, NewBatchJobs(b, ids, items, now), CreateBatch(db, b, name, ids, items, now).batches);
    }
  }

  /** Rewriting a job in place, keeping its status and assignee, disturbs no agreement. */
  lemma SameHolderAgrees(db: Db, j: JobId, job: Job, now: Time)
    requires Agree(db) && j in db.jobs && job.assignee == db.jobs[j].assignee
    requires Active(job.status) <==> Active(db.jobs[j].status)
    ensures Agree(PutJobs(db, map[j := job], now))
  {
    var after := PutJobs(db, map[j := job], now);
    forall w | w in after.workers ensures WorkerAgrees(after, w) {
      assert WorkerAgrees(db, w);
    }
    forall k | k in after.jobs ensures JobAgrees(after, k) {
      assert JobAgrees(db, k);
    }
  }

  lemma CancelAgrees(db: Db, j: JobId, now: Time)
    requires StoreInv(db) && Agree(db)
    ensures Agree(CancelJob(db, j, now))
  {
    if j in db.jobs {
      var job := db.jobs[j];
      match job.status {
        case Running =>
          SameHolderAgrees(db, j, job.(cancelRequestedAt := Some(now), updatedAt := now), now);
        case Scheduled =>
          assert JobAgrees(db, j);
          ReleasingHolder(db, j, job.assignee.value);
          RetireOneKeepsAgreement(db, j, CanceledJob(job, now), ReleaseWorker(db.workers, j, job.assignee), now);
        case Queued =>
          SameHolderAgrees(db, j, CanceledJob(job, now), now);
        case _ =>
      }
    }
  }

  lemma GetBatchAgrees(db: Db, b: BatchId, now: Time)
    requires Agree(db)
    ensures Agree(GetBatch(db, b, now))
  {
    var after := GetBatch(db, b, now);
    forall w | w in after.workers ensures WorkerAgrees(after, w) {
      assert WorkerAgrees(db, w);
    }
    forall j | j in after.jobs ensures JobAgrees(after, j) {
      assert JobAgrees(db, j);
    }
  }

  /**
   * A silent beat of a known worker that holds a job is ignored, and any other silent beat must not claim to be busy;
   * a beat that names a job must name one that this worker holds.
   */
  ghost predicate HarmlessBeat(db: Db, w: WorkerId, status: WorkerStatus, running: Option<JobId>) {
    match running
    case None => (w in db.workers && HeldJobs(db.jobs, w) != {}) || !status.Busy?
    case Some(j) => status.Busy? && ByJob(db, j, w)
  }

  lemma HarmlessBeatAgrees(db: Db, w: WorkerId, node: string, slot: int, status: WorkerStatus,
                           running: Option<JobId>, held: Option<JobId>, now: Time)
    requires StoreInv(db) && Agree(db) && HarmlessBeat(db, w, status, running) && IsFirstHeld(db.jobs, w, held)
    ensures Agree(Heartbeat(db, w, node, slot, status, running, held, now))
    ensures w in db.workers ==>
              Heartbeat(db, w, node, slot, status, running, held, now).workers[w].runningJobId
              == db.workers[w].runningJobId
  {
    var after := Heartbeat(db, w, node, slot, status, running, held, now);
    if w in db.workers {
      assert WorkerAgrees(db, w);
      if held.Some? {
        assert JobAgrees(db, held.value);
      }
      if running.Some? {
        assert JobAgrees(db, running.value);
      }
    } else {
      forall j | j in db.jobs ensures !ByJob(db, j, w) {
        assert JobAgrees(db, j);
      }
    }
    forall v | v in after.workers ensures WorkerAgrees(after, v) {
      assert v != w ==> WorkerAgrees(db, v);
    }
    forall j | j in after.jobs ensures JobAgrees(after, j) {
      assert JobAgrees(db, j);
    }
  }

  /** `upsert_worker_heartbeat` believes what it is told; agreement survives exactly harmless beats. */
  lemma HeartbeatAgreesExactly(db: Db, w: WorkerId, node: string, slot: int, status: WorkerStatus,
                               running: Option<JobId>, held: Option<JobId>, now: Time)
    requires StoreInv(db) && Agree(db) && IsFirstHeld(db.jobs, w, held)
    ensures Agree(Heartbeat(db, w, node, slot, status, running, held, now)) <==> HarmlessBeat(db, w, status, running)
  {
    var after := Heartbeat(db, w, node, slot, status, running, held, now);
    if HarmlessBeat(db, w, status, running) {
      HarmlessBeatAgrees(db, w, node, slot, status, running, held, now);
    } else {
      assert !WorkerAgrees(after, w);
    }
  }

  /** The heartbeat loop may still report a job whose completion is already committed. */
  lemma LateBeatDisagrees(db: Db, j: JobId, w: WorkerId, node: string, slot: int, held: Option<JobId>, now: Time)
    requires StoreInv(db) && Agree(db) && ByJob(db, j, w) && IsFirstHeld(Succeed(db, j, w, now).jobs, w, held)
    ensures Agree(Succeed(db, j, w, now))
    ensures !Agree(Heartbeat(Succeed(db, j, w, now), w, node, slot, Busy, Some(j), held, now))
  {
    SucceedKeepsInv(db, j, w, now);
    SucceedAgrees(db, j, w, now);
    HeartbeatAgreesExactly(Succeed(db, j, w, now), w, node, slot, Busy, Some(j), held, now);
  }

  lemma AssignAgrees(db: Db, j: JobId, w: WorkerId, cutoff: Time, now: Time)
    requires Agree(db)
    ensures Agree(Assign(db, j, w, cutoff, now))
  {
    if Dispatchable(db, w, cutoff) && Ready(db.jobs, j, now) {
      var after := Assign(db, j, w, cutoff, now);
      AppendingRow(db.rows, Assignment(j, w, now, None, None));
      assert WorkerAgrees(db, w);
      forall v | v in after.workers ensures WorkerAgrees(after, v) {
        assert WorkerAgrees(db, v);
      }
      forall k | k in after.jobs ensures JobAgrees(after, k) {
        assert JobAgrees(db, k);
      }
    }
  }

  lemma RevertAgrees(db: Db, j: JobId, w: WorkerId, now: Time)
    requires StoreInv(db) && Agree(db)
    ensures Agree(Revert(db, j, w, now))
  {
    if j in db.jobs && db.jobs[j].assignee == Some(w) && db.jobs[j].status.Scheduled? {
      assert JobAgrees(db, j) && WorkerAgrees(db, w);
      ReleasingHolder(db, j, w);
      var workers := db.workers[w := ReleasedWorker(db.workers[w], j)];
      RetireOneKeepsAgreement(db, j, BackToQueue(db.jobs[j], now), workers, now);
    }
  }

  lemma MarkRunningAgrees(db: Db, j: JobId, w: WorkerId, now: Time)
    requires Agree(db) && ByJob(db, j, w)
    ensures Agree(MarkRunning(db, j, w, now))
  {
    var after := MarkRunning(db, j, w, now);
    ClaimingRows(db.rows, j, now);
    forall v | v in after.workers ensures WorkerAgrees(after, v) {
      assert WorkerAgrees(db, v);
    }
    forall k | k in after.jobs ensures JobAgrees(after, k) {
      assert JobAgrees(db, k);
    }
  }

  lemma SucceedAgrees(db: Db, j: JobId, w: WorkerId, now: Time)
    requires StoreInv(db) && Agree(db) && ByJob(db, j, w)
    ensures Agree(Succeed(db, j, w, now))
  {
    ReleasingHolder(db, j, w);
    RetireOneKeepsAgreement(db, j, SucceededJob(db.jobs[j], now), ReleaseWorker(db.workers, j, Some(w)), now);
  }

  lemma FailAgrees(db: Db, j: JobId, w: WorkerId, category: Option<FailureCategory>, delay: Option<int>,
                   canceled: bool, now: Time)
    requires StoreInv(db) && Agree(db) && ByJob(db, j, w)
    ensures Agree(Fail(db, j, w, category, delay, canceled, now))
  {
    ReleasingHolder(db, j, w);
    RetireOneKeepsAgreement(db, j, AfterFailure(db.jobs[j], category, delay, canceled, now),
                            ReleaseWorker(db.workers, j, Some(w)), now);
  }

  // ---------------------------------------------------------------- exactly when a careless call is harmless

  /** `mark_job_running` checks the assignee only; agreement survives exactly on active jobs. */
  lemma MarkRunningAgreesExactly(db: Db, j: JobId, w: WorkerId, now: Time)
    requires StoreInv(db) && Agree(db) && j in db.jobs && db.jobs[j].assignee == Some(w)
    ensures Agree(MarkRunning(db, j, w, now)) <==> Active(db.jobs[j].status)
  {
    if Active(db.jobs[j].status) {
      MarkRunningAgrees(db, j, w, now);
    } else {
      var after := MarkRunning(db, j, w, now);
      ClaimingRows(db.rows, j, now);
      OpenJobsAreActive(db.jobs, db.rows);
      assert !JobAgrees(after, j);
    }
  }

  /** A completion by `w` is harmless exactly when `w` holds `j`, or nobody holds `j` and `w` holds nothing. */
  ghost predicate HarmlessCompletion(db: Db, j: JobId, w: WorkerId)
    requires j in db.jobs
  {
    if Active(db.jobs[j].status) then db.jobs[j].assignee == Some(w)
    else w in db.workers ==> db.workers[w].runningJobId.None?
  }

  lemma CompletionAgreesExactly(db: Db, j: JobId, job: Job, w: WorkerId, now: Time)
    requires StoreInv(db) && Agree(db) && j in db.jobs && !Active(job.status)
    ensures Agree(RetireOne(db, j, job, ReleaseWorker(db.workers, j, Some(w)), now)) <==> HarmlessCompletion(db, j, w)
  {
    var after := RetireOne(db, j, job, ReleaseWorker(db.workers, j, Some(w)), now);
    if Active(db.jobs[j].status) {
      assert JobAgrees(db, j);
      var holder := db.jobs[j].assignee.value;
      if holder == w {
        ReleasingHolder(db, j, w);
        RetireOneKeepsAgreement(db, j, job, ReleaseWorker(db.workers, j, Some(w)), now);
      } else {
        assert after.workers[holder].runningJobId == Some(j);
        assert !WorkerAgrees(after, holder);
      }
    } else {
      forall v | v in db.workers ensures db.workers[v].runningJobId != Some(j) {
        assert WorkerAgrees(db, v);
      }
      if HarmlessCompletion(db, j, w) {
        assert w in db.workers ==> WorkerAgrees(db, w);
        RetireOneKeepsAgreement(db, j, job, ReleaseWorker(db.workers, j, Some(w)), now);
      } else {
        assert WorkerAgrees(db, w);
        assert !WorkerAgrees(after, w);
      }
    }
  }

  lemma SucceedAgreesExactly(db: Db, j: JobId, w: WorkerId, now: Time)
    requires StoreInv(db) && Agree(db) && j in db.jobs
    ensures Agree(Succeed(db, j, w, now)) <==> HarmlessCompletion(db, j, w)
  {
    CompletionAgreesExactly(db, j, SucceededJob(db.jobs[j], now), w, now);
  }

  lemma FailAgreesExactly(db: Db, j: JobId, w: WorkerId, category: Option<FailureCategory>, delay: Option<int>,
                          canceled: bool, now: Time)
    requires StoreInv(db) && Agree(db) && j in db.jobs
    ensures Agree(Fail(db, j, w, category, delay, canceled, now)) <==> HarmlessCompletion(db, j, w)
  {
    CompletionAgreesExactly(db, j, AfterFailure(db.jobs[j], category, delay, canceled, now), w, now);
  }

  /** A cancel between a worker's fetch and its claim is overwritten: the job runs with no open attempt. */
  lemma CancelLostBetweenFetchAndClaim(db: Db, j: JobId, w: WorkerId, now: Time)
    requires StoreInv(db) && Agree(db) && ByJob(db, j, w) && db.jobs[j].status.Scheduled?
    ensures var canceled := CancelJob(db, j, now);
            && canceled.jobs[j].status.Canceled?
            && MarkRunning(canceled, j, w, now).jobs[j].status.Running?
            && !Agree(MarkRunning(canceled, j, w, now))
  {
    CancelKeepsInv(db, j, now);
    CancelAgrees(db, j, now);
    MarkRunningAgreesExactly(CancelJob(db, j, now), j, w, now);
  }
}
