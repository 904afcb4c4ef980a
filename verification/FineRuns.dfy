/**
 * The system of `SystemRuns` with the worker's steps cut wherever the API, the scheduler, another worker or the
 * worker's own heartbeat loop can come between: fetch and claim, completing and letting go, and the two halves of
 * a beat. All that is asked is that a worker declared lost has stopped executing.
 */
module FineRuns {
  import opened Schema
  import opened BatchStatusView
  import opened Transitions
  import opened StoreInvariants
  import opened Agreement
  import opened Sweeps
  import opened StoreRuns
  import opened OutsideCalls
  import SystemRuns
  import opened WorkerFailures

  /** What the work loop is doing. A job is let go only after its completion was committed. */
  datatype Phase =
    | Resting
    | Fetched(job: JobId)
    | Executing(job: JobId)
    | LettingGo(job: JobId, exits: bool)
    | Stopped

  /** `read` is what the heartbeat loop last read as the job in hand. */
  datatype Proc = Proc(phase: Phase, read: Option<JobId>)

  datatype Sys = Sys(db: Db, procs: map<WorkerId, Proc>)

  datatype Step =
    | Outside(call: Call)
    | Start(worker: WorkerId)
    | Fetch(worker: WorkerId, job: JobId)
    | Claim(worker: WorkerId, now: Time)
    | Complete(worker: WorkerId, error: Option<AttemptError>, retryDelay: int, exits: bool, now: Time)
    | LetGo(worker: WorkerId)
    | Read(worker: WorkerId)
    | Write(worker: WorkerId, node: string, slot: int, held: Option<JobId>, now: Time)
    | Crash(worker: WorkerId)

  function InHand(phase: Phase): Option<JobId> {
    match phase
    case Executing(j) => Some(j)
    case LettingGo(j, _) => Some(j)
    case _ => None
  }

  predicate Runs(s: Sys, w: WorkerId, j: JobId) {
    w in s.procs && s.procs[w].phase == Executing(j)
  }

  predicate Claimable(db: Db, w: WorkerId, j: JobId) {
    j in db.jobs && db.jobs[j].assignee == Some(w)
  }

  /** A worker that is declared lost is not executing anything. */
  ghost predicate Accurate(s: Sys, cutoff: Time) {
    forall w :: Stale(s.db, w, cutoff) && w in s.procs ==> !s.procs[w].phase.Executing?
  }

  ghost predicate Enabled(s: Sys, step: Step) {
    match step
    case Outside(call) =>
      FromOutside(call) && Possible(s.db, call) && (call.DoMarkStale? ==> Accurate(s, call.cutoff))
    case Start(w) => w in s.procs ==> s.procs[w].phase.Stopped?
    case Fetch(w, j) =>
      w in s.procs && s.procs[w].phase.Resting? && Claimable(s.db, w, j) && s.db.jobs[j].status.Scheduled?
    case Claim(w, _) => w in s.procs && s.procs[w].phase.Fetched?
    case Complete(w, _, _, _, _) => w in s.procs && s.procs[w].phase.Executing?
    case LetGo(w) => w in s.procs && s.procs[w].phase.LettingGo?
    case Read(w) => w in s.procs && !s.procs[w].phase.Stopped?
    case Write(w, _, _, held, _) => w in s.procs && !s.procs[w].phase.Stopped? && IsFirstHeld(s.db.jobs, w, held)
    case Crash(w) => w in s.procs
  }

  /** The store call that reports how the attempt on `j` ended. */
  function Completed(db: Db, w: WorkerId, j: JobId, error: Option<AttemptError>, retryDelay: int, now: Time): Db {
    match error
    case None => Succeed(db, j, w, now)
    case Some(e) =>
      var (category, delay) := ClassifyFailure(e, retryDelay);
      Fail(db, j, w, Some(category), delay, e.RunnerCancelled?, now)
  }

  function InPhase(s: Sys, w: WorkerId, phase: Phase): Sys
    requires w in s.procs
  {
    s.(procs := s.procs[w := s.procs[w].(phase := phase)])
  }

  ghost function Next(s: Sys, step: Step): Sys
    requires Enabled(s, step)
  {
    match step
    case Outside(call) => s.(db := Apply(s.db, call))
    case Start(w) => s.(procs := s.procs[w := Proc(Resting, None)])
    case Fetch(w, j) => InPhase(s, w, Fetched(j))
    case Claim(w, now) =>
      var j := s.procs[w].phase.job;
      InPhase(s.(db := MarkRunning(s.db, j, w, now)), w, if Claimable(s.db, w, j) then Executing(j) else Resting)
    case Complete(w, error, retryDelay, exits, now) =>
      var j := s.procs[w].phase.job;
      InPhase(s.(db := Completed(s.db, w, j, error, retryDelay, now)), w, LettingGo(j, exits))
    case LetGo(w) => InPhase(s, w, if s.procs[w].phase.exits then Stopped else Resting)
    case Read(w) => s.(procs := s.procs[w := s.procs[w].(read := InHand(s.procs[w].phase))])
    case Write(w, node, slot, held, now) =>
      var read := s.procs[w].read;
      s.(db := Heartbeat(s.db, w, node, slot, if read.Some? then Busy else Idle, read, held, now))
    case Crash(w) => InPhase(s, w, Stopped)
  }

  // ---------------------------------------------------------------- what every step keeps

  /** Every job may be repeated once. */
  ghost predicate OneRetry(jobs: map<JobId, Job>) {
    forall j :: j in jobs ==> jobs[j].maxRetries == 1
  }

  /** `w` has been the last to run `j`, or else `j` has used up its retry. */
  ghost predicate Behind(jobs: map<JobId, Job>, w: WorkerId, j: JobId) {
    j in jobs && (jobs[j].retryCount >= 1 || (jobs[j].assignee == Some(w) && !jobs[j].status.Scheduled?))
  }

  /** A heartbeat row points at a job of its own worker, or at one that has used up its retry. */
  ghost predicate PointerOk(jobs: map<JobId, Job>, w: WorkerId, worker: Worker) {
    worker.runningJobId.Some? ==>
      var j := worker.runningJobId.value;
      Behind(jobs, w, j) || (j in jobs && jobs[j].assignee == Some(w) && !worker.status.Offline?)
  }

  ghost predicate PointersOk(db: Db) {
    forall w :: w in db.workers ==> PointerOk(db.jobs, w, db.workers[w])
  }

  /** An executed job is assigned to its executor, and runs unless it was failed behind the executor's back. */
  ghost predicate Executed(jobs: map<JobId, Job>, w: WorkerId, j: JobId) {
    && j in jobs && jobs[j].assignee == Some(w)
    && (jobs[j].status.Running? || (jobs[j].status.Failed? && jobs[j].retryCount >= 1))
  }

  ghost predicate ProcOk(jobs: map<JobId, Job>, w: WorkerId, p: Proc) {
    && (p.read.Some? ==> Behind(jobs, w, p.read.value))
    && match p.phase
       case Fetched(j) =>
         j in jobs && (jobs[j].assignee == Some(w) ==>
                         jobs[j].status.Scheduled? || jobs[j].status.Canceled? || jobs[j].status.Failed?)
       case Executing(j) => Executed(jobs, w, j)
       case LettingGo(j, _) => Behind(jobs, w, j)
       case _ => true
  }

  ghost predicate ProcsOk(s: Sys) {
    forall w :: w in s.procs ==> ProcOk(s.db.jobs, w, s.procs[w])
  }

  ghost predicate FineInv(s: Sys) {
    StoreInv(s.db) && OneRetry(s.db.jobs) && PointersOk(s.db) && ProcsOk(s)
  }

  // ---------------------------------------------------------------- outside steps

  lemma MovesKeepBehind(before: map<JobId, Job>, after: map<JobId, Job>, w: WorkerId, j: JobId, canceling: bool)
    requires Behind(before, w, j) && j in after && Moves(before[j], after[j], canceling) && JobOk(before[j])
    ensures Behind(after, w, j)
  {
  }

  /** The sweep takes an executed job only if a lost worker points at it, and then the job has used up its retry. */
  lemma SweepSparesExecuted(s: Sys, call: Call, w: WorkerId, j: JobId)
    requires PointersOk(s.db) && OneRetry(s.db.jobs) && Executed(s.db.jobs, w, j)
    requires call.DoMarkStale? && !Stale(s.db, w, call.cutoff)
    ensures Executed(Apply(s.db, call).jobs, w, j)
  {
    hide Refresh, BatchesOf, CloseRows, TakeOffline;
    var ws := StaleWorkers(s.db, call.cutoff);
    if j in Orphans(s.db, ws) {
      var v :| v in ws && v in s.db.workers && s.db.workers[v].runningJobId == Some(j);
      assert PointerOk(s.db.jobs, v, s.db.workers[v]);
    }
  }

  lemma OutsideSparesExecuted(s: Sys, call: Call, w: WorkerId, j: JobId)
    requires PointersOk(s.db) && OneRetry(s.db.jobs) && Executed(s.db.jobs, w, j)
    requires FromOutside(call) && Possible(s.db, call)
    requires call.DoMarkStale? ==> !Stale(s.db, w, call.cutoff)
    ensures Executed(Apply(s.db, call).jobs, w, j)
  {
    hide PointersOk, OneRetry, Apply, Possible;
    OutsideMoves(s.db, call, j);
    if call.DoMarkStale? {
      SweepSparesExecuted(s, call, w, j);
    } else if s.db.jobs[j].status.Running? {
      RunningUnderOutside(s.db, call, j);
    }
  }

  lemma OutsideKeepsProcs(s: Sys, call: Call)
    requires FineInv(s) && Enabled(s, Outside(call))
    ensures ProcsOk(Next(s, Outside(call)))
  {
    hide Apply, Possible, PointersOk, OneRetry, RowsOk, OpenUnique, ScheduledHaveRow, AttemptsOk, ViewExact;
    var after := Apply(s.db, call);
    CallKeepsInv(s.db, call);
    forall w | w in s.procs ensures ProcOk(after.jobs, w, s.procs[w]) {
      var p := s.procs[w];
      assert ProcOk(s.db.jobs, w, p);
      if p.read.Some? {
        OutsideMoves(s.db, call, p.read.value);
        MovesKeepBehind(s.db.jobs, after.jobs, w, p.read.value, IsCancel(call, p.read.value));
      }
      match p.phase {
        case Fetched(j) =>
          OutsideMoves(s.db, call, j);
          assert JobOk(s.db.jobs[j]) && JobOk(after.jobs[j]);
        case Executing(j) => OutsideSparesExecuted(s, call, w, j);
        case LettingGo(j, _) =>
          OutsideMoves(s.db, call, j);
          MovesKeepBehind(s.db.jobs, after.jobs, w, j, IsCancel(call, j));
        case _ =>
      }
    }
  }

  lemma OutsideKeepsOneRetry(db: Db, call: Call)
    requires OneRetry(db.jobs) && FromOutside(call) && Possible(db, call)
    ensures OneRetry(Apply(db, call).jobs)
  {
    hide Apply, Possible;
    var after := Apply(db, call);
    forall j | j in after.jobs ensures after.jobs[j].maxRetries == 1 {
      if j in db.jobs {
        OutsideMoves(db, call, j);
      } else {
        OutsideAdds(db, call, j);
      }
    }
  }

  // ---------------------------------------------------------------- heartbeat rows under outside steps

  lemma SweptRows(db: Db, ws: set<WorkerId>, delay: Option<int>, now: Time)
    ensures var after := LoseWorkers(db, ws, delay, now);
            && after.jobs.Keys == db.jobs.Keys && after.workers.Keys == db.workers.Keys
            && (forall j :: j in db.jobs ==>
                  if j in Orphans(db, ws) then db.jobs[j].retryCount <= after.jobs[j].retryCount
                  else after.jobs[j] == db.jobs[j])
            && (forall w :: w in db.workers ==>
                  if w in ws then after.workers[w].runningJobId.None? else after.workers[w] == db.workers[w])
  {
    hide Refresh, BatchesOf, CloseRows;
    OrphansAreActive(db, ws);
    hide Orphans;
  }

  lemma SweepKeepsPointers(db: Db, cutoff: Time, delay: Option<int>, now: Time)
    requires PointersOk(db)
    ensures PointersOk(StaleSweep(db, cutoff, delay, now))
  {
    hide LoseWorkers, StaleWorkers;
    var ws := StaleWorkers(db, cutoff);
    var after := StaleSweep(db, cutoff, delay, now);
    SweptRows(db, ws, delay, now);
    forall w | w in after.workers ensures PointerOk(after.jobs, w, after.workers[w]) {
      assert PointerOk(db.jobs, w, db.workers[w]);
      if w !in ws && db.workers[w].runningJobId.Some? && db.workers[w].runningJobId.value in Orphans(db, ws) {
        var v :| v in ws && v in db.workers && db.workers[v].runningJobId == db.workers[w].runningJobId;
        assert PointerOk(db.jobs, v, db.workers[v]);
      }
    }
  }

  /** A worker whose unclaimed attempt is taken back points at that attempt's job or at no scheduled job of its own. */
  lemma ClaimSweepKeepsPointers(db: Db, claimCutoff: Time, offlineCutoff: Time, now: Time)
    requires StoreInv(db) && PointersOk(db)
    ensures PointersOk(ClaimSweep(db, claimCutoff, offlineCutoff, now))
  {
    var expired := ExpiredRows(db, claimCutoff);
    var after := ClaimSweep(db, claimCutoff, offlineCutoff, now);
    ExpiredAreScheduled(db, expired, claimCutoff);
    forall w | w in after.workers ensures PointerOk(after.jobs, w, after.workers[w]) {
      assert PointerOk(db.jobs, w, db.workers[w]);
      if db.workers[w].runningJobId.Some? && Claimable(db, w, db.workers[w].runningJobId.value) {
        ExpiredRowsOfPointer(db, claimCutoff, w, db.workers[w].runningJobId.value);
      }
    }
  }

  lemma ExpiredRowsOfPointer(db: Db, claimCutoff: Time, w: WorkerId, j: JobId)
    requires StoreInv(db) && Claimable(db, w, j)
    ensures var expired := ExpiredRows(db, claimCutoff);
            && (j in JobsOfRows(db.rows, expired) ==>
                  w in WorkersOfRows(db.rows, expired) && j in FreedFor(db.rows, expired, w))
            && (db.jobs[j].status.Scheduled? && w in WorkersOfRows(db.rows, expired) ==>
                  j in JobsOfRows(db.rows, expired))
  {
    var expired := ExpiredRows(db, claimCutoff);
    if j in JobsOfRows(db.rows, expired) {
      var i :| i in expired && i < |db.rows| && db.rows[i].jobId == j;
      assert RowOk(db.jobs, db.rows[i]);
    }
    if db.jobs[j].status.Scheduled? && w in WorkersOfRows(db.rows, expired) {
      var i :| i in expired && i < |db.rows| && db.rows[i].workerId == w;
      assert RowOk(db.jobs, db.rows[i]);
      OneScheduledJobPerWorker(db, j, db.rows[i].jobId);
    }
  }

  /** Heartbeat rows keep their pointers or lose them, and no job changes hands or is scheduled. */
  ghost predicate KeepsHands(before: Db, after: Db) {
    && after.jobs.Keys == before.jobs.Keys && after.workers.Keys == before.workers.Keys
    && (forall j :: j in before.jobs ==>
          && after.jobs[j].assignee == before.jobs[j].assignee && after.jobs[j].retryCount == before.jobs[j].retryCount
          && (after.jobs[j].status.Scheduled? ==> before.jobs[j].status.Scheduled?))
    && (forall w :: w in before.workers ==>
          && (after.workers[w].runningJobId.Some? ==> after.workers[w].runningJobId == before.workers[w].runningJobId)
          && (after.workers[w].status.Offline? <==> before.workers[w].status.Offline?))
  }

  lemma CanceledRows(db: Db, j: JobId, now: Time)
    ensures var after := CancelJob(db, j, now);
            && after.jobs.Keys == db.jobs.Keys && (forall k :: k in db.jobs && k != j ==> after.jobs[k] == db.jobs[k])
            && (j in db.jobs ==>
                  && after.jobs[j].assignee == db.jobs[j].assignee && after.jobs[j].retryCount == db.jobs[j].retryCount
                  && !after.jobs[j].status.Scheduled?
                  && (after.workers == db.workers ||
                      after.workers == ReleaseWorker(db.workers, j, db.jobs[j].assignee)))
            && (j !in db.jobs ==> after == db)
  {
    hide Refresh, BatchesOf, CloseRows, ReleaseWorker;
  }

  lemma CancelKeepsHands(db: Db, j: JobId, now: Time)
    ensures KeepsHands(db, CancelJob(db, j, now))
  {
    hide CancelJob, ReleaseWorker;
    CanceledRows(db, j, now);
    if j in db.jobs {
      ReleaseKeepsHands(db.workers, j, db.jobs[j].assignee);
    }
  }

  lemma ReleaseKeepsHands(workers: map<WorkerId, Worker>, j: JobId, w: Option<WorkerId>)
    ensures var after := ReleaseWorker(workers, j, w);
            && after.Keys == workers.Keys
            && (forall v :: v in workers ==>
                  && (after[v].runningJobId.Some? ==> after[v].runningJobId == workers[v].runningJobId)
                  && (after[v].status.Offline? <==> workers[v].status.Offline?))
  {
  }

  lemma CancelKeepsPointers(db: Db, j: JobId, now: Time)
    requires PointersOk(db)
    ensures PointersOk(CancelJob(db, j, now))
  {
    hide CancelJob;
    CancelKeepsHands(db, j, now);
    var after := CancelJob(db, j, now);
    forall w | w in after.workers ensures PointerOk(after.jobs, w, after.workers[w]) {
      assert PointerOk(db.jobs, w, db.workers[w]);
    }
  }

  /** What reverting does, if it does anything. */
  lemma RevertedRows(db: Db, j: JobId, w: WorkerId, now: Time)
    ensures var after := Revert(db, j, w, now);
            || after == db
            || (&& j in db.jobs && db.jobs[j].status.Scheduled? && db.jobs[j].assignee == Some(w)
                && after.jobs == db.jobs[j := BackToQueue(db.jobs[j], now)]
                && after.workers.Keys == db.workers.Keys
                && (forall v :: v in db.workers && v != w ==> after.workers[v] == db.workers[v])
                && (w in db.workers ==>
                      if db.workers[w].status.Offline? then after.workers[w] == db.workers[w]
                      else after.workers[w] == ReleasedWorker(db.workers[w], j)))
  {
    hide Refresh, BatchesOf, CloseRows;
    if j in db.jobs {
      assert db.jobs + map[j := BackToQueue(db.jobs[j], now)] == db.jobs[j := BackToQueue(db.jobs[j], now)];
    }
  }

  lemma RevertKeepsPointers(db: Db, j: JobId, w: WorkerId, now: Time)
    requires PointersOk(db)
    ensures PointersOk(Revert(db, j, w, now))
  {
    hide Revert;
    RevertedRows(db, j, w, now);
    var after := Revert(db, j, w, now);
    forall v | v in after.workers ensures PointerOk(after.jobs, v, after.workers[v]) {
      assert PointerOk(db.jobs, v, db.workers[v]);
    }
  }

  /** A queued job is assigned to nobody, so whoever still points at it knows that its retry is used up. */
  lemma AssignKeepsPointers(db: Db, j: JobId, w: WorkerId, cutoff: Time, now: Time)
    requires StoreInv(db) && PointersOk(db)
    ensures PointersOk(Assign(db, j, w, cutoff, now))
  {
    hide Refresh, BatchesOf, HeldJobs, RowsOk, OpenUnique, ScheduledHaveRow, AttemptsOk, ViewExact;
    var after := Assign(db, j, w, cutoff, now);
    forall v | v in after.workers ensures PointerOk(after.jobs, v, after.workers[v]) {
      assert PointerOk(db.jobs, v, db.workers[v]);
      assert j in db.jobs ==> JobOk(db.jobs[j]);
    }
  }

  lemma AddingKeepsPointers(db: Db, call: Call)
    requires StoreInv(db) && PointersOk(db)
    requires Possible(db, call) && (call.DoCreateJob? || call.DoCreateBatch? || call.DoGetBatch?)
    ensures PointersOk(Apply(db, call))
  {
    hide Refresh, BatchesOf, RowsOk, OpenUnique, ScheduledHaveRow, AttemptsOk, ViewExact;
    var after := Apply(db, call);
    forall v | v in after.workers ensures PointerOk(after.jobs, v, after.workers[v]) {
      assert PointerOk(db.jobs, v, db.workers[v]);
      if db.workers[v].runningJobId.Some? && !call.DoGetBatch? {
        AddingMoves(db, call, db.workers[v].runningJobId.value);
      }
    }
  }

  lemma OutsideKeepsPointers(db: Db, call: Call)
    requires StoreInv(db) && PointersOk(db) && FromOutside(call) && Possible(db, call)
    ensures PointersOk(Apply(db, call))
  {
    hide StoreInv, PointersOk, CancelJob, StaleSweep, Assign, ClaimSweep, Revert;
    match call {
      case DoCancel(id, now) => CancelKeepsPointers(db, id, now);
      case DoMarkStale(cutoff, delay, now) => SweepKeepsPointers(db, cutoff, delay, now);
      case DoAssign(id, w, cutoff, now) => AssignKeepsPointers(db, id, w, cutoff, now);
      case DoRequeueStale(claimCutoff, offlineCutoff, now) =>
        ClaimSweepKeepsPointers(db, claimCutoff, offlineCutoff, now);
      case DoRevert(id, w, now) => RevertKeepsPointers(db, id, w, now);
      case _ => AddingKeepsPointers(db, call);
    }
  }

  lemma OutsideKeepsInv(s: Sys, call: Call)
    requires FineInv(s) && Enabled(s, Outside(call))
    ensures FineInv(Next(s, Outside(call)))
  {
    OutsideKeepsProcs(s, call);
    hide Apply, Possible, PointersOk, OneRetry, StoreInv, ProcsOk;
    CallKeepsInv(s.db, call);
    OutsideKeepsOneRetry(s.db, call);
    OutsideKeepsPointers(s.db, call);
  }

  // ---------------------------------------------------------------- worker steps

  /** Only the worker that has `j` is concerned when `j` is rewritten. */
  lemma OthersStay(s: Sys, after: map<JobId, Job>, w: WorkerId, j: JobId)
    requires ProcsOk(s) && j in s.db.jobs && s.db.jobs[j].assignee == Some(w)
    requires after.Keys == s.db.jobs.Keys && forall k :: k in s.db.jobs && k != j ==> after[k] == s.db.jobs[k]
    requires s.db.jobs[j].retryCount <= after[j].retryCount
    requires after[j].assignee == Some(w) || after[j].assignee.None?
    ensures forall v :: v in s.procs && v != w ==> ProcOk(after, v, s.procs[v])
  {
    forall v | v in s.procs && v != w ensures ProcOk(after, v, s.procs[v]) {
      assert ProcOk(s.db.jobs, v, s.procs[v]);
    }
  }

  lemma ClaimKeepsInv(s: Sys, w: WorkerId, now: Time)
    requires FineInv(s) && Enabled(s, Claim(w, now))
    ensures FineInv(Next(s, Claim(w, now)))
  {
    hide StoreInv, Refresh, BatchesOf, ClaimRows;
    var j := s.procs[w].phase.job;
    var after := MarkRunning(s.db, j, w, now);
    MarkRunningKeepsInv(s.db, j, w, now);
    assert ProcOk(s.db.jobs, w, s.procs[w]);
    if Claimable(s.db, w, j) {
      OthersStay(s, after.jobs, w, j);
      forall v | v in after.workers ensures PointerOk(after.jobs, v, after.workers[v]) {
        assert PointerOk(s.db.jobs, v, s.db.workers[v]);
      }
    }
  }

  /** What a completion makes of the job row and of the worker row. */
  lemma CompletionOf(db: Db, w: WorkerId, j: JobId, error: Option<AttemptError>, retryDelay: int, now: Time)
    requires j in db.jobs
    ensures var after := Completed(db, w, j, error, retryDelay, now);
            && after.jobs.Keys == db.jobs.Keys && (forall k :: k in db.jobs && k != j ==> after.jobs[k] == db.jobs[k])
            && after.jobs[j].maxRetries == db.jobs[j].maxRetries
            && (if after.jobs[j].status.Queued?
                then after.jobs[j].assignee.None? && after.jobs[j].retryCount == db.jobs[j].retryCount + 1
                     && db.jobs[j].retryCount < db.jobs[j].maxRetries
                else after.jobs[j].assignee == db.jobs[j].assignee && Terminal(after.jobs[j].status)
                     && after.jobs[j].retryCount == db.jobs[j].retryCount)
            && after.workers.Keys == db.workers.Keys
            && (forall v :: v in db.workers && v != w ==> after.workers[v] == db.workers[v])
            && (w in db.workers ==> after.workers[w] == ReleasedWorker(db.workers[w], j))
  {
    hide Refresh, BatchesOf, CloseRows, ClassifyFailure;
  }

  lemma CompletedKeepsStore(db: Db, w: WorkerId, j: JobId, error: Option<AttemptError>, retryDelay: int, now: Time)
    requires StoreInv(db)
    ensures StoreInv(Completed(db, w, j, error, retryDelay, now))
  {
    hide StoreInv, ClassifyFailure, Succeed, Fail;
    match error {
      case None => SucceedKeepsInv(db, j, w, now);
      case Some(e) =>
        var (category, delay) := ClassifyFailure(e, retryDelay);
        FailKeepsInv(db, j, w, Some(category), delay, e.RunnerCancelled?, now);
    }
  }

  lemma CompleteKeepsInv(s: Sys, w: WorkerId, error: Option<AttemptError>, retryDelay: int, exits: bool, now: Time)
    requires FineInv(s) && Enabled(s, Complete(w, error, retryDelay, exits, now))
    ensures FineInv(Next(s, Complete(w, error, retryDelay, exits, now)))
  {
    hide StoreInv, Completed;
    var j := s.procs[w].phase.job;
    var after := Completed(s.db, w, j, error, retryDelay, now);
    assert ProcOk(s.db.jobs, w, s.procs[w]);
    CompletedKeepsStore(s.db, w, j, error, retryDelay, now);
    CompletionOf(s.db, w, j, error, retryDelay, now);
    OthersStay(s, after.jobs, w, j);
    forall v | v in after.workers ensures PointerOk(after.jobs, v, after.workers[v]) {
      assert PointerOk(s.db.jobs, v, s.db.workers[v]);
    }
  }

  lemma WriteKeepsInv(s: Sys, w: WorkerId, node: string, slot: int, held: Option<JobId>, now: Time)
    requires FineInv(s) && Enabled(s, Write(w, node, slot, held, now))
    ensures FineInv(Next(s, Write(w, node, slot, held, now)))
  {
    hide StoreInv;
    var read := s.procs[w].read;
    var after := Next(s, Write(w, node, slot, held, now)).db;
    assert ProcOk(s.db.jobs, w, s.procs[w]);
    HeartbeatKeepsInv(s.db, w, node, slot, if read.Some? then Busy else Idle, read, held, now);
    forall v | v in after.workers ensures PointerOk(after.jobs, v, after.workers[v]) {
      assert v != w ==> PointerOk(s.db.jobs, v, s.db.workers[v]);
    }
  }

  lemma StepKeepsFineInv(s: Sys, step: Step)
    requires FineInv(s) && Enabled(s, step)
    ensures FineInv(Next(s, step))
  {
    match step {
      case Outside(call) => OutsideKeepsInv(s, call);
      case Claim(w, now) => ClaimKeepsInv(s, w, now);
      case Complete(w, error, retryDelay, exits, now) => CompleteKeepsInv(s, w, error, retryDelay, exits, now);
      case Write(w, node, slot, held, now) => WriteKeepsInv(s, w, node, slot, held, now);
      case _ =>
        hide StoreInv, PointersOk, OneRetry;
        assert step.worker in s.procs ==> ProcOk(s.db.jobs, step.worker, s.procs[step.worker]);
    }
  }

  // ---------------------------------------------------------------- whole runs

  /** `ss[n]` is the system before step number `n`. */
  ghost predicate IsFineRun(ss: seq<Sys>, steps: seq<Step>) {
    && |ss| == |steps| + 1
    && ss[0] == Sys(EMPTY, map[])
    && forall n :: 0 <= n < |steps| ==> Enabled(ss[n], steps[n]) && ss[n + 1] == Next(ss[n], steps[n])
  }

  lemma StepOfRun(ss: seq<Sys>, steps: seq<Step>, n: nat)
    requires IsFineRun(ss, steps) && n < |steps|
    ensures n + 1 < |ss| && Enabled(ss[n], steps[n]) && ss[n + 1] == Next(ss[n], steps[n])
  {
  }

  lemma {:induction false} FineRunIsSafe(ss: seq<Sys>, steps: seq<Step>, n: nat)
    requires IsFineRun(ss, steps) && n < |ss|
    ensures FineInv(ss[n])
  {
    if n == 0 {
      EmptyIsOk();
    } else {
      hide FineInv, Enabled, Next;
      FineRunIsSafe(ss, steps, n - 1);
      StepKeepsFineInv(ss[n - 1], steps[n - 1]);
    }
  }

  /** No two workers ever execute the same job: it is assigned to its one executor. */
  lemma NoTwoExecutors(ss: seq<Sys>, steps: seq<Step>, n: nat, w: WorkerId, v: WorkerId, j: JobId)
    requires IsFineRun(ss, steps) && n < |ss| && Runs(ss[n], w, j)
    ensures Executed(ss[n].db.jobs, w, j)
    ensures Runs(ss[n], v, j) ==> v == w
  {
    FineRunIsSafe(ss, steps, n);
    assert ProcOk(ss[n].db.jobs, w, ss[n].procs[w]);
    assert v in ss[n].procs ==> ProcOk(ss[n].db.jobs, v, ss[n].procs[v]);
  }

  /** A running job stops exactly by its executor's completion, or by a sweep that finds a lost worker's old pointer. */
  lemma RunningStopsExactly(s: Sys, step: Step, w: WorkerId, j: JobId)
    requires FineInv(s) && Enabled(s, step) && Runs(s, w, j) && s.db.jobs[j].status.Running?
    ensures j in Next(s, step).db.jobs
    ensures Next(s, step).db.jobs[j].status.Running? <==>
              && !(step.Complete? && step.worker == w)
              && !(step.Outside? && step.call.DoMarkStale? && j in Orphans(s.db, StaleWorkers(s.db, step.call.cutoff)))
  {
    hide StoreInv, PointersOk, OneRetry, Apply, Possible, Completed, IsFirstHeld, Refresh, BatchesOf, ClaimRows,
      CloseRows;
    assert ProcOk(s.db.jobs, w, s.procs[w]);
    match step {
      case Outside(call) =>
        RunningUnderOutside(s.db, call, j);
      case Complete(v, error, retryDelay, exits, now) =>
        assert ProcOk(s.db.jobs, v, s.procs[v]);
        CompletionOf(s.db, v, s.procs[v].phase.job, error, retryDelay, now);
      case _ =>
    }
  }

  // ---------------------------------------------------------------- finished jobs

  /** What changes the status of a finished job: a claim that came too late, or the end of a run that was failed. */
  predicate Revives(s: Sys, step: Step, j: JobId) {
    match step
    case Claim(w, _) => w in s.procs && s.procs[w].phase == Fetched(j) && Claimable(s.db, w, j)
    case Complete(w, error, _, _, _) =>
      w in s.procs && s.procs[w].phase == Executing(j) && (error.Some? ==> error.value.RunnerCancelled?)
    case _ => false
  }

  lemma FinishedLeftExactly(s: Sys, step: Step, j: JobId)
    requires FineInv(s) && Enabled(s, step) && j in s.db.jobs && Terminal(s.db.jobs[j].status)
    ensures j in Next(s, step).db.jobs
    ensures Next(s, step).db.jobs[j].status != s.db.jobs[j].status <==> Revives(s, step, j)
    ensures s.db.jobs[j].status.Succeeded? ==> Next(s, step).db.jobs[j] == s.db.jobs[j]
  {
    hide StoreInv, PointersOk, Apply, Possible, IsFirstHeld, Refresh, BatchesOf, ClaimRows, CloseRows;
    match step {
      case Outside(call) => OutsideMoves(s.db, call, j);
      case Claim(w, now) => assert ProcOk(s.db.jobs, w, s.procs[w]);
      case Complete(w, error, retryDelay, exits, now) =>
        assert ProcOk(s.db.jobs, w, s.procs[w]);
        hide ProcsOk, Completed;
        CompletingFailed(s.db, w, s.procs[w].phase.job, error, retryDelay, now, j);
      case _ =>
    }
  }

  /** A completion turns a failed job without retries into what it reports, and touches no other job. */
  lemma CompletingFailed(db: Db, w: WorkerId, k: JobId, error: Option<AttemptError>, retryDelay: int, now: Time,
                         j: JobId)
    requires k in db.jobs && j in db.jobs
    ensures var after := Completed(db, w, k, error, retryDelay, now);
            && j in after.jobs
            && (j != k ==> after.jobs[j] == db.jobs[j])
            && (j == k && db.jobs[j].status.Failed? && db.jobs[j].retryCount >= db.jobs[j].maxRetries ==>
                  (after.jobs[j].status.Failed? <==> error.Some? && !error.value.RunnerCancelled?))
  {
    hide Refresh, BatchesOf, CloseRows, ClassifyFailure;
  }

  lemma RunLength(ss: seq<Sys>, steps: seq<Step>)
    requires IsFineRun(ss, steps)
    ensures |ss| == |steps| + 1
  {
  }

  lemma RunKeepsSuccess(ss: seq<Sys>, steps: seq<Step>, n: nat, j: JobId)
    requires IsFineRun(ss, steps) && n < |steps| && j in ss[n].db.jobs && ss[n].db.jobs[j].status.Succeeded?
    ensures j in ss[n + 1].db.jobs && ss[n + 1].db.jobs[j] == ss[n].db.jobs[j]
  {
    FineRunIsSafe(ss, steps, n);
    StepOfRun(ss, steps, n);
    hide FineInv, Enabled, Next, IsFineRun;
    FinishedLeftExactly(ss[n], steps[n], j);
  }

  /** A success is never lost, however steps interleave. */
  lemma {:induction false} SucceededForever(ss: seq<Sys>, steps: seq<Step>, m: nat, n: nat, j: JobId)
    requires IsFineRun(ss, steps) && m <= n < |ss| && j in ss[m].db.jobs && ss[m].db.jobs[j].status.Succeeded?
    ensures j in ss[n].db.jobs && ss[n].db.jobs[j] == ss[m].db.jobs[j]
    decreases n - m
  {
    hide *;
    if m < n {
      RunLength(ss, steps);
      SucceededForever(ss, steps, m, n - 1, j);
      RunKeepsSuccess(ss, steps, n - 1, j);
    }
  }

  // ---------------------------------------------------------------- why executed jobs may be taken

  lemma RetriedWithPointer(db: Db, j: JobId, w: WorkerId, v: WorkerId, node: string, slot: int, delay: nat,
                           held: Option<JobId>, cutoff: Time, t: Time)
    requires j in db.jobs && db.jobs[j].retryCount < db.jobs[j].maxRetries
    requires v != w && Dispatchable(db, v, cutoff)
    ensures var after := Heartbeat(Fail(db, j, w, Some(InfraTransient), Some(delay), false, t), w, node, slot, Busy,
                                   Some(j), held, t);
            && Dispatchable(after, v, cutoff) && Ready(after.jobs, j, t + delay)
            && after.jobs[j].retryCount == db.jobs[j].retryCount + 1
            && after.jobs[j].maxRetries == db.jobs[j].maxRetries
            && w in after.workers && after.workers[w].runningJobId == Some(j)
            && after.workers[w].lastHeartbeatAt == t && after.workers[w].status.Busy?
  {
    hide Refresh, BatchesOf, CloseRows;
    var failed := Fail(db, j, w, Some(InfraTransient), Some(delay), false, t);
    assert HeldJobs(failed.jobs, v) <= HeldJobs(db.jobs, v);
  }

  lemma TakenOver(db: Db, j: JobId, w: WorkerId, v: WorkerId, cutoff: Time, t: Time)
    requires Dispatchable(db, v, cutoff) && Ready(db.jobs, j, t) && v != w && w in db.workers
    ensures var after := Assign(db, j, v, cutoff, t);
            && j in after.jobs && after.jobs[j].assignee == Some(v)
            && after.jobs[j].retryCount == db.jobs[j].retryCount && after.jobs[j].maxRetries == db.jobs[j].maxRetries
            && w in after.workers && after.workers[w] == db.workers[w]
  {
    hide Refresh, BatchesOf, HeldJobs;
  }

  lemma ClaimedAndBeating(db: Db, j: JobId, w: WorkerId, v: WorkerId, node: string, slot: int, held: Option<JobId>,
                          t: Time, u: Time)
    requires j in db.jobs && db.jobs[j].assignee == Some(v) && v != w && w in db.workers
    ensures var after := Heartbeat(MarkRunning(db, j, v, t), v, node, slot, Busy, Some(j), held, u);
            && j in after.jobs && after.jobs[j].status.Running? && after.jobs[j].assignee == Some(v)
            && after.jobs[j].retryCount == db.jobs[j].retryCount && after.jobs[j].maxRetries == db.jobs[j].maxRetries
            && w in after.workers && after.workers[w] == db.workers[w]
            && v in after.workers && after.workers[v].lastHeartbeatAt == u
  {
    hide Refresh, BatchesOf, ClaimRows;
  }

  lemma PointedAtIsTaken(db: Db, j: JobId, w: WorkerId, delay: Option<int>, cutoff: Time, now: Time)
    requires j in db.jobs && db.jobs[j].status.Running?
    requires Stale(db, w, cutoff) && db.workers[w].runningJobId == Some(j)
    ensures j in StaleSweep(db, cutoff, delay, now).jobs
    ensures StaleSweep(db, cutoff, delay, now).jobs[j].status
         == if WillRetry(db.jobs[j], delay, false) then Queued else Failed
  {
    hide Refresh, BatchesOf, CloseRows, TakeOffline;
    assert w in StaleWorkers(db, cutoff) && j in Orphans(db, StaleWorkers(db, cutoff));
  }

  /**
   * Worker `w` reports a retryable failure and exits, after its heartbeat loop has read the job in hand but before it
   * has written. Worker `v` takes the job over. When `w` is declared lost, the job is taken from `v`, which beats and
   * executes it: it is failed, or even queued for a third worker if it may be repeated more than once.
   */
  lemma LateBeatTakesRunningJob(db: Db, j: JobId, w: WorkerId, v: WorkerId, node: string, slot: int, delay: nat,
                                heldW: Option<JobId>, heldV: Option<JobId>, cutoff: Time, lost: Time, t: Time, u: Time)
    requires j in db.jobs && db.jobs[j].status.Running? && db.jobs[j].assignee == Some(w)
    requires db.jobs[j].retryCount < db.jobs[j].maxRetries
    requires v != w && Dispatchable(db, v, cutoff)
    requires t + delay < lost <= u
    ensures var d1 := Fail(db, j, w, Some(InfraTransient), Some(delay), false, t);
            var d2 := Heartbeat(d1, w, node, slot, Busy, Some(j), heldW, t);
            var d3 := Assign(d2, j, v, cutoff, t + delay);
            var d4 := MarkRunning(d3, j, v, t + delay);
            var d5 := Heartbeat(d4, v, node, slot, Busy, Some(j), heldV, u);
            var d6 := StaleSweep(d5, lost, Some(delay), u);
            && j in d5.jobs && d5.jobs[j].status.Running? && d5.jobs[j].assignee == Some(v) && !Stale(d5, v, lost)
            && j in d6.jobs
            && d6.jobs[j].status == if db.jobs[j].retryCount + 1 < db.jobs[j].maxRetries then Queued else Failed
  {
    hide Fail, Heartbeat, Assign, MarkRunning, StaleSweep;
    var d1 := Fail(db, j, w, Some(InfraTransient), Some(delay), false, t);
    var d2 := Heartbeat(d1, w, node, slot, Busy, Some(j), heldW, t);
    RetriedWithPointer(db, j, w, v, node, slot, delay, heldW, cutoff, t);
    var d3 := Assign(d2, j, v, cutoff, t + delay);
    TakenOver(d2, j, w, v, cutoff, t + delay);
    var d5 := Heartbeat(MarkRunning(d3, j, v, t + delay), v, node, slot, Busy, Some(j), heldV, u);
    ClaimedAndBeating(d3, j, w, v, node, slot, heldV, t + delay, u);
    PointedAtIsTaken(d5, j, w, Some(delay), lost, u);
  }

  // ---------------------------------------------------------------- the coarser steps are made of these

  function PhaseOf(p: SystemRuns.Proc): Phase {
    match p
    case Resting => Phase.Resting
    case Executing(j, _) => Phase.Executing(j)
    case Stopped => Phase.Stopped
  }

  /** The same tables, and every process in the same phase. */
  ghost predicate Refines(s: SystemRuns.Sys, f: Sys) {
    && f.db == s.db && f.procs.Keys == s.procs.Keys
    && forall w :: w in s.procs ==> f.procs[w].phase == PhaseOf(s.procs[w])
  }

  ghost predicate Reaches(f: Sys, steps: seq<Step>, g: Sys)
    decreases |steps|
  {
    if steps == [] then f == g
    else Enabled(f, steps[0]) && Reaches(Next(f, steps[0]), steps[1..], g)
  }

  lemma ReachesAtOnce(f: Sys)
    ensures Reaches(f, [], f)
  {
  }

  lemma ReachesInOne(f: Sys, step: Step)
    requires Enabled(f, step)
    ensures Reaches(f, [step], Next(f, step))
  {
    hide Enabled, Next;
    assert [step][1..] == [];
  }

  lemma ReachesInTwo(f: Sys, first: Step, second: Step)
    requires Enabled(f, first) && Enabled(Next(f, first), second)
    ensures Reaches(f, [first, second], Next(Next(f, first), second))
  {
    hide Enabled, Next;
    assert [first, second][1..] == [second];
    ReachesInOne(Next(f, first), second);
  }

  /** Every step of the coarser system is a sequence of the finer ones. */
  lemma CoarseStepIsFineSteps(s: SystemRuns.Sys, step: SystemRuns.Step, f: Sys) returns (steps: seq<Step>, g: Sys)
    requires Refines(s, f) && SystemRuns.Enabled(s, step)
    ensures Reaches(f, steps, g) && Refines(SystemRuns.Next(s, step), g)
  {
    hide Apply, Possible, IsFirstHeld, Reaches, ClassifyFailure, Heartbeat, MarkRunning, Succeed, Fail;
    match step {
      case Outside(call) =>
        steps := [Outside(call)];
        ReachesInOne(f, steps[0]);
        g := Next(f, steps[0]);
      case Start(w, node, slot, held, now) =>
        steps := [Start(w), Write(w, node, slot, held, now)];
        ReachesInTwo(f, steps[0], steps[1]);
        g := Next(Next(f, steps[0]), steps[1]);
      case Beat(w, node, slot, held, now) =>
        steps := [Read(w), Write(w, node, slot, held, now)];
        ReachesInTwo(f, steps[0], steps[1]);
        g := Next(Next(f, steps[0]), steps[1]);
      case Poll(w) =>
        steps, g := [], f;
        ReachesAtOnce(f);
      case Crash(w) =>
        steps := [Crash(w)];
        ReachesInOne(f, steps[0]);
        g := Next(f, steps[0]);
      case _ =>
        steps, g := AttemptStepIsFineSteps(s, step, f);
    }
  }

  lemma AttemptStepIsFineSteps(s: SystemRuns.Sys, step: SystemRuns.Step, f: Sys) returns (steps: seq<Step>, g: Sys)
    requires Refines(s, f) && SystemRuns.Enabled(s, step)
    requires step.Claim? || step.FinishOk? || step.FinishError?
    ensures Reaches(f, steps, g) && Refines(SystemRuns.Next(s, step), g)
  {
    hide Reaches, ClassifyFailure, MarkRunning, Succeed, Fail;
    match step {
      case Claim(w, j, now) => steps := [Fetch(w, j), Claim(w, now)];
      case FinishOk(w, now) => steps := [Complete(w, None, 0, false, now), LetGo(w)];
      case FinishError(w, error, retryDelay, exits, now) =>
        steps := [Complete(w, Some(error), retryDelay, exits, now), LetGo(w)];
    }
    ReachesInTwo(f, steps[0], steps[1]);
    g := Next(Next(f, steps[0]), steps[1]);
  }

  lemma {:induction false} ReachesFurther(f: Sys, first: seq<Step>, g: Sys, second: seq<Step>, h: Sys)
    requires Reaches(f, first, g) && Reaches(g, second, h)
    ensures Reaches(f, first + second, h)
    decreases |first|
  {
    hide Enabled, Next;
    if first == [] {
      assert first + second == second;
    } else {
      ReachesFurther(Next(f, first[0]), first[1..], g, second, h);
      assert (first + second)[1..] == first[1..] + second;
    }
  }

  /** Whatever the coarser system reaches, the finer one reaches too. */
  lemma {:induction false} CoarseRunIsFineRun(ss: seq<SystemRuns.Sys>, steps: seq<SystemRuns.Step>, n: nat)
    returns (fine: seq<Step>, g: Sys)
    requires SystemRuns.IsSystemRun(ss, steps) && n < |ss|
    ensures Reaches(Sys(EMPTY, map[]), fine, g) && Refines(ss[n], g)
  {
    if n == 0 {
      fine, g := [], Sys(EMPTY, map[]);
      ReachesAtOnce(g);
    } else {
      hide Reaches, Refines, SystemRuns.Enabled, SystemRuns.Next;
      var before, mid := CoarseRunIsFineRun(ss, steps, n - 1);
      var more, last := CoarseStepIsFineSteps(ss[n - 1], steps[n - 1], mid);
      ReachesFurther(Sys(EMPTY, map[]), before, mid, more, last);
      fine, g := before + more, last;
    }
  }
}
