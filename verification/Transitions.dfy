/** What each committed store call does to the four tables, as a function of the tables before it. */
module Transitions {
  import opened Schema
  import opened BatchStatusView

  // ---------------------------------------------------------------- rows

  predicate OpenAt(rows: seq<Assignment>, i: int, j: JobId) {
    0 <= i < |rows| && IsOpen(rows[i]) && rows[i].jobId == j
  }

  /** The jobs that some open row names. */
  function OpenJobs(rows: seq<Assignment>): set<JobId> {
    set i | 0 <= i < |rows| && IsOpen(rows[i]) :: rows[i].jobId
  }

  function CloseRow(row: Assignment, closing: set<JobId>, now: Time): Assignment {
    if IsOpen(row) && row.jobId in closing then row.(completedAt := Some(now)) else row
  }

  function CloseRows(rows: seq<Assignment>, closing: set<JobId>, now: Time): seq<Assignment> {
    seq(|rows|, i requires 0 <= i < |rows| => CloseRow(rows[i], closing, now))
  }

  function CloseRowsOfWorker(rows: seq<Assignment>, w: WorkerId, now: Time): seq<Assignment> {
    seq(|rows|, i requires 0 <= i < |rows| =>
      if IsOpen(rows[i]) && rows[i].workerId == w then rows[i].(completedAt := Some(now)) else rows[i])
  }

  function ClaimRow(row: Assignment, j: JobId, now: Time): Assignment {
    if IsOpen(row) && row.jobId == j then row.(claimedAt := Some(now)) else row
  }

  function ClaimRows(rows: seq<Assignment>, j: JobId, now: Time): seq<Assignment> {
    seq(|rows|, i requires 0 <= i < |rows| => ClaimRow(rows[i], j, now))
  }

  // ---------------------------------------------------------------- jobs and batches

  /** Writes job rows and refreshes the batches they belong to. */
  function PutJobs(db: Db, js: map<JobId, Job>, now: Time): Db {
    var jobs := db.jobs + js;
    db.(jobs := jobs, batches := Refresh(db.batches, jobs, BatchesOf(js), now))
  }

  /** The active jobs that name `w` as their assignee. */
  function HeldJobs(jobs: map<JobId, Job>, w: WorkerId): set<JobId> {
    set j | j in jobs && Active(jobs[j].status) && jobs[j].assignee == Some(w)
  }

  predicate WillRetry(job: Job, delay: Option<int>, canceled: bool) {
    !canceled && delay.Some? && job.retryCount < job.maxRetries
  }

  function AfterFailure(job: Job, category: Option<FailureCategory>, delay: Option<int>, canceled: bool, now: Time):
    Job
  {
    if WillRetry(job, delay, canceled) then
      job.(status := Queued, assignee := None, gpuSlot := None, retryCount := job.retryCount + 1,
           failure := category, nextRetryAt := Some(now + if delay.value < 0 then 0 else delay.value),
           finishedAt := None, updatedAt := now, cancelRequestedAt := None)
    else
      job.(status := if canceled then Canceled else Failed, failure := category, nextRetryAt := None,
           finishedAt := Some(now), updatedAt := now)
  }

  function SucceededJob(job: Job, now: Time): Job {
    job.(status := Succeeded, failure := None, nextRetryAt := None, finishedAt := Some(now), updatedAt := now)
  }

  function CanceledJob(job: Job, now: Time): Job {
    job.(status := Canceled, finishedAt := Some(now), updatedAt := now)
  }

  function RunningJob(job: Job, now: Time): Job {
    job.(status := Running, startedAt := if job.startedAt.Some? then job.startedAt else Some(now),
         failure := None, nextRetryAt := None, updatedAt := now)
  }

  function BackToQueue(job: Job, now: Time): Job {
    job.(status := Queued, assignee := None, gpuSlot := None, updatedAt := now)
  }

  // ---------------------------------------------------------------- workers

  function ReleasedWorker(worker: Worker, j: JobId): Worker {
    worker.(status := if worker.status.Offline? then Offline else Idle,
            runningJobId := if worker.runningJobId == Some(j) then None else worker.runningJobId)
  }

  function ReleaseWorker(workers: map<WorkerId, Worker>, j: JobId, w: Option<WorkerId>): map<WorkerId, Worker> {
    if w.Some? && w.value in workers then workers[w.value := ReleasedWorker(workers[w.value], j)] else workers
  }

  /** Frees worker `w` from job `j` and closes the attempt of `j`. */
  function Release(db: Db, j: JobId, w: Option<WorkerId>, now: Time): Db {
    db.(workers := ReleaseWorker(db.workers, j, w), rows := CloseRows(db.rows, {j}, now))
  }

  // ---------------------------------------------------------------- store calls

  function NewJob(request: JobRequest, batch: Option<BatchId>, now: Time): Job {
    Job(batch, Queued, request.priority, None, None, 0, 1, None, None, None, None, None, now, now)
  }

  /** The upload exists, and the batch to join too, as the foreign keys demand. */
  predicate MayCreate(db: Db, request: JobRequest, into: Option<BatchId>) {
    request.uploadExists && (into.Some? ==> into.value in db.batches)
  }

  /** A single job, which may join an existing batch. */
  function CreateJob(db: Db, id: JobId, request: JobRequest, into: Option<BatchId>, now: Time): Db {
    if MayCreate(db, request, into) then PutJobs(db, map[id := NewJob(request, into, now)], now) else db
  }

  predicate Distinct<T(==)>(s: seq<T>) {
    forall i, k :: 0 <= i < k < |s| ==> s[i] != s[k]
  }

  function NewBatchJobs(b: BatchId, ids: seq<JobId>, items: seq<JobRequest>, now: Time): map<JobId, Job>
    requires |ids| == |items| && Distinct(ids)
  {
    map i | 0 <= i < |ids| :: ids[i] := NewJob(items[i], Some(b), now)
  }

  function CreateBatch(db: Db, b: BatchId, name: string, ids: seq<JobId>, items: seq<JobRequest>, now: Time): Db
    requires |ids| == |items| && Distinct(ids)
  {
    if forall i :: 0 <= i < |items| ==> items[i].uploadExists then
      var started := db.(batches := db.batches[b := Batch(name, BatchQueued, now, now)]);
      var jobs := db.jobs + NewBatchJobs(b, ids, items, now);
      started.(jobs := jobs, batches := Refresh(started.batches, jobs, {b}, now))
    else db
  }

  function CancelJob(db: Db, j: JobId, now: Time): Db {
    if j !in db.jobs then db
    else
      var job := db.jobs[j];
      match job.status
      case Running => PutJobs(db, map[j := job.(cancelRequestedAt := Some(now), updatedAt := now)], now)
      case Scheduled => Release(PutJobs(db, map[j := CanceledJob(job, now)], now), j, job.assignee, now)
      case Queued => PutJobs(db, map[j := CanceledJob(job, now)], now)
      case _ => db
  }

  function GetBatch(db: Db, b: BatchId, now: Time): Db {
    db.(batches := Refresh(db.batches, db.jobs, {b}, now))
  }

  /** `held` answers the query "first active job of this worker, oldest update first". */
  ghost predicate IsFirstHeld(jobs: map<JobId, Job>, w: WorkerId, held: Option<JobId>) {
    match held
    case None => HeldJobs(jobs, w) == {}
    case Some(j) =>
      j in HeldJobs(jobs, w) && forall k :: k in HeldJobs(jobs, w) ==> jobs[j].updatedAt <= jobs[k].updatedAt
  }

  function Heartbeat(db: Db, w: WorkerId, node: string, slot: int, status: WorkerStatus,
                     running: Option<JobId>, held: Option<JobId>, now: Time): Db {
    var preserved := w in db.workers && running.None? && held.Some?;
    db.(workers := db.workers[w := Worker(
      node, slot,
      if preserved then Busy else status,
      now,
      if preserved then held else running)])
  }

  predicate Dispatchable(db: Db, w: WorkerId, cutoff: Time) {
    && w in db.workers
    && db.workers[w].status.Idle?
    && cutoff <= db.workers[w].lastHeartbeatAt
    && HeldJobs(db.jobs, w) == {}
  }

  /** Dispatch order: higher priority first, then older first. */
  predicate ComesBefore(jobs: map<JobId, Job>, j: JobId, k: JobId) {
    && j in jobs && k in jobs
    && (Rank(jobs[k].priority) < Rank(jobs[j].priority)
        || (jobs[j].priority == jobs[k].priority && jobs[j].createdAt <= jobs[k].createdAt))
  }

  function Ids(items: seq<(JobId, Priority)>): seq<JobId> {
    seq(|items|, i requires 0 <= i < |items| => items[i].0)
  }

  function Decide(db: Db, j: JobId, w: WorkerId, cutoff: Time, now: Time): DispatchDecision {
    if w !in db.workers then DispatchDecision(false, true, false, WorkerMissing)
    else if !Dispatchable(db, w, cutoff) then DispatchDecision(false, true, false, WorkerNotDispatchable)
    else if j !in db.jobs then DispatchDecision(false, false, true, JobMissing)
    else if !db.jobs[j].status.Queued? then DispatchDecision(false, false, true, JobNotQueued)
    else if !Ready(db.jobs, j, now) then DispatchDecision(false, false, true, JobNotReady)
    else DispatchDecision(true, false, false, Accepted)
  }

  function ScheduledJob(job: Job, w: WorkerId, slot: int, now: Time): Job {
    job.(status := Scheduled, assignee := Some(w), gpuSlot := Some(slot), failure := None, nextRetryAt := None,
         updatedAt := now)
  }

  function Assign(db: Db, j: JobId, w: WorkerId, cutoff: Time, now: Time): Db {
    if Dispatchable(db, w, cutoff) && Ready(db.jobs, j, now) then
      PutJobs(db, map[j := ScheduledJob(db.jobs[j], w, db.workers[w].gpuSlot, now)], now).(
        workers := db.workers[w := db.workers[w].(status := Busy, runningJobId := Some(j))],
        rows := db.rows + [Assignment(j, w, now, None, None)])
    else db
  }

  function Revert(db: Db, j: JobId, w: WorkerId, now: Time): Db {
    if j !in db.jobs || db.jobs[j].assignee != Some(w) || !db.jobs[j].status.Scheduled? then db
    else
      var keep := w !in db.workers || db.workers[w].status.Offline?;
      PutJobs(db, map[j := BackToQueue(db.jobs[j], now)], now).(
        workers := if keep then db.workers else db.workers[w := ReleasedWorker(db.workers[w], j)],
        rows := CloseRows(db.rows, {j}, now))
  }

  datatype StoreError = UnknownJob | UnknownUpload | UnknownBatch | NotAssignedToWorker

  function MarkRunning(db: Db, j: JobId, w: WorkerId, now: Time): Db {
    if j !in db.jobs || db.jobs[j].assignee != Some(w) then db
    else
      PutJobs(db, map[j := RunningJob(db.jobs[j], now)], now).(
        rows := ClaimRows(db.rows, j, now))
  }

  function Succeed(db: Db, j: JobId, w: WorkerId, now: Time): Db {
    if j !in db.jobs then db
    else
      Release(PutJobs(db, map[j := SucceededJob(db.jobs[j], now)], now), j, Some(w), now)
  }

  function Fail(db: Db, j: JobId, w: WorkerId, category: Option<FailureCategory>, delay: Option<int>,
                canceled: bool, now: Time): Db {
    if j !in db.jobs then db
    else
      Release(PutJobs(db, map[j := AfterFailure(db.jobs[j], category, delay, canceled, now)], now), j, Some(w), now)
  }

  // ---------------------------------------------------------------- the two sweeps, in closed form

  predicate Stale(db: Db, w: WorkerId, cutoff: Time) {
    w in db.workers && db.workers[w].lastHeartbeatAt < cutoff && !db.workers[w].status.Offline?
  }

  function StaleWorkers(db: Db, cutoff: Time): set<WorkerId> {
    set w | w in db.workers && Stale(db, w, cutoff)
  }

  /** The active jobs that the heartbeat rows of `ws` point at. */
  function Orphans(db: Db, ws: set<WorkerId>): set<JobId> {
    set w | w in ws && w in db.workers && db.workers[w].runningJobId.Some?
            && db.workers[w].runningJobId.value in db.jobs
            && Active(db.jobs[db.workers[w].runningJobId.value].status)
      :: db.workers[w].runningJobId.value
  }

  function TimedOutJobs(db: Db, ws: set<WorkerId>, delay: Option<int>, now: Time): map<JobId, Job> {
    map j | j in Orphans(db, ws) && j in db.jobs :: AfterFailure(db.jobs[j], Some(InfraTransient), delay, false, now)
  }

  function TakeOffline(workers: map<WorkerId, Worker>, ws: set<WorkerId>): map<WorkerId, Worker> {
    map w | w in workers ::
      if w in ws then workers[w].(status := Offline, runningJobId := None) else workers[w]
  }

  /** The workers of `ws` are declared lost, all at once. */
  function LoseWorkers(db: Db, ws: set<WorkerId>, delay: Option<int>, now: Time): Db {
    var js := TimedOutJobs(db, ws, delay, now);
    PutJobs(db, js, now).(workers := TakeOffline(db.workers, ws), rows := CloseRows(db.rows, js.Keys, now))
  }

  function StaleSweep(db: Db, cutoff: Time, delay: Option<int>, now: Time): Db {
    LoseWorkers(db, StaleWorkers(db, cutoff), delay, now)
  }

  /** Row `i` is the unclaimed attempt of a scheduled job, older than `cutoff`. */
  predicate Expired(db: Db, i: nat, cutoff: Time) {
    && i < |db.rows|
    && IsOpen(db.rows[i])
    && db.rows[i].claimedAt.None?
    && db.rows[i].assignedAt < cutoff
    && db.rows[i].jobId in db.jobs
    && db.jobs[db.rows[i].jobId].status.Scheduled?
  }

  function ExpiredRows(db: Db, cutoff: Time): set<nat> {
    set i: nat | i < |db.rows| && Expired(db, i, cutoff)
  }

  function JobsOfRows(rows: seq<Assignment>, taken: set<nat>): set<JobId> {
    set i | i in taken && i < |rows| :: rows[i].jobId
  }

  function WorkersOfRows(rows: seq<Assignment>, taken: set<nat>): set<WorkerId> {
    set i | i in taken && i < |rows| :: rows[i].workerId
  }

  /** The jobs that the rows in `taken` gave to `w`. */
  function FreedFor(rows: seq<Assignment>, taken: set<nat>, w: WorkerId): set<JobId> {
    set i | i in taken && i < |rows| && rows[i].workerId == w :: rows[i].jobId
  }

  function UnclaimedJob(job: Job, now: Time): Job {
    BackToQueue(job, now).(nextRetryAt := None)
  }

  function UnclaimedJobs(db: Db, taken: set<nat>, now: Time): map<JobId, Job> {
    map j | j in JobsOfRows(db.rows, taken) && j in db.jobs :: UnclaimedJob(db.jobs[j], now)
  }

  function UnclaimedWorker(worker: Worker, freed: set<JobId>, offlineCutoff: Time): Worker {
    worker.(status := if worker.lastHeartbeatAt < offlineCutoff then Offline else Idle,
            runningJobId := if worker.runningJobId.Some? && worker.runningJobId.value in freed then None
                            else worker.runningJobId)
  }

  function UnclaimedWorkers(db: Db, taken: set<nat>, offlineCutoff: Time): map<WorkerId, Worker> {
    map w | w in db.workers ::
      if w in WorkersOfRows(db.rows, taken)
      then UnclaimedWorker(db.workers[w], FreedFor(db.rows, taken, w), offlineCutoff)
      else db.workers[w]
  }

  /** The attempts in `taken` are taken back, all at once. */
  function TakeBack(db: Db, taken: set<nat>, offlineCutoff: Time, now: Time): Db {
    var js := UnclaimedJobs(db, taken, now);
    PutJobs(db, js, now).(workers := UnclaimedWorkers(db, taken, offlineCutoff),
                          rows := CloseRows(db.rows, js.Keys, now))
  }

  function ClaimSweep(db: Db, claimCutoff: Time, offlineCutoff: Time, now: Time): Db {
    TakeBack(db, ExpiredRows(db, claimCutoff), offlineCutoff, now)
  }
}
