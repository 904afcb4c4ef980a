/** The four tables of the control plane as values, and the vocabulary they share. */
module Schema {
  datatype Option<+T> = None | Some(value: T)

  datatype Result<+T, +E> = Ok(value: T) | Err(error: E)

  /** Seconds on the one clock that every process reads. */
  type Time = int

  newtype JobId = n: int | 0 <= n
  newtype WorkerId = n: int | 0 <= n
  newtype BatchId = n: int | 0 <= n

  datatype JobStatus = Queued | Scheduled | Running | Succeeded | Failed | Canceled

  datatype BatchStatus =
    | BatchDraft | BatchQueued | BatchRunning | BatchPartialFailed
    | BatchSucceeded | BatchFailed | BatchCanceled

  datatype WorkerStatus = Idle | Busy | Offline

  datatype Priority = Low | Normal | High

  datatype FailureCategory =
    | InfraTransient | InfraPermanent | AlgorithmFailure | InputInvalid | TimedOut | CanceledByUser

  datatype Job = Job(
    batchId: Option<BatchId>,
    status: JobStatus,
    priority: Priority,
    assignee: Option<WorkerId>,
    gpuSlot: Option<int>,
    retryCount: nat,
    maxRetries: nat,
    failure: Option<FailureCategory>,
    nextRetryAt: Option<Time>,
    cancelRequestedAt: Option<Time>,
    startedAt: Option<Time>,
    finishedAt: Option<Time>,
    createdAt: Time,
    updatedAt: Time)

  datatype Worker = Worker(
    nodeName: string,
    gpuSlot: int,
    status: WorkerStatus,
    lastHeartbeatAt: Time,
    runningJobId: Option<JobId>)

  /** What a client asks for; of the upload only whether it exists. */
  datatype JobRequest = JobRequest(priority: Priority, uploadExists: bool)

  datatype Verdict = WorkerMissing | WorkerNotDispatchable | JobMissing | JobNotQueued | JobNotReady | Accepted

  datatype DispatchDecision = DispatchDecision(scheduled: bool, requeueJob: bool, requeueWorker: bool, reason: Verdict)

  /** One attempt. The row is open until `completedAt` is set. */
  datatype Assignment = Assignment(
    jobId: JobId,
    workerId: WorkerId,
    assignedAt: Time,
    claimedAt: Option<Time>,
    completedAt: Option<Time>)

  datatype Batch = Batch(name: string, status: BatchStatus, createdAt: Time, updatedAt: Time)

  /** `rows` is the assignment table in order of insertion. */
  datatype Db = Db(
    jobs: map<JobId, Job>,
    workers: map<WorkerId, Worker>,
    rows: seq<Assignment>,
    batches: map<BatchId, Batch>)

  const EMPTY: Db := Db(map[], map[], [], map[])

  predicate Active(s: JobStatus) {
    s.Scheduled? || s.Running?
  }

  predicate Terminal(s: JobStatus) {
    s.Succeeded? || s.Failed? || s.Canceled?
  }

  function Rank(p: Priority): nat {
    match p
    case High => 3
    case Normal => 2
    case Low => 1
  }

  predicate IsOpen(row: Assignment) {
    row.completedAt.None?
  }

  /** Queued and not waiting for a later retry time. */
  predicate Ready(jobs: map<JobId, Job>, j: JobId, now: Time) {
    && j in jobs
    && jobs[j].status.Queued?
    && (jobs[j].nextRetryAt.Some? ==> jobs[j].nextRetryAt.value <= now)
  }
}
