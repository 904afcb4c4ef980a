/** The whole system as a state machine: API calls, scheduler calls and worker processes, interleaved at will. */
module SystemRuns {
  import opened Schema
  import opened BatchStatusView
  import opened Transitions
  import opened StoreInvariants
  import opened Agreement
  import opened Sweeps
  import opened StoreRuns
  import opened OutsideCalls
  import opened WorkerFailures

  /** A worker process. `sawCancel` records whether a poll during this attempt found a cancel request. */
  datatype Proc = Resting | Executing(job: JobId, sawCancel: bool) | Stopped

  datatype Sys = Sys(db: Db, procs: map<WorkerId, Proc>)

  datatype Step =
    | Outside(call: Call)
    | Start(worker: WorkerId, node: string, slot: int, held: Option<JobId>, now: Time)
    | Beat(worker: WorkerId, node: string, slot: int, held: Option<JobId>, now: Time)
    | Claim(worker: WorkerId, job: JobId, now: Time)
    | Poll(worker: WorkerId)
    | FinishOk(worker: WorkerId, now: Time)
    | FinishError(worker: WorkerId, error: AttemptError, retryDelay: int, exits: bool, now: Time)
    | Crash(worker: WorkerId)

  predicate Runs(s: Sys, w: WorkerId, j: JobId) {
    w in s.procs && s.procs[w].Executing? && s.procs[w].job == j
  }

  predicate Live(s: Sys, w: WorkerId) {
    w in s.procs && !s.procs[w].Stopped?
  }

  /** A worker that is declared lost is not executing anything. */
  ghost predicate Accurate(s: Sys, cutoff: Time) {
    forall w :: Stale(s.db, w, cutoff) && w in s.procs ==> !s.procs[w].Executing?
  }

  function ReportedJob(p: Proc): Option<JobId> {
    if p.Executing? then Some(p.job) else None
  }

  function ReportedStatus(p: Proc): WorkerStatus {
    if p.Executing? then Busy else Idle
  }

  ghost predicate Enabled(s: Sys, step: Step) {
    match step
    case Outside(call) =>
      FromOutside(call) && Possible(s.db, call) && (call.DoMarkStale? ==> Accurate(s, call.cutoff))
    case Start(w, _, _, held, _) => !Live(s, w) && IsFirstHeld(s.db.jobs, w, held)
    case Beat(w, _, _, held, _) => Live(s, w) && IsFirstHeld(s.db.jobs, w, held)
    case Claim(w, j, _) =>
      && w in s.procs && s.procs[w].Resting?
      && j in s.db.jobs && s.db.jobs[j].status.Scheduled? && s.db.jobs[j].assignee == Some(w)
    case Poll(w) => w in s.procs && s.procs[w].Executing? && s.procs[w].job in s.db.jobs
    case FinishOk(w, _) => w in s.procs && s.procs[w].Executing?
    case FinishError(w, error, _, _, _) =>
      w in s.procs && s.procs[w].Executing? && (error.RunnerCancelled? ==> s.procs[w].sawCancel)
    case Crash(w) => w in s.procs
  }

  ghost function Next(s: Sys, step: Step): Sys
    requires Enabled(s, step)
  {
    match step
    case Outside(call) => s.(db := Apply(s.db, call))
    case Start(w, node, slot, held, now) =>
      Sys(Heartbeat(s.db, w, node, slot, Idle, None, held, now), s.procs[w := Resting])
    case Beat(w, node, slot, held, now) =>
      var p := s.procs[w];
      s.(db := Heartbeat(s.db, w, node, slot, ReportedStatus(p), ReportedJob(p), held, now))
    case Claim(w, j, now) => Sys(MarkRunning(s.db, j, w, now), s.procs[w := Executing(j, false)])
    case Poll(w) =>
      var p := s.procs[w];
      s.(procs := s.procs[w := p.(sawCancel := p.sawCancel || s.db.jobs[p.job].cancelRequestedAt.Some?)])
    case FinishOk(w, now) => Sys(Succeed(s.db, s.procs[w].job, w, now), s.procs[w := Resting])
    case FinishError(w, error, retryDelay, exits, now) =>
      var (category, delay) := ClassifyFailure(error, retryDelay);
      Sys(Fail(s.db, s.procs[w].job, w, Some(category), delay, error.RunnerCancelled?, now),
          s.procs[w := if exits then Stopped else Resting])
    case Crash(w) => s.(procs := s.procs[w := Stopped])
  }

  /** A job that is being executed is running and assigned to its executor. */
  ghost predicate ProcOk(db: Db, w: WorkerId, p: Proc) {
    p.Executing? ==>
      && p.job in db.jobs && db.jobs[p.job].status.Running? && db.jobs[p.job].assignee == Some(w)
      && (p.sawCancel ==> db.jobs[p.job].cancelRequestedAt.Some?)
  }

  ghost predicate ProcsOk(s: Sys) {
    forall w :: w in s.procs ==> ProcOk(s.db, w, s.procs[w])
  }

  ghost predicate SysInv(s: Sys) {
    StoreInv(s.db) && Agree(s.db) && ProcsOk(s)
  }

  // ---------------------------------------------------------------- one step

  /** What every step leaves alone: jobs that some other process executes. */
  ghost predicate SparesRunning(before: Db, after: Db, j: JobId) {
    j in before.jobs && before.jobs[j].status.Running? ==>
      && j in after.jobs && after.jobs[j].status.Running? && after.jobs[j].assignee == before.jobs[j].assignee
      && (before.jobs[j].cancelRequestedAt.Some? ==> after.jobs[j].cancelRequestedAt.Some?)
  }

  lemma OrphansBelongToTheirWorkers(db: Db, ws: set<WorkerId>)
    requires Agree(db)
    ensures forall j :: j in Orphans(db, ws) ==>
              j in db.jobs && db.jobs[j].assignee.Some? && db.jobs[j].assignee.value in ws
  {
    forall j | j in Orphans(db, ws)
      ensures j in db.jobs && db.jobs[j].assignee.Some? && db.jobs[j].assignee.value in ws
    {
      var w :| w in ws && w in db.workers && db.workers[w].runningJobId == Some(j);
      assert WorkerAgrees(db, w);
    }
  }

  /** Outside calls leave a running job running, except for a stale sweep that loses its worker. */
  lemma OutsideSparesRunning(db: Db, call: Call, j: JobId)
    requires Agree(db) && FromOutside(call) && Possible(db, call)
    requires call.DoMarkStale? ==>
               !(j in db.jobs && db.jobs[j].assignee.Some? && Stale(db, db.jobs[j].assignee.value, call.cutoff))
    ensures SparesRunning(db, Apply(db, call), j)
  {
    hide Agree, Apply, Possible;
    if j in db.jobs && db.jobs[j].status.Running? {
      OutsideMoves(db, call, j);
      RunningUnderOutside(db, call, j);
      if call.DoMarkStale? {
        OrphansBelongToTheirWorkers(db, StaleWorkers(db, call.cutoff));
      }
    }
  }

  lemma OutsideAgrees(db: Db, call: Call)
    requires StoreInv(db) && Agree(db) && FromOutside(call) && Possible(db, call)
    ensures Agree(Apply(db, call))
  {
    hide StoreInv, Agree, CreateJob, CreateBatch, CancelJob, GetBatch, StaleSweep, Assign, ClaimSweep, Revert;
    match call {
      case DoCreateJob(id, request, into, now) => CreateJobAgrees(db, id, request, into, now);
      case DoCreateBatch(b, name, ids, items, now) => CreateBatchAgrees(db, b, name, ids, items, now);
      case DoCancel(id, now) => CancelAgrees(db, id, now);
      case DoGetBatch(b, now) => GetBatchAgrees(db, b, now);
      case DoMarkStale(cutoff, delay, now) => StaleSweepAgrees(db, cutoff, delay, now);
      case DoAssign(id, w, cutoff, now) => AssignAgrees(db, id, w, cutoff, now);
      case DoRequeueStale(claimCutoff, offlineCutoff, now) => ClaimSweepAgrees(db, claimCutoff, offlineCutoff, now);
      case DoRevert(id, w, now) => RevertAgrees(db, id, w, now);
    }
  }

  lemma OutsideKeepsProcs(s: Sys, call: Call)
    requires Agree(s.db) && ProcsOk(s) && Enabled(s, Outside(call))
    ensures ProcsOk(Next(s, Outside(call)))
  {
    hide Agree, Apply, Possible, StaleSweep;
    forall w | w in s.procs ensures ProcOk(Apply(s.db, call), w, s.procs[w]) {
      assert ProcOk(s.db, w, s.procs[w]);
      if s.procs[w].Executing? {
        OutsideSparesRunning(s.db, call, s.procs[w].job);
      }
    }
  }

  /** A process is not disturbed by what happens to other jobs. */
  lemma OtherProcsOk(s: Sys, after: Db, w: WorkerId, p: Proc, j: JobId)
    requires ProcsOk(s) && ProcOk(after, w, p)
    requires forall k :: k in s.db.jobs && k != j ==> k in after.jobs && after.jobs[k] == s.db.jobs[k]
    requires forall v :: v in s.procs && v != w ==> !Runs(s, v, j)
    ensures ProcsOk(Sys(after, s.procs[w := p]))
  {
    forall v | v in s.procs && v != w ensures ProcOk(after, v, s.procs[v]) {
      assert ProcOk(s.db, v, s.procs[v]) && !Runs(s, v, j);
    }
  }

  lemma BeatKeepsInv(s: Sys, w: WorkerId, node: string, slot: int, held: Option<JobId>, now: Time)
    requires SysInv(s) && Enabled(s, Beat(w, node, slot, held, now))
    ensures SysInv(Next(s, Beat(w, node, slot, held, now)))
  {
    hide StoreInv, Agree, IsFirstHeld;
    var p := s.procs[w];
    assert ProcOk(s.db, w, p);
    HeartbeatKeepsInv(s.db, w, node, slot, ReportedStatus(p), ReportedJob(p), held, now);
    HarmlessBeatAgrees(s.db, w, node, slot, ReportedStatus(p), ReportedJob(p), held, now);
  }

  lemma StartKeepsInv(s: Sys, w: WorkerId, node: string, slot: int, held: Option<JobId>, now: Time)
    requires SysInv(s) && Enabled(s, Start(w, node, slot, held, now))
    ensures SysInv(Next(s, Start(w, node, slot, held, now)))
  {
    hide StoreInv, Agree, IsFirstHeld;
    HeartbeatKeepsInv(s.db, w, node, slot, Idle, None, held, now);
    HarmlessBeatAgrees(s.db, w, node, slot, Idle, None, held, now);
  }

  lemma ClaimKeepsInv(s: Sys, w: WorkerId, j: JobId, now: Time)
    requires SysInv(s) && Enabled(s, Claim(w, j, now))
    ensures SysInv(Next(s, Claim(w, j, now)))
  {
    hide StoreInv, Agree, Refresh, ClaimRows;
    MarkRunningKeepsInv(s.db, j, w, now);
    MarkRunningAgrees(s.db, j, w, now);
    assert forall v :: v in s.procs ==> ProcOk(s.db, v, s.procs[v]);
    OtherProcsOk(s, MarkRunning(s.db, j, w, now), w, Executing(j, false), j);
  }

  lemma FinishOkKeepsInv(s: Sys, w: WorkerId, now: Time)
    requires SysInv(s) && Enabled(s, FinishOk(w, now))
    ensures SysInv(Next(s, FinishOk(w, now)))
  {
    hide StoreInv, Agree, Refresh, CloseRows;
    var j := s.procs[w].job;
    assert ProcOk(s.db, w, s.procs[w]);
    SucceedKeepsInv(s.db, j, w, now);
    SucceedAgrees(s.db, j, w, now);
    assert forall v :: v in s.procs ==> ProcOk(s.db, v, s.procs[v]);
    OtherProcsOk(s, Succeed(s.db, j, w, now), w, Resting, j);
  }

  lemma FinishErrorKeepsInv(s: Sys, w: WorkerId, error: AttemptError, retryDelay: int, exits: bool, now: Time)
    requires SysInv(s) && Enabled(s, FinishError(w, error, retryDelay, exits, now))
    ensures SysInv(Next(s, FinishError(w, error, retryDelay, exits, now)))
  {
    hide StoreInv, Agree, Refresh, CloseRows, ClassifyFailure, AfterFailure;
    var j := s.procs[w].job;
    var (category, delay) := ClassifyFailure(error, retryDelay);
    assert ProcOk(s.db, w, s.procs[w]);
    FailKeepsInv(s.db, j, w, Some(category), delay, error.RunnerCancelled?, now);
    FailAgrees(s.db, j, w, Some(category), delay, error.RunnerCancelled?, now);
    assert forall v :: v in s.procs ==> ProcOk(s.db, v, s.procs[v]);
    OtherProcsOk(s, Fail(s.db, j, w, Some(category), delay, error.RunnerCancelled?, now), w,
                 if exits then Stopped else Resting, j);
  }

  lemma StepKeepsInv(s: Sys, step: Step)
    requires SysInv(s) && Enabled(s, step)
    ensures SysInv(Next(s, step))
  {
    match step {
      case Outside(call) =>
        hide StoreInv, Agree, ProcsOk, Apply;
        CallKeepsInv(s.db, call);
        OutsideAgrees(s.db, call);
        OutsideKeepsProcs(s, call);
      case Start(w, node, slot, held, now) => StartKeepsInv(s, w, node, slot, held, now);
      case Beat(w, node, slot, held, now) => BeatKeepsInv(s, w, node, slot, held, now);
      case Claim(w, j, now) => ClaimKeepsInv(s, w, j, now);
      case Poll(w) =>
        hide StoreInv, Agree;
        assert ProcOk(s.db, w, s.procs[w]);
      case FinishOk(w, now) => FinishOkKeepsInv(s, w, now);
      case FinishError(w, error, retryDelay, exits, now) => FinishErrorKeepsInv(s, w, error, retryDelay, exits, now);
      case Crash(w) =>
        hide StoreInv, Agree;
    }
  }

  // ---------------------------------------------------------------- whole runs

  /** `ss[n]` is the system before step number `n`. */
  ghost predicate IsSystemRun(ss: seq<Sys>, steps: seq<Step>) {
    && |ss| == |steps| + 1
    && ss[0] == Sys(EMPTY, map[])
    && forall n :: 0 <= n < |steps| ==> Enabled(ss[n], steps[n]) && ss[n + 1] == Next(ss[n], steps[n])
  }

  lemma StepOfRun(ss: seq<Sys>, steps: seq<Step>, n: nat)
    requires IsSystemRun(ss, steps) && n < |steps|
    ensures n + 1 < |ss| && Enabled(ss[n], steps[n]) && ss[n + 1] == Next(ss[n], steps[n])
  {
  }

  lemma {:induction false} RunIsSafe(ss: seq<Sys>, steps: seq<Step>, n: nat)
    requires IsSystemRun(ss, steps) && n < |ss|
    ensures SysInv(ss[n])
  {
    if n == 0 {
      EmptyIsOk();
    } else {
      hide SysInv, Enabled, Next;
      RunIsSafe(ss, steps, n - 1);
      StepKeepsInv(ss[n - 1], steps[n - 1]);
    }
  }

  /** In every reachable state an executed job is running and assigned to its executor, and no job has two. */
  lemma MutualExclusion(ss: seq<Sys>, steps: seq<Step>, n: nat, w: WorkerId, v: WorkerId, j: JobId)
    requires IsSystemRun(ss, steps) && n < |ss| && Runs(ss[n], w, j)
    ensures j in ss[n].db.jobs && ss[n].db.jobs[j].status.Running? && ss[n].db.jobs[j].assignee == Some(w)
    ensures ByWorker(ss[n].db, j, w) && ByRow(ss[n].db, j, w)
    ensures Runs(ss[n], v, j) ==> v == w
  {
    RunIsSafe(ss, steps, n);
    assert ProcOk(ss[n].db, w, ss[n].procs[w]);
    assert v in ss[n].procs ==> ProcOk(ss[n].db, v, ss[n].procs[v]);
    hide StoreInv, Agree, ByRow;
    ThreeTablesSayTheSame(ss[n].db, j, w);
  }

  // ---------------------------------------------------------------- terminal jobs

  lemma OutsideFreezesTerminal(db: Db, call: Call, j: JobId)
    requires FromOutside(call) && Possible(db, call) && j in db.jobs && Terminal(db.jobs[j].status)
    ensures j in Apply(db, call).jobs && Apply(db, call).jobs[j] == db.jobs[j]
  {
    hide Apply, Possible;
    OutsideMoves(db, call, j);
  }

  lemma StepFreezesTerminal(s: Sys, step: Step, j: JobId)
    requires ProcsOk(s) && Enabled(s, step) && j in s.db.jobs && Terminal(s.db.jobs[j].status)
    ensures j in Next(s, step).db.jobs && Next(s, step).db.jobs[j] == s.db.jobs[j]
  {
    hide Refresh, BatchesOf, CloseRows, ClaimRows, Apply, Possible, IsFirstHeld, ClassifyFailure, AfterFailure;
    match step {
      case Outside(call) => OutsideFreezesTerminal(s.db, call, j);
      case FinishOk(w, now) => assert ProcOk(s.db, w, s.procs[w]);
      case FinishError(w, error, retryDelay, exits, now) => assert ProcOk(s.db, w, s.procs[w]);
      case _ =>
    }
  }

  lemma SafeProcs(s: Sys)
    requires SysInv(s)
    ensures ProcsOk(s)
  {
  }

  lemma RunLength(ss: seq<Sys>, steps: seq<Step>)
    requires IsSystemRun(ss, steps)
    ensures |ss| == |steps| + 1
  {
  }

  lemma RunFreezesTerminal(ss: seq<Sys>, steps: seq<Step>, n: nat, j: JobId)
    requires IsSystemRun(ss, steps) && n < |steps| && j in ss[n].db.jobs && Terminal(ss[n].db.jobs[j].status)
    ensures j in ss[n + 1].db.jobs && ss[n + 1].db.jobs[j] == ss[n].db.jobs[j]
  {
    RunIsSafe(ss, steps, n);
    StepOfRun(ss, steps, n);
    hide ProcsOk, Enabled, Next, IsSystemRun;
    SafeProcs(ss[n]);
    hide SysInv;
    StepFreezesTerminal(ss[n], steps[n], j);
  }

  /** A job that has succeeded, failed or been canceled keeps its row for the rest of the run. */
  lemma {:induction false} TerminalForever(ss: seq<Sys>, steps: seq<Step>, m: nat, n: nat, j: JobId)
    requires IsSystemRun(ss, steps) && m <= n < |ss| && j in ss[m].db.jobs && Terminal(ss[m].db.jobs[j].status)
    ensures j in ss[n].db.jobs && ss[n].db.jobs[j] == ss[m].db.jobs[j]
    decreases n - m
  {
    hide *;
    if m < n {
      RunLength(ss, steps);
      TerminalForever(ss, steps, m, n - 1, j);
      RunFreezesTerminal(ss, steps, n - 1, j);
    }
  }

  /** The guard under which a bare store call changes the status of a finished job. */
  predicate Resurrects(job: Job, call: Call, j: JobId) {
    match call
    case DoMarkRunning(id, w, _) => id == j && job.assignee == Some(w)
    case DoSucceed(id, _, _) => id == j && !job.status.Succeeded?
    case DoFail(id, _, _, delay, canceled, _) =>
      id == j && (WillRetry(job, delay, canceled) || job.status != if canceled then Canceled else Failed)
    case _ => false
  }

  /** Without holder discipline, finished jobs change status exactly under that guard. */
  lemma TerminalLeftExactly(db: Db, call: Call, j: JobId)
    requires Possible(db, call) && j in db.jobs && Terminal(db.jobs[j].status)
    ensures j in Apply(db, call).jobs
    ensures Apply(db, call).jobs[j].status != db.jobs[j].status <==> Resurrects(db.jobs[j], call, j)
  {
    hide Refresh, BatchesOf, CloseRows, ClaimRows, IsFirstHeld;
    if FromOutside(call) {
      hide Apply, Possible;
      OutsideFreezesTerminal(db, call, j);
    }
  }

  // ---------------------------------------------------------------- where cancellations come from

  ghost predicate RunningFor(db: Db, j: JobId, w: WorkerId) {
    j in db.jobs && db.jobs[j].status.Running? && db.jobs[j].assignee == Some(w)
  }

  ghost predicate Requested(db: Db, j: JobId) {
    j in db.jobs && db.jobs[j].cancelRequestedAt.Some?
  }

  predicate IsCancelOf(step: Step, j: JobId) {
    step.Outside? && IsCancel(step.call, j)
  }

  lemma OutsideRequestOrigin(db: Db, call: Call, j: JobId, w: WorkerId)
    requires FromOutside(call) && Possible(db, call)
    requires RunningFor(Apply(db, call), j, w) && Requested(Apply(db, call), j)
    ensures RunningFor(db, j, w) && (Requested(db, j) || IsCancel(call, j))
  {
    hide Apply, Possible;
    if j in db.jobs {
      OutsideMoves(db, call, j);
    } else {
      OutsideAdds(db, call, j);
    }
  }

  /** A running job with a cancel request was running before, with a request, unless this step is the request. */
  lemma RequestOrigin(s: Sys, step: Step, j: JobId, w: WorkerId)
    requires SysInv(s) && Enabled(s, step)
    requires RunningFor(Next(s, step).db, j, w) && Requested(Next(s, step).db, j)
    ensures RunningFor(s.db, j, w) && (Requested(s.db, j) || IsCancelOf(step, j))
  {
    hide Agree, RowsOk, AttemptsOk, OpenUnique, Refresh, BatchesOf, CloseRows, ClaimRows, Apply, Possible, IsFirstHeld,
      ClassifyFailure;
    match step {
      case Outside(call) =>
        hide StoreInv;
        OutsideRequestOrigin(s.db, call, j, w);
      case Claim(v, k, now) => assert JobOk(s.db.jobs[k]);
      case _ =>
    }
  }

  /** A pending request on a running job was made during this very attempt. */
  lemma {:induction false} RequestMadeDuringAttempt(ss: seq<Sys>, steps: seq<Step>, n: nat, j: JobId, w: WorkerId)
    returns (m: nat)
    requires IsSystemRun(ss, steps) && n < |ss| && RunningFor(ss[n].db, j, w) && Requested(ss[n].db, j)
    ensures m < n && IsCancelOf(steps[m], j)
    ensures forall k :: m <= k <= n ==> RunningFor(ss[k].db, j, w)
  {
    hide SysInv, Enabled, Next;
    m := n;
    if n == 0 {
      assert false;
    } else {
      RunIsSafe(ss, steps, n - 1);
      RequestOrigin(ss[n - 1], steps[n - 1], j, w);
      if Requested(ss[n - 1].db, j) {
        m := RequestMadeDuringAttempt(ss, steps, n - 1, j, w);
      } else {
        m := n - 1;
      }
    }
  }

  /** A claimed attempt ends canceled only if `cancel` was called while that same attempt was running. */
  lemma CanceledOnlyOnRequest(ss: seq<Sys>, steps: seq<Step>, n: nat, j: JobId, w: WorkerId) returns (m: nat)
    requires IsSystemRun(ss, steps) && n < |steps| && RunningFor(ss[n].db, j, w)
    requires j in ss[n + 1].db.jobs && ss[n + 1].db.jobs[j].status.Canceled?
    ensures m < n && IsCancelOf(steps[m], j)
    ensures forall k :: m <= k <= n ==> RunningFor(ss[k].db, j, w)
  {
    RunIsSafe(ss, steps, n);
    CancelEndsSeenRequest(ss[n], steps[n], j, w);
    m := RequestMadeDuringAttempt(ss, steps, n, j, w);
  }

  lemma CancelEndsSeenRequest(s: Sys, step: Step, j: JobId, w: WorkerId)
    requires SysInv(s) && Enabled(s, step) && RunningFor(s.db, j, w)
    requires j in Next(s, step).db.jobs && Next(s, step).db.jobs[j].status.Canceled?
    ensures Requested(s.db, j)
  {
    hide StoreInv, Agree, Refresh, BatchesOf, CloseRows, ClaimRows, Apply, Possible, IsFirstHeld, ClassifyFailure;
    match step {
      case Outside(call) => OutsideNeverCancelsRunning(s.db, call, j);
      case FinishError(v, error, retryDelay, exits, now) => assert ProcOk(s.db, v, s.procs[v]);
      case _ =>
    }
  }

  lemma OutsideNeverCancelsRunning(db: Db, call: Call, j: JobId)
    requires FromOutside(call) && Possible(db, call) && j in db.jobs && db.jobs[j].status.Running?
    ensures j in Apply(db, call).jobs && !Apply(db, call).jobs[j].status.Canceled?
  {
    hide Apply, Possible;
    OutsideMoves(db, call, j);
  }
}
