/** What the retry columns of a waiting job say about its last failure. */
module RetryMarks {
  import opened Schema
  import opened BatchStatusView
  import opened Transitions
  import opened StoreInvariants
  import opened StoreRuns
  import opened SystemRuns
  import opened WorkerFailures

  /** A queued job waits for a retry time exactly after a transient failure; a scheduled job carries no mark. */
  ghost predicate MarkOk(job: Job) {
    && (job.status.Queued? ==>
          && (job.nextRetryAt.Some? <==> job.failure == Some(InfraTransient))
          && (job.nextRetryAt.None? ==> job.failure.None?))
    && (job.status.Scheduled? ==> job.nextRetryAt.None? && job.failure.None?)
  }

  ghost predicate MarksOk(db: Db) {
    forall j :: j in db.jobs ==> MarkOk(db.jobs[j])
  }

  /** A failure report grants a delay to transient failures only. */
  predicate WellMarked(call: Call) {
    call.DoFail? && call.delay.Some? ==> call.category == Some(InfraTransient)
  }

  lemma SweepsKeepMarks(db: Db, call: Call)
    requires MarksOk(db) && (call.DoMarkStale? || call.DoRequeueStale?)
    ensures MarksOk(Apply(db, call))
  {
    hide Refresh, BatchesOf, CloseRows, TakeOffline, UnclaimedWorkers;
    match call {
      case DoMarkStale(cutoff, delay, now) =>
        hide Orphans;
      case DoRequeueStale(claimCutoff, offlineCutoff, now) =>
        ExpiredAreScheduled(db, ExpiredRows(db, claimCutoff), claimCutoff);
        hide ExpiredRows, JobsOfRows;
    }
  }

  lemma CallKeepsMarks(db: Db, call: Call)
    requires MarksOk(db) && Possible(db, call) && WellMarked(call)
    ensures MarksOk(Apply(db, call))
  {
    if call.DoMarkStale? || call.DoRequeueStale? {
      hide MarksOk, Apply;
      SweepsKeepMarks(db, call);
    } else if call.DoCreateBatch? {
      hide Refresh, BatchesOf, StaleSweep, ClaimSweep;
    } else {
      hide CreateBatch, NewBatchJobs;
      hide Refresh, BatchesOf, CloseRows, ClaimRows, Dispatchable, Ready, IsFirstHeld, ReleaseWorker, StaleSweep,
        ClaimSweep;
    }
  }

  /** Exactly the calls above keep the marks: a delay with another category leaves a mark that lies. */
  lemma FailKeepsMarkExactly(job: Job, category: Option<FailureCategory>, delay: Option<int>, canceled: bool, now: Time)
    ensures MarkOk(AfterFailure(job, category, delay, canceled, now)) <==>
              (WillRetry(job, delay, canceled) ==> category == Some(InfraTransient))
  {
  }

  lemma StepKeepsMarks(s: Sys, step: Step)
    requires MarksOk(s.db) && Enabled(s, step)
    ensures MarksOk(Next(s, step).db)
  {
    hide MarksOk, Possible, ClassifyFailure, Apply;
    match step {
      case Outside(call) => CallKeepsMarks(s.db, call);
      case Start(w, node, slot, held, now) => JobsDecideMarks(s.db, Next(s, step).db);
      case Beat(w, node, slot, held, now) => JobsDecideMarks(s.db, Next(s, step).db);
      case Claim(w, j, now) => RunningKeepsMarks(s.db, j, w, now);
      case Poll(w) =>
      case FinishOk(w, now) => SucceedKeepsMarks(s.db, s.procs[w].job, w, now);
      case FinishError(w, error, retryDelay, exits, now) =>
        DelayMeansTransient(error, retryDelay);
        var (category, delay) := ClassifyFailure(error, retryDelay);
        FailKeepsMarks(s.db, s.procs[w].job, w, category, delay, error.RunnerCancelled?, now);
      case Crash(w) =>
    }
  }

  lemma JobsDecideMarks(before: Db, after: Db)
    requires MarksOk(before) && after.jobs == before.jobs
    ensures MarksOk(after)
  {
  }

  lemma RunningKeepsMarks(db: Db, j: JobId, w: WorkerId, now: Time)
    requires MarksOk(db)
    ensures MarksOk(MarkRunning(db, j, w, now))
  {
    CallKeepsMarks(db, DoMarkRunning(j, w, now));
  }

  lemma SucceedKeepsMarks(db: Db, j: JobId, w: WorkerId, now: Time)
    requires MarksOk(db)
    ensures MarksOk(Succeed(db, j, w, now))
  {
    CallKeepsMarks(db, DoSucceed(j, w, now));
  }

  lemma FailKeepsMarks(db: Db, j: JobId, w: WorkerId, category: FailureCategory, delay: Option<int>, canceled: bool,
                       now: Time)
    requires MarksOk(db) && (delay.Some? ==> category == InfraTransient)
    ensures MarksOk(Fail(db, j, w, Some(category), delay, canceled, now))
  {
    CallKeepsMarks(db, DoFail(j, w, Some(category), delay, canceled, now));
  }

  /** In every reachable state of the system, a queued job has a retry time exactly if it failed transiently. */
  lemma {:induction false} RunKeepsMarks(ss: seq<Sys>, steps: seq<Step>, n: nat)
    requires IsSystemRun(ss, steps) && n < |ss|
    ensures MarksOk(ss[n].db)
  {
    if n > 0 {
      hide MarksOk, Enabled, Next;
      RunKeepsMarks(ss, steps, n - 1);
      StepKeepsMarks(ss[n - 1], steps[n - 1]);
    }
  }
}
