/** What the calls of the API and the scheduler can do to the jobs that workers hold. */
module OutsideCalls {
  import opened Schema
  import opened BatchStatusView
  import opened Transitions
  import opened StoreInvariants
  import opened Sweeps
  import opened StoreRuns

  /** The calls that the API and the scheduler make. */
  predicate FromOutside(call: Call) {
    call.DoCreateJob? || call.DoCreateBatch? || call.DoCancel? || call.DoGetBatch? || call.DoMarkStale?
    || call.DoAssign? || call.DoRequeueStale? || call.DoRevert?
  }

  predicate IsCancel(call: Call, j: JobId) {
    call.DoCancel? && call.id == j
  }

  /** How an outside call may rewrite a job; `canceling` tells whether it asks to cancel this very job. */
  ghost predicate Moves(before: Job, after: Job, canceling: bool) {
    && after.maxRetries == before.maxRetries && before.retryCount <= after.retryCount
    && match before.status
       case Queued => after.status.Queued? || after.status.Canceled? || after.status.Scheduled?
       case Scheduled =>
         after.status.Queued? ||
         (after.assignee == before.assignee
          && (after.status.Scheduled? || after.status.Canceled? || after.status.Failed?))
       case Running =>
         || (after.status.Queued? && before.retryCount < before.maxRetries && after.retryCount == before.retryCount + 1)
         || (after.assignee == before.assignee && after.status.Running?
             && (after.cancelRequestedAt == before.cancelRequestedAt ||
                 (canceling && after.cancelRequestedAt.Some?)))
         || (after.assignee == before.assignee && after.status.Failed?)
       case _ => after == before
  }

  lemma AddingMoves(db: Db, call: Call, j: JobId)
    requires Possible(db, call) && (call.DoCreateJob? || call.DoCreateBatch?) && j in db.jobs
    ensures j in Apply(db, call).jobs && Apply(db, call).jobs[j] == db.jobs[j]
  {
    hide Refresh, BatchesOf;
  }

  lemma SweepMoves(db: Db, call: Call, j: JobId)
    requires (call.DoMarkStale? || call.DoRequeueStale?) && j in db.jobs
    ensures j in Apply(db, call).jobs && Moves(db.jobs[j], Apply(db, call).jobs[j], IsCancel(call, j))
  {
    hide Refresh, BatchesOf, CloseRows, TakeOffline, UnclaimedWorkers;
    match call {
      case DoMarkStale(cutoff, delay, now) =>
        hide StaleWorkers;
      case DoRequeueStale(claimCutoff, offlineCutoff, now) =>
        ExpiredAreScheduled(db, ExpiredRows(db, claimCutoff), claimCutoff);
        hide ExpiredRows, JobsOfRows;
    }
  }

  lemma OutsideMoves(db: Db, call: Call, j: JobId)
    requires FromOutside(call) && Possible(db, call) && j in db.jobs
    ensures j in Apply(db, call).jobs && Moves(db.jobs[j], Apply(db, call).jobs[j], IsCancel(call, j))
  {
    if call.DoCreateJob? || call.DoCreateBatch? {
      hide Apply, Possible;
      AddingMoves(db, call, j);
    } else if call.DoMarkStale? || call.DoRequeueStale? {
      hide Apply, Possible;
      SweepMoves(db, call, j);
    } else if call.DoCancel? {
      hide Refresh, BatchesOf, CloseRows, ReleaseWorker, StaleSweep, ClaimSweep, CreateBatch, Assign, Revert;
    } else {
      hide Refresh, BatchesOf, CloseRows, Dispatchable, StaleSweep, ClaimSweep, CreateBatch, CancelJob;
    }
  }

  lemma OutsideAdds(db: Db, call: Call, j: JobId)
    requires FromOutside(call) && Possible(db, call) && j !in db.jobs && j in Apply(db, call).jobs
    ensures Apply(db, call).jobs[j].status.Queued? && Apply(db, call).jobs[j].maxRetries == 1
  {
    hide Refresh, BatchesOf, CloseRows, Dispatchable, ReleaseWorker;
  }

  lemma RunningUnderOutside(db: Db, call: Call, j: JobId)
    requires FromOutside(call) && Possible(db, call) && j in db.jobs && db.jobs[j].status.Running?
    ensures j in Apply(db, call).jobs
    ensures Apply(db, call).jobs[j].status.Running? <==>
              !(call.DoMarkStale? && j in Orphans(db, StaleWorkers(db, call.cutoff)))
  {
    if call.DoCreateJob? || call.DoCreateBatch? {
      hide Apply, Possible;
      AddingMoves(db, call, j);
    } else if call.DoMarkStale? {
      hide Refresh, BatchesOf, CloseRows, TakeOffline, Orphans, StaleWorkers;
    } else if call.DoRequeueStale? {
      hide Refresh, BatchesOf, CloseRows, UnclaimedWorkers;
      ExpiredAreScheduled(db, ExpiredRows(db, call.claimCutoff), call.claimCutoff);
    } else {
      hide Refresh, BatchesOf, CloseRows, ReleaseWorker, Dispatchable, StaleSweep, ClaimSweep, CreateBatch;
    }
  }
}
