/** One round of the scheduler: both sweeps, topping up the queue, one dispatch pass. */
module SchedulerRound {
  import opened Schema
  import opened Transitions
  import opened StoreInvariants
  import opened Agreement
  import opened Sweeps
  import opened Outcomes
  import opened CallOutcomes
  import opened ControlPlane
  import opened DispatchQueue
  import opened Dispatch
  import opened Scheduler

  // ---------------------------------------------------------------- topping up the queue

  /** The jobs that the claim sweep takes back when the stale sweep comes first. */
  ghost predicate TakenBack(db: Db, j: JobId, claimCutoff: Time, offlineCutoff: Time) {
    exists i :: Unclaimed(db, i, claimCutoff) && db.rows[i].jobId == j && !LosesWorker(db, j, offlineCutoff)
  }

  /** `requeued` are the jobs taken back, oldest attempt first, each with its priority. */
  ghost predicate RequeuedAre(before: Db, db: Db, requeued: seq<(JobId, Priority)>, claimCutoff: Time,
                              offlineCutoff: Time) {
    && (forall n :: 0 <= n < |requeued| ==>
          requeued[n].0 in db.jobs && requeued[n].1 == db.jobs[requeued[n].0].priority)
    && (forall j :: j in Ids(requeued) <==> TakenBack(before, j, claimCutoff, offlineCutoff))
    && (forall m, n, i, k ::
          0 <= m < n < |requeued| && Unclaimed(before, i, claimCutoff) && Unclaimed(before, k, claimCutoff) ==>
            before.rows[i].jobId == requeued[m].0 && before.rows[k].jobId == requeued[n].0 ==>
              before.rows[i].assignedAt <= before.rows[k].assignedAt)
  }

  /** `waiting` are all jobs that may start, in dispatch order, each with its priority. */
  ghost predicate WaitingAre(db: Db, waiting: seq<(JobId, Priority)>, now: Time) {
    && (forall n :: 0 <= n < |waiting| ==> waiting[n].0 in db.jobs && waiting[n].1 == db.jobs[waiting[n].0].priority)
    && (forall j :: j in Ids(waiting) <==> MayStart(db, j, now))
    && (forall m, n :: 0 <= m < n < |waiting| ==>
          waiting[m].0 in db.jobs && waiting[n].0 in db.jobs && Precedes(db.jobs[waiting[m].0], db.jobs[waiting[n].0]))
  }

  /** What topping up makes of the queue: the lists grow by `items`, the idle set by the workers handed back. */
  ghost predicate ToppedUp(before: Db, q0: Queue, q: Queue, items: seq<(JobId, Priority)>, claimCutoff: Time,
                           offlineCutoff: Time) {
    && ListGrows(q0.high, q.high, q0.enqueued, items, High)
    && ListGrows(q0.normal, q.normal, q0.enqueued, items, Normal)
    && ListGrows(q0.low, q.low, q0.enqueued, items, Low)
    && (forall j :: j in q.enqueued <==> j in q0.enqueued || exists i :: FirstAt(items, i, j))
    && (forall w :: w in q.idle <==> w in q0.idle || HandedBackAfterStale(before, w, claimCutoff, offlineCutoff))
    && q.pushed == q0.pushed
  }

  /** The ids are the jobs taken back. */
  lemma RequeuedIds(before: Db, mid: Db, order: seq<nat>, requeued: seq<(JobId, Priority)>, cutoff: Time,
                    delay: Option<int>, now: Time, claimCutoff: Time)
    requires StaleSweepOutcome(before, mid, cutoff, delay, now)
    requires forall i: nat :: i in order <==> Unclaimed(mid, i, claimCutoff)
    requires |requeued| == |order|
    requires forall i :: 0 <= i < |order| ==> order[i] < |mid.rows| && requeued[i].0 == mid.rows[order[i]].jobId
    ensures forall j :: j in Ids(requeued) <==> TakenBack(before, j, claimCutoff, cutoff)
  {
    UnclaimedAfterStale(before, mid, cutoff, delay, now, claimCutoff);
    UnclaimedAreRows(before, claimCutoff);
    UnclaimedAreRows(mid, claimCutoff);
    hide StaleSweepOutcome, LosesWorker, Unclaimed;
    forall n | 0 <= n < |requeued| ensures TakenBack(before, Ids(requeued)[n], claimCutoff, cutoff) {
      assert order[n] in order && Unclaimed(mid, order[n], claimCutoff);
      assert Unclaimed(before, order[n], claimCutoff);
    }
    forall j | TakenBack(before, j, claimCutoff, cutoff) ensures j in Ids(requeued) {
      var i :| Unclaimed(before, i, claimCutoff) && before.rows[i].jobId == j && !LosesWorker(before, j, cutoff);
      assert Unclaimed(mid, i, claimCutoff) && i in order;
      var n :| 0 <= n < |order| && order[n] == i;
      assert Ids(requeued)[n] == j;
    }
  }

  /** Two requeued jobs come in the order of their attempts. */
  lemma RequeuedPair(before: Db, mid: Db, order: seq<nat>, requeued: seq<(JobId, Priority)>, cutoff: Time,
                     delay: Option<int>, now: Time, claimCutoff: Time, m: nat, n: nat, i: int, k: int)
    requires StaleSweepOutcome(before, mid, cutoff, delay, now) && StoreInv(mid)
    requires forall i: nat :: i in order <==> Unclaimed(mid, i, claimCutoff)
    requires forall i, k :: 0 <= i < k < |order| && order[i] < |mid.rows| && order[k] < |mid.rows| ==>
               mid.rows[order[i]].assignedAt <= mid.rows[order[k]].assignedAt
    requires |requeued| == |order| && m < n < |order|
    requires forall i :: 0 <= i < |order| ==> order[i] < |mid.rows| && requeued[i].0 == mid.rows[order[i]].jobId
    requires Unclaimed(before, i, claimCutoff) && before.rows[i].jobId == requeued[m].0
    requires Unclaimed(before, k, claimCutoff) && before.rows[k].jobId == requeued[n].0
    ensures before.rows[i].assignedAt <= before.rows[k].assignedAt
  {
    UnclaimedAfterStale(before, mid, cutoff, delay, now, claimCutoff);
    UnclaimedAreRows(before, claimCutoff);
    hide StaleSweepOutcome, StoreInv, LosesWorker, Unclaimed;
    assert order[m] in order && order[n] in order;
    assert Unclaimed(mid, order[m], claimCutoff) && Unclaimed(mid, order[n], claimCutoff);
    assert Unclaimed(mid, i, claimCutoff) && Unclaimed(mid, k, claimCutoff);
    UnclaimedOfJob(mid, i, order[m], claimCutoff);
    UnclaimedOfJob(mid, k, order[n], claimCutoff);
  }

  lemma SweepKeepsPriorities(mid: Db, db: Db, claimCutoff: Time, cutoff: Time, now: Time)
    requires ClaimSweepOutcome(mid, db, claimCutoff, cutoff, now)
    ensures forall j :: j in mid.jobs ==> j in db.jobs && db.jobs[j].priority == mid.jobs[j].priority
  {
    hide JobUnclaimed, WorkerUnclaiming, Unclaimed, BatchesFollow;
  }

  lemma RequeuedMeans(before: Db, mid: Db, db: Db, order: seq<nat>, requeued: seq<(JobId, Priority)>, cutoff: Time,
                      delay: Option<int>, now: Time, claimCutoff: Time)
    requires StaleSweepOutcome(before, mid, cutoff, delay, now) && ClaimSweepOutcome(mid, db, claimCutoff, cutoff, now)
    requires StoreInv(mid)
    requires forall i: nat :: i in order <==> Unclaimed(mid, i, claimCutoff)
    requires forall i :: 0 <= i < |order| ==> order[i] < |mid.rows|
    requires forall i, k :: 0 <= i < k < |order| ==> mid.rows[order[i]].assignedAt <= mid.rows[order[k]].assignedAt
    requires |requeued| == |order|
    requires forall i :: 0 <= i < |order| ==>
               && requeued[i].0 == mid.rows[order[i]].jobId && requeued[i].0 in mid.jobs
               && requeued[i].1 == mid.jobs[requeued[i].0].priority
    ensures RequeuedAre(before, db, requeued, claimCutoff, cutoff)
  {
    SweepKeepsPriorities(mid, db, claimCutoff, cutoff, now);
    UnclaimedAreRows(before, claimCutoff);
    hide StaleSweepOutcome, ClaimSweepOutcome, StoreInv, Unclaimed, TakenBack;
    RequeuedIds(before, mid, order, requeued, cutoff, delay, now, claimCutoff);
    forall m, n, i, k |
      && 0 <= m < n < |requeued| && Unclaimed(before, i, claimCutoff) && Unclaimed(before, k, claimCutoff)
      && before.rows[i].jobId == requeued[m].0 && before.rows[k].jobId == requeued[n].0
      ensures before.rows[i].assignedAt <= before.rows[k].assignedAt
    {
      RequeuedPair(before, mid, order, requeued, cutoff, delay, now, claimCutoff, m, n, i, k);
    }
  }

  lemma UnclaimedOfJob(db: Db, i: int, k: int, cutoff: Time)
    requires StoreInv(db) && Unclaimed(db, i, cutoff) && Unclaimed(db, k, cutoff)
    requires db.rows[i].jobId == db.rows[k].jobId
    ensures i == k
  {
    UnclaimedIsAlone(db, i, cutoff);
  }

  lemma WaitingMeans(db: Db, ids: seq<JobId>, now: Time)
    requires forall j :: j in ids <==> MayStart(db, j, now)
    requires forall i :: 0 <= i < |ids| ==> ids[i] in db.jobs
    requires forall j :: j in ids ==> j in db.jobs
    requires forall i, k :: 0 <= i < k < |ids| ==> Precedes(db.jobs[ids[i]], db.jobs[ids[k]])
    ensures WaitingAre(db, Listed(db.jobs, ids), now)
  {
    ListedIds(db.jobs, ids);
    hide MayStart, Precedes;
  }

  /** Both sweeps, and then the queue is topped up with what they freed and with every job that may start. */
  method SweepAndTopUp(settings: SchedulerSettings, store: ControlPlaneStore, queue: RedisDispatchQueue, now: Time)
    returns (requeued: seq<(JobId, Priority)>, waiting: seq<(JobId, Priority)>)
    requires store.Valid() && QueueInv(queue.State())
    modifies store, queue
    ensures store.Valid() && QueueInv(queue.State())
    ensures store.Tables() == Swept(old(store.Tables()), settings, now)
    ensures BothSweepsOutcome(old(store.Tables()), store.Tables(), now - settings.offlineAfter,
                              now - settings.claimTimeout, Some(settings.infraRetryDelay), now)
    ensures RequeuedAre(old(store.Tables()), store.Tables(), requeued, now - settings.claimTimeout,
                        now - settings.offlineAfter)
    ensures WaitingAre(store.Tables(), waiting, now)
    ensures ToppedUp(old(store.Tables()), old(queue.State()), queue.State(), requeued + waiting,
                     now - settings.claimTimeout, now - settings.offlineAfter)
  {
    hide StoreInv, StaleSweep, ClaimSweep, EnqueueAll, QueueInv, Flat, IsReusable, ExpiredRows, LosesWorker, HandedBack,
      HandedBackAfterStale, Unclaimed, MayStart, StaleSweepOutcome, ClaimSweepOutcome, ListGrows, FirstAt, Precedes,
      RequeuedAre, WaitingAre, FailedJobs, RetriedJobs, ComesBefore, Ready;
    ghost var db0 := store.Tables();
    ghost var offlineCutoff, claimCutoff := now - settings.offlineAfter, now - settings.claimTimeout;
    var delay := Some(settings.infraRetryDelay);
    var failed, retried := store.MarkStaleWorkersOffline(settings.offlineAfter, delay, now);
    ghost var mid := store.Tables();
    var reusable, order;
    requeued, reusable, order := store.RequeueStaleScheduledJobs(settings.claimTimeout, settings.offlineAfter, now);
    RequeuedMeans(db0, mid, store.Tables(), order, requeued, offlineCutoff, delay, now, claimCutoff);
    HandedBackMeans(db0, mid, offlineCutoff, delay, now, claimCutoff);
    ghost var q0 := queue.State();
    queue.EnqueueJobs(requeued);
    EnqueueAllKeepsInv(q0, requeued);
    var queuedJobs := store.ListQueuedJobs(now);
    ghost var q1 := queue.State();
    assert forall j :: j in queuedJobs ==> j in store.jobs;
    waiting := Listed(store.jobs, queuedJobs);
    WaitingMeans(store.Tables(), queuedJobs, now);
    queue.EnqueueJobs(waiting);
    EnqueueAllKeepsInv(q1, waiting);
    EnqueueTwice(q0, requeued, waiting);
    EnqueueAllGrows(q0, requeued + waiting);
    ghost var q2 := queue.State();
    RequeueIdle(queue, reusable);
    SameLanes(q2, queue.State());
  }

  // ---------------------------------------------------------------- the round

  /** The workers that could take a job in this round: listed before or handed back, and eligible after the sweeps. */
  ghost function AbleForRound(before: Db, db: Db, idle: set<WorkerId>, claimCutoff: Time, offlineCutoff: Time):
    set<WorkerId>
  {
    set w | w in db.workers && MayWork(db, w, offlineCutoff)
            && (w in idle || HandedBackAfterStale(before, w, claimCutoff, offlineCutoff))
  }

  ghost function JobsThatMayStart(db: Db, now: Time): set<JobId> {
    set j | j in db.jobs && MayStart(db, j, now)
  }

  /** Every job that may start is in the topped-up queue. */
  lemma EveryReadyJobIsListed(before: Db, db: Db, q0: Queue, q: Queue, requeued: seq<(JobId, Priority)>,
                              waiting: seq<(JobId, Priority)>, claimCutoff: Time, offlineCutoff: Time, now: Time)
    requires QueueInv(q) && ToppedUp(before, q0, q, requeued + waiting, claimCutoff, offlineCutoff)
    requires WaitingAre(db, waiting, now)
    ensures forall j :: MayStart(db, j, now) ==> j in Flat(q)
  {
    hide MayStart, ListGrows, HandedBackAfterStale, Flat, Precedes;
    var items := requeued + waiting;
    forall j | MayStart(db, j, now) ensures j in Flat(q) {
      assert j in Ids(waiting);
      var n :| 0 <= n < |waiting| && Ids(waiting)[n] == j;
      assert Ids(items)[|requeued| + n] == j;
      var i := OccursFirst(items, j);
    }
  }

  lemma CountsOfRound(before: Db, db: Db, q0: Queue, q: Queue, items: seq<(JobId, Priority)>, js: seq<JobId>,
                      claimCutoff: Time, offlineCutoff: Time, now: Time)
    requires QueueInv(q) && ToppedUp(before, q0, q, items, claimCutoff, offlineCutoff)
    requires forall j :: MayStart(db, j, now) ==> j in Flat(q)
    requires TookTheFirst(db, q, js, offlineCutoff, now)
    ensures var ready := |JobsThatMayStart(db, now)|;
            var able := |AbleForRound(before, db, q0.idle, claimCutoff, offlineCutoff)|;
            |js| == if ready <= able then ready else able
  {
    var ready := ReadyOf(db.jobs, Flat(q), now);
    ReadyOfMembers(db.jobs, Flat(q), now);
    forall j ensures j in ready <==> j in JobsThatMayStart(db, now) {
      assert Ready(db.jobs, j, now) <==> MayStart(db, j, now);
    }
    DistinctCard(ready, JobsThatMayStart(db, now));
    forall w ensures Dispatchable(db, w, offlineCutoff) <==> MayWork(db, w, offlineCutoff) {
      HeldJobsAre(db.jobs, w);
    }
    hide Dispatchable, MayWork, HandedBackAfterStale, ListGrows;
    assert AbleWorkers(db, q.idle, offlineCutoff)
        == AbleForRound(before, db, q0.idle, claimCutoff, offlineCutoff) by {
      assert forall w :: MayWork(db, w, offlineCutoff) ==> w in db.workers by { MayWorkIsKnown(db, offlineCutoff); }
    }
  }

  lemma MayWorkIsKnown(db: Db, cutoff: Time)
    ensures forall w :: MayWork(db, w, cutoff) ==> w in db.workers
  {
  }

  /** Every able worker of the round has got a job or is still listed; those that got one were able. */
  lemma WorkersOfRound(before: Db, db: Db, q0: Queue, q: Queue, after: Queue, items: seq<(JobId, Priority)>,
                       js: seq<JobId>, ws: seq<WorkerId>, claimCutoff: Time, offlineCutoff: Time, now: Time)
    requires ToppedUp(before, q0, q, items, claimCutoff, offlineCutoff)
    requires Progress(db, q, after, js, ws, offlineCutoff, now)
    ensures forall w :: w in AbleForRound(before, db, q0.idle, claimCutoff, offlineCutoff) ==>
              w in ws || w in after.idle
    ensures forall w :: w in ws ==> w in AbleForRound(before, db, q0.idle, claimCutoff, offlineCutoff)
    ensures forall w :: w in after.idle ==> w in q0.idle || HandedBackAfterStale(before, w, claimCutoff, offlineCutoff)
  {
    forall w ensures Dispatchable(db, w, offlineCutoff) <==> MayWork(db, w, offlineCutoff) {
      HeldJobsAre(db.jobs, w);
    }
    MayWorkIsKnown(db, offlineCutoff);
    hide Dispatchable, MayWork, HandedBackAfterStale, ListGrows, Delivered, ReadyOf, Flat, Lane, IsSuffix;
  }

  /**
   * Both sweeps, topping up, one pass. Without a failed push, exactly as many jobs are handed out as there are able
   * workers and startable jobs, and the round ends with no listed worker or with no startable job.
   */
  method RunIteration(settings: SchedulerSettings, store: ControlPlaneStore, queue: RedisDispatchQueue, now: Time)
    returns (dispatched: nat, failed: Option<(JobId, WorkerId)>, ghost js: seq<JobId>, ghost ws: seq<WorkerId>,
             ghost db: Db, ghost q: Queue, ghost requeued: seq<(JobId, Priority)>,
             ghost waiting: seq<(JobId, Priority)>)
    requires store.Valid() && QueueInv(queue.State())
    modifies store, queue
    ensures store.Valid() && QueueInv(queue.State())
    ensures db == Swept(old(store.Tables()), settings, now)
    ensures BothSweepsOutcome(old(store.Tables()), db, now - settings.offlineAfter, now - settings.claimTimeout,
                              Some(settings.infraRetryDelay), now)
    ensures RequeuedAre(old(store.Tables()), db, requeued, now - settings.claimTimeout, now - settings.offlineAfter)
    ensures WaitingAre(db, waiting, now)
    ensures ToppedUp(old(store.Tables()), old(queue.State()), q, requeued + waiting, now - settings.claimTimeout,
                     now - settings.offlineAfter)
    ensures dispatched == |js| == |ws|
    ensures Matched(db, js, ws, now - settings.offlineAfter, now)
    ensures Progress(db, q, queue.State(), js, ws, now - settings.offlineAfter, now)
    ensures var able := AbleForRound(old(store.Tables()), db, old(queue.idle), now - settings.claimTimeout,
                                     now - settings.offlineAfter);
            && (forall w :: w in able ==> w in ws || w in queue.idle)
            && (forall w :: w in ws ==> w in able)
            && (failed.None? ==>
                  var ready := |JobsThatMayStart(db, now)|;
                  |js| == if ready <= |able| then ready else |able|)
    ensures failed.None? ==>
              && TookTheFirst(db, q, js, now - settings.offlineAfter, now)
              && store.Tables() == AssignAll(db, js, ws, now - settings.offlineAfter, now)
              && (queue.idle == {} || forall j :: !MayStart(store.Tables(), j, now))
    ensures failed.Some? ==>
              && failed.value.1 in queue.idle
              && UndidPush(AssignAll(db, js, ws, now - settings.offlineAfter, now), store.Tables(), failed.value,
                           now - settings.offlineAfter, now)
    ensures Agree(old(store.Tables())) ==> Agree(store.Tables())
  {
    hide StoreInv, StaleSweep, ClaimSweep, Progress, QueueInv, Flat, Matched, TookTheFirst, AssignAll, Agree, UndidPush,
      RequeuedAre, WaitingAre, ToppedUp, AbleForRound, JobsThatMayStart, BothSweepsOutcome, MayStart;
    ghost var db0, q0 := store.Tables(), queue.State();
    ghost var offlineCutoff, claimCutoff := now - settings.offlineAfter, now - settings.claimTimeout;
    SweptAgrees(db0, settings, now);
    requeued, waiting := SweepAndTopUp(settings, store, queue, now);
    db, q := store.Tables(), queue.State();
    dispatched, failed, js, ws := DispatchAvailableWork(settings, store, queue, now);
    ProgressKeepsQueue(db, q, queue.State(), js, ws, offlineCutoff, now);
    EveryReadyJobIsListed(db0, db, q0, q, requeued, waiting, claimCutoff, offlineCutoff, now);
    WorkersOfRound(db0, db, q0, q, queue.State(), requeued + waiting, js, ws, claimCutoff, offlineCutoff, now);
    if failed.None? {
      CountsOfRound(db0, db, q0, q, requeued + waiting, js, claimCutoff, offlineCutoff, now);
      if queue.idle != {} {
        NoneLeft(db, q, queue.State(), js, ws, offlineCutoff, now);
      }
    }
  }

  lemma NoneLeft(db: Db, q: Queue, after: Queue, js: seq<JobId>, ws: seq<WorkerId>, cutoff: Time, now: Time)
    requires Progress(db, q, after, js, ws, cutoff, now) && Flat(after) == []
    requires forall j :: MayStart(db, j, now) ==> j in Flat(q)
    ensures |js| == |ws| && forall j :: !MayStart(AssignAll(db, js, ws, cutoff, now), j, now)
  {
    assert forall j :: Ready(db.jobs, j, now) <==> MayStart(db, j, now);
    DrainedMeansNoneReady(db, q, after, js, ws, cutoff, now);
    hide Progress;
    var end := AssignAll(db, js, ws, cutoff, now);
    assert forall j :: Ready(end.jobs, j, now) <==> MayStart(end, j, now);
  }
}
