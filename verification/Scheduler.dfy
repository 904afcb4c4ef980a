/** The scheduler process: the dispatch loop and the startup rebuild of the queue. */
module Scheduler {
  import opened Schema
  import opened Transitions
  import opened StoreInvariants
  import opened Agreement
  import opened Sweeps
  import opened ControlPlane
  import opened DispatchQueue
  import opened Dispatch
  import opened Outcomes
  import opened CallOutcomes

  datatype SchedulerSettings = SchedulerSettings(offlineAfter: int, claimTimeout: int, infraRetryDelay: int)

  /**
   * The push of `failed` raised in a pass that had brought the tables to `mid`: it was an acceptable pair, and
   * `after` is `mid` with its assignment undone.
   */
  ghost predicate UndidPush(mid: Db, after: Db, failed: (JobId, WorkerId), cutoff: Time, now: Time) {
    && Dispatchable(mid, failed.1, cutoff) && Ready(mid.jobs, failed.0, now)
    && after == RolledBack(mid, failed.0, failed.1, now)
  }

  /** `js` are the first min(able workers, ready jobs) ready jobs of the queue. */
  ghost predicate TookTheFirst(db: Db, q: Queue, js: seq<JobId>, cutoff: Time, now: Time) {
    var ready := ReadyOf(db.jobs, Flat(q), now);
    var able := |AbleWorkers(db, q.idle, cutoff)|;
    js == ready[..if |ready| <= able then |ready| else able]
  }

  /**
   * Hands ready jobs to idle workers until one of them runs out, or a push raises.
   * `js` and `ws` are the pairs that were handed out.
   */
  method DispatchAvailableWork(settings: SchedulerSettings, store: ControlPlaneStore, queue: RedisDispatchQueue,
                               now: Time)
    returns (dispatched: nat, failed: Option<(JobId, WorkerId)>, ghost js: seq<JobId>, ghost ws: seq<WorkerId>)
    requires store.Valid() && QueueInv(queue.State())
    modifies store, queue
    ensures store.Valid()
    ensures dispatched == |js| == |ws|
    ensures Progress(old(store.Tables()), old(queue.State()), queue.State(), js, ws, now - settings.offlineAfter, now)
    ensures failed.None? ==>
              && (queue.idle == {} || Flat(queue.State()) == [])
              && TookTheFirst(old(store.Tables()), old(queue.State()), js, now - settings.offlineAfter, now)
              && store.Tables() == AssignAll(old(store.Tables()), js, ws, now - settings.offlineAfter, now)
    ensures failed.Some? ==>
              && Flat(queue.State()) != [] && failed.value.0 == Flat(queue.State())[0] && failed.value.1 in queue.idle
              && UndidPush(AssignAll(old(store.Tables()), js, ws, now - settings.offlineAfter, now), store.Tables(),
                           failed.value, now - settings.offlineAfter, now)
    ensures Agree(old(store.Tables())) ==> Agree(store.Tables())
  {
    hide StoreInv, Progress, TookTheFirst, Assign, AssignAll, PopNext, RequeueFront, QueueInv, Flat, Dispatchable,
      Ready, WithLane, Lane, Decide, HeldJobs, IsFirstHeld, WorkerQueue, Revert, Agree, UndidPush, MayWork, MayStart,
      AssignOutcome, RevertOutcome, DecisionOutcome, Popped, PushedInFront;
    ghost var db0, q0 := store.Tables(), queue.State();
    ghost var cutoff := now - settings.offlineAfter;
    dispatched, failed, js, ws := 0, None, [], [];
    ProgressStart(db0, q0, cutoff, now);
    StartOfPass(db0, cutoff, now);
    while true
      invariant store.Valid()
      invariant Progress(db0, q0, queue.State(), js, ws, cutoff, now)
      invariant dispatched == |js| == |ws|
      invariant store.Tables() == AssignAll(db0, js, ws, cutoff, now)
      invariant Agree(db0) ==> Agree(store.Tables())
      decreases |queue.idle| + |Flat(queue.State())|
    {
      ghost var q := queue.State();
      var worker := queue.PopIdleWorker();
      if worker.None? {
        PassTookTheFirst(db0, q0, queue.State(), js, ws, cutoff, now);
        return;
      }
      var w := worker.value;
      var next := queue.PopNextJob();
      assert q.idle - {w} + {w} == q.idle;
      ProgressKeepsQueue(db0, q0, q, js, ws, cutoff, now);
      RoundOnQueue(q, w);
      if next.None? {
        queue.RequeueIdleWorker(w);
        assert queue.State() == q;
        PassTookTheFirst(db0, q0, q, js, ws, cutoff, now);
        return;
      }
      PassStep(db0, q0, q, js, ws, w, cutoff, now);
      var (j, priority) := next.value;
      DecisionMeaning(store.Tables(), j, w, cutoff, now);
      ghost var mid := store.Tables();
      var decision := store.AssignJobToWorker(j, w, settings.offlineAfter, now);
      if decision.scheduled {
        PairAgrees(mid, j, w, cutoff, now);
        var pushFails := *;
        var raised := queue.PushWorkerJob(w, j, pushFails);
        if raised {
          UndoPush(store, queue, j, priority, w, now);
          PushUndone(mid, j, w, cutoff, now);
          assert queue.State() == q;
          failed := Some((j, w));
          return;
        }
        dispatched := dispatched + 1;
        js, ws := js + [j], ws + [w];
        continue;
      }
      if decision.requeueJob {
        queue.RequeueJobFront(j, priority);
      }
      if decision.requeueWorker {
        queue.RequeueIdleWorker(w);
      }
    }
  }

  /** What the handler of a raised push does before it raises again. */
  method UndoPush(store: ControlPlaneStore, queue: RedisDispatchQueue, j: JobId, priority: Priority, w: WorkerId,
                  now: Time)
    requires store.Valid()
    modifies store, queue
    ensures store.Valid() && store.Tables() == Revert(old(store.Tables()), j, w, now)
    ensures queue.State() == RequeueFront(old(queue.State()), j, priority).(idle := old(queue.idle) + {w})
  {
    hide StoreInv, RevertOutcome, PushedInFront, Revert;
    store.RevertScheduledJob(j, w, now);
    queue.RequeueJobFront(j, priority);
    queue.RequeueIdleWorker(w);
  }

  lemma PushUndone(db: Db, j: JobId, w: WorkerId, cutoff: Time, now: Time)
    requires StoreInv(db) && Dispatchable(db, w, cutoff) && Ready(db.jobs, j, now)
    ensures UndidPush(db, Revert(Assign(db, j, w, cutoff, now), j, w, now), (j, w), cutoff, now)
  {
    hide StoreInv, Assign, Revert, RolledBack, Dispatchable;
    FailedPushRollsBack(db, j, w, cutoff, now);
  }

  /** Handing out a pair keeps agreement, and so does undoing it. */
  lemma PairAgrees(db: Db, j: JobId, w: WorkerId, cutoff: Time, now: Time)
    requires StoreInv(db)
    ensures Agree(db) ==>
              Agree(Assign(db, j, w, cutoff, now)) && Agree(Revert(Assign(db, j, w, cutoff, now), j, w, now))
  {
    hide StoreInv, Agree, Assign, Revert;
    if Agree(db) {
      AssignKeepsInv(db, j, w, cutoff, now);
      AssignAgrees(db, j, w, cutoff, now);
      RevertAgrees(Assign(db, j, w, cutoff, now), j, w, now);
    }
  }

  /** The pass spec: what was handed out is independent of the order in which workers came out of the idle set. */
  lemma PassTookTheFirst(db0: Db, q0: Queue, q: Queue, js: seq<JobId>, ws: seq<WorkerId>, cutoff: Time, now: Time)
    requires Progress(db0, q0, q, js, ws, cutoff, now)
    requires q.idle == {} || Flat(q) == []
    ensures TookTheFirst(db0, q0, js, cutoff, now)
  {
    PassIsComplete(db0, q0, q, js, ws, cutoff, now);
  }

  /** Exactly one of: the worker is dropped, the job is dropped, the pair is scheduled. */
  lemma DecisionMeaning(db: Db, j: JobId, w: WorkerId, cutoff: Time, now: Time)
    ensures var decision := Decide(db, j, w, cutoff, now);
            && (decision.requeueJob <==> !Dispatchable(db, w, cutoff))
            && (decision.requeueWorker <==> Dispatchable(db, w, cutoff) && !Ready(db.jobs, j, now))
            && (decision.scheduled <==> Dispatchable(db, w, cutoff) && Ready(db.jobs, j, now))
  {
  }

  lemma ProgressKeepsQueue(db0: Db, q0: Queue, q: Queue, js: seq<JobId>, ws: seq<WorkerId>, cutoff: Time, now: Time)
    requires Progress(db0, q0, q, js, ws, cutoff, now)
    ensures QueueInv(q) && Matched(db0, js, ws, cutoff, now)
  {
  }

  lemma StartOfPass(db: Db, cutoff: Time, now: Time)
    ensures AssignAll(db, [], [], cutoff, now) == db
  {
  }

  /** The queue side of one round. */
  lemma RoundOnQueue(q: Queue, w: WorkerId)
    requires QueueInv(q) && w in q.idle
    ensures var q1 := q.(idle := q.idle - {w});
            var (popped, next) := PopNext(q1);
            && Flat(q1) == Flat(q)
            && (next.None? <==> Flat(q) == []) && (next.None? ==> popped == q1)
            && (next.Some? ==>
                  && next.value.0 == Flat(q)[0]
                  && popped.(idle := q.idle) == PopNext(q).0
                  && |Flat(popped)| == |Flat(q)| - 1
                  && Flat(popped.(idle := q.idle)) == Flat(popped)
                  && Flat(Pushed(popped, w, next.value.0)) == Flat(popped)
                  && RequeueFront(popped, next.value.0, next.value.1) == q1)
  {
    var q1 := q.(idle := q.idle - {w});
    SameLanes(q, q1);
    PopServesHead(q1);
    if Flat(q) != [] {
      PopThenRequeue(q1);
      PopIgnoresWorkers(q, q.idle - {w});
    }
  }

  /** Everything one round of the loop relies on. */
  lemma PassStep(db0: Db, q0: Queue, q: Queue, js: seq<JobId>, ws: seq<WorkerId>, w: WorkerId, cutoff: Time, now: Time)
    requires QueueInv(q0) && Progress(db0, q0, q, js, ws, cutoff, now) && w in q.idle && Flat(q) != []
    ensures |js| == |ws|
    ensures var db := AssignAll(db0, js, ws, cutoff, now);
            var j := Flat(q)[0];
            if !Dispatchable(db, w, cutoff) then Progress(db0, q0, q.(idle := q.idle - {w}), js, ws, cutoff, now)
            else if !Ready(db.jobs, j, now) then Progress(db0, q0, PopNext(q).0, js, ws, cutoff, now)
            else
              && Progress(db0, q0, Pushed(PopNext(q.(idle := q.idle - {w})).0, w, j), js + [j], ws + [w], cutoff, now)
              && AssignAll(db0, js + [j], ws + [w], cutoff, now) == Assign(db, j, w, cutoff, now)
  {
    hide Dispatchable, Ready, AssignAll, Assign, QueueInv, Drained, Covered, Delivered, ReadyOf, PopNext, Flat;
    NextPair(db0, q0, q, js, ws, w, cutoff, now);
    var db := AssignAll(db0, js, ws, cutoff, now);
    if !Dispatchable(db, w, cutoff) {
      DropWorker(db0, q0, q, js, ws, w, cutoff, now);
    } else if !Ready(db.jobs, Flat(q)[0], now) {
      DropJob(db0, q0, q, js, ws, cutoff, now);
    } else {
      Hand(db0, q0, q, js, ws, w, cutoff, now);
    }
  }

  // ---------------------------------------------------------------- startup

  function Listed(jobs: map<JobId, Job>, ids: seq<JobId>): seq<(JobId, Priority)>
    requires forall j :: j in ids ==> j in jobs
  {
    seq(|ids|, i requires 0 <= i < |ids| => (ids[i], jobs[ids[i]].priority))
  }

  /** The jobs of a list that are assigned to `w`, in order. */
  function JobsFor(jobs: map<JobId, Job>, ids: seq<JobId>, w: WorkerId): seq<JobId> {
    if ids == [] then []
    else
      var last := ids[|ids| - 1];
      JobsFor(jobs, ids[..|ids| - 1], w) + if last in jobs && jobs[last].assignee == Some(w) then [last] else []
  }

  lemma {:induction false} JobsForMembers(jobs: map<JobId, Job>, ids: seq<JobId>, w: WorkerId)
    ensures forall j :: j in JobsFor(jobs, ids, w) <==> j in ids && j in jobs && jobs[j].assignee == Some(w)
    ensures Distinct(ids) ==> Distinct(JobsFor(jobs, ids, w))
  {
    if ids != [] {
      var init, last := ids[..|ids| - 1], ids[|ids| - 1];
      JobsForMembers(jobs, init, w);
      assert ids == init + [last];
      DistinctParts(init, [last]);
      DistinctParts(JobsFor(jobs, init, w), [last]);
    }
  }

  ghost predicate ScheduledTo(jobs: map<JobId, Job>, j: JobId, w: WorkerId) {
    j in jobs && jobs[j].status.Scheduled? && jobs[j].assignee == Some(w)
  }

  /** Each worker queue holds exactly the job that is scheduled to its worker, if there is one. */
  ghost predicate QueuesMatch(db: Db, q: Queue) {
    forall w :: |WorkerQueue(q, w)| <= 1 && forall j :: j in WorkerQueue(q, w) <==> ScheduledTo(db.jobs, j, w)
  }

  lemma ScheduledListGivesQueues(db: Db, q: Queue, ids: seq<JobId>)
    requires StoreInv(db) && Distinct(ids)
    requires forall j :: j in ids <==> j in db.jobs && db.jobs[j].status.Scheduled?
    requires forall w :: WorkerQueue(q, w) == JobsFor(db.jobs, ids, w)
    ensures QueuesMatch(db, q)
  {
    forall w ensures |WorkerQueue(q, w)| <= 1 && forall j :: j in WorkerQueue(q, w) <==> ScheduledTo(db.jobs, j, w) {
      JobsForMembers(db.jobs, ids, w);
      var mine := WorkerQueue(q, w);
      if |mine| > 1 {
        assert mine[0] in mine && mine[1] in mine;
        OneScheduledJobPerWorker(db, mine[0], mine[1]);
      }
    }
  }

  /** The lists hold exactly the ready jobs, once each, by priority and then by age. */
  ghost predicate ListsMatch(db: Db, q: Queue, now: Time) {
    && QueueInv(q)
    && (forall j :: j in Flat(q) <==> Ready(db.jobs, j, now))
    && (forall i, k :: 0 <= i < k < |Flat(q)| ==> ComesBefore(db.jobs, Flat(q)[i], Flat(q)[k]))
  }

  lemma QueuedListGivesLists(db: Db, q: Queue, ids: seq<JobId>, now: Time)
    requires Flat(q) == [] && q.enqueued == {}
    requires Distinct(ids) && forall j :: j in ids ==> j in db.jobs
    requires forall j :: j in ids <==> Ready(db.jobs, j, now)
    requires forall i, k :: 0 <= i < k < |ids| ==> ComesBefore(db.jobs, ids[i], ids[k])
    ensures ListsMatch(db, EnqueueAll(q, Listed(db.jobs, ids)), now)
  {
    var items := Listed(db.jobs, ids);
    assert Ids(items) == ids;
    forall i, k | 0 <= i < k < |items| ensures Rank(items[k].1) <= Rank(items[i].1) {
      assert ComesBefore(db.jobs, ids[i], ids[k]);
    }
    EnqueueSorted(q, items);
  }

  predicate FreshIdle(db: Db, w: WorkerId, offlineCutoff: Time) {
    && w in db.workers && db.workers[w].status.Idle? && offlineCutoff <= db.workers[w].lastHeartbeatAt
  }

  /** The tables after both sweeps. */
  function Swept(db: Db, settings: SchedulerSettings, now: Time): Db {
    ClaimSweep(StaleSweep(db, now - settings.offlineAfter, Some(settings.infraRetryDelay), now),
               now - settings.claimTimeout, now - settings.offlineAfter, now)
  }

  lemma SweptAgrees(db: Db, settings: SchedulerSettings, now: Time)
    requires StoreInv(db)
    ensures Agree(db) ==> Agree(Swept(db, settings, now))
  {
    hide StoreInv, Agree, StaleSweep, ClaimSweep;
    if Agree(db) {
      var delay := Some(settings.infraRetryDelay);
      StaleSweepAgrees(db, now - settings.offlineAfter, delay, now);
      StaleSweepKeepsInv(db, now - settings.offlineAfter, delay, now);
      ClaimSweepAgrees(StaleSweep(db, now - settings.offlineAfter, delay, now),
                       now - settings.claimTimeout, now - settings.offlineAfter, now);
    }
  }

  /** Rebuilds the queue from the tables, whatever it held before. */
  method ReconcileDispatchState(settings: SchedulerSettings, store: ControlPlaneStore, queue: RedisDispatchQueue,
                                now: Time)
    requires store.Valid()
    modifies store, queue
    ensures store.Valid() && store.Tables() == Swept(old(store.Tables()), settings, now)
    ensures BothSweepsOutcome(old(store.Tables()), store.Tables(), now - settings.offlineAfter,
                              now - settings.claimTimeout, Some(settings.infraRetryDelay), now)
    ensures ListsMatch(store.Tables(), queue.State(), now)
    ensures OrderedLists(store.Tables(), queue.high, queue.normal, queue.low, now)
    ensures QueuesMatch(store.Tables(), queue.State())
    ensures forall w :: w in queue.idle ==> FreshIdle(store.Tables(), w, now - settings.offlineAfter)
    ensures forall w :: w in queue.idle <==>
              || (FreshIdle(store.Tables(), w, now - settings.offlineAfter) && store.workers[w].runningJobId.None?)
              || HandedBackAfterStale(old(store.Tables()), w, now - settings.claimTimeout, now - settings.offlineAfter)
    ensures Agree(old(store.Tables())) ==>
              && Agree(store.Tables())
              && forall w :: w in queue.idle <==> FreshIdle(store.Tables(), w, now - settings.offlineAfter)
  {
    hide StoreInv, Agree, StaleSweep, ClaimSweep, ListsMatch, QueuesMatch, EnqueueAll, JobsFor, FreshIdle, IsReusable,
      ExpiredRows, WorkerQueue, Ready, ComesBefore, OrderedLists, ListGrows, LosesWorker, HandedBack, Unclaimed,
      MayStart, StaleSweepOutcome, ClaimSweepOutcome, HandedBackAfterStale;
    ghost var db0 := store.Tables();
    var failed, retried := store.MarkStaleWorkersOffline(settings.offlineAfter, Some(settings.infraRetryDelay), now);
    ghost var db1 := store.Tables();
    var requeued, reusable, order := store.RequeueStaleScheduledJobs(settings.claimTimeout, settings.offlineAfter, now);
    ghost var db := store.Tables();

    queue.ClearDispatchState();

    var queuedJobs := store.ListQueuedJobs(now);
    ReadyAreKnown(db.jobs, now);
    queue.EnqueueJobs(Listed(store.jobs, queuedJobs));
    QueuedListGivesLists(db, EMPTY_QUEUE, queuedJobs, now);
    EnqueueAllAppends(EMPTY_QUEUE, Listed(db.jobs, queuedJobs), High);
    OrderedListsFromGrowth(db, queuedJobs, queue.high, queue.normal, queue.low, now);
    ghost var q := queue.State();

    var scheduledJobs := store.ListScheduledJobs();
    NothingPushed(q);
    PushScheduled(store, queue, scheduledJobs);
    ghost var p := queue.State();
    ScheduledListGivesQueues(db, p, scheduledJobs);
    AnnounceIdle(store, queue, now - settings.offlineAfter);
    RequeueIdle(queue, reusable);

    ListsIgnoreWorkers(db, q, queue.State(), now);
    QueuesIgnoreIdle(db, p, queue.State());
    IdleAfterReconcile(db1, settings, now);
    HandedBackMeans(db0, db1, now - settings.offlineAfter, Some(settings.infraRetryDelay), now,
                    now - settings.claimTimeout);
    SweptAgrees(db0, settings, now);
    if Agree(db0) {
      FreshIdlePointAtNothing(db, now - settings.offlineAfter);
    }
  }

  /** The three lists hold the jobs that may start, once each, by priority, and within a priority by age. */
  ghost predicate OrderedLists(db: Db, high: seq<JobId>, normal: seq<JobId>, low: seq<JobId>, now: Time) {
    && (forall j :: j in high <==> MayStart(db, j, now) && db.jobs[j].priority.High?)
    && (forall j :: j in normal <==> MayStart(db, j, now) && db.jobs[j].priority.Normal?)
    && (forall j :: j in low <==> MayStart(db, j, now) && db.jobs[j].priority.Low?)
    && OldestFirst(db.jobs, high) && OldestFirst(db.jobs, normal) && OldestFirst(db.jobs, low)
  }

  ghost predicate OldestFirst(jobs: map<JobId, Job>, ids: seq<JobId>) {
    forall i, k :: 0 <= i < k < |ids| ==>
      && ids[i] != ids[k] && ids[i] in jobs && ids[k] in jobs && jobs[ids[i]].createdAt <= jobs[ids[k]].createdAt
  }

  lemma OrderedListsFromGrowth(db: Db, ids: seq<JobId>, high: seq<JobId>, normal: seq<JobId>, low: seq<JobId>,
                               now: Time)
    requires forall j :: j in ids <==> MayStart(db, j, now)
    requires forall i :: 0 <= i < |ids| ==> ids[i] in db.jobs
    requires forall j :: j in ids ==> j in db.jobs
    requires Distinct(ids)
    requires forall i, k :: 0 <= i < k < |ids| ==> Precedes(db.jobs[ids[i]], db.jobs[ids[k]])
    requires ListGrows([], high, {}, Listed(db.jobs, ids), High)
    requires ListGrows([], normal, {}, Listed(db.jobs, ids), Normal)
    requires ListGrows([], low, {}, Listed(db.jobs, ids), Low)
    ensures OrderedLists(db, high, normal, low, now)
  {
    hide MayStart, ListGrows, OldestFirst;
    OrderedListFromGrowth(db, ids, high, High, now);
    OrderedListFromGrowth(db, ids, normal, Normal, now);
    OrderedListFromGrowth(db, ids, low, Low, now);
  }

  lemma OrderedListFromGrowth(db: Db, ids: seq<JobId>, list: seq<JobId>, p: Priority, now: Time)
    requires forall j :: j in ids <==> MayStart(db, j, now)
    requires forall j :: j in ids ==> j in db.jobs
    requires Distinct(ids)
    requires forall i, k :: 0 <= i < k < |ids| ==> Precedes(db.jobs[ids[i]], db.jobs[ids[k]])
    requires ListGrows([], list, {}, Listed(db.jobs, ids), p)
    ensures forall j :: j in list <==> MayStart(db, j, now) && db.jobs[j].priority == p
    ensures OldestFirst(db.jobs, list)
  {
    hide MayStart, Listed, Grows, Precedes, FirstAt, Distinct;
    var added :| Grows([], list, added, {}, Listed(db.jobs, ids), p);
    GrownMembers(list, added, Listed(db.jobs, ids), p);
    ListMembers(db.jobs, ids, list, p);
    forall a, b | 0 <= a < b < |list|
      ensures list[a] != list[b] && list[a] in db.jobs && list[b] in db.jobs
      ensures db.jobs[list[a]].createdAt <= db.jobs[list[b]].createdAt
    {
      assert list[a] in list && list[b] in list;
      ListedPair(db.jobs, ids, list, added, p, a, b);
    }
  }

  lemma ListMembers(jobs: map<JobId, Job>, ids: seq<JobId>, list: seq<JobId>, p: Priority)
    requires Distinct(ids) && forall j :: j in ids ==> j in jobs
    requires forall j :: j in list <==> exists i :: FirstAt(Listed(jobs, ids), i, j) && Listed(jobs, ids)[i].1 == p
    ensures forall j :: j in list <==> j in ids && jobs[j].priority == p
  {
    var items := Listed(jobs, ids);
    FirstInListed(jobs, ids);
    hide FirstAt, Listed;
    forall j ensures j in list <==> j in ids && jobs[j].priority == p {
      if j in ids {
        var i :| 0 <= i < |ids| && ids[i] == j;
        assert FirstAt(items, i, j) && items[i].1 == jobs[j].priority;
      }
    }
  }

  lemma ListedPair(jobs: map<JobId, Job>, ids: seq<JobId>, list: seq<JobId>, added: seq<JobId>, p: Priority, a: nat,
                   b: nat)
    requires forall j :: j in ids ==> j in jobs
    requires Distinct(ids)
    requires forall i, k :: 0 <= i < k < |ids| ==> Precedes(jobs[ids[i]], jobs[ids[k]])
    requires forall j :: j in list ==> j in ids && jobs[j].priority == p
    requires Grows([], list, added, {}, Listed(jobs, ids), p) && list == added && a < b < |list|
    ensures list[a] != list[b] && list[a] in jobs && list[b] in jobs
    ensures jobs[list[a]].createdAt <= jobs[list[b]].createdAt
  {
    hide Grows, FirstAt, Listed, Precedes;
    assert list[a] in list && list[b] in list;
    FirstInListed(jobs, ids);
    var i: nat :| i < |ids| && ids[i] == list[a];
    var k: nat :| k < |ids| && ids[k] == list[b];
    GrownInOrder(list, added, Listed(jobs, ids), p, a, b, i, k);
    assert ids[i] != ids[k];
    SamePriorityByAge(jobs[ids[i]], jobs[ids[k]]);
  }

  lemma GrownMembers(list: seq<JobId>, added: seq<JobId>, items: seq<(JobId, Priority)>, p: Priority)
    requires Grows([], list, added, {}, items, p)
    ensures list == added
    ensures forall j :: j in list <==> exists i :: FirstAt(items, i, j) && items[i].1 == p
  {
    hide FirstAt;
    assert [] + added == added;
  }

  lemma GrownInOrder(list: seq<JobId>, added: seq<JobId>, items: seq<(JobId, Priority)>, p: Priority,
                     a: nat, b: nat, i: nat, k: nat)
    requires Grows([], list, added, {}, items, p) && list == added
    requires a < b < |list| && FirstAt(items, i, list[a]) && FirstAt(items, k, list[b])
    ensures i < k
  {
  }

  lemma SamePriorityByAge(first: Job, second: Job)
    requires Precedes(first, second) && first.priority == second.priority
    ensures first.createdAt <= second.createdAt
  {
  }

  lemma FirstInListed(jobs: map<JobId, Job>, ids: seq<JobId>)
    requires Distinct(ids) && forall j :: j in ids ==> j in jobs
    ensures var items := Listed(jobs, ids);
            && |items| == |ids|
            && (forall i, j :: FirstAt(items, i, j) <==> 0 <= i < |ids| && ids[i] == j)
            && (forall i :: 0 <= i < |ids| ==> ids[i] in jobs && items[i] == (ids[i], jobs[ids[i]].priority))
  {
  }

  lemma ReadyAreKnown(jobs: map<JobId, Job>, now: Time)
    ensures forall j :: Ready(jobs, j, now) ==> j in jobs
  {
  }

  lemma NothingPushed(q: Queue)
    requires q.pushed == map[]
    ensures forall w :: WorkerQueue(q, w) == []
  {
  }

  lemma ListsIgnoreWorkers(db: Db, q: Queue, q': Queue, now: Time)
    requires ListsMatch(db, q, now) && q' == q.(idle := q'.idle, pushed := q'.pushed)
    ensures ListsMatch(db, q', now)
  {
    SameLanes(q, q');
  }

  lemma QueuesIgnoreIdle(db: Db, q: Queue, q': Queue)
    requires QueuesMatch(db, q) && q'.pushed == q.pushed
    ensures QueuesMatch(db, q')
  {
    assert forall w :: WorkerQueue(q', w) == WorkerQueue(q, w);
  }

  /** The workers handed back by the claim sweep are fresh and idle, whoever called the store before. */
  lemma IdleAfterReconcile(db1: Db, settings: SchedulerSettings, now: Time)
    ensures var offlineCutoff, claimCutoff := now - settings.offlineAfter, now - settings.claimTimeout;
            var db := ClaimSweep(db1, claimCutoff, offlineCutoff, now);
            && (forall w :: IsReusable(db1, ExpiredRows(db1, claimCutoff), w, offlineCutoff) ==>
                  FreshIdle(db, w, offlineCutoff))
            && (forall w :: FreshIdle(db, w, offlineCutoff) ==> w in db.workers)
  {
  }

  lemma FreshIdlePointAtNothing(db: Db, offlineCutoff: Time)
    requires Agree(db)
    ensures forall w :: FreshIdle(db, w, offlineCutoff) ==> db.workers[w].runningJobId.None?
  {
    forall w | FreshIdle(db, w, offlineCutoff) ensures db.workers[w].runningJobId.None? {
      assert WorkerAgrees(db, w);
    }
  }

  method PushScheduled(store: ControlPlaneStore, queue: RedisDispatchQueue, ids: seq<JobId>)
    requires forall j :: j in ids ==> j in store.jobs
    requires forall w :: WorkerQueue(queue.State(), w) == []
    modifies queue`pushed
    ensures queue.State() == old(queue.State()).(pushed := queue.pushed)
    ensures forall w :: WorkerQueue(queue.State(), w) == JobsFor(store.jobs, ids, w)
  {
    for i := 0 to |ids|
      invariant queue.State() == old(queue.State()).(pushed := queue.pushed)
      invariant forall w :: WorkerQueue(queue.State(), w) == JobsFor(store.jobs, ids[..i], w)
    {
      assert ids[..i + 1][..i] == ids[..i];
      assert ids[i] in ids;
      var assignee := store.jobs[ids[i]].assignee;
      if assignee.Some? {
        var _ := queue.PushWorkerJob(assignee.value, ids[i], false);
      }
    }
    assert ids[..|ids|] == ids;
  }

  /** Lists the workers whose row is idle, fresh and free. */
  method AnnounceIdle(store: ControlPlaneStore, queue: RedisDispatchQueue, offlineCutoff: Time)
    modifies queue`idle
    ensures queue.State() == old(queue.State()).(idle := queue.idle)
    ensures forall w :: w in queue.idle <==>
              w in old(queue.idle) ||
                (FreshIdle(store.Tables(), w, offlineCutoff) && store.workers[w].runningJobId.None?)
  {
    var todo := store.workers.Keys;
    while todo != {}
      invariant todo <= store.workers.Keys
      invariant queue.State() == old(queue.State()).(idle := queue.idle)
      invariant forall w :: w in queue.idle <==>
                  w in old(queue.idle) ||
                    (w !in todo && FreshIdle(store.Tables(), w, offlineCutoff) && store.workers[w].runningJobId.None?)
    {
      var w :| w in todo;
      todo := todo - {w};
      var worker := store.workers[w];
      var status := if worker.lastHeartbeatAt < offlineCutoff then Offline else worker.status;
      if status.Idle? && worker.runningJobId.None? {
        queue.RequeueIdleWorker(w);
      }
    }
  }

  method RequeueIdle(queue: RedisDispatchQueue, ws: seq<WorkerId>)
    modifies queue`idle
    ensures queue.State() == old(queue.State()).(idle := queue.idle)
    ensures forall w :: w in queue.idle <==> w in old(queue.idle) || w in ws
  {
    for i := 0 to |ws|
      invariant queue.State() == old(queue.State()).(idle := queue.idle)
      invariant forall w :: w in queue.idle <==> w in old(queue.idle) || w in ws[..i]
    {
      queue.RequeueIdleWorker(ws[i]);
    }
  }

  // ---------------------------------------------------------------- one iteration

  /** The head of an ordered list comes before its tail and is ordered itself. */
  lemma OrderedHead(jobs: map<JobId, Job>, flat: seq<JobId>, n: nat)
    requires n <= |flat|
    requires forall i, k :: 0 <= i < k < |flat| ==> ComesBefore(jobs, flat[i], flat[k])
    ensures forall j, k :: j in flat[..n] && k in flat && k !in flat[..n] ==> ComesBefore(jobs, j, k)
  {
    hide ComesBefore;
    forall j, k | j in flat[..n] && k in flat && k !in flat[..n] ensures ComesBefore(jobs, j, k) {
      var a :| 0 <= a < n && flat[a] == j;
      var b :| 0 <= b < |flat| && flat[b] == k;
      assert forall i :: 0 <= i < n ==> flat[i] in flat[..n];
    }
  }

  /** After a rebuild, a pass serves the ready jobs of the whole table by priority and age. */
  lemma PassAfterRebuildIsGlobal(db: Db, q: Queue, js: seq<JobId>, cutoff: Time, now: Time)
    requires ListsMatch(db, q, now) && TookTheFirst(db, q, js, cutoff, now)
    ensures js <= Flat(q)
    ensures forall j, k :: j in js && Ready(db.jobs, k, now) && k !in js ==> ComesBefore(db.jobs, j, k)
    ensures forall i, k :: 0 <= i < k < |js| ==> ComesBefore(db.jobs, js[i], js[k])
  {
    hide Ready, Flat, QueueInv, AbleWorkers, ComesBefore, ReadyOf;
    AllReady(db.jobs, Flat(q), now);
    OrderedHead(db.jobs, Flat(q), |js|);
  }

  lemma {:induction false} AllReady(jobs: map<JobId, Job>, js: seq<JobId>, now: Time)
    requires forall j :: j in js ==> Ready(jobs, j, now)
    ensures ReadyOf(jobs, js, now) == js
  {
    if js != [] {
      AllReady(jobs, js[..|js| - 1], now);
    }
  }

  lemma ListedIds(jobs: map<JobId, Job>, ids: seq<JobId>)
    requires forall j :: j in ids ==> j in jobs
    ensures Ids(Listed(jobs, ids)) == ids
  {
  }
}
