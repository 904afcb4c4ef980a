/** The two recovery sweeps: one step of each loop, and what the whole loop amounts to. */
module Sweeps {
  import opened Schema
  import opened BatchStatusView
  import opened Transitions
  import opened StoreInvariants
  import opened Agreement

  lemma PutTwice(db: Db, first: map<JobId, Job>, second: map<JobId, Job>, now: Time)
    requires SameBatches(db.jobs + first, second) && first.Keys !! second.Keys
    ensures PutJobs(PutJobs(db, first, now), second, now) == PutJobs(db, first + second, now)
  {
    var js := first + second;
    assert (db.jobs + first) + second == db.jobs + js;
    assert BatchesOf(js) == BatchesOf(first) + BatchesOf(second) by {
      forall b | b in BatchesOf(first) ensures b in BatchesOf(js) {
        var j :| j in first && first[j].batchId == Some(b);
        assert js[j] == first[j];
      }
      forall b | b in BatchesOf(second) ensures b in BatchesOf(js) {
        var j :| j in second && second[j].batchId == Some(b);
        assert js[j] == second[j];
      }
    }
    RefreshTwice(db.batches, db.jobs + first, second, BatchesOf(first), now);
  }

  lemma CloseTwice(rows: seq<Assignment>, first: set<JobId>, second: set<JobId>, now: Time)
    ensures CloseRows(CloseRows(rows, first, now), second, now) == CloseRows(rows, first + second, now)
  {
  }

  // ---------------------------------------------------------------- stale workers

  /** One iteration of the stale-worker loop. */
  function LoseOne(db: Db, w: WorkerId, delay: Option<int>, now: Time): Db
    requires w in db.workers
  {
    var running := db.workers[w].runningJobId;
    var freed :=
      if running.Some? && running.value in db.jobs && Active(db.jobs[running.value].status)
      then Fail(db, running.value, w, Some(InfraTransient), delay, false, now)
      else db;
    freed.(workers := db.workers[w := db.workers[w].(status := Offline, runningJobId := None)])
  }

  lemma LoseNobody(db: Db, delay: Option<int>, now: Time)
    ensures LoseWorkers(db, {}, delay, now) == db
    ensures RetriedJobs(db, {}, delay) == FailedJobs(db, {}, delay) == {}
  {
    assert TimedOutJobs(db, {}, delay, now) == map[];
    assert CloseRows(db.rows, {}, now) == db.rows;
  }

  lemma TakeOfflineOneMore(workers: map<WorkerId, Worker>, ws: set<WorkerId>, w: WorkerId)
    requires w in workers && w !in ws
    ensures var after := TakeOffline(workers, ws);
            after[w := after[w].(status := Offline, runningJobId := None)] == TakeOffline(workers, ws + {w})
  {
  }

  lemma TimedOutOneMore(db: Db, ws: set<WorkerId>, w: WorkerId, delay: Option<int>, now: Time)
    requires w in db.workers
    ensures var js := TimedOutJobs(db, ws, delay, now);
            var running := db.workers[w].runningJobId;
            TimedOutJobs(db, ws + {w}, delay, now) ==
              if running.Some? && running.value in db.jobs && Active((db.jobs + js)[running.value].status)
              then js[running.value := AfterFailure(db.jobs[running.value], Some(InfraTransient), delay, false, now)]
              else js
    ensures forall j :: j in TimedOutJobs(db, ws, delay, now) ==>
              !Active(TimedOutJobs(db, ws, delay, now)[j].status)
  {
    OrphansOneMore(db, ws, w);
    OrphansAreActive(db, ws);
  }

  /** Retiring one more job is the same as retiring it together with the earlier ones. */
  lemma RetireOneMore(db: Db, js: map<JobId, Job>, j: JobId, job: Job,
                      workers: map<WorkerId, Worker>, workers': map<WorkerId, Worker>, now: Time)
    requires j in db.jobs && j !in js && job.batchId == db.jobs[j].batchId
    ensures RetireOne(Retire(db, js, workers, now), j, job, workers', now) == Retire(db, js[j := job], workers', now)
  {
    var one := map[j := job];
    var js' := js[j := job];
    assert js' == js + one && js'.Keys == js.Keys + {j};
    PutTwice(db, js, one, now);
    CloseTwice(db.rows, js.Keys, {j}, now);
  }

  /** Iterating over one more worker is the same as losing it together with the earlier ones. */
  lemma LoseOneMore(db: Db, ws: set<WorkerId>, w: WorkerId, delay: Option<int>, now: Time)
    requires w in db.workers && w !in ws
    ensures LoseOne(LoseWorkers(db, ws, delay, now), w, delay, now) == LoseWorkers(db, ws + {w}, delay, now)
  {
    var s := LoseWorkers(db, ws, delay, now);
    var js := TimedOutJobs(db, ws, delay, now);
    var workers' := TakeOffline(db.workers, ws + {w});
    var running := db.workers[w].runningJobId;
    TakeOfflineOneMore(db.workers, ws, w);
    TimedOutOneMore(db, ws, w, delay, now);
    if running.Some? && running.value in s.jobs && Active(s.jobs[running.value].status) {
      var job := AfterFailure(db.jobs[running.value], Some(InfraTransient), delay, false, now);
      assert s == Retire(db, js, s.workers, now);
      RetireOneMore(db, js, running.value, job, s.workers, workers', now);
    }
  }

  lemma OrphansOneMore(db: Db, ws: set<WorkerId>, w: WorkerId)
    requires w in db.workers
    ensures var running := db.workers[w].runningJobId;
            Orphans(db, ws + {w}) == Orphans(db, ws) +
              if running.Some? && running.value in db.jobs && Active(db.jobs[running.value].status)
              then {running.value} else {}
  {
  }

  /** The jobs a stale sweep puts back into the queue. */
  function RetriedJobs(db: Db, ws: set<WorkerId>, delay: Option<int>): set<JobId> {
    set j | j in Orphans(db, ws) && j in db.jobs && WillRetry(db.jobs[j], delay, false)
  }

  function FailedJobs(db: Db, ws: set<WorkerId>, delay: Option<int>): set<JobId> {
    set j | j in Orphans(db, ws) && j in db.jobs && !WillRetry(db.jobs[j], delay, false)
  }

  lemma OrphansAreActive(db: Db, ws: set<WorkerId>)
    ensures forall j :: j in Orphans(db, ws) ==> j in db.jobs && Active(db.jobs[j].status)
  {
  }

  lemma SweptWorkers(db: Db, ws: set<WorkerId>, w: WorkerId, delay: Option<int>, now: Time)
    requires w in db.workers && w !in ws
    ensures var after := LoseWorkers(db, ws, delay, now); w in after.workers && after.workers[w] == db.workers[w]
  {
  }

  /** What one more iteration adds to the two result lists. */
  lemma ResultsOneMore(db: Db, ws: set<WorkerId>, w: WorkerId, delay: Option<int>, now: Time)
    requires w in db.workers && w !in ws
    ensures var running := db.workers[w].runningJobId;
            var jobs := LoseWorkers(db, ws, delay, now).jobs;
            if running.Some? && running.value in jobs && Active(jobs[running.value].status) then
              var j := running.value;
              var again := WillRetry(jobs[j], delay, false);
              && j in db.jobs && jobs[j] == db.jobs[j]
              && j !in Orphans(db, ws) && j !in RetriedJobs(db, ws, delay) && j !in FailedJobs(db, ws, delay)
              && RetriedJobs(db, ws + {w}, delay) == RetriedJobs(db, ws, delay) + (if again then {j} else {})
              && FailedJobs(db, ws + {w}, delay) == FailedJobs(db, ws, delay) + (if again then {} else {j})
            else
              && RetriedJobs(db, ws + {w}, delay) == RetriedJobs(db, ws, delay)
              && FailedJobs(db, ws + {w}, delay) == FailedJobs(db, ws, delay)
  {
    TimedOutOneMore(db, ws, w, delay, now);
    OrphansOneMore(db, ws, w);
    OrphansAreActive(db, ws);
  }

  /** Every orphan is either retried once more or failed, everything else is untouched, nobody stays stale. */
  lemma StaleSweepPartitions(db: Db, cutoff: Time, delay: Option<int>, now: Time)
    ensures var ws := StaleWorkers(db, cutoff);
            var after := StaleSweep(db, cutoff, delay, now);
            && (forall w :: !Stale(after, w, cutoff))
            && after.jobs.Keys == db.jobs.Keys && after.workers.Keys == db.workers.Keys
            && Orphans(db, ws) == RetriedJobs(db, ws, delay) + FailedJobs(db, ws, delay)
            && RetriedJobs(db, ws, delay) !! FailedJobs(db, ws, delay)
            && (forall j :: j in RetriedJobs(db, ws, delay) ==>
                  && after.jobs[j].status.Queued? && after.jobs[j].retryCount == db.jobs[j].retryCount + 1
                  && after.jobs[j].assignee.None? && after.jobs[j].failure == Some(InfraTransient))
            && (forall j :: j in FailedJobs(db, ws, delay) ==>
                  after.jobs[j].status.Failed? && after.jobs[j].retryCount == db.jobs[j].retryCount)
            && (forall j :: j in db.jobs && j !in Orphans(db, ws) ==> after.jobs[j] == db.jobs[j])
            && (forall w :: w in db.workers && w !in ws ==> after.workers[w] == db.workers[w])
  {
    OrphansAreActive(db, StaleWorkers(db, cutoff));
  }

  lemma StaleSweepKeepsInv(db: Db, cutoff: Time, delay: Option<int>, now: Time)
    requires StoreInv(db)
    ensures StoreInv(StaleSweep(db, cutoff, delay, now))
  {
    LoseWorkersKeepsInv(db, StaleWorkers(db, cutoff), delay, now);
  }

  lemma LosingLetsGo(db: Db, ws: set<WorkerId>)
    requires Agree(db)
    ensures LetsGo(db.workers, TakeOffline(db.workers, ws), Orphans(db, ws))
  {
    var after := TakeOffline(db.workers, ws);
    forall w | w in db.workers
      ensures if db.workers[w].runningJobId.Some? && db.workers[w].runningJobId.value in Orphans(db, ws)
              then after[w].runningJobId.None? && !after[w].status.Busy?
              else after[w].runningJobId == db.workers[w].runningJobId
                   && (after[w].status.Busy? <==> db.workers[w].status.Busy?)
    {
      assert WorkerAgrees(db, w);
      var running := db.workers[w].runningJobId;
      if running.Some? && running.value in Orphans(db, ws) {
        var v :| v in ws && v in db.workers && db.workers[v].runningJobId == running;
        assert WorkerAgrees(db, v);
      }
    }
  }

  lemma LoseWorkersAgrees(db: Db, ws: set<WorkerId>, delay: Option<int>, now: Time)
    requires Agree(db)
    ensures Agree(LoseWorkers(db, ws, delay, now))
  {
    var js := TimedOutJobs(db, ws, delay, now);
    OrphansAreActive(db, ws);
    assert js.Keys == Orphans(db, ws);
    LosingLetsGo(db, ws);
    RetireKeepsAgreement(db, js, TakeOffline(db.workers, ws), now);
  }

  lemma StaleSweepAgrees(db: Db, cutoff: Time, delay: Option<int>, now: Time)
    requires Agree(db)
    ensures Agree(StaleSweep(db, cutoff, delay, now))
  {
    LoseWorkersAgrees(db, StaleWorkers(db, cutoff), delay, now);
  }

  // ---------------------------------------------------------------- unclaimed attempts

  /** One iteration of the claim-timeout loop, on row `i`. */
  function TakeBackOne(db: Db, i: nat, offlineCutoff: Time, now: Time): Db
    requires i < |db.rows| && db.rows[i].jobId in db.jobs
  {
    var j := db.rows[i].jobId;
    var w := db.rows[i].workerId;
    PutJobs(db, map[j := UnclaimedJob(db.jobs[j], now)], now).(
      workers := if w in db.workers then db.workers[w := UnclaimedWorker(db.workers[w], {j}, offlineCutoff)]
                 else db.workers,
      rows := CloseRows(db.rows, {j}, now))
  }

  lemma TakeBackNothing(db: Db, offlineCutoff: Time, now: Time)
    ensures TakeBack(db, {}, offlineCutoff, now) == db
  {
    assert UnclaimedJobs(db, {}, now) == map[];
    assert CloseRows(db.rows, {}, now) == db.rows;
    assert UnclaimedWorkers(db, {}, offlineCutoff) == db.workers;
  }

  /** Distinct expired rows name distinct jobs and distinct workers. */
  lemma ExpiredAreApart(db: Db, taken: set<nat>, i: nat, claimCutoff: Time)
    requires StoreInv(db) && taken <= ExpiredRows(db, claimCutoff)
    requires i in ExpiredRows(db, claimCutoff) && i !in taken
    ensures db.rows[i].jobId !in JobsOfRows(db.rows, taken)
    ensures db.rows[i].workerId !in WorkersOfRows(db.rows, taken)
  {
    forall k | k in taken && k < |db.rows|
      ensures db.rows[k].jobId != db.rows[i].jobId && db.rows[k].workerId != db.rows[i].workerId
    {
      assert k in ExpiredRows(db, claimCutoff);
    }
  }

  lemma TakeBackWorkersOneMore(db: Db, taken: set<nat>, i: nat, offlineCutoff: Time)
    requires i < |db.rows| && db.rows[i].workerId !in WorkersOfRows(db.rows, taken)
    ensures var w := db.rows[i].workerId;
            UnclaimedWorkers(db, taken + {i}, offlineCutoff) ==
              if w in db.workers
              then UnclaimedWorkers(db, taken, offlineCutoff)[
                w := UnclaimedWorker(db.workers[w], {db.rows[i].jobId}, offlineCutoff)]
              else UnclaimedWorkers(db, taken, offlineCutoff)
  {
    var w := db.rows[i].workerId;
    var taken' := taken + {i};
    assert WorkersOfRows(db.rows, taken') == WorkersOfRows(db.rows, taken) + {w};
    forall v | v in db.workers && v in WorkersOfRows(db.rows, taken')
      ensures FreedFor(db.rows, taken', v) == if v == w then {db.rows[i].jobId} else FreedFor(db.rows, taken, v)
    {
      if v == w {
        assert forall k :: k in taken && k < |db.rows| ==> db.rows[k].workerId in WorkersOfRows(db.rows, taken);
      }
    }
  }

  lemma UnclaimedOneMore(db: Db, taken: set<nat>, i: nat, now: Time)
    requires i < |db.rows| && db.rows[i].jobId in db.jobs
    ensures UnclaimedJobs(db, taken + {i}, now)
         == UnclaimedJobs(db, taken, now) + map[db.rows[i].jobId := UnclaimedJob(db.jobs[db.rows[i].jobId], now)]
    ensures UnclaimedJobs(db, taken + {i}, now).Keys == UnclaimedJobs(db, taken, now).Keys + {db.rows[i].jobId}
  {
    assert JobsOfRows(db.rows, taken + {i}) == JobsOfRows(db.rows, taken) + {db.rows[i].jobId};
  }

  /** Iterating over one more row is the same as taking it back together with the earlier ones. */
  lemma TakeBackOneMore(db: Db, taken: set<nat>, i: nat, offlineCutoff: Time, now: Time)
    requires i < |db.rows| && db.rows[i].jobId in db.jobs
    requires db.rows[i].jobId !in JobsOfRows(db.rows, taken)
    requires db.rows[i].workerId !in WorkersOfRows(db.rows, taken)
    ensures var s := TakeBack(db, taken, offlineCutoff, now);
            && i < |s.rows| && s.rows[i] == db.rows[i]
            && s.rows[i].jobId in s.jobs && s.jobs[s.rows[i].jobId] == db.jobs[s.rows[i].jobId]
            && TakeBackOne(s, i, offlineCutoff, now) == TakeBack(db, taken + {i}, offlineCutoff, now)
  {
    var j := db.rows[i].jobId;
    var js := UnclaimedJobs(db, taken, now);
    var one := map[j := UnclaimedJob(db.jobs[j], now)];
    UnclaimedOneMore(db, taken, i, now);
    PutTwice(db, js, one, now);
    CloseTwice(db.rows, js.Keys, {j}, now);
    TakeBackWorkersOneMore(db, taken, i, offlineCutoff);
  }

  /** A worker the claim sweep hands back for dispatch. */
  predicate IsReusable(db: Db, taken: set<nat>, w: WorkerId, offlineCutoff: Time) {
    w in WorkersOfRows(db.rows, taken) && w in db.workers && offlineCutoff <= db.workers[w].lastHeartbeatAt
  }

  lemma NobodyReusable(db: Db, offlineCutoff: Time)
    ensures forall w :: !IsReusable(db, {}, w, offlineCutoff)
  {
  }

  lemma ReusableOneMore(db: Db, taken: set<nat>, i: nat, offlineCutoff: Time, now: Time)
    requires i < |db.rows| && db.rows[i].workerId !in WorkersOfRows(db.rows, taken)
    ensures !IsReusable(db, taken, db.rows[i].workerId, offlineCutoff)
    ensures forall w :: IsReusable(db, taken + {i}, w, offlineCutoff) <==>
              IsReusable(db, taken, w, offlineCutoff) ||
                (w == db.rows[i].workerId && w in db.workers && offlineCutoff <= db.workers[w].lastHeartbeatAt)
    ensures var workers := TakeBack(db, taken, offlineCutoff, now).workers;
            workers.Keys == db.workers.Keys
            && (db.rows[i].workerId in db.workers ==> workers[db.rows[i].workerId] == db.workers[db.rows[i].workerId])
  {
    assert WorkersOfRows(db.rows, taken + {i}) == WorkersOfRows(db.rows, taken) + {db.rows[i].workerId};
  }

  /** No unclaimed attempt older than the cutoff is left; exactly their jobs went back, at no cost of retries. */
  lemma ClaimSweepIsComplete(db: Db, claimCutoff: Time, offlineCutoff: Time, now: Time)
    ensures var expired := ExpiredRows(db, claimCutoff);
            var moved := JobsOfRows(db.rows, expired);
            var after := ClaimSweep(db, claimCutoff, offlineCutoff, now);
            && ExpiredRows(after, claimCutoff) == {}
            && after.jobs.Keys == db.jobs.Keys && after.workers.Keys == db.workers.Keys
            && (forall j :: j in moved ==>
                  && j in db.jobs && db.jobs[j].status.Scheduled? && after.jobs[j].status.Queued?
                  && after.jobs[j].assignee.None? && after.jobs[j].nextRetryAt.None?
                  && after.jobs[j].retryCount == db.jobs[j].retryCount)
            && (forall j :: j in db.jobs && j !in moved ==> after.jobs[j] == db.jobs[j])
            && (forall w :: w in db.workers && w !in WorkersOfRows(db.rows, expired) ==>
                  after.workers[w] == db.workers[w])
  {
    var after := ClaimSweep(db, claimCutoff, offlineCutoff, now);
    var expired := ExpiredRows(db, claimCutoff);
    ExpiredAreScheduled(db, expired, claimCutoff);
    forall i: nat | i < |after.rows| ensures !Expired(after, i, claimCutoff) {
      if i in expired {
        assert db.rows[i].jobId in JobsOfRows(db.rows, expired);
      }
    }
  }

  lemma TakingBackLetsGo(db: Db, taken: set<nat>, claimCutoff: Time, offlineCutoff: Time)
    requires StoreInv(db) && Agree(db) && taken <= ExpiredRows(db, claimCutoff)
    ensures LetsGo(db.workers, UnclaimedWorkers(db, taken, offlineCutoff), JobsOfRows(db.rows, taken))
  {
    var after := UnclaimedWorkers(db, taken, offlineCutoff);
    forall w | w in db.workers
      ensures if db.workers[w].runningJobId.Some? && db.workers[w].runningJobId.value in JobsOfRows(db.rows, taken)
              then after[w].runningJobId.None? && !after[w].status.Busy?
              else after[w] == db.workers[w]
    {
      ExpiredRowsOfWorker(db, taken, w, claimCutoff);
    }
  }

  /** Under agreement, a worker loses a row exactly when it points at that row's job. */
  lemma ExpiredRowsOfWorker(db: Db, taken: set<nat>, w: WorkerId, claimCutoff: Time)
    requires StoreInv(db) && Agree(db) && w in db.workers && taken <= ExpiredRows(db, claimCutoff)
    ensures w in WorkersOfRows(db.rows, taken) <==>
              db.workers[w].runningJobId.Some? && db.workers[w].runningJobId.value in JobsOfRows(db.rows, taken)
    ensures db.workers[w].runningJobId.Some? && db.workers[w].runningJobId.value in JobsOfRows(db.rows, taken) ==>
              db.workers[w].runningJobId.value in FreedFor(db.rows, taken, w)
  {
    assert WorkerAgrees(db, w);
    forall i | i in taken && i < |db.rows|
      ensures db.rows[i].workerId == w <==> db.workers[w].runningJobId == Some(db.rows[i].jobId)
    {
      assert i in ExpiredRows(db, claimCutoff) && RowOk(db.jobs, db.rows[i]);
      assert JobAgrees(db, db.rows[i].jobId);
    }
  }

  lemma TakeBackAgrees(db: Db, taken: set<nat>, claimCutoff: Time, offlineCutoff: Time, now: Time)
    requires StoreInv(db) && Agree(db) && taken <= ExpiredRows(db, claimCutoff)
    ensures Agree(TakeBack(db, taken, offlineCutoff, now))
  {
    var js := UnclaimedJobs(db, taken, now);
    ExpiredAreScheduled(db, taken, claimCutoff);
    assert js.Keys == JobsOfRows(db.rows, taken);
    TakingBackLetsGo(db, taken, claimCutoff, offlineCutoff);
    RetireKeepsAgreement(db, js, UnclaimedWorkers(db, taken, offlineCutoff), now);
  }

  lemma ClaimSweepAgrees(db: Db, claimCutoff: Time, offlineCutoff: Time, now: Time)
    requires StoreInv(db) && Agree(db)
    ensures Agree(ClaimSweep(db, claimCutoff, offlineCutoff, now))
  {
    TakeBackAgrees(db, ExpiredRows(db, claimCutoff), claimCutoff, offlineCutoff, now);
  }

  lemma ClaimSweepKeepsInv(db: Db, claimCutoff: Time, offlineCutoff: Time, now: Time)
    requires StoreInv(db)
    ensures StoreInv(ClaimSweep(db, claimCutoff, offlineCutoff, now))
  {
    TakeBackKeepsInv(db, ExpiredRows(db, claimCutoff), claimCutoff, offlineCutoff, now);
  }

  /** The workers a claim sweep hands back for dispatch are fresh, idle and free. */
  lemma ReusableWorkersAreFree(db: Db, claimCutoff: Time, offlineCutoff: Time, now: Time, w: WorkerId)
    requires StoreInv(db) && Agree(db)
    requires IsReusable(db, ExpiredRows(db, claimCutoff), w, offlineCutoff)
    ensures Dispatchable(ClaimSweep(db, claimCutoff, offlineCutoff, now), w, offlineCutoff)
    ensures ClaimSweep(db, claimCutoff, offlineCutoff, now).workers[w].runningJobId.None?
  {
    var expired := ExpiredRows(db, claimCutoff);
    var after := ClaimSweep(db, claimCutoff, offlineCutoff, now);
    TakeBackKeepsInv(db, expired, claimCutoff, offlineCutoff, now);
    TakeBackAgrees(db, expired, claimCutoff, offlineCutoff, now);
    OneJobOneWorker(after);
    ExpiredRowsOfWorker(db, expired, w, claimCutoff);
  }
}
