/** What a dispatch pass amounts to, whatever order the idle set yields its workers in. */
module Dispatch {
  import opened Schema
  import opened BatchStatusView
  import opened Transitions
  import opened StoreInvariants
  import opened Agreement
  import opened DispatchQueue

  /** The ready jobs of a list, in order. */
  function ReadyOf(jobs: map<JobId, Job>, js: seq<JobId>, now: Time): seq<JobId> {
    if js == [] then []
    else
      var last := js[|js| - 1];
      ReadyOf(jobs, js[..|js| - 1], now) + if Ready(jobs, last, now) then [last] else []
  }

  /** The dispatchable workers of the idle set. */
  function AbleWorkers(db: Db, idle: set<WorkerId>, cutoff: Time): set<WorkerId> {
    set w | w in idle && Dispatchable(db, w, cutoff)
  }

  /** Job `js[i]` goes to worker `ws[i]`. */
  function AssignAll(db: Db, js: seq<JobId>, ws: seq<WorkerId>, cutoff: Time, now: Time): Db
    requires |js| == |ws|
  {
    if js == [] then db
    else
      var n := |js| - 1;
      Assign(AssignAll(db, js[..n], ws[..n], cutoff, now), js[n], ws[n], cutoff, now)
  }

  lemma {:induction false} ReadyOfMembers(jobs: map<JobId, Job>, js: seq<JobId>, now: Time)
    ensures forall j :: j in ReadyOf(jobs, js, now) <==> j in js && Ready(jobs, j, now)
    ensures Distinct(js) ==> Distinct(ReadyOf(jobs, js, now))
  {
    if js != [] {
      var init := js[..|js| - 1];
      ReadyOfMembers(jobs, init, now);
      assert js == init + [js[|js| - 1]];
      DistinctParts(init, [js[|js| - 1]]);
      DistinctParts(ReadyOf(jobs, init, now), [js[|js| - 1]]);
    }
  }

  lemma {:induction false} ReadyOfPrefix(jobs: map<JobId, Job>, js: seq<JobId>, n: nat, now: Time)
    requires n <= |js|
    ensures ReadyOf(jobs, js[..n], now) <= ReadyOf(jobs, js, now)
  {
    if n < |js| {
      var init := js[..|js| - 1];
      assert init[..n] == js[..n];
      ReadyOfPrefix(jobs, init, n, now);
    } else {
      assert js[..n] == js;
    }
  }

  /** Pairs of ready jobs and able workers, both without repetition. */
  ghost predicate Matched(db: Db, js: seq<JobId>, ws: seq<WorkerId>, cutoff: Time, now: Time) {
    && |js| == |ws| && Distinct(js) && Distinct(ws)
    && (forall j :: j in js ==> Ready(db.jobs, j, now))
    && (forall w :: w in ws ==> Dispatchable(db, w, cutoff))
  }

  lemma MatchedPrefix(db: Db, js: seq<JobId>, ws: seq<WorkerId>, cutoff: Time, now: Time)
    requires Matched(db, js, ws, cutoff, now) && js != []
    ensures var n := |js| - 1;
            && Matched(db, js[..n], ws[..n], cutoff, now)
            && js[n] !in js[..n] && ws[n] !in ws[..n]
            && js == js[..n] + [js[n]] && ws == ws[..n] + [ws[n]]
  {
  }

  /** Each job of `js` is scheduled to its own worker of `ws`; all other rows are untouched. */
  ghost predicate Moved(db: Db, after: Db, js: seq<JobId>, ws: seq<WorkerId>, now: Time) {
    && |js| == |ws|
    && after.jobs.Keys == db.jobs.Keys && after.workers.Keys == db.workers.Keys
    && (forall i :: 0 <= i < |js| ==>
          && js[i] in db.jobs && ws[i] in db.workers
          && after.jobs[js[i]] == ScheduledJob(db.jobs[js[i]], ws[i], db.workers[ws[i]].gpuSlot, now)
          && after.workers[ws[i]] == db.workers[ws[i]].(status := Busy, runningJobId := Some(js[i])))
    && (forall k :: k in db.jobs && k !in js ==> after.jobs[k] == db.jobs[k])
    && (forall v :: v in db.workers && v !in ws ==> after.workers[v] == db.workers[v])
    && (forall v :: v !in ws ==> (HeldJobs(after.jobs, v) == {} <==> HeldJobs(db.jobs, v) == {}))
  }

  lemma AssignMovesOnePair(db: Db, j: JobId, w: WorkerId, cutoff: Time, now: Time)
    requires Dispatchable(db, w, cutoff) && Ready(db.jobs, j, now)
    ensures Moved(db, Assign(db, j, w, cutoff, now), [j], [w], now)
  {
    var after := Assign(db, j, w, cutoff, now);
    forall v | v != w ensures HeldJobs(after.jobs, v) == HeldJobs(db.jobs, v) {
      assert forall k :: k in HeldJobs(db.jobs, v) ==> k != j;
    }
  }

  lemma MovedOneMore(db: Db, mid: Db, after: Db, js: seq<JobId>, ws: seq<WorkerId>, j: JobId, w: WorkerId, now: Time)
    requires Moved(db, mid, js, ws, now) && Moved(mid, after, [j], [w], now)
    requires j !in js && w !in ws
    ensures Moved(db, after, js + [j], ws + [w], now)
  {
    hide HeldJobs, ScheduledJob;
    var js', ws' := js + [j], ws + [w];
    assert [j][0] == j && [w][0] == w;
    assert after.jobs[j] == ScheduledJob(mid.jobs[j], w, mid.workers[w].gpuSlot, now);
    forall i | 0 <= i < |js'|
      ensures && js'[i] in db.jobs && ws'[i] in db.workers
              && after.jobs[js'[i]] == ScheduledJob(db.jobs[js'[i]], ws'[i], db.workers[ws'[i]].gpuSlot, now)
              && after.workers[ws'[i]] == db.workers[ws'[i]].(status := Busy, runningJobId := Some(js'[i]))
    {
      if i < |js| {
        assert js'[i] == js[i] && ws'[i] == ws[i] && js[i] in js && ws[i] in ws;
      }
    }
  }

  /** The effect of a whole matching. */
  lemma {:induction false} AssignAllEffect(db: Db, js: seq<JobId>, ws: seq<WorkerId>, cutoff: Time, now: Time)
    requires Matched(db, js, ws, cutoff, now)
    ensures Moved(db, AssignAll(db, js, ws, cutoff, now), js, ws, now)
  {
    if js != [] {
      var n := |js| - 1;
      MatchedPrefix(db, js, ws, cutoff, now);
      AssignAllEffect(db, js[..n], ws[..n], cutoff, now);
      var mid := AssignAll(db, js[..n], ws[..n], cutoff, now);
      assert js[n] in js && ws[n] in ws;
      AssignMovesOnePair(mid, js[n], ws[n], cutoff, now);
      MovedOneMore(db, mid, Assign(mid, js[n], ws[n], cutoff, now), js[..n], ws[..n], js[n], ws[n], now);
    }
  }

  ghost predicate IsSuffix(s: seq<JobId>, whole: seq<JobId>) {
    |s| <= |whole| && s == whole[|whole| - |s|..]
  }

  /** Jobs only left from the front of each lane, and workers only left the idle set. */
  ghost predicate Drained(q0: Queue, q: Queue) {
    && QueueInv(q)
    && IsSuffix(Flat(q), Flat(q0))
    && (forall p :: IsSuffix(Lane(q, p), Lane(q0, p)))
    && q.idle <= q0.idle
  }

  /** The jobs that left the queue, in order. */
  function Served(q0: Queue, q: Queue): seq<JobId> {
    if |Flat(q)| <= |Flat(q0)| then Flat(q0)[..|Flat(q0)| - |Flat(q)|] else []
  }

  /** Every able worker is still idle-listed or has been given a job. */
  ghost predicate Covered(db0: Db, q0: Queue, q: Queue, ws: seq<WorkerId>, cutoff: Time) {
    && (forall w :: w in ws ==> w in q0.idle && w !in q.idle)
    && (forall w :: w in q0.idle && Dispatchable(db0, w, cutoff) ==> w in q.idle || w in ws)
  }

  /** Each worker of `ws` found exactly its own job pushed, and nobody else found anything. */
  ghost predicate Delivered(q0: Queue, q: Queue, js: seq<JobId>, ws: seq<WorkerId>)
    requires |js| == |ws|
  {
    && (forall i :: 0 <= i < |js| ==> WorkerQueue(q, ws[i]) == WorkerQueue(q0, ws[i]) + [js[i]])
    && (forall w :: w !in ws ==> WorkerQueue(q, w) == WorkerQueue(q0, w))
  }

  /** How far a pass has come: `js` went to `ws`, and nothing was lost on the way. */
  ghost predicate Progress(db0: Db, q0: Queue, q: Queue, js: seq<JobId>, ws: seq<WorkerId>, cutoff: Time, now: Time) {
    && Drained(q0, q)
    && js == ReadyOf(db0.jobs, Served(q0, q), now)
    && Matched(db0, js, ws, cutoff, now)
    && Covered(db0, q0, q, ws, cutoff)
    && Delivered(q0, q, js, ws)
  }

  lemma ProgressStart(db0: Db, q0: Queue, cutoff: Time, now: Time)
    requires QueueInv(q0)
    ensures Progress(db0, q0, q0, [], [], cutoff, now)
  {
    assert Flat(q0)[..0] == [];
  }

  /** The job that comes out next, and what the tables say about it and about the idle workers. */
  lemma NextPair(db0: Db, q0: Queue, q: Queue, js: seq<JobId>, ws: seq<WorkerId>, w: WorkerId, cutoff: Time, now: Time)
    requires QueueInv(q0) && Progress(db0, q0, q, js, ws, cutoff, now) && w in q.idle && Flat(q) != []
    ensures var db := AssignAll(db0, js, ws, cutoff, now);
            var j := Flat(q)[0];
            && j !in js
            && (Ready(db.jobs, j, now) <==> Ready(db0.jobs, j, now))
            && (Dispatchable(db, w, cutoff) <==> Dispatchable(db0, w, cutoff))
  {
    hide Lane, Delivered, AssignAll, ReadyOf, HeldJobs, Flat, WorkerQueue;
    var n := |Flat(q0)| - |Flat(q)|;
    assert Flat(q0)[n] == Flat(q)[0];
    ReadyOfMembers(db0.jobs, Served(q0, q), now);
    AssignAllEffect(db0, js, ws, cutoff, now);
  }

  lemma SuffixAfterPop(q: Queue)
    requires QueueInv(q) && Flat(q) != []
    ensures Flat(PopNext(q).0) == Flat(q)[1..]
    ensures QueueInv(PopNext(q).0) && PopNext(q).0.idle == q.idle && PopNext(q).0.pushed == q.pushed
    ensures forall p :: IsSuffix(Lane(PopNext(q).0, p), Lane(q, p))
  {
    hide QueueInv, Flat;
    PopServesHead(q);
    forall p ensures IsSuffix(Lane(PopNext(q).0, p), Lane(q, p)) {
      PopShortensLane(q, p);
    }
  }

  lemma PopShortensLane(q: Queue, p: Priority)
    ensures IsSuffix(Lane(PopNext(q).0, p), Lane(q, p))
    ensures PopNext(q).0.idle == q.idle && PopNext(q).0.pushed == q.pushed
  {
    PoppedLane(q, p);
    hide Lane, PopNext;
    SuffixOfTail(Lane(q, p));
  }

  lemma PoppedLane(q: Queue, p: Priority)
    ensures Lane(PopNext(q).0, p) == Lane(q, p) || (Lane(q, p) != [] && Lane(PopNext(q).0, p) == Lane(q, p)[1..])
    ensures PopNext(q).0.idle == q.idle && PopNext(q).0.pushed == q.pushed
  {
  }

  lemma SuffixOfTail(lane: seq<JobId>)
    ensures IsSuffix(lane, lane) && (lane != [] ==> IsSuffix(lane[1..], lane))
  {
    assert lane[0..] == lane;
  }

  lemma PopIgnoresWorkers(q: Queue, idle: set<WorkerId>)
    ensures PopNext(q.(idle := idle)).0 == PopNext(q).0.(idle := idle)
    ensures PopNext(q).0.pushed == q.pushed
    ensures forall w :: WorkerQueue(PopNext(q.(idle := idle)).0, w) == WorkerQueue(q, w)
  {
  }

  lemma SuffixTransitive(a: seq<JobId>, b: seq<JobId>, c: seq<JobId>)
    requires IsSuffix(a, b) && IsSuffix(b, c)
    ensures IsSuffix(a, c)
  {
  }

  lemma ReadyOfOneMore(jobs: map<JobId, Job>, flat: seq<JobId>, n: nat, now: Time)
    requires n < |flat|
    ensures ReadyOf(jobs, flat[..n + 1], now)
         == ReadyOf(jobs, flat[..n], now) + if Ready(jobs, flat[n], now) then [flat[n]] else []
  {
    assert flat[..n + 1][..n] == flat[..n];
  }

  lemma SameLanes(q: Queue, q': Queue)
    requires q' == q.(idle := q'.idle, pushed := q'.pushed)
    ensures Flat(q') == Flat(q) && (forall p :: Lane(q', p) == Lane(q, p))
    ensures QueueInv(q') <==> QueueInv(q)
  {
  }

  /** A worker that cannot take work is dropped from the idle set. */
  lemma DropWorker(db0: Db, q0: Queue, q: Queue, js: seq<JobId>, ws: seq<WorkerId>, w: WorkerId, cutoff: Time,
                   now: Time)
    requires Progress(db0, q0, q, js, ws, cutoff, now) && !Dispatchable(db0, w, cutoff)
    ensures Progress(db0, q0, q.(idle := q.idle - {w}), js, ws, cutoff, now)
  {
    var q' := q.(idle := q.idle - {w});
    SameLanes(q, q');
    assert forall v :: WorkerQueue(q', v) == WorkerQueue(q, v);
  }

  /** The queue side of taking the next job. */
  lemma TakeNext(jobs: map<JobId, Job>, q0: Queue, q: Queue, now: Time)
    requires QueueInv(q0) && Drained(q0, q) && Flat(q) != []
    ensures var q' := PopNext(q).0;
            && Drained(q0, q') && |Flat(q')| == |Flat(q)| - 1
            && q'.idle == q.idle && q'.pushed == q.pushed
            && ReadyOf(jobs, Served(q0, q'), now) == ReadyOf(jobs, Served(q0, q), now) +
                 if Ready(jobs, Flat(q)[0], now) then [Flat(q)[0]] else []
  {
    hide Flat, Lane, PopNext, QueueInv, Ready;
    var q' := PopNext(q).0;
    var n := |Flat(q0)| - |Flat(q)|;
    SuffixAfterPop(q);
    SuffixTransitive(Flat(q'), Flat(q), Flat(q0));
    forall p ensures IsSuffix(Lane(q', p), Lane(q0, p)) {
      SuffixTransitive(Lane(q', p), Lane(q, p), Lane(q0, p));
    }
    assert Flat(q0)[n] == Flat(q)[0];
    ReadyOfOneMore(jobs, Flat(q0), n, now);
  }

  /** A job that is not ready is dropped from the queue. */
  lemma DropJob(db0: Db, q0: Queue, q: Queue, js: seq<JobId>, ws: seq<WorkerId>, cutoff: Time, now: Time)
    requires QueueInv(q0) && Progress(db0, q0, q, js, ws, cutoff, now)
    requires Flat(q) != [] && !Ready(db0.jobs, Flat(q)[0], now)
    ensures Progress(db0, q0, PopNext(q).0, js, ws, cutoff, now)
  {
    TakeNext(db0.jobs, q0, q, now);
    var q' := PopNext(q).0;
    assert forall v :: WorkerQueue(q', v) == WorkerQueue(q, v);
  }

  function Pushed(q: Queue, w: WorkerId, j: JobId): Queue {
    q.(pushed := q.pushed[w := WorkerQueue(q, w) + [j]])
  }

  lemma MatchedOneMore(db: Db, js: seq<JobId>, ws: seq<WorkerId>, j: JobId, w: WorkerId, cutoff: Time, now: Time)
    requires Matched(db, js, ws, cutoff, now) && j !in js && w !in ws
    requires Ready(db.jobs, j, now) && Dispatchable(db, w, cutoff)
    ensures Matched(db, js + [j], ws + [w], cutoff, now)
    ensures AssignAll(db, js + [j], ws + [w], cutoff, now)
         == Assign(AssignAll(db, js, ws, cutoff, now), j, w, cutoff, now)
  {
    var js', ws' := js + [j], ws + [w];
    assert js'[..|js|] == js && ws'[..|ws|] == ws;
  }

  lemma DeliveredOneMore(q0: Queue, q: Queue, q': Queue, js: seq<JobId>, ws: seq<WorkerId>, j: JobId, w: WorkerId)
    requires |js| == |ws| && w !in ws && Delivered(q0, q, js, ws)
    requires q'.pushed == q.pushed[w := WorkerQueue(q, w) + [j]]
    ensures Delivered(q0, q', js + [j], ws + [w])
  {
    assert forall v :: v != w ==> WorkerQueue(q', v) == WorkerQueue(q, v);
    assert forall i :: 0 <= i < |ws| ==> ws[i] in ws;
  }

  lemma CoveredOneMore(db0: Db, q0: Queue, q: Queue, q': Queue, ws: seq<WorkerId>, w: WorkerId, cutoff: Time)
    requires Covered(db0, q0, q, ws, cutoff) && w in q.idle && q.idle <= q0.idle && q'.idle == q.idle - {w}
    ensures Covered(db0, q0, q', ws + [w], cutoff)
  {
    assert forall v :: v in ws + [w] <==> v in ws || v == w;
  }

  /** A ready job goes to an able worker. */
  lemma Hand(db0: Db, q0: Queue, q: Queue, js: seq<JobId>, ws: seq<WorkerId>, w: WorkerId, cutoff: Time, now: Time)
    requires QueueInv(q0) && Progress(db0, q0, q, js, ws, cutoff, now)
    requires Flat(q) != [] && Ready(db0.jobs, Flat(q)[0], now) && Flat(q)[0] !in js
    requires w in q.idle && Dispatchable(db0, w, cutoff)
    ensures var j := Flat(q)[0];
            && Progress(db0, q0, Pushed(PopNext(q.(idle := q.idle - {w})).0, w, j), js + [j], ws + [w], cutoff, now)
            && AssignAll(db0, js + [j], ws + [w], cutoff, now)
               == Assign(AssignAll(db0, js, ws, cutoff, now), j, w, cutoff, now)
  {
    var j := Flat(q)[0];
    var q' := Pushed(PopNext(q.(idle := q.idle - {w})).0, w, j);
    HandedQueue(db0.jobs, q0, q, w, now);
    hide Dispatchable, Ready, Matched, QueueInv, PopNext, AssignAll, Assign, ReadyOf, Delivered, WorkerQueue;
    hide Flat, Lane, Drained, Served, Pushed;
    assert w !in ws;
    MatchedOneMore(db0, js, ws, j, w, cutoff, now);
    DeliveredOneMore(q0, q, q', js, ws, j, w);
    CoveredOneMore(db0, q0, q, q', ws, w, cutoff);
  }

  lemma HandedQueue(jobs: map<JobId, Job>, q0: Queue, q: Queue, w: WorkerId, now: Time)
    requires QueueInv(q0) && Drained(q0, q) && Flat(q) != [] && w in q.idle
    ensures var j := Flat(q)[0];
            var q' := Pushed(PopNext(q.(idle := q.idle - {w})).0, w, j);
            && Drained(q0, q') && |Flat(q')| == |Flat(q)| - 1 && q.idle <= q0.idle
            && q'.idle == q.idle - {w} && q'.pushed == q.pushed[w := WorkerQueue(q, w) + [j]]
            && ReadyOf(jobs, Served(q0, q'), now) == ReadyOf(jobs, Served(q0, q), now) +
                 if Ready(jobs, j, now) then [j] else []
  {
    hide Flat, Lane, IsSuffix, Ready, PopNext, QueueInv, ReadyOf;
    var popped := PopNext(q).0;
    var q' := Pushed(PopNext(q.(idle := q.idle - {w})).0, w, Flat(q)[0]);
    TakeNext(jobs, q0, q, now);
    PopIgnoresWorkers(q, q.idle - {w});
    SameLanes(popped, q');
  }

  lemma {:induction false} DistinctCard<T>(s: seq<T>, all: set<T>)
    requires Distinct(s) && forall x :: x in s ==> x in all
    ensures |s| <= |all|
    ensures (forall x :: x in all ==> x in s) ==> |s| == |all|
  {
    if s != [] {
      var n := |s| - 1;
      DistinctCard(s[..n], all - {s[n]});
    } else if forall x :: x in all ==> x in s {
      assert all == {};
    }
  }

  /** When idle workers or queued jobs have run out, exactly the first min(workers, ready jobs) were handed out. */
  lemma PassIsComplete(db0: Db, q0: Queue, q: Queue, js: seq<JobId>, ws: seq<WorkerId>, cutoff: Time, now: Time)
    requires Progress(db0, q0, q, js, ws, cutoff, now)
    requires q.idle == {} || Flat(q) == []
    ensures var ready := ReadyOf(db0.jobs, Flat(q0), now);
            var able := |AbleWorkers(db0, q0.idle, cutoff)|;
            && js <= ready
            && |js| == if |ready| <= able then |ready| else able
  {
    var ready := ReadyOf(db0.jobs, Flat(q0), now);
    var able := AbleWorkers(db0, q0.idle, cutoff);
    var n := |Flat(q0)| - |Flat(q)|;
    ReadyOfPrefix(db0.jobs, Flat(q0), n, now);
    DistinctCard(ws, able);
    if q.idle != {} {
      assert Flat(q0)[..n] == Flat(q0);
    }
  }

  lemma {:induction false} ReadyOfConcat(jobs: map<JobId, Job>, a: seq<JobId>, b: seq<JobId>, now: Time)
    ensures ReadyOf(jobs, a + b, now) == ReadyOf(jobs, a, now) + ReadyOf(jobs, b, now)
  {
    if b == [] {
      assert a + b == a;
    } else {
      assert (a + b)[..|a + b| - 1] == a + b[..|b| - 1];
      ReadyOfConcat(jobs, a, b[..|b| - 1], now);
    }
  }

  /**
   * Conservation: the ready jobs of the queue are the handed-out ones followed by those still queued, in the old
   * order; the former are scheduled to their own workers and the latter are as they were.
   */
  lemma NothingIsLost(db0: Db, q0: Queue, q: Queue, js: seq<JobId>, ws: seq<WorkerId>, cutoff: Time, now: Time)
    requires QueueInv(q0) && Progress(db0, q0, q, js, ws, cutoff, now)
    ensures var db := AssignAll(db0, js, ws, cutoff, now);
            && ReadyOf(db0.jobs, Flat(q0), now) == js + ReadyOf(db0.jobs, Flat(q), now)
            && Moved(db0, db, js, ws, now)
            && (forall j :: j in Flat(q) && j in db0.jobs ==> j in db.jobs && db.jobs[j] == db0.jobs[j])
  {
    var served := Served(q0, q);
    assert Flat(q0) == served + Flat(q);
    ReadyOfConcat(db0.jobs, served, Flat(q), now);
    AssignAllEffect(db0, js, ws, cutoff, now);
    DistinctParts(served, Flat(q));
    ReadyOfMembers(db0.jobs, served, now);
  }

  /** When the queue ran out, no job of it is ready any more. */
  lemma DrainedMeansNoneReady(db0: Db, q0: Queue, q: Queue, js: seq<JobId>, ws: seq<WorkerId>, cutoff: Time, now: Time)
    requires Progress(db0, q0, q, js, ws, cutoff, now) && Flat(q) == []
    requires forall j :: Ready(db0.jobs, j, now) ==> j in Flat(q0)
    ensures forall j :: !Ready(AssignAll(db0, js, ws, cutoff, now).jobs, j, now)
  {
    var db := AssignAll(db0, js, ws, cutoff, now);
    assert Served(q0, q) == Flat(q0);
    ReadyOfMembers(db0.jobs, Flat(q0), now);
    AssignAllEffect(db0, js, ws, cutoff, now);
    forall j ensures !Ready(db.jobs, j, now) {
      if j in js {
        var i :| 0 <= i < |js| && js[i] == j;
        assert db.jobs[j] == ScheduledJob(db0.jobs[j], ws[i], db0.workers[ws[i]].gpuSlot, now);
      }
    }
  }

  // ---------------------------------------------------------------- a failed push

  /** Gives batch `batch`, if there is one, a new time stamp. */
  function Stamped(batches: map<BatchId, Batch>, batch: Option<BatchId>, now: Time): map<BatchId, Batch> {
    map b | b in batches :: if batch == Some(b) then batches[b].(updatedAt := now) else batches[b]
  }

  /**
   * What an undone handing-out of `j` to `w` leaves behind: one closed attempt, time stamps, and no trace of an
   * earlier failure. The job is queued and the worker idle as before.
   */
  function RolledBack(db: Db, j: JobId, w: WorkerId, now: Time): Db
    requires j in db.jobs && w in db.workers
  {
    Db(db.jobs[j := db.jobs[j].(gpuSlot := None, failure := None, nextRetryAt := None, updatedAt := now)],
       db.workers[w := db.workers[w].(runningJobId := None)],
       db.rows + [Assignment(j, w, now, None, Some(now))],
       Stamped(db.batches, db.jobs[j].batchId, now))
  }

  lemma RevertingFreshAssignment(db: Db, j: JobId, w: WorkerId, cutoff: Time, now: Time)
    requires Dispatchable(db, w, cutoff) && Ready(db.jobs, j, now)
    requires JobOk(db.jobs[j])
    ensures var after := Revert(Assign(db, j, w, cutoff, now), j, w, now);
            && after.jobs == RolledBack(db, j, w, now).jobs
            && after.workers == RolledBack(db, j, w, now).workers
            && after.rows == CloseRows(db.rows + [Assignment(j, w, now, None, None)], {j}, now)
  {
    hide HeldJobs, CloseRows, Refresh, BatchesOf;
    var mid := Assign(db, j, w, cutoff, now);
    var after := Revert(mid, j, w, now);
    var job := ScheduledJob(db.jobs[j], w, db.workers[w].gpuSlot, now);
    assert mid.jobs[j] == job;
    assert mid.workers[w] == db.workers[w].(status := Busy, runningJobId := Some(j));
    assert after.jobs == db.jobs[j := BackToQueue(job, now)];
    assert after.workers == db.workers[w := ReleasedWorker(mid.workers[w], j)];
  }

  lemma RefreshedTwice(db: Db, j: JobId, w: WorkerId, cutoff: Time, now: Time)
    requires Dispatchable(db, w, cutoff) && Ready(db.jobs, j, now)
    ensures var mid := Assign(db, j, w, cutoff, now);
            var after := Revert(mid, j, w, now);
            var touched := BatchesOf(map[j := db.jobs[j]]);
            after.batches == Refresh(Refresh(db.batches, mid.jobs, touched, now), after.jobs, touched, now)
  {
    hide HeldJobs, CloseRows, Present, Refresh;
    var job := ScheduledJob(db.jobs[j], w, db.workers[w].gpuSlot, now);
    assert Assign(db, j, w, cutoff, now).jobs[j] == job;
    OneBatch(j, db.jobs[j]);
    OneBatch(j, job);
    OneBatch(j, BackToQueue(job, now));
    hide BatchesOf;
  }

  lemma OneBatch(j: JobId, job: Job)
    ensures BatchesOf(map[j := job]) == if job.batchId.Some? then {job.batchId.value} else {}
  {
    assert j in map[j := job];
  }

  /** Reverting a fresh assignment gives back the job, the worker, every batch status and the old attempts. */
  lemma FailedPushRollsBack(db: Db, j: JobId, w: WorkerId, cutoff: Time, now: Time)
    requires StoreInv(db) && Dispatchable(db, w, cutoff) && Ready(db.jobs, j, now)
    ensures Revert(Assign(db, j, w, cutoff, now), j, w, now) == RolledBack(db, j, w, now)
  {
    hide Assign, Revert, CloseRows, RowsOk, OpenUnique, ScheduledHaveRow, AttemptsOk, Dispatchable, Present, BatchesOf;
    var after := Revert(Assign(db, j, w, cutoff, now), j, w, now);
    RevertingFreshAssignment(db, j, w, cutoff, now);
    RefreshedTwice(db, j, w, cutoff, now);
    RolledBackRows(db, j, w, cutoff, now);
    RolledBackStatuses(db, after, j);
    OneBatch(j, db.jobs[j]);
    assert after.batches == Stamped(db.batches, db.jobs[j].batchId, now);
  }

  /** After the rollback every job is ready whenever it was, and the worker is as before if it pointed at no job. */
  lemma RollbackIsInvisible(db: Db, j: JobId, w: WorkerId, now: Time)
    requires w in db.workers && Ready(db.jobs, j, now)
    ensures var after := RolledBack(db, j, w, now);
            && (after.workers == db.workers <==> db.workers[w].runningJobId.None?)
            && (forall k, later :: now <= later ==> (Ready(after.jobs, k, later) <==> Ready(db.jobs, k, later)))
            && after.jobs[j].status == db.jobs[j].status && after.jobs[j].assignee == db.jobs[j].assignee
            && after.jobs[j].retryCount == db.jobs[j].retryCount
            && (forall v :: HeldJobs(after.jobs, v) == HeldJobs(db.jobs, v))
            && (forall b :: b in db.batches ==> after.batches[b].status == db.batches[b].status)
            && OpenJobs(after.rows) == OpenJobs(db.rows)
  {
    var after := RolledBack(db, j, w, now);
    assert after.workers[w] == db.workers[w].(runningJobId := None);
    forall k | k in OpenJobs(db.rows) ensures k in OpenJobs(after.rows) {
      var i :| 0 <= i < |db.rows| && IsOpen(db.rows[i]) && db.rows[i].jobId == k;
      assert after.rows[i] == db.rows[i];
    }
  }

  lemma RolledBackRows(db: Db, j: JobId, w: WorkerId, cutoff: Time, now: Time)
    requires StoreInv(db) && Dispatchable(db, w, cutoff) && Ready(db.jobs, j, now)
    ensures CloseRows(db.rows + [Assignment(j, w, now, None, None)], {j}, now)
         == db.rows + [Assignment(j, w, now, None, Some(now))]
  {
    AssignFindsNoOpenRow(db, j, w, cutoff, now);
  }

  /** A job that ends with its old status and batch leaves every batch verdict as it was. */
  lemma RolledBackStatuses(db: Db, after: Db, j: JobId)
    requires j in db.jobs && after.jobs.Keys == db.jobs.Keys
    requires forall k :: k in db.jobs ==>
               after.jobs[k].status == db.jobs[k].status && after.jobs[k].batchId == db.jobs[k].batchId
    ensures forall b :: Present(after.jobs, b) == Present(db.jobs, b)
  {
    forall b ensures Present(after.jobs, b) == Present(db.jobs, b) {
      forall s | s in Present(after.jobs, b) ensures s in Present(db.jobs, b) {
        var k :| k in after.jobs && after.jobs[k].batchId == Some(b) && after.jobs[k].status == s;
        assert db.jobs[k].status == s;
      }
      forall s | s in Present(db.jobs, b) ensures s in Present(after.jobs, b) {
        var k :| k in db.jobs && db.jobs[k].batchId == Some(b) && db.jobs[k].status == s;
        assert after.jobs[k].status == s;
      }
    }
  }

  /** On the queue side the same rollback restores every key. */
  lemma FailedPushRestoresQueue(q: Queue, w: WorkerId)
    requires QueueInv(q) && w in q.idle && Flat(q) != []
    ensures var (popped, next) := PopNext(q.(idle := q.idle - {w}));
            var back := RequeueFront(popped, next.value.0, next.value.1);
            back.(idle := back.idle + {w}) == q
  {
    PopThenRequeue(q);
    assert q.idle - {w} + {w} == q.idle;
  }
}
