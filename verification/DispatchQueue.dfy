/** The Redis side of dispatch: three priority lists, the enqueued set, the idle set, one queue per worker. */
module DispatchQueue {
  import opened Schema
  import opened Transitions

  /** A reading of the queue keys. A worker without a queue key has an empty queue. */
  datatype Queue = Queue(
    high: seq<JobId>,
    normal: seq<JobId>,
    low: seq<JobId>,
    enqueued: set<JobId>,
    idle: set<WorkerId>,
    pushed: map<WorkerId, seq<JobId>>)

  const EMPTY_QUEUE: Queue := Queue([], [], [], {}, {}, map[])

  /** The order in which jobs leave the queue. */
  function Flat(q: Queue): seq<JobId> {
    q.high + q.normal + q.low
  }

  function Lane(q: Queue, p: Priority): seq<JobId> {
    match p
    case High => q.high
    case Normal => q.normal
    case Low => q.low
  }

  function WithLane(q: Queue, p: Priority, lane: seq<JobId>): Queue {
    match p
    case High => q.(high := lane)
    case Normal => q.(normal := lane)
    case Low => q.(low := lane)
  }

  function WorkerQueue(q: Queue, w: WorkerId): seq<JobId> {
    if w in q.pushed then q.pushed[w] else []
  }

  /** The dedup set holds exactly the listed ids, and no id is listed twice. */
  ghost predicate QueueInv(q: Queue) {
    && Distinct(Flat(q))
    && forall j :: j in q.enqueued <==> j in Flat(q)
  }

  // ---------------------------------------------------------------- enqueueing

  function EnqueueOne(q: Queue, j: JobId, p: Priority): Queue {
    if j in q.enqueued then q
    else WithLane(q, p, Lane(q, p) + [j]).(enqueued := q.enqueued + {j})
  }

  function EnqueueAll(q: Queue, items: seq<(JobId, Priority)>): Queue {
    if items == [] then q
    else
      var last := items[|items| - 1];
      EnqueueOne(EnqueueAll(q, items[..|items| - 1]), last.0, last.1)
  }

  lemma DistinctParts(a: seq<JobId>, b: seq<JobId>)
    ensures Distinct(a + b) <==> Distinct(a) && Distinct(b) && (forall j :: j in a ==> j !in b)
  {
    if Distinct(a + b) {
      forall i, k | 0 <= i < k < |a| ensures a[i] != a[k] {
        assert (a + b)[i] == a[i] && (a + b)[k] == a[k];
      }
      forall i, k | 0 <= i < k < |b| ensures b[i] != b[k] {
        assert (a + b)[|a| + i] == b[i] && (a + b)[|a| + k] == b[k];
      }
      forall j | j in a ensures j !in b {
        var i :| 0 <= i < |a| && a[i] == j;
        assert (a + b)[i] == j;
        assert forall k :: 0 <= k < |b| ==> (a + b)[|a| + k] == b[k];
      }
    }
    if Distinct(a) && Distinct(b) && forall j :: j in a ==> j !in b {
      forall i, k | 0 <= i < k < |a + b| ensures (a + b)[i] != (a + b)[k] {
        if i < |a| <= k {
          assert a[i] in a && b[k - |a|] in b;
        }
      }
    }
  }

  /** Distinctness of the three lanes, spelled out. */
  lemma DistinctLanes(q: Queue)
    ensures Distinct(Flat(q)) <==>
              && Distinct(q.high) && Distinct(q.normal) && Distinct(q.low)
              && (forall j :: j in q.high ==> j !in q.normal && j !in q.low)
              && (forall j :: j in q.normal ==> j !in q.low)
  {
    DistinctParts(q.high + q.normal, q.low);
    DistinctParts(q.high, q.normal);
  }

  lemma EnqueueOneKeepsInv(q: Queue, j: JobId, p: Priority)
    requires QueueInv(q)
    ensures QueueInv(EnqueueOne(q, j, p))
    ensures forall k :: k in Flat(EnqueueOne(q, j, p)) <==> k in Flat(q) || k == j
  {
    DistinctLanes(q);
    DistinctLanes(EnqueueOne(q, j, p));
    DistinctParts(Lane(q, p), [j]);
  }

  /** Enqueueing any list, repetitions included, keeps the queue duplicate free and adds exactly its ids. */
  lemma {:induction false} EnqueueAllKeepsInv(q: Queue, items: seq<(JobId, Priority)>)
    requires QueueInv(q)
    ensures QueueInv(EnqueueAll(q, items))
    ensures forall j :: j in Flat(EnqueueAll(q, items)) <==> j in Flat(q) || j in Ids(items)
  {
    if items != [] {
      var init, last := items[..|items| - 1], items[|items| - 1];
      EnqueueAllKeepsInv(q, init);
      EnqueueOneKeepsInv(EnqueueAll(q, init), last.0, last.1);
      assert Ids(items) == Ids(init) + [last.0];
    } else {
      assert Ids(items) == [];
    }
  }

  lemma {:induction false} EnqueueTwice(q: Queue, first: seq<(JobId, Priority)>, second: seq<(JobId, Priority)>)
    ensures EnqueueAll(EnqueueAll(q, first), second) == EnqueueAll(q, first + second)
  {
    if second == [] {
      assert first + second == first;
    } else {
      var both, n := first + second, |second| - 1;
      assert both[..|both| - 1] == first + second[..n];
      EnqueueTwice(q, first, second[..n]);
    }
  }

  /** Enqueueing only appends: every lane keeps what it had in front. */
  lemma {:induction false} EnqueueAllAppends(q: Queue, items: seq<(JobId, Priority)>, p: Priority)
    ensures Lane(q, p) <= Lane(EnqueueAll(q, items), p)
    ensures EnqueueAll(q, items).idle == q.idle && EnqueueAll(q, items).pushed == q.pushed
  {
    if items != [] {
      EnqueueAllAppends(q, items[..|items| - 1], p);
    }
  }

  /** Into an empty queue, a list ordered by priority goes in unchanged. */
  lemma {:induction false} EnqueueSorted(q: Queue, items: seq<(JobId, Priority)>)
    requires Flat(q) == [] && q.enqueued == {}
    requires Distinct(Ids(items))
    requires forall i, k :: 0 <= i < k < |items| ==> Rank(items[k].1) <= Rank(items[i].1)
    ensures Flat(EnqueueAll(q, items)) == Ids(items)
    ensures forall j :: j in EnqueueAll(q, items).enqueued <==> j in Ids(items)
    ensures forall p :: Lane(EnqueueAll(q, items), p) != [] ==> items != [] && Rank(items[|items| - 1].1) <= Rank(p)
  {
    if items != [] {
      var init, last := items[..|items| - 1], items[|items| - 1];
      assert Ids(items) == Ids(init) + [last.0];
      DistinctParts(Ids(init), [last.0]);
      EnqueueSorted(q, init);
      var before := EnqueueAll(q, init);
      match last.1 {
        case High =>
          assert before.normal == before.low == [] by { assert Lane(before, Normal) == Lane(before, Low) == []; }
        case Normal => assert before.low == [] by { assert Lane(before, Low) == []; }
        case Low =>
      }
    } else {
      assert Lane(q, High) == Lane(q, Normal) == Lane(q, Low) == [];
    }
  }

  // ---------------------------------------------------------------- what enqueueing leaves in each list

  /** Position `i` is where job `j` occurs first. */
  predicate FirstAt(items: seq<(JobId, Priority)>, i: int, j: JobId) {
    0 <= i < |items| && items[i].0 == j && forall k :: 0 <= k < i ==> items[k].0 != j
  }

  /**
   * The list of priority `p` has grown by `added`: the jobs that were not known before and occur first with that
   * priority, in the order of these occurrences.
   */
  ghost predicate Grows(before: seq<JobId>, after: seq<JobId>, added: seq<JobId>, known: set<JobId>,
                        items: seq<(JobId, Priority)>, p: Priority) {
    && after == before + added
    && (forall j :: j in added <==> j !in known && exists i :: FirstAt(items, i, j) && items[i].1 == p)
    && (forall a, b, i, k :: 0 <= a < b < |added| && FirstAt(items, i, added[a]) && FirstAt(items, k, added[b]) ==>
          i < k)
  }

  ghost predicate ListGrows(before: seq<JobId>, after: seq<JobId>, known: set<JobId>, items: seq<(JobId, Priority)>,
                            p: Priority) {
    exists added :: Grows(before, after, added, known, items, p)
  }

  lemma FirstAtOneMore(init: seq<(JobId, Priority)>, last: (JobId, Priority))
    ensures forall i, j :: FirstAt(init + [last], i, j) <==>
              FirstAt(init, i, j) || (i == |init| && j == last.0 && j !in Ids(init))
  {
    var items := init + [last];
    assert forall k :: 0 <= k < |init| ==> Ids(init)[k] == init[k].0 && items[k] == init[k];
    forall i, j ensures FirstAt(items, i, j) <==>
                          FirstAt(init, i, j) || (i == |init| && j == last.0 && j !in Ids(init))
    {
      if j in Ids(init) {
        var k :| 0 <= k < |init| && Ids(init)[k] == j;
        assert items[k].0 == j;
      }
    }
  }

  lemma {:induction false} KnownAfter(q: Queue, items: seq<(JobId, Priority)>)
    ensures forall j :: j in EnqueueAll(q, items).enqueued <==> j in q.enqueued || j in Ids(items)
  {
    if items != [] {
      var init, last := items[..|items| - 1], items[|items| - 1];
      KnownAfter(q, init);
      assert Ids(items) == Ids(init) + [last.0];
    }
  }

  /** A job that occurs occurs first somewhere. */
  lemma {:induction false} OccursFirst(items: seq<(JobId, Priority)>, j: JobId) returns (i: nat)
    requires j in Ids(items)
    ensures FirstAt(items, i, j)
  {
    i := 0;
    while items[i].0 != j
      invariant i < |items| && (forall k :: 0 <= k < i ==> items[k].0 != j)
      invariant exists k :: i <= k < |items| && items[k].0 == j
      decreases |items| - i
    {
      i := i + 1;
    }
  }

  /** Enqueueing any list into any queue appends to each list what belongs there. */
  lemma {:induction false} EveryListGrows(q: Queue, items: seq<(JobId, Priority)>, p: Priority)
    returns (added: seq<JobId>)
    ensures Grows(Lane(q, p), Lane(EnqueueAll(q, items), p), added, q.enqueued, items, p)
  {
    if items == [] {
      added := [];
      assert Lane(q, p) + [] == Lane(q, p);
    } else {
      var init, last := items[..|items| - 1], items[|items| - 1];
      assert items == init + [last];
      added := EveryListGrows(q, init, p);
      KnownAfter(q, init);
      FirstAtOneMore(init, last);
      if last.0 !in EnqueueAll(q, init).enqueued && last.1 == p {
        GrowsOneMore(Lane(q, p), Lane(EnqueueAll(q, init), p), added, q.enqueued, init, last, p);
        added := added + [last.0];
      } else {
        GrowsNoMore(Lane(q, p), Lane(EnqueueAll(q, init), p), added, q.enqueued, init, last, p);
      }
    }
  }

  lemma GrowsOneMore(before: seq<JobId>, after: seq<JobId>, added: seq<JobId>, known: set<JobId>,
                     init: seq<(JobId, Priority)>, last: (JobId, Priority), p: Priority)
    requires Grows(before, after, added, known, init, p)
    requires last.0 !in known && last.0 !in Ids(init) && last.1 == p
    ensures Grows(before, after + [last.0], added + [last.0], known, init + [last], p)
  {
    var items, more := init + [last], added + [last.0];
    FirstAtOneMore(init, last);
    assert FirstAt(items, |init|, last.0);
    assert forall i :: 0 <= i < |init| ==> items[i] == init[i];
    forall j ensures j in more <==> j !in known && exists i :: FirstAt(items, i, j) && items[i].1 == p {
      if j in added {
        var i :| FirstAt(init, i, j) && init[i].1 == p;
        assert FirstAt(items, i, j);
      }
    }
    hide FirstAt;
    forall a, b, i, k | 0 <= a < b < |more| && FirstAt(items, i, more[a]) && FirstAt(items, k, more[b])
      ensures i < k
    {
      assert more[a] == added[a] && added[a] in added;
    }
  }

  lemma GrowsNoMore(before: seq<JobId>, after: seq<JobId>, added: seq<JobId>, known: set<JobId>,
                    init: seq<(JobId, Priority)>, last: (JobId, Priority), p: Priority)
    requires Grows(before, after, added, known, init, p)
    requires last.0 in known || last.0 in Ids(init) || last.1 != p
    ensures Grows(before, after, added, known, init + [last], p)
  {
    var items := init + [last];
    FirstAtOneMore(init, last);
    assert forall i :: 0 <= i < |init| ==> items[i] == init[i];
    forall j ensures j in added <==> j !in known && exists i :: FirstAt(items, i, j) && items[i].1 == p {
      if j in added {
        var i :| FirstAt(init, i, j) && init[i].1 == p;
        assert FirstAt(items, i, j);
      }
    }
    forall a, b, i, k | 0 <= a < b < |added| && FirstAt(items, i, added[a]) && FirstAt(items, k, added[b])
      ensures i < k
    {
      assert added[a] in added && added[b] in added;
      var i0 :| FirstAt(init, i0, added[a]);
      var k0 :| FirstAt(init, k0, added[b]);
      assert FirstAt(items, i0, added[a]) && FirstAt(items, k0, added[b]);
    }
  }

  /** All three lists, and the dedup set. */
  lemma EnqueueAllGrows(q: Queue, items: seq<(JobId, Priority)>)
    ensures var after := EnqueueAll(q, items);
            && ListGrows(q.high, after.high, q.enqueued, items, High)
            && ListGrows(q.normal, after.normal, q.enqueued, items, Normal)
            && ListGrows(q.low, after.low, q.enqueued, items, Low)
            && (forall j :: j in after.enqueued <==> j in q.enqueued || exists i :: FirstAt(items, i, j))
            && after.idle == q.idle && after.pushed == q.pushed
  {
    var high := EveryListGrows(q, items, High);
    var normal := EveryListGrows(q, items, Normal);
    var low := EveryListGrows(q, items, Low);
    KnownAfter(q, items);
    EnqueueAllAppends(q, items, High);
    hide EnqueueAll, Grows;
    forall j ensures j in Ids(items) <==> exists i :: FirstAt(items, i, j) {
      if j in Ids(items) {
        var i := OccursFirst(items, j);
      } else {
        assert forall i :: 0 <= i < |items| ==> Ids(items)[i] == items[i].0;
      }
    }
  }

  // ---------------------------------------------------------------- popping

  /** The first nonempty lane. */
  function FrontLane(q: Queue): Option<Priority> {
    if q.high != [] then Some(High)
    else if q.normal != [] then Some(Normal)
    else if q.low != [] then Some(Low)
    else None
  }

  function PopNext(q: Queue): (Queue, Option<(JobId, Priority)>) {
    match FrontLane(q)
    case None => (q, None)
    case Some(p) =>
      var j := Lane(q, p)[0];
      (WithLane(q, p, Lane(q, p)[1..]).(enqueued := q.enqueued - {j}), Some((j, p)))
  }

  function RequeueFront(q: Queue, j: JobId, p: Priority): Queue {
    WithLane(q, p, [j] + Lane(q, p)).(enqueued := q.enqueued + {j})
  }

  /** Popping serves the head of the flat order and removes nothing else. */
  lemma PopServesHead(q: Queue)
    requires QueueInv(q)
    ensures var (after, popped) := PopNext(q);
            && QueueInv(after)
            && (popped.None? <==> Flat(q) == [])
            && (popped.None? ==> after == q)
            && (popped.Some? ==> Flat(q) == [popped.value.0] + Flat(after) && popped.value.0 !in after.enqueued)
  {
    if Flat(q) != [] {
      var (after, popped) := PopNext(q);
      assert Flat(q) == [popped.value.0] + Flat(after);
      DistinctParts([popped.value.0], Flat(after));
    }
  }

  /** Pop followed by requeue-front restores the queue exactly. */
  lemma PopThenRequeue(q: Queue)
    requires QueueInv(q) && Flat(q) != []
    ensures var (after, popped) := PopNext(q); RequeueFront(after, popped.value.0, popped.value.1) == q
  {
    var (after, popped) := PopNext(q);
    assert popped.value.0 in Flat(q);
  }

  /** Requeueing in front is safe exactly for an id that is not queued. */
  lemma RequeueFrontKeepsInvExactly(q: Queue, j: JobId, p: Priority)
    requires QueueInv(q)
    ensures QueueInv(RequeueFront(q, j, p)) <==> j !in q.enqueued
  {
    var after := RequeueFront(q, j, p);
    DistinctLanes(q);
    DistinctLanes(after);
    DistinctParts([j], Lane(q, p));
    assert forall k :: k in Flat(after) <==> k in Flat(q) || k == j;
  }

  /** The first id of the first nonempty list comes out, with the priority of that list. */
  ghost predicate Popped(before: Queue, after: Queue, next: Option<(JobId, Priority)>) {
    && after.idle == before.idle && after.pushed == before.pushed
    && match next
       case None => before.high == before.normal == before.low == [] && after == before
       case Some((j, p)) =>
         && after.enqueued == before.enqueued - {j}
         && match p
            case High => before.high == [j] + after.high && after.normal == before.normal && after.low == before.low
            case Normal =>
              before.high == after.high == [] && before.normal == [j] + after.normal && after.low == before.low
            case Low =>
              before.high == after.high == [] && before.normal == after.normal == [] && before.low == [j] + after.low
  }

  /** The id goes in front of the list of its priority, and into the dedup set. */
  ghost predicate PushedInFront(before: Queue, after: Queue, j: JobId, p: Priority) {
    && after.enqueued == before.enqueued + {j} && after.idle == before.idle && after.pushed == before.pushed
    && after.high == (if p.High? then [j] + before.high else before.high)
    && after.normal == (if p.Normal? then [j] + before.normal else before.normal)
    && after.low == (if p.Low? then [j] + before.low else before.low)
  }

  class RedisDispatchQueue {
    var high: seq<JobId>
    var normal: seq<JobId>
    var low: seq<JobId>
    var enqueued: set<JobId>
    var idle: set<WorkerId>
    var pushed: map<WorkerId, seq<JobId>>

    ghost function State(): Queue
      reads this
    {
      Queue(high, normal, low, enqueued, idle, pushed)
    }

    constructor ()
      ensures State() == EMPTY_QUEUE
    {
      high, normal, low, enqueued, idle, pushed := [], [], [], {}, {}, map[];
    }

    method RightPush(p: Priority, j: JobId)
      modifies this`high, this`normal, this`low
      ensures State() == WithLane(old(State()), p, Lane(old(State()), p) + [j])
    {
      match p {
        case High => high := high + [j];
        case Normal => normal := normal + [j];
        case Low => low := low + [j];
      }
    }

    /** The ids enter the dedup set at once; the list pushes are piped and executed after the loop. */
    method EnqueueJobs(items: seq<(JobId, Priority)>)
      modifies this
      ensures State() == EnqueueAll(old(State()), items)
      ensures ListGrows(old(high), high, old(enqueued), items, High)
      ensures ListGrows(old(normal), normal, old(enqueued), items, Normal)
      ensures ListGrows(old(low), low, old(enqueued), items, Low)
      ensures forall j :: j in enqueued <==> j in old(enqueued) || exists i :: FirstAt(items, i, j)
      ensures idle == old(idle) && pushed == old(pushed)
    {
      hide ListGrows, FirstAt;
      EnqueueAllGrows(State(), items);
      ghost var q := State();
      var pipe: seq<(JobId, Priority)> := [];
      for i := 0 to |items|
        invariant State() == q.(enqueued := EnqueueAll(q, items[..i]).enqueued)
        invariant AppendAll(q, pipe) == EnqueueAll(q, items[..i]).(enqueued := q.enqueued)
      {
        var (j, p) := items[i];
        assert items[..i + 1][..i] == items[..i];
        if j !in enqueued {
          enqueued := enqueued + {j};
          assert (pipe + [(j, p)])[..|pipe|] == pipe;
          pipe := pipe + [(j, p)];
        }
      }
      assert items[..|items|] == items;
      ghost var after := State();
      for i := 0 to |pipe|
        invariant State() == AppendAll(after, pipe[..i])
      {
        assert pipe[..i + 1][..i] == pipe[..i];
        RightPush(pipe[i].1, pipe[i].0);
      }
      assert pipe[..|pipe|] == pipe;
      AppendIgnoresSet(q, after.enqueued, pipe);
    }

    method AnnounceWorkerIdle(w: WorkerId)
      modifies this`idle
      ensures State() == old(State()).(idle := old(idle) + {w})
    {
      idle := idle + {w};
    }

    method RequeueIdleWorker(w: WorkerId)
      modifies this`idle
      ensures State() == old(State()).(idle := old(idle) + {w})
    {
      idle := idle + {w};
    }

    method MarkWorkerBusy(w: WorkerId)
      modifies this`idle
      ensures State() == old(State()).(idle := old(idle) - {w})
    {
      idle := idle - {w};
    }

    /** Any member of the idle set may come out. */
    method PopIdleWorker() returns (w: Option<WorkerId>)
      modifies this`idle
      ensures w.None? <==> old(idle) == {}
      ensures w.Some? ==> w.value in old(idle) && State() == old(State()).(idle := old(idle) - {w.value})
      ensures w.None? ==> State() == old(State())
    {
      if idle == {} {
        return None;
      }
      var x :| x in idle;
      idle := idle - {x};
      w := Some(x);
    }

    method PopNextJob() returns (next: Option<(JobId, Priority)>)
      modifies this`high, this`normal, this`low, this`enqueued
      ensures (State(), next) == PopNext(old(State()))
      ensures Popped(old(State()), State(), next)
    {
      if high != [] {
        next := Some((high[0], High));
        enqueued := enqueued - {high[0]};
        high := high[1..];
      } else if normal != [] {
        next := Some((normal[0], Normal));
        enqueued := enqueued - {normal[0]};
        normal := normal[1..];
      } else if low != [] {
        next := Some((low[0], Low));
        enqueued := enqueued - {low[0]};
        low := low[1..];
      } else {
        next := None;
      }
    }

    method RequeueJobFront(j: JobId, p: Priority)
      modifies this`high, this`normal, this`low, this`enqueued
      ensures State() == RequeueFront(old(State()), j, p)
      ensures PushedInFront(old(State()), State(), j, p)
    {
      enqueued := enqueued + {j};
      match p {
        case High => high := [j] + high;
        case Normal => normal := [j] + normal;
        case Low => low := [j] + low;
      }
    }

    /** May fail before Redis accepts the push; then nothing has changed. */
    method PushWorkerJob(w: WorkerId, j: JobId, fails: bool) returns (raised: bool)
      modifies this`pushed
      ensures raised == fails
      ensures raised ==> State() == old(State())
      ensures !raised ==> State() == old(State()).(pushed := old(pushed)[w := WorkerQueue(old(State()), w) + [j]])
    {
      raised := fails;
      if !raised {
        var queue := if w in pushed then pushed[w] else [];
        pushed := pushed[w := queue + [j]];
      }
    }

    method PopWorkerJob(w: WorkerId) returns (j: Option<JobId>)
      modifies this`pushed
      ensures j.None? <==> WorkerQueue(old(State()), w) == []
      ensures j.Some? ==> WorkerQueue(old(State()), w) == [j.value] + WorkerQueue(State(), w)
      ensures forall v :: v != w ==> WorkerQueue(State(), v) == WorkerQueue(old(State()), v)
      ensures State() == old(State()).(pushed := pushed)
    {
      if w !in pushed || pushed[w] == [] {
        return None;
      }
      j := Some(pushed[w][0]);
      pushed := pushed[w := pushed[w][1..]];
    }

    method ClearDispatchState()
      modifies this
      ensures State() == EMPTY_QUEUE
      ensures high == normal == low == [] && enqueued == {} && idle == {} && pushed == map[]
    {
      idle, enqueued := {}, {};
      high, normal, low := [], [], [];
      pushed := map[];
    }
  }

  /** The piped pushes, without touching the dedup set. */
  ghost function AppendAll(q: Queue, items: seq<(JobId, Priority)>): Queue {
    if items == [] then q
    else
      var before := AppendAll(q, items[..|items| - 1]);
      var last := items[|items| - 1];
      WithLane(before, last.1, Lane(before, last.1) + [last.0])
  }

  lemma {:induction false} AppendIgnoresSet(q: Queue, enqueued: set<JobId>, items: seq<(JobId, Priority)>)
    ensures AppendAll(q.(enqueued := enqueued), items) == AppendAll(q, items).(enqueued := enqueued)
    ensures AppendAll(q, items).enqueued == q.enqueued
  {
    if items != [] {
      AppendIgnoresSet(q, enqueued, items[..|items| - 1]);
    }
  }
}
