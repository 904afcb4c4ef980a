/** How the status of a batch is read off the statuses of its jobs. */
module BatchStatusView {
  import opened Schema

  datatype BatchCounts = BatchCounts(
    total: nat, queued: nat, scheduled: nat, running: nat, succeeded: nat, failed: nat, canceled: nat)

  /** The counters as multiplicities, independent of any order of the jobs. */
  function CountsOf(statuses: seq<JobStatus>): BatchCounts {
    var bag := multiset(statuses);
    BatchCounts(|statuses|, bag[Queued], bag[Scheduled], bag[Running], bag[Succeeded], bag[Failed], bag[Canceled])
  }

  /** Each counter tells how often its own status occurs. */
  ghost predicate Counted(counts: BatchCounts, statuses: seq<JobStatus>) {
    var bag := multiset(statuses);
    && counts.total == |statuses| && counts.queued == bag[Queued] && counts.scheduled == bag[Scheduled]
    && counts.running == bag[Running] && counts.succeeded == bag[Succeeded] && counts.failed == bag[Failed]
    && counts.canceled == bag[Canceled]
  }

  method BuildBatchCounts(statuses: seq<JobStatus>) returns (counts: BatchCounts)
    ensures counts == CountsOf(statuses)
    ensures Counted(counts, statuses)
  {
    counts := BatchCounts(|statuses|, 0, 0, 0, 0, 0, 0);
    for i := 0 to |statuses|
      invariant counts == CountsOf(statuses[..i]).(total := |statuses|)
    {
      assert statuses[..i + 1] == statuses[..i] + [statuses[i]];
      match statuses[i] {
        case Queued => counts := counts.(queued := counts.queued + 1);
        case Scheduled => counts := counts.(scheduled := counts.scheduled + 1);
        case Running => counts := counts.(running := counts.running + 1);
        case Succeeded => counts := counts.(succeeded := counts.succeeded + 1);
        case Failed => counts := counts.(failed := counts.failed + 1);
        case Canceled => counts := counts.(canceled := counts.canceled + 1);
      }
    }
    assert statuses[..|statuses|] == statuses;
  }

  /** The cascade of the store, quantifying over the job list. */
  predicate AllIn(statuses: seq<JobStatus>, allowed: set<JobStatus>) {
    forall i :: 0 <= i < |statuses| ==> statuses[i] in allowed
  }

  function Classify(statuses: seq<JobStatus>): BatchStatus {
    var counts := CountsOf(statuses);
    if statuses != [] && AllIn(statuses, {Canceled}) then BatchCanceled
    else if Running in statuses then BatchRunning
    else if Scheduled in statuses then BatchQueued
    else if statuses != [] && AllIn(statuses, {Succeeded}) then BatchSucceeded
    else if statuses != [] && AllIn(statuses, {Failed, Canceled}) then BatchFailed
    else if counts.succeeded > 0 && (counts.failed > 0 || counts.canceled > 0) then BatchPartialFailed
    else BatchQueued
  }

  /** The same verdict from the seven counters alone. */
  function ClassifyCounts(c: BatchCounts): BatchStatus {
    if c.total > 0 && c.canceled == c.total then BatchCanceled
    else if c.running > 0 then BatchRunning
    else if c.scheduled > 0 then BatchQueued
    else if c.total > 0 && c.succeeded == c.total then BatchSucceeded
    else if c.total > 0 && c.failed + c.canceled == c.total then BatchFailed
    else if c.succeeded > 0 && (c.failed > 0 || c.canceled > 0) then BatchPartialFailed
    else BatchQueued
  }

  /** The same verdict from nothing but the set of statuses that occur. */
  function ClassifyPresent(present: set<JobStatus>): BatchStatus {
    if present == {Canceled} then BatchCanceled
    else if Running in present then BatchRunning
    else if Scheduled in present then BatchQueued
    else if present == {Succeeded} then BatchSucceeded
    else if present != {} && present <= {Failed, Canceled} then BatchFailed
    else if Succeeded in present && (Failed in present || Canceled in present) then BatchPartialFailed
    else BatchQueued
  }

  lemma {:induction false} CountersSumToTotal(statuses: seq<JobStatus>)
    ensures var c := CountsOf(statuses);
            c.queued + c.scheduled + c.running + c.succeeded + c.failed + c.canceled == c.total == |statuses|
  {
    if statuses == [] {
      assert multiset(statuses) == multiset{};
    } else {
      var init := statuses[..|statuses| - 1];
      var last := statuses[|statuses| - 1];
      assert statuses == init + [last];
      assert multiset(statuses) == multiset(init) + multiset{last};
      CountersSumToTotal(init);
      match last { case Queued => case Scheduled => case Running => case Succeeded => case Failed => case Canceled => }
    }
  }

  lemma AllInMeansNothingElse(statuses: seq<JobStatus>, allowed: set<JobStatus>)
    ensures var bag := multiset(statuses);
            AllIn(statuses, allowed) <==>
              && (Queued in allowed || bag[Queued] == 0) && (Scheduled in allowed || bag[Scheduled] == 0)
              && (Running in allowed || bag[Running] == 0) && (Succeeded in allowed || bag[Succeeded] == 0)
              && (Failed in allowed || bag[Failed] == 0) && (Canceled in allowed || bag[Canceled] == 0)
  {
    forall s: JobStatus ensures multiset(statuses)[s] > 0 <==> s in statuses {}
    if !AllIn(statuses, allowed) {
      var i :| 0 <= i < |statuses| && statuses[i] !in allowed;
      match statuses[i] {
        case Queued => case Scheduled => case Running => case Succeeded => case Failed => case Canceled =>
      }
    }
  }

  lemma ClassifyByCounts(statuses: seq<JobStatus>)
    ensures Classify(statuses) == ClassifyCounts(CountsOf(statuses))
  {
    CountersSumToTotal(statuses);
    AllInMeansNothingElse(statuses, {Canceled});
    AllInMeansNothingElse(statuses, {Succeeded});
    AllInMeansNothingElse(statuses, {Failed, Canceled});
    assert Running in statuses <==> multiset(statuses)[Running] > 0;
    assert Scheduled in statuses <==> multiset(statuses)[Scheduled] > 0;
  }

  /** What each verdict says about the jobs; what none of these describes is queued, and no batch is a draft. */
  lemma ClassifyMeans(statuses: seq<JobStatus>)
    ensures var verdict := Classify(statuses);
            && (verdict.BatchRunning? <==> Running in statuses)
            && (verdict.BatchCanceled? <==> statuses != [] && forall s :: s in statuses ==> s.Canceled?)
            && (verdict.BatchSucceeded? <==> statuses != [] && forall s :: s in statuses ==> s.Succeeded?)
            && (verdict.BatchFailed? <==>
                  Failed in statuses && forall s :: s in statuses ==> s.Failed? || s.Canceled?)
            && (verdict.BatchPartialFailed? <==>
                  && Succeeded in statuses && (Failed in statuses || Canceled in statuses)
                  && Running !in statuses && Scheduled !in statuses)
            && !verdict.BatchDraft?
  {
    ClassifyByPresence(statuses);
    var present := set s | s in statuses;
    assert forall s :: s in present <==> s in statuses;
    if statuses != [] {
      assert statuses[0] in present;
    }
    hide Classify;
    assert present == {Canceled} <==> statuses != [] && forall s :: s in statuses ==> s.Canceled?;
    assert present == {Succeeded} <==> statuses != [] && forall s :: s in statuses ==> s.Succeeded?;
    assert present <= {Failed, Canceled} <==> forall s :: s in statuses ==> s.Failed? || s.Canceled?;
  }

  lemma ClassifyIgnoresOrder(a: seq<JobStatus>, b: seq<JobStatus>)
    requires multiset(a) == multiset(b)
    ensures CountsOf(a) == CountsOf(b) && Classify(a) == Classify(b)
  {
    assert |a| == |multiset(a)| == |multiset(b)| == |b|;
    ClassifyByCounts(a);
    ClassifyByCounts(b);
  }

  lemma ClassifyByPresence(statuses: seq<JobStatus>)
    ensures Classify(statuses) == ClassifyPresent(set s | s in statuses)
  {
    var present := set s | s in statuses;
    if statuses != [] {
      assert statuses[0] in present;
    }
    forall i | 0 <= i < |statuses| ensures statuses[i] in present {}
    forall s: JobStatus ensures multiset(statuses)[s] > 0 <==> s in present {}
  }

  /** The statuses that occur among the jobs of batch `b`. */
  function Present(jobs: map<JobId, Job>, b: BatchId): set<JobStatus> {
    set j | j in jobs && jobs[j].batchId == Some(b) :: jobs[j].status
  }

  /** The status column of every batch is the verdict on its jobs. */
  ghost predicate ViewExact(jobs: map<JobId, Job>, batches: map<BatchId, Batch>) {
    forall b :: b in batches ==> batches[b].status == ClassifyPresent(Present(jobs, b))
  }

  /** Recomputes the batches named in `touched`; unknown names are ignored. */
  function Refresh(batches: map<BatchId, Batch>, jobs: map<JobId, Job>, touched: set<BatchId>, now: Time):
    map<BatchId, Batch>
  {
    map b | b in batches ::
      if b in touched then batches[b].(status := ClassifyPresent(Present(jobs, b)), updatedAt := now)
      else batches[b]
  }

  function BatchesOf(js: map<JobId, Job>): set<BatchId> {
    set j | j in js && js[j].batchId.Some? :: js[j].batchId.value
  }

  /** No entry of `js` moves a known job to another batch. */
  ghost predicate SameBatches(jobs: map<JobId, Job>, js: map<JobId, Job>) {
    forall j :: j in js && j in jobs ==> js[j].batchId == jobs[j].batchId
  }

  lemma PresentUntouched(jobs: map<JobId, Job>, js: map<JobId, Job>, b: BatchId)
    requires SameBatches(jobs, js)
    requires b !in BatchesOf(js)
    ensures Present(jobs + js, b) == Present(jobs, b)
  {
    var after := jobs + js;
    assert forall j :: j in js ==> js[j].batchId != Some(b);
    forall s | s in Present(jobs, b) ensures s in Present(after, b) {
      var j :| j in jobs && jobs[j].batchId == Some(b) && jobs[j].status == s;
      assert j in after && after[j] == jobs[j];
    }
    forall s | s in Present(after, b) ensures s in Present(jobs, b) {
      var j :| j in after && after[j].batchId == Some(b) && after[j].status == s;
      assert j in jobs && after[j] == jobs[j];
    }
  }

  /** Refreshing the batches of the written jobs is enough to keep every batch exact. */
  lemma RefreshKeepsView(jobs: map<JobId, Job>, batches: map<BatchId, Batch>, js: map<JobId, Job>,
                         touched: set<BatchId>, now: Time)
    requires ViewExact(jobs, batches)
    requires SameBatches(jobs, js)
    requires BatchesOf(js) <= touched
    ensures ViewExact(jobs + js, Refresh(batches, jobs + js, touched, now))
  {
    var after := Refresh(batches, jobs + js, touched, now);
    forall b | b in after ensures after[b].status == ClassifyPresent(Present(jobs + js, b)) {
      if b !in touched {
        PresentUntouched(jobs, js, b);
      }
    }
  }

  /** Two rounds of writes and refreshes collapse into one. */
  lemma RefreshTwice(batches: map<BatchId, Batch>, jobs: map<JobId, Job>, js: map<JobId, Job>,
                     first: set<BatchId>, now: Time)
    requires SameBatches(jobs, js)
    ensures Refresh(Refresh(batches, jobs, first, now), jobs + js, BatchesOf(js), now)
         == Refresh(batches, jobs + js, first + BatchesOf(js), now)
  {
    forall b | b in batches && b !in BatchesOf(js)
      ensures Present(jobs + js, b) == Present(jobs, b)
    {
      PresentUntouched(jobs, js, b);
    }
  }

  /** Reading a batch never changes its status. */
  lemma ReadingChangesNoStatus(jobs: map<JobId, Job>, batches: map<BatchId, Batch>, b: BatchId, now: Time)
    requires ViewExact(jobs, batches)
    ensures var after := Refresh(batches, jobs, {b}, now);
            after.Keys == batches.Keys && forall c :: c in batches ==> after[c].status == batches[c].status
  {
  }
}
