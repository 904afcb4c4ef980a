/** The worker process. Each method is one step of `FineRuns`, taken from a state that the process mirrors. */
module Worker {
  import opened Schema
  import opened Transitions
  import opened StoreInvariants
  import opened ControlPlane
  import opened DispatchQueue
  import opened WorkerFailures
  import opened Outcomes
  import opened FineRuns

  class WorkerProcess {
    const id: WorkerId
    const node: string
    const slot: int
    var runningJobId: Option<JobId>
    /** What the heartbeat loop last read from `runningJobId`. */
    var lastRead: Option<JobId>
    var idleAnnounced: bool

    constructor (id: WorkerId, node: string, slot: int)
      ensures this.id == id && this.node == node && this.slot == slot
      ensures runningJobId.None? && lastRead.None? && !idleAnnounced
    {
      this.id, this.node, this.slot := id, node, slot;
      runningJobId, lastRead, idleAnnounced := None, None, false;
    }

    /** The tables and this process are as in `s`. */
    ghost predicate Mirrors(s: Sys, store: ControlPlaneStore)
      reads this, store
    {
      && s.db == store.Tables()
      && id in s.procs && s.procs[id].read == lastRead && InHand(s.procs[id].phase) == runningJobId
    }

    /** The first half of a beat. */
    method ReadJobInHand(store: ControlPlaneStore, ghost s: Sys)
      requires Mirrors(s, store) && !s.procs[id].phase.Stopped?
      modifies this`lastRead
      ensures lastRead == runningJobId
      ensures Enabled(s, Step.Read(id)) && Mirrors(Next(s, Step.Read(id)), store)
    {
      lastRead := runningJobId;
    }

    /** The second half: reports what was read, whether or not it is still in hand. */
    method WriteBeat(store: ControlPlaneStore, now: Time, ghost s: Sys) returns (ghost held: Option<JobId>)
      requires store.Valid() && Mirrors(s, store) && !s.procs[id].phase.Stopped?
      modifies store
      ensures store.Valid() && IsFirstHeld(store.jobs, id, held)
      ensures store.Tables() == Heartbeat(old(store.Tables()), id, node, slot, if lastRead.Some? then Busy else Idle,
                                          lastRead, held, now)
      ensures BeatOutcome(old(store.Tables()), store.Tables(), id, node, slot, if lastRead.Some? then Busy else Idle,
                          lastRead, now)
      ensures Enabled(s, Step.Write(id, node, slot, held, now))
      ensures Mirrors(Next(s, Step.Write(id, node, slot, held, now)), store)
    {
      hide StoreInv, IsFirstHeld, BeatOutcome;
      var status := if lastRead.Some? then Busy else Idle;
      held := store.UpsertWorkerHeartbeat(id, node, slot, status, lastRead, now);
    }

    /** Announces itself once, then looks for a pushed job that is still scheduled for it. */
    method Fetch(store: ControlPlaneStore, queue: RedisDispatchQueue, ghost s: Sys) returns (fetched: Option<JobId>)
      requires Mirrors(s, store) && s.procs[id].phase.Resting?
      modifies this`idleAnnounced, queue
      ensures fetched.Some? ==>
                && Enabled(s, Step.Fetch(id, fetched.value))
                && Mirrors(Next(s, Step.Fetch(id, fetched.value)), store)
                && WorkerQueue(old(queue.State()), id) == [fetched.value] + WorkerQueue(queue.State(), id)
      ensures fetched.None? ==>
                && Mirrors(s, store)
                && var waiting := WorkerQueue(old(queue.State()), id);
                   waiting == [] || !Enabled(s, Step.Fetch(id, waiting[0]))
      ensures forall w :: w != id ==> WorkerQueue(queue.State(), w) == WorkerQueue(old(queue.State()), w)
      ensures queue.State() == old(queue.State()).(
                pushed := queue.pushed, idle := old(queue.idle) + if old(idleAnnounced) then {} else {id})
      ensures idleAnnounced <==> fetched.Some? || WorkerQueue(old(queue.State()), id) == []
    {
      if !idleAnnounced {
        queue.AnnounceWorkerIdle(id);
        idleAnnounced := true;
      }
      var pushed := queue.PopWorkerJob(id);
      if pushed.None? {
        return None;
      }
      var job := store.GetScheduledJobByIdForWorker(id, pushed.value);
      if job.None? {
        idleAnnounced := false;
        return None;
      }
      fetched := pushed;
    }

    /** Claims what was fetched. Between the two, the job may have been taken away. */
    method ClaimFetched(store: ControlPlaneStore, queue: RedisDispatchQueue, j: JobId, now: Time, ghost s: Sys)
      returns (claimed: bool)
      requires store.Valid() && Mirrors(s, store) && s.procs[id].phase == Phase.Fetched(j)
      modifies this`runningJobId, this`idleAnnounced, store, queue
      ensures store.Valid() && store.Tables() == MarkRunning(old(store.Tables()), j, id, now)
      ensures ClaimOutcome(old(store.Tables()), store.Tables(), j, id, now)
      ensures claimed <==> j in old(store.jobs) && old(store.jobs)[j].assignee == Some(id)
      ensures runningJobId == (if claimed then Some(j) else None) && !idleAnnounced
      ensures Enabled(s, Step.Claim(id, now)) && Mirrors(Next(s, Step.Claim(id, now)), store)
      ensures queue.State() == old(queue.State()).(idle := old(queue.idle) - {id})
    {
      hide StoreInv, ClaimOutcome;
      queue.MarkWorkerBusy(id);
      runningJobId := Some(j);
      idleAnnounced := false;
      var r := store.MarkJobRunning(j, id, now);
      claimed := r.Ok?;
      if !claimed {
        runningJobId := None;
      }
    }

    /** Commits how the attempt on the job in hand ended. Some errors also end the process. */
    method Complete(store: ControlPlaneStore, error: Option<AttemptError>, retryDelay: int, now: Time, ghost s: Sys)
      returns (exits: bool, retried: bool)
      requires store.Valid() && Mirrors(s, store) && s.procs[id].phase.Executing?
      modifies store
      ensures var j := runningJobId.value;
              && store.Valid() && store.Tables() == Completed(old(store.Tables()), id, j, error, retryDelay, now)
              && (exits <==> j !in store.jobs || error == Some(WorkerFatal)
                             || (error.Some? && error.value.RunnerInfrastructure?))
              && (retried <==> j in store.jobs && store.jobs[j].status.Queued?)
      ensures error.None? ==>
                SuccessOutcome(old(store.Tables()), store.Tables(), runningJobId.value, id, now)
      ensures error.Some? ==>
                FailureOutcome(old(store.Tables()), store.Tables(), runningJobId.value, id,
                               Some(ClassifyFailure(error.value, retryDelay).0),
                               ClassifyFailure(error.value, retryDelay).1, error.value.RunnerCancelled?, now)
      ensures Enabled(s, Step.Complete(id, error, retryDelay, exits, now))
      ensures Mirrors(Next(s, Step.Complete(id, error, retryDelay, exits, now)), store)
    {
      hide StoreInv, ClassifyFailure, AfterFailure, SuccessOutcome, FailureOutcome;
      var j := runningJobId.value;
      exits, retried := false, false;
      match error {
        case None =>
          var r := store.CompleteJobSuccess(j, id, now);
          exits := r.Err?;
        case Some(e) =>
          var (category, delay) := ClassifyFailure(e, retryDelay);
          var r := store.CompleteJobFailure(j, id, Some(category), delay, e.RunnerCancelled?, now);
          retried := r.Ok? && r.value.status.Queued?;
          exits := r.Err? || e.WorkerFatal? || e.RunnerInfrastructure?;
      }
    }

    /** Drops the job whose completion was committed. Until then the heartbeat loop still sees it in hand. */
    method LetGo(store: ControlPlaneStore, ghost s: Sys)
      requires Mirrors(s, store) && s.procs[id].phase.LettingGo?
      modifies this`runningJobId
      ensures runningJobId.None?
      ensures Enabled(s, Step.LetGo(id)) && Mirrors(Next(s, Step.LetGo(id)), store)
    {
      runningJobId := None;
    }
  }
}
