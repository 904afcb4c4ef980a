/** Runs that do happen: a job is created, dispatched, claimed, and canceled while it runs. */
module SampleRuns {
  import opened Schema
  import opened BatchStatusView
  import opened Transitions
  import opened StoreInvariants
  import opened Agreement
  import opened StoreRuns
  import opened OutsideCalls
  import opened WorkerFailures
  import opened Outcomes
  import opened CallOutcomes
  import opened SystemRuns

  lemma CancelIsSeen(s: Sys, w: WorkerId, j: JobId, t: Time)
    requires SysInv(s) && Runs(s, w, j)
    ensures var cancel := Outside(DoCancel(j, t));
            && Enabled(s, cancel) && Enabled(Next(s, cancel), Poll(w))
            && var polled := Next(Next(s, cancel), Poll(w));
               polled.procs == s.procs[w := Executing(j, true)] && j in polled.db.jobs
  {
    assert ProcOk(s.db, w, s.procs[w]);
    hide StoreInv, Agree, ProcsOk, Refresh, BatchesOf, CloseRows;
  }

  lemma CancelIsReported(s: Sys, w: WorkerId, j: JobId, u: Time, delay: int)
    requires w in s.procs && s.procs[w] == Executing(j, true) && j in s.db.jobs
    ensures var finish := FinishError(w, RunnerCancelled, delay, false, u);
            && Enabled(s, finish) && Next(s, finish).procs[w] == Resting
            && j in Next(s, finish).db.jobs
            && Next(s, finish).db.jobs[j].status.Canceled? && Next(s, finish).db.jobs[j].finishedAt == Some(u)
  {
    hide Refresh, BatchesOf, CloseRows;
  }

  /** Whenever a job is executed, calling cancel, polling and stopping the runner ends the attempt canceled. */
  lemma CancelReachesTheAttempt(s: Sys, w: WorkerId, j: JobId, t: Time, u: Time, delay: int)
    requires SysInv(s) && Runs(s, w, j)
    ensures var cancel := Outside(DoCancel(j, t));
            && Enabled(s, cancel) && Enabled(Next(s, cancel), Poll(w))
            && var polled := Next(Next(s, cancel), Poll(w));
               var finish := FinishError(w, RunnerCancelled, delay, false, u);
               && Enabled(polled, finish) && Next(polled, finish).procs[w] == Resting
               && j in Next(polled, finish).db.jobs
               && Next(polled, finish).db.jobs[j].status.Canceled?
               && Next(polled, finish).db.jobs[j].finishedAt == Some(u)
  {
    hide SysInv, Enabled, Next, Runs;
    CancelIsSeen(s, w, j, t);
    CancelIsReported(Next(Next(s, Outside(DoCancel(j, t))), Poll(w)), w, j, u, delay);
  }

  /** Without a poll that sees a request, an attempt cannot end canceled. */
  lemma NoPollNoCancel(s: Sys, w: WorkerId, j: JobId, delay: int, exits: bool, u: Time)
    requires Runs(s, w, j) && !s.procs[w].sawCancel
    ensures !Enabled(s, FinishError(w, RunnerCancelled, delay, exits, u))
  {
  }

  /** A waiting job and an eligible resting worker: one dispatch and one claim start the attempt. */
  lemma AttemptStarts(s: Sys, w: WorkerId, j: JobId, cutoff: Time, t: Time)
    requires SysInv(s) && w in s.procs && s.procs[w].Resting?
    requires MayWork(s.db, w, cutoff) && MayStart(s.db, j, t)
    ensures var assign := Outside(DoAssign(j, w, cutoff, t));
            && Enabled(s, assign) && Enabled(Next(s, assign), Claim(w, j, t))
            && Runs(Next(Next(s, assign), Claim(w, j, t)), w, j)
  {
    EligibleMeans(s.db, j, w, cutoff, t);
    hide StoreInv, Agree, ProcsOk, Refresh, BatchesOf, Dispatchable, Ready;
  }

  /** A new job and a new worker are enough for that. */
  lemma FirstAttempt(request: JobRequest, node: string, slot: int, t: Time)
    requires request.uploadExists
    ensures var s0 := Sys(EMPTY, map[]);
            var create, start := Outside(DoCreateJob(0, request, None, t)), Start(0, node, slot, None, t);
            && Enabled(s0, create) && Enabled(Next(s0, create), start)
            && var s := Next(Next(s0, create), start);
               0 in s.procs && s.procs[0].Resting? && MayWork(s.db, 0, t) && MayStart(s.db, 0, t)
  {
    var s0 := Sys(EMPTY, map[]);
    var create := Outside(DoCreateJob(0, request, None, t));
    var db := Next(s0, create).db;
    assert db.jobs == map[0 := NewJob(request, None, t)];
    HeldJobsAre(db.jobs, 0);
    assert HoldsNothing(db.jobs, 0);
  }

  lemma RunGoesOn(ss: seq<Sys>, steps: seq<Step>, step: Step) returns (s: Sys)
    requires IsSystemRun(ss, steps) && Enabled(ss[|steps|], step)
    ensures s == Next(ss[|steps|], step) && IsSystemRun(ss + [s], steps + [step])
  {
    s := Next(ss[|steps|], step);
    hide Enabled, Next;
  }

  /** A whole run at whose end an attempt is running. */
  lemma SomeAttemptRuns() returns (ss: seq<Sys>, steps: seq<Step>)
    ensures IsSystemRun(ss, steps) && |steps| == 4 && Runs(ss[4], 0, 0) && SysInv(ss[4])
  {
    var request := JobRequest(Normal, true);
    var first, second := Outside(DoCreateJob(0, request, None, 0)), Start(0, "node", 0, None, 0);
    var third, fourth := Outside(DoAssign(0, 0, 0, 0)), Claim(0, 0, 0);
    FirstAttempt(request, "node", 0, 0);
    var s0 := Sys(EMPTY, map[]);
    ss, steps := [s0], [];
    hide SysInv, Enabled, Next, MayWork, MayStart;
    var s1 := RunGoesOn(ss, steps, first);
    ss, steps := ss + [s1], steps + [first];
    var s2 := RunGoesOn(ss, steps, second);
    ss, steps := ss + [s2], steps + [second];
    RunIsSafe(ss, steps, 2);
    AttemptStarts(s2, 0, 0, 0, 0);
    var s3 := RunGoesOn(ss, steps, third);
    ss, steps := ss + [s3], steps + [third];
    var s4 := RunGoesOn(ss, steps, fourth);
    ss, steps := ss + [s4], steps + [fourth];
    RunIsSafe(ss, steps, 4);
  }

  /** A whole run in which a running attempt ends canceled. */
  lemma SomeAttemptEndsCanceled() returns (ss: seq<Sys>, steps: seq<Step>)
    ensures IsSystemRun(ss, steps) && |steps| == 7
    ensures RunningFor(ss[4].db, 0, 0) && Runs(ss[4], 0, 0)
    ensures 0 in ss[7].db.jobs && ss[7].db.jobs[0].status.Canceled?
  {
    var fifth, sixth := Outside(DoCancel(0, 0)), Poll(0);
    var seventh := FinishError(0, RunnerCancelled, 0, false, 0);
    ss, steps := SomeAttemptRuns();
    var s4 := ss[4];
    ExecutedIsRunning(s4, 0, 0);
    CancelReachesTheAttempt(s4, 0, 0, 0, 0, 0);
    hide SysInv, Enabled, Next, Runs, RunningFor;
    var s5 := RunGoesOn(ss, steps, fifth);
    ss, steps := ss + [s5], steps + [fifth];
    var s6 := RunGoesOn(ss, steps, sixth);
    ss, steps := ss + [s6], steps + [sixth];
    var s7 := RunGoesOn(ss, steps, seventh);
    ss, steps := ss + [s7], steps + [seventh];
    assert ss[4] == s4;
  }

  lemma ExecutedIsRunning(s: Sys, w: WorkerId, j: JobId)
    requires SysInv(s) && Runs(s, w, j)
    ensures RunningFor(s.db, j, w)
  {
    assert ProcOk(s.db, w, s.procs[w]);
  }
}
