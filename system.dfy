/**
  A serialized execution together with the continuations it has posted to
  executors and not yet seen run: the whole system between two atomic
  steps. Ghost logs record the jobs accepted by `posts` (in acceptance
  order), the jobs whose body has run (in running order) and the
  diagnostics logged by the inline fallback.
 */
module System {
  import opened Wrappers
  import opened Jobs
  import opened Protocol

  datatype World = World(
    engine: EngineState,
    inFlight: seq<Job>,   // continuations `{ work(job) }` posted and not yet run
    started: seq<Job>,    // jobs whose body has run, in that order
    accepted: seq<Job>,   // jobs accepted by `posts`, batch after batch
    logged: seq<Job>)     // jobs whose inline failure was logged

  /** A fresh serializer, nothing posted yet. */
  const Start := World(Initial, [], [], [], [])

  /**
    The invariant of a serialized execution between atomic steps: the flag
    is clear only when nothing is stashed; exactly one job is in flight
    while the flag is set and none while it is clear; and the jobs that
    ran, then the one in flight, then the stash, are exactly the jobs
    accepted, in acceptance order.
   */
  ghost predicate Valid(w: World)
  {
    && Consistent(w.engine)
    && |w.inFlight| == (if w.engine.beingExecuted then 1 else 0)
    && w.accepted == w.started + w.inFlight + w.engine.stash
  }

  lemma StartIsValid()
    ensures Valid(Start)
  {
  }

  /** `call_job job` applied to the world. */
  ghost function Dispatch(w: World, job: Job, rejecting: set<ExecutorId>): World
  {
    var r := Settle(w.engine, job, rejecting);
    w.(engine := r.engine,
       inFlight := w.inFlight + Handed(r.posted),
       started := w.started + r.ran,
       logged := w.logged + FallbackLog(r.ran))
  }

  /** `work job` applied to the world: the body runs, then the completion step and its chain. */
  ghost function Finish(w: World, job: Job, rejecting: set<ExecutorId>): World
  {
    var r := AfterWork(w.engine, rejecting);
    w.(engine := r.engine,
       inFlight := w.inFlight + Handed(r.posted),
       started := w.started + [job] + r.ran,
       logged := w.logged + FallbackLog(r.ran))
  }

  /**
    `posts`: an empty batch changes nothing; otherwise the batch is
    accepted as a whole, and when the serializer was idle its first job is
    dispatched at once. A busy serializer only stashes: nothing runs and
    nothing is posted.
   */
  ghost function Submit(w: World, jobs: seq<Job>, rejecting: set<ExecutorId>): (r: World)
    ensures |jobs| == 0 ==> r == w
    ensures r.accepted == w.accepted + jobs
    ensures w.engine.beingExecuted ==>
      r == w.(engine := w.engine.(stash := w.engine.stash + jobs), accepted := w.accepted + jobs)
  {
    if |jobs| == 0 then w
    else
      var (e, j) := Admit(w.engine, jobs);
      var w' := w.(engine := e, accepted := w.accepted + jobs);
      if j.Some? then Dispatch(w', j.value, rejecting) else w'
  }

  /**
    `posts` keeps the invariant; what ran before still ran first; and from
    an idle serializer, a non-empty batch gets its first job dispatched
    (run inline or posted) by the call itself.
   */
  lemma SubmitKeepsValid(w: World, jobs: seq<Job>, rejecting: set<ExecutorId>)
    requires Valid(w)
    ensures Valid(Submit(w, jobs, rejecting))
    ensures w.started <= Submit(w, jobs, rejecting).started
    ensures !w.engine.beingExecuted && |jobs| > 0 ==>
      |Submit(w, jobs, rejecting).started| + |Submit(w, jobs, rejecting).inFlight| > |w.started|
  {
    if |jobs| > 0 && !w.engine.beingExecuted {
      var e := EngineState(true, jobs[1..]);
      assert w.engine.stash + jobs[1..] == jobs[1..];
      assert Admit(w.engine, jobs) == (e, Some(jobs[0]));
      var w' := w.(engine := e, accepted := w.accepted + jobs);
      assert [jobs[0]] + jobs[1..] == jobs;
      DispatchKeepsValid(w', jobs[0], rejecting);
    }
  }

  /**
    `call_job` on the job that holds the flag, with nothing else in flight,
    keeps the invariant and dispatches that job (inline or posted).
   */
  lemma DispatchKeepsValid(w: World, job: Job, rejecting: set<ExecutorId>)
    requires w.engine.beingExecuted && |w.inFlight| == 0
    requires w.accepted == w.started + [job] + w.engine.stash
    ensures Valid(Dispatch(w, job, rejecting))
    ensures w.started <= Dispatch(w, job, rejecting).started
    ensures |Dispatch(w, job, rejecting).started| + |Dispatch(w, job, rejecting).inFlight| > |w.started|
  {
  }

  /** An executor runs the pending continuation at `index`: the job's body, then `work`'s completion step. */
  ghost function Execute(w: World, index: nat, rejecting: set<ExecutorId>): (r: World)
    requires index < |w.inFlight|
    ensures r.accepted == w.accepted
  {
    Finish(w.(inFlight := w.inFlight[..index] + w.inFlight[index + 1..]), w.inFlight[index], rejecting)
  }

  /**
    Running a continuation keeps the invariant. The job it runs is the one
    job in flight, so no other job is dispatched while its body runs; it
    runs next after everything that ran before.
   */
  lemma ExecuteKeepsValid(w: World, index: nat, rejecting: set<ExecutorId>)
    requires Valid(w) && index < |w.inFlight|
    ensures w.inFlight == [w.inFlight[index]]
    ensures Valid(Execute(w, index, rejecting))
    ensures w.started + [w.inFlight[index]] <= Execute(w, index, rejecting).started
  {
  }
}
