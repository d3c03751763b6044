/**
  The serializer (`SerializedExecution`) and the executor wrapper built on
  it (`SerializedExecutionDelegator`), as objects whose fields their
  methods update in place. Each `synchronize` block is one atomic step.
 */
module Concurrent {
  import opened Wrappers
  import opened Jobs
  import opened Protocol
  import opened System
  import opened Executors

  class SerializedExecution {
    var beingExecuted: bool
    var stash: seq<Job>
    /** Jobs whose body has run, in that order. */
    ghost var started: seq<Job>
    /** Jobs accepted by `posts`, batch after batch. */
    ghost var accepted: seq<Job>
    /** Jobs whose inline failure was logged. */
    ghost var logged: seq<Job>

    /** This serializer and the continuations it has pending on the executors. */
    ghost function Model(pool: ExecutorPool): World
      reads this, pool
    {
      World(EngineState(beingExecuted, stash), pool.pending, started, accepted, logged)
    }

    ghost predicate Valid(pool: ExecutorPool)
      reads this, pool
    {
      System.Valid(Model(pool))
    }

    /** `ns_initialize`. */
    constructor ()
      ensures !beingExecuted && stash == []
      ensures started == [] && accepted == [] && logged == []
    {
      beingExecuted := false;
      stash := [];
      started, accepted, logged := [], [], [];
    }

    /** `post`: `posts` of the one triplet; always answers true. */
    method Post(pool: ExecutorPool, executor: ExecutorId, args: seq<Value>, task: Option<Task>)
      returns (r: bool)
      modifies this, pool`pending
      ensures r
      ensures Model(pool) == Submit(old(Model(pool)), [Job(executor, args, task)], pool.rejecting)
    {
      var _ := Posts(pool, [(executor, args, task)]);
      r := true;
    }

    /**
      `posts`: nil for an empty list, with nothing changed; otherwise the
      batch is accepted under the lock and, if the serializer was idle, its
      first job dispatched outside the lock; the answer is then true.
     */
    method Posts(pool: ExecutorPool, posts: seq<Submission>) returns (r: Option<bool>)
      modifies this, pool`pending
      ensures r == if |posts| == 0 then None else Some(true)
      ensures Model(pool) == Submit(old(Model(pool)), JobsOf(posts), pool.rejecting)
    {
      if |posts| == 0 {
        return None;
      }
      var jobs := JobsOf(posts);
      var jobToPost: Option<Job>;
      // synchronize
      if beingExecuted {
        stash := stash + jobs;
        jobToPost := None;
      } else {
        beingExecuted := true;
        stash := stash + jobs[1..];
        jobToPost := Some(jobs[0]);
      }
      accepted := accepted + jobs;
      // end synchronize
      if jobToPost.Some? {
        CallJob(pool, jobToPost.value);
      }
      r := Some(true);
    }

    /**
      `call_job`: post `work(job)` to the job's executor; when it rejects,
      run `work(job)` here and log, rather than raise, a failure.
     */
    method CallJob(pool: ExecutorPool, job: Job)
      modifies this, pool`pending
      decreases |stash|, 1
      ensures Model(pool) == Dispatch(old(Model(pool)), job, pool.rejecting)
    {
      var didItRun := pool.Post(job);
      if !didItRun {
        var outcome := Work(pool, job);
        if outcome == Raised {
          logged := logged + [job];
        }
      }
    }

    /**
      `work`: run the body, then, whatever its outcome, take the next
      stashed job or clear the flag under the lock and dispatch what was
      taken. The body's outcome is passed on to the caller.
     */
    method Work(pool: ExecutorPool, job: Job) returns (outcome: Outcome)
      modifies this, pool`pending
      decreases |stash|, 0
      ensures outcome == job.Call()
      ensures Model(pool) == Finish(old(Model(pool)), job, pool.rejecting)
    {
      outcome := job.Call();
      started := started + [job];
      var next: Option<Job>;
      // synchronize
      if |stash| > 0 {
        next := Some(stash[0]);
        stash := stash[1..];
      } else {
        beingExecuted := false;
        next := None;
      }
      // end synchronize
      if next.Some? {
        CallJob(pool, next.value);
      }
    }
  }

  datatype Error = ArgumentError(message: string)

  /** An executor whose submissions are funnelled through one private serializer. */
  class SerializedExecutionDelegator {
    const executor: ExecutorId
    const serializer: SerializedExecution

    constructor (executor: ExecutorId)
      ensures this.executor == executor && fresh(serializer)
      ensures !serializer.beingExecuted && serializer.stash == []
      ensures serializer.started == [] && serializer.accepted == [] && serializer.logged == []
    {
      this.executor := executor;
      serializer := new SerializedExecution();
    }

    /**
      `post`: no block is an argument error; a wrapped executor that is not
      running answers false; either way nothing changes. Otherwise the job
      goes to the serializer, bound to the wrapped executor.
     */
    method Post(pool: ExecutorPool, args: seq<Value>, task: Option<Task>) returns (r: Result<bool, Error>)
      modifies serializer, pool`pending
      ensures task.None? ==> r == Failure(ArgumentError("no block given"))
      ensures task.Some? && executor !in pool.running ==> r == Success(false)
      ensures r.Failure? || r == Success(false) ==>
        unchanged(serializer) && pool.pending == old(pool.pending)
      ensures task.Some? && executor in pool.running ==>
        r == Success(true) &&
        serializer.Model(pool) == Submit(old(serializer.Model(pool)), [Job(executor, args, task)], pool.rejecting)
    {
      if task.None? {
        return Failure(ArgumentError("no block given"));
      }
      if executor !in pool.running {
        return Success(false);
      }
      var posted := serializer.Post(pool, executor, args, task);
      r := Success(posted);
    }
  }
}
