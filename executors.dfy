/**
  The executors jobs are posted to, reduced to what a serialized execution
  sees of them: whether each is running, whether its `post` accepts or
  raises a rejection, and the continuations it has accepted and not yet run.
 */
module Executors {
  import opened Jobs

  class ExecutorPool {
    /** Executors whose `running?` is true. */
    var running: set<ExecutorId>
    /** Executors whose `post` currently raises a rejection. */
    var rejecting: set<ExecutorId>
    /** Accepted continuations `{ work(job) }`, identified by their job, not yet run. */
    var pending: seq<Job>

    constructor (running: set<ExecutorId>, rejecting: set<ExecutorId>)
      ensures this.running == running && this.rejecting == rejecting && pending == []
    {
      this.running := running;
      this.rejecting := rejecting;
      pending := [];
    }

    /**
      `job.executor.post { work(job) }`: an accepting executor queues the
      continuation; a rejecting one raises, reported here as `false`.
     */
    method Post(job: Job) returns (accepted: bool)
      modifies this`pending
      ensures accepted <==> job.executor !in rejecting
      ensures pending == if accepted then old(pending) + [job] else old(pending)
    {
      accepted := job.executor !in rejecting;
      if accepted {
        pending := pending + [job];
      }
    }

    /** A worker takes the continuation at `index` to run it. */
    method Take(index: nat) returns (job: Job)
      requires index < |pending|
      modifies this`pending
      ensures job == old(pending[index])
      ensures pending == old(pending[..index] + pending[index + 1..])
    {
      job := pending[index];
      pending := pending[..index] + pending[index + 1..];
    }
  }
}
