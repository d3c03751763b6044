/**
  The executors' workers, which run accepted continuations one at a time,
  in whatever order they pick them.
 */
module Workers {
  import opened Jobs
  import opened System
  import opened Traces
  import opened Executors
  import opened Concurrent

  /**
    A worker runs the continuation `{ work(job) }` at `index`. The body's
    outcome goes back to the worker (the serializer does not log it).
   */
  method RunContinuation(pool: ExecutorPool, serializer: SerializedExecution, index: nat)
    returns (outcome: Outcome)
    requires index < |pool.pending|
    modifies pool`pending, serializer
    ensures outcome == old(pool.pending[index]).Call()
    ensures serializer.Model(pool) == Execute(old(serializer.Model(pool)), index, pool.rejecting)
  {
    var job := pool.Take(index);
    outcome := serializer.Work(pool, job);
  }

  /**
    Workers run pending continuations, each time any one of them, until
    none is left: every accepted job then has run exactly once, in
    acceptance order, and the serializer is idle.
   */
  method RunUntilIdle(pool: ExecutorPool, serializer: SerializedExecution)
    requires serializer.Valid(pool)
    modifies pool`pending, serializer
    ensures serializer.Model(pool) == Drain(old(serializer.Model(pool)), pool.rejecting)
  {
    while |pool.pending| > 0
      invariant serializer.Valid(pool)
      invariant Drain(serializer.Model(pool), pool.rejecting)
             == Drain(old(serializer.Model(pool)), pool.rejecting)
      decreases |serializer.accepted| - |serializer.started|
    {
      var index :| 0 <= index < |pool.pending|;
      ghost var before := serializer.Model(pool);
      ExecuteKeepsValid(before, index, pool.rejecting);
      var _ := RunContinuation(pool, serializer, index);
    }
  }
}
