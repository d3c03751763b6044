# Serialized execution: a verified model

This project models `Concurrent::SerializedExecution` from concurrent-ruby.
It sits on top of executors that may run work in parallel and makes submitted
jobs run one at a time, in submission order. It also models the wrapper
`SerializedExecutionDelegator`, which sends every `post` through one private
serializer.

The serializer's state is the flag `@being_executed` and the array `@stash`
of pending jobs. Two locked steps change that state:
- the block in `posts` that admits a batch;
- the completion step in `work`'s `ensure`, which hands over to the next
  stashed job or clears the flag.

Between them, `call_job` posts a continuation `{ work(job) }` to the job's
executor. If that executor rejects it, `call_job` runs `work(job)` inline and
logs a failure instead of raising it.

Each `synchronize` block is treated as one atomic step, and concurrency
itself is not modelled. The whole system between two steps is a `World`:
- the engine state;
- the continuations posted and not yet run ("in flight");
- three ghost logs: the jobs accepted by `posts`, the jobs whose body has
  run, and the jobs whose inline failure was logged.

## Layout

- `wrappers.dfy`: `Option` and `Result`.
- `jobs.dfy`: executors (by id), arguments, task blocks, `Job` and `Job#call`.
  A block is a function from its arguments to `Returned` or `Raised`. A
  missing block is `None`, and calling it raises, as `nil.call` does.
- `protocol.dfy`: the pure definitions.
  - `EngineState` and the two locked steps, `Admit` and `Complete`.
  - The dispatch chain: `Settle` is `call_job` and `AfterWork` is the
    `ensure` of `work`.
  - The fallback's diagnostics, `FallbackLog`.
- `system.dfy`: the `World`, its invariant `Valid` and the two atomic steps
  of the environment, `Submit` (a `posts` call) and `Execute` (a worker runs
  a pending continuation), each with its invariant-preservation lemma.
- `traces.dfy`: arbitrary interleavings of those steps (`Replay`), draining
  (`Drain`), and the ordering, mutual-exclusion and fallback theorems.
- `executors.dfy`: `ExecutorPool`, the executors as the serializer sees them.
  For each executor it records whether it is running and whether its `post`
  rejects, plus the accepted continuations not yet run.
- `serialized_execution.dfy`: the classes `SerializedExecution` and
  `SerializedExecutionDelegator`. Their fields are updated in place, and each
  method is proved against the functions above.
- `workers.dfy`: the executors' workers. They run pending continuations one
  at a time, picking any one each time.

The central invariant (`System.Valid`), kept by every step:
- a clear flag means an empty stash;
- exactly one job is in flight while the flag is set, and none while it is
  clear;
- the jobs that ran, then the one in flight, then the stash, are exactly the
  accepted jobs, in acceptance order.

From it, `Traces.SerializedOrder` proves what holds after any interleaving of
posts and runs:
- at most one job is ever in flight;
- the jobs that ran are a prefix of the accepted batches, concatenated;
- once the workers drain the pending work, every accepted job has run exactly
  once, in that order, so no batch is interleaved with another.

How the source and its documentation differ, and what this model follows:
- The documentation of `SerializedExecution#post` says it raises
  `ArgumentError` when no block is given and returns `false` when the executor
  is not running. The code does neither: it always returns `true` and builds a
  job with a `nil` block, whose call raises. The model follows the code. Only
  the delegator checks for a block and for `running?`.
- The dispatch chain is written recursively (`call_job` → `work` →
  `call_job`). `CallJob` and `Work` are mutually recursive methods in the
  model too, not a loop.
- Failures of jobs run inline are logged in reverse running order. A failure
  reaches `call_job`'s `rescue` only after `work`'s `ensure` has run the rest
  of the chain. `FallbackLog` models this order.

## Model

| member | source | states |
|---|---|---|
| `Jobs.Job.Call` | lib/concurrent/executor/serialized_execution.rb:12-16 | a job with no block raises when called; otherwise the outcome is the block's on the job's arguments |
| `Jobs.JobsOf` | lib/concurrent/executor/serialized_execution.rb:47 | one job per triplet, same length and order, each carrying that triplet's executor, arguments and block |
| `Protocol.Admit` | lib/concurrent/executor/serialized_execution.rb:49-58 | the flag is set afterwards; a job is handed out exactly when the serializer was idle and the batch non-empty; a busy serializer appends the whole batch to the stash in order; from a consistent state with a non-empty batch, the handed-out job followed by the new stash is the old stash followed by the batch, and the state stays consistent |
| `Protocol.Complete` | lib/concurrent/executor/serialized_execution.rb:94-96 | the handed-out job followed by the new stash is the old stash (the head leaves first); nothing is handed out exactly when the stash was empty; the flag stays set exactly when it was set and the stash non-empty; consistency is kept |
| `Protocol.Settle` | lib/concurrent/executor/serialized_execution.rb:71-101 | the jobs run inline, then the posted one, then the remaining stash, are the dispatched job followed by the old stash (nothing lost, duplicated or reordered); every inline job's executor rejected it and the posted job's executor accepts it; starting with the flag set, the state stays consistent and the flag stays set exactly when a continuation was posted |
| `Protocol.AfterWork` | lib/concurrent/executor/serialized_execution.rb:93-100 | the completion step and its chain: inline jobs, then the posted one, then the remaining stash, are the old stash; inline jobs' executors reject and the posted one's accepts; starting with the flag set, the state stays consistent and the flag stays set exactly when a continuation was posted |
| `Protocol.FallbackLogIsFailuresReversed` | lib/concurrent/executor/serialized_execution.rb:80-96 | the diagnostics of an inline chain are exactly its failing jobs, one each, in reverse running order |
| `Protocol.FallbackLogMembers` | lib/concurrent/executor/serialized_execution.rb:80-87 | a job is logged exactly when it ran inline and its body raised |
| `Protocol.AdmitEmptyWouldStall` | lib/concurrent/executor/serialized_execution.rb:45-58 | without the empty-batch guard, an idle serializer given no jobs would set the flag, hand nothing out and leave the stash as it was |
| `System.StartIsValid` | lib/concurrent/executor/serialized_execution.rb:66-69 | the initial state (flag clear, empty stash, nothing posted) satisfies the invariant |
| `System.Submit` | lib/concurrent/executor/serialized_execution.rb:40-62 | an empty batch changes nothing; otherwise the batch is appended to the accepted jobs; a busy serializer only appends the batch to the stash, and nothing runs or is posted |
| `System.SubmitKeepsValid` | lib/concurrent/executor/serialized_execution.rb:45-62 | `posts` keeps the invariant, never undoes a run, and from an idle serializer dispatches the batch's first job during the call |
| `System.DispatchKeepsValid` | lib/concurrent/executor/serialized_execution.rb:71-101 | `call_job` on the job that holds the flag, with nothing else in flight, keeps the invariant and dispatches that job (run inline or posted) |
| `System.Execute` | lib/concurrent/executor/serialized_execution.rb:73 | a worker running a continuation accepts no new jobs |
| `System.ExecuteKeepsValid` | lib/concurrent/executor/serialized_execution.rb:91-101 | the continuation a worker runs is the only one in flight; its job runs right after all jobs that ran before; the invariant is kept whatever the body's outcome |
| `Traces.StepKeepsValid` | lib/concurrent/executor/serialized_execution.rb:40-101 | every atomic step keeps the invariant, accepts exactly its own batch, and never undoes a run |
| `Traces.ReplayKeepsValid` | lib/concurrent/executor/serialized_execution.rb:35-36 | any sequence of posts and runs keeps the invariant, and the accepted jobs are the batches concatenated in posting order |
| `Traces.Drain` | lib/concurrent/executor/serialized_execution.rb:90-101 | once no continuation is pending, the serializer is idle with an empty stash, and every accepted job has run, in acceptance order |
| `Traces.SerializedOrder` | lib/concurrent/executor/serialized_execution.rb:8-62 | from a fresh serializer, after any interleaving: at most one job is in flight, the jobs that ran are a prefix of the concatenated batches, and after draining they are exactly those batches in order |
| `Traces.AllRejectedRunInline` | lib/concurrent/executor/serialized_execution.rb:72-87 | when every executor a batch names rejects, an idle serializer runs the whole batch inline during `posts`, in order, posts nothing, ends idle, and logs each failure once |
| `Traces.AcceptingExecutorScenario` | lib/concurrent/executor/serialized_execution.rb:49-58 | posts A, B, C to accepting executors: only A's continuation is posted and B, C wait in the stash; when A's continuation runs, B's is posted and C waits |
| `Traces.RejectingExecutorScenario` | lib/concurrent/executor/serialized_execution.rb:72-87 | posts A, B to rejecting executors: each runs inline during its own post, in order, and nothing is posted |
| `Executors.ExecutorPool.Post` | lib/concurrent/executor/serialized_execution.rb:73-77 | an executor accepts exactly when it does not reject; an accepted continuation is queued after the earlier ones, and a rejected one is dropped |
| `Executors.ExecutorPool.Take` | lib/concurrent/executor/serialized_execution.rb:73 | a worker takes the chosen pending continuation out, and the others keep their order |
| `Concurrent.SerializedExecution.constructor` | lib/concurrent/executor/serialized_execution.rb:66-69 | the flag is clear and the stash empty; nothing accepted, run or logged |
| `Concurrent.SerializedExecution.Post` | lib/concurrent/executor/serialized_execution.rb:30-33 | always answers true, with exactly the effect of `posts` on the one triplet |
| `Concurrent.SerializedExecution.Posts` | lib/concurrent/executor/serialized_execution.rb:40-62 | nil for an empty list, true otherwise; the new state, pending continuations and logs are `System.Submit` of the old ones |
| `Concurrent.SerializedExecution.CallJob` | lib/concurrent/executor/serialized_execution.rb:71-88 | the new state, pending continuations and logs are `System.Dispatch` of the old ones, which is `Protocol.Settle` applied |
| `Concurrent.SerializedExecution.Work` | lib/concurrent/executor/serialized_execution.rb:91-101 | returns the body's outcome, and the new state is `System.Finish` of the old one: the body ran, then the completion step and its chain, whatever the outcome |
| `Concurrent.SerializedExecutionDelegator.constructor` | lib/concurrent/executor/serialized_execution.rb:112-116 | binds the wrapped executor and a fresh, idle serializer |
| `Concurrent.SerializedExecutionDelegator.Post` | lib/concurrent/executor/serialized_execution.rb:119-123 | no block gives `ArgumentError` and changes nothing; otherwise a wrapped executor that is not running gives `false` and changes nothing; otherwise the answer is `true` and the serializer has taken the one job bound to the wrapped executor |
| `Workers.RunContinuation` | lib/concurrent/executor/serialized_execution.rb:73 | returns the job's outcome to the worker, and the new world is `System.Execute` of the old one |
| `Workers.RunUntilIdle` | lib/concurrent/executor/serialized_execution.rb:90-101 | running pending continuations in any order until none is left gives the `Traces.Drain` world: idle, and every accepted job run exactly once, in order |

## Left out

- Threads and the `Synchronization::Object` lock: each `synchronize` block is one atomic step. Concurrency itself is not modelled: a dispatch chain runs to its end inside the step that starts it.
- The executors' thread pools and rejection policies. An executor is reduced to two things: whether it is running, and whether its `post` raises `RejectedExecutionError`. An executor that drops a continuation without raising is not modelled. Such an executor would leave the flag set for good.
- Exceptions other than a task failure and `RejectedExecutionError`. The `rescue` clauses catch only standard errors. Other exceptions from the block, or from `post`, would propagate, and this model has none.
- `Job#call`'s return value: a block's result is reduced to whether it returned or raised. When a continuation's body raises on a worker, the model hands the failure back to the worker. What the executor then does with it is outside the model.
- The `log DEBUG` side effect is kept only as the ghost `logged` record.
- `SimpleDelegator`'s forwarding of every other executor method, and the `SerialExecutorService` marker.
- The commented-out overflow check and the TODO notes.
- The stack depth of the recursive `call_job` → `work` → `call_job` chain.
- Several serializers sharing executors: the pool holds the continuations of one serializer. Separate serializers are independent.
