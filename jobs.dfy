/**
  The values handled by a serialized execution: the executors jobs are
  posted to, the arguments and blocks of tasks, and the `Job` record that
  bundles them (lib/concurrent/executor/serialized_execution.rb:12-16).
 */
module Jobs {
  import opened Wrappers

  /** Names one of the executors a job may be posted to. */
  type ExecutorId = nat

  /** An argument passed to a task. */
  type Value = int

  /** How a task body ends: it returns normally, or it raises. */
  datatype Outcome = Returned | Raised

  /** A task block: what it does with its arguments, reduced to whether it raises. */
  datatype Task = Task(body: seq<Value> -> Outcome)

  /**
    One unit of serialized work: the executor to run it on, the arguments
    and the block, which is missing when the caller gave none.
   */
  datatype Job = Job(executor: ExecutorId, args: seq<Value>, block: Option<Task>)
  {
    /** `Job#call`: runs the block on the arguments; calling a missing block raises. */
    function Call(): (r: Outcome)
      ensures block.None? ==> r == Raised
      ensures block.Some? ==> r == block.value.body(args)
    {
      match block
      case None => Raised
      case Some(t) => t.body(args)
    }
  }

  /** One triplet given to `posts`: executor, arguments, block. */
  type Submission = (ExecutorId, seq<Value>, Option<Task>)

  /** The `posts.map { ... Job.new ... }` step: one job per triplet, in order. */
  function JobsOf(posts: seq<Submission>): (jobs: seq<Job>)
    ensures |jobs| == |posts|
    ensures forall k :: 0 <= k < |posts| ==>
      jobs[k] == Job(posts[k].0, posts[k].1, posts[k].2)
  {
    seq(|posts|, k requires 0 <= k < |posts| => Job(posts[k].0, posts[k].1, posts[k].2))
  }
}
