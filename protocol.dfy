/**
  The state of a serialized execution and its two locked steps, each taken
  as one atomic step, plus the dispatch chain `call_job` / `work` that runs
  between them outside the lock.
 */
module Protocol {
  import opened Wrappers
  import opened Jobs

  /** The guarded state: `@being_executed` and `@stash`. */
  datatype EngineState = EngineState(beingExecuted: bool, stash: seq<Job>)

  /** `ns_initialize`: not executing, nothing stashed. */
  const Initial := EngineState(false, [])

  /** Invariant: whenever the flag is clear, nothing is stashed. */
  predicate Consistent(e: EngineState)
  {
    !e.beingExecuted ==> |e.stash| == 0
  }

  /** The job a locked step hands out for dispatch, as a sequence of zero or one jobs. */
  function Handed(j: Option<Job>): seq<Job>
  {
    if j.Some? then [j.value] else []
  }

  /**
    The locked block of `posts`. A busy serializer stashes the whole batch;
    an idle one takes the flag, stashes all but the first job and hands the
    first out for dispatch. Written for any batch: the caller guards against
    the empty one (see AdmitEmptyWouldStall).
   */
  function Admit(e: EngineState, jobs: seq<Job>): (r: (EngineState, Option<Job>))
    ensures r.0.beingExecuted
    ensures r.1.Some? <==> !e.beingExecuted && |jobs| > 0
    ensures e.beingExecuted ==> r.0.stash == e.stash + jobs
    ensures Consistent(e) && |jobs| > 0 ==>
      Consistent(r.0) && Handed(r.1) + r.0.stash == e.stash + jobs
  {
    if e.beingExecuted then
      (e.(stash := e.stash + jobs), None)
    else if |jobs| == 0 then
      (e.(beingExecuted := true), None)
    else
      (EngineState(true, e.stash + jobs[1..]), Some(jobs[0]))
  }

  /**
    The locked completion step of `work`: the head of the stash, if any, is
    handed out and the flag kept; otherwise the flag is cleared.
   */
  function Complete(e: EngineState): (r: (EngineState, Option<Job>))
    ensures Handed(r.1) + r.0.stash == e.stash
    ensures r.1.None? <==> |e.stash| == 0
    ensures r.0.beingExecuted <==> e.beingExecuted && |e.stash| > 0
    ensures Consistent(e) ==> Consistent(r.0)
  {
    if |e.stash| > 0 then
      (e.(stash := e.stash[1..]), Some(e.stash[0]))
    else
      (e.(beingExecuted := false), None)
  }

  /**
    What a dispatch chain leaves behind: the state, the jobs it ran inline
    (in order) and the job whose continuation it posted to an executor, if any.
   */
  datatype Settled = Settled(engine: EngineState, ran: seq<Job>, posted: Option<Job>)

  /**
    `call_job job`: an accepting executor takes the continuation and the
    chain stops; a rejecting one makes the job run inline through `work`,
    whose completion step may hand out the next stashed job. How the job's
    body ends plays no part: the completion step runs either way.
   */
  function Settle(e: EngineState, job: Job, rejecting: set<ExecutorId>): (r: Settled)
    decreases |e.stash|, 1
    ensures r.ran + Handed(r.posted) + r.engine.stash == [job] + e.stash
    ensures forall k :: 0 <= k < |r.ran| ==> r.ran[k].executor in rejecting
    ensures r.posted.Some? ==> r.posted.value.executor !in rejecting
    ensures e.beingExecuted ==>
      Consistent(r.engine) && (r.posted.Some? <==> r.engine.beingExecuted)
  {
    if job.executor !in rejecting then
      Settled(e, [], Some(job))
    else
      var w := AfterWork(e, rejecting);
      Settled(w.engine, [job] + w.ran, w.posted)
  }

  /**
    The `ensure` part of `work`: the completion step, then `call_job` on the
    job it handed out, if any.
   */
  function AfterWork(e: EngineState, rejecting: set<ExecutorId>): (r: Settled)
    decreases |e.stash|, 0
    ensures r.ran + Handed(r.posted) + r.engine.stash == e.stash
    ensures forall k :: 0 <= k < |r.ran| ==> r.ran[k].executor in rejecting
    ensures r.posted.Some? ==> r.posted.value.executor !in rejecting
    ensures e.beingExecuted ==>
      Consistent(r.engine) && (r.posted.Some? <==> r.engine.beingExecuted)
  {
    var (e', next) := Complete(e);
    if next.Some? then Settle(e', next.value, rejecting) else Settled(e', [], None)
  }

  /** A posted job is the one right after those run inline. */
  lemma PostedIsNext(r: Settled, queue: seq<Job>)
    requires r.ran + Handed(r.posted) + r.engine.stash == queue
    requires r.posted.Some?
    ensures |r.ran| < |queue| && queue[|r.ran|] == r.posted.value
  {
  }

  /**
    The diagnostics `call_job` logs for the jobs a chain ran inline. Each
    failure is logged when it reaches `call_job`'s rescue, which is after
    the rest of the chain has run inside `work`'s `ensure`: the failures
    come out last first.
   */
  function FallbackLog(ran: seq<Job>): seq<Job>
  {
    if |ran| == 0 then []
    else FallbackLog(ran[1..]) + (if ran[0].Call() == Raised then [ran[0]] else [])
  }

  /** The jobs of `ran` whose body raises, in order. */
  function Failures(ran: seq<Job>): seq<Job>
  {
    if |ran| == 0 then []
    else (if ran[0].Call() == Raised then [ran[0]] else []) + Failures(ran[1..])
  }

  /** `s` backwards. */
  function Reversed(s: seq<Job>): seq<Job>
  {
    if |s| == 0 then [] else Reversed(s[1..]) + [s[0]]
  }

  /**
    Exactly one diagnostic per inline job whose body raised, none for the
    others, in the reverse of the order they ran in.
   */
  lemma {:induction false} FallbackLogIsFailuresReversed(ran: seq<Job>)
    ensures FallbackLog(ran) == Reversed(Failures(ran))
  {
    if |ran| > 0 {
      FallbackLogIsFailuresReversed(ran[1..]);
      ReversedOfAppend(if ran[0].Call() == Raised then [ran[0]] else [], Failures(ran[1..]));
    }
  }

  lemma {:induction false} ReversedOfAppend(a: seq<Job>, b: seq<Job>)
    ensures Reversed(a + b) == Reversed(b) + Reversed(a)
  {
    if |a| == 0 {
      assert a + b == b;
    } else {
      assert (a + b)[1..] == a[1..] + b;
      ReversedOfAppend(a[1..], b);
    }
  }

  /** A job is logged exactly when it ran inline and its body raised. */
  lemma {:induction false} FallbackLogMembers(ran: seq<Job>, j: Job)
    ensures j in FallbackLog(ran) <==> j in ran && j.Call() == Raised
  {
    if |ran| > 0 {
      FallbackLogMembers(ran[1..], j);
      assert ran == [ran[0]] + ran[1..];
    }
  }

  /**
    Without the empty-batch guard of `posts`, an idle serializer given no
    jobs would take the flag and hand nothing out: set while nothing runs,
    the flag would never be cleared again.
   */
  lemma AdmitEmptyWouldStall(e: EngineState)
    requires !e.beingExecuted
    ensures Admit(e, []).0.beingExecuted && Admit(e, []).1.None?
    ensures Admit(e, []).0.stash == e.stash
  {
  }
}
