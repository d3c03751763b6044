/**
  Any interleaving of submissions and continuation runs, one atomic step at
  a time, and what it guarantees: at most one job is ever in flight, and
  jobs run in exactly the order of the batches accepted, each batch
  contiguous.
 */
module Traces {
  import opened Wrappers
  import opened Jobs
  import opened Protocol
  import opened System

  /**
    One atomic step of the environment: a caller's `posts`, or an executor
    running the pending continuation at `index` (a step naming no pending
    continuation does nothing). Each step says which executors reject at
    that moment.
   */
  datatype Event =
    | Posted(jobs: seq<Job>, rejecting: set<ExecutorId>)
    | Ran(index: nat, rejecting: set<ExecutorId>)

  ghost function Step(w: World, ev: Event): World
  {
    match ev
    case Posted(jobs, rejecting) => Submit(w, jobs, rejecting)
    case Ran(index, rejecting) =>
      if index < |w.inFlight| then Execute(w, index, rejecting) else w
  }

  ghost function Replay(w: World, events: seq<Event>): World
    decreases |events|
  {
    if |events| == 0 then w else Replay(Step(w, events[0]), events[1..])
  }

  /** The accepted batches of `events`, concatenated in the order they were posted. */
  function Batches(events: seq<Event>): seq<Job>
  {
    if |events| == 0 then []
    else Accepts(events[0]) + Batches(events[1..])
  }

  /** The jobs a step accepts. */
  function Accepts(ev: Event): seq<Job>
  {
    if ev.Posted? then ev.jobs else []
  }

  /** One step keeps the invariant, accepts its batch, and never undoes a run. */
  lemma StepKeepsValid(w: World, ev: Event)
    requires Valid(w)
    ensures Valid(Step(w, ev))
    ensures Step(w, ev).accepted == w.accepted + Accepts(ev)
    ensures w.started <= Step(w, ev).started
  {
    match ev {
      case Posted(jobs, rejecting) => SubmitKeepsValid(w, jobs, rejecting);
      case Ran(index, rejecting) =>
        if index < |w.inFlight| { ExecuteKeepsValid(w, index, rejecting); }
        else { assert w.accepted + [] == w.accepted; }
    }
  }

  /**
    Every trace keeps the invariant, accepts its batches in order, and
    never undoes a run.
   */
  lemma {:induction false} ReplayKeepsValid(w: World, events: seq<Event>)
    requires Valid(w)
    ensures Valid(Replay(w, events))
    ensures Replay(w, events).accepted == w.accepted + Batches(events)
    ensures w.started <= Replay(w, events).started
    decreases |events|
  {
    if |events| == 0 {
      assert w.accepted + [] == w.accepted;
    } else {
      var w' := Step(w, events[0]);
      assert Replay(w, events) == Replay(w', events[1..]);
      assert Batches(events) == Accepts(events[0]) + Batches(events[1..]);
      StepKeepsValid(w, events[0]);
      ReplayKeepsValid(w', events[1..]);
      assert w.accepted + Accepts(events[0]) + Batches(events[1..])
          == w.accepted + (Accepts(events[0]) + Batches(events[1..]));
    }
  }

  /**
    Executors run the pending continuations until none is left, with a
    fixed set of rejecting executors.
   */
  ghost function Drain(w: World, rejecting: set<ExecutorId>): (r: World)
    requires Valid(w)
    decreases |w.accepted| - |w.started|
    ensures Valid(r) && r.accepted == w.accepted
    ensures !r.engine.beingExecuted && |r.inFlight| == 0 && |r.engine.stash| == 0
    ensures r.started == w.accepted
  {
    if |w.inFlight| == 0 then w
    else
      ExecuteKeepsValid(w, 0, rejecting);
      Drain(Execute(w, 0, rejecting), rejecting)
  }

  /**
    From a fresh serializer, after any interleaving of submissions and
    runs: at most one job is in flight, the jobs that ran are a prefix of
    the concatenated batches, and once the executors have drained the
    pending work, every accepted job has run exactly once, in the order of
    the concatenated batches.
   */
  lemma SerializedOrder(events: seq<Event>, rejecting: set<ExecutorId>)
    ensures |Replay(Start, events).inFlight| <= 1
    ensures Replay(Start, events).started <= Batches(events)
    ensures Valid(Replay(Start, events))
    ensures Drain(Replay(Start, events), rejecting).started == Batches(events)
  {
    ReplayKeepsValid(Start, events);
    var r := Replay(Start, events);
    assert [] + Batches(events) == Batches(events);
    assert r.accepted == r.started + (r.inFlight + r.engine.stash);
  }

  /**
    If every executor the batch names rejects, an idle serializer runs the
    whole batch inline during the call, in order, and goes idle again;
    each failure among them is logged once.
   */
  lemma AllRejectedRunInline(w: World, jobs: seq<Job>, rejecting: set<ExecutorId>)
    requires Valid(w) && !w.engine.beingExecuted
    requires forall k :: 0 <= k < |jobs| ==> jobs[k].executor in rejecting
    ensures Submit(w, jobs, rejecting).started == w.started + jobs
    ensures |Submit(w, jobs, rejecting).inFlight| == 0
    ensures !Submit(w, jobs, rejecting).engine.beingExecuted
    ensures Submit(w, jobs, rejecting).logged == w.logged + FallbackLog(jobs)
  {
    if |jobs| > 0 {
      var e := EngineState(true, jobs[1..]);
      assert w.engine.stash + jobs[1..] == jobs[1..];
      assert Admit(w.engine, jobs) == (e, Some(jobs[0]));
      assert [jobs[0]] + jobs[1..] == jobs;
      var s := Settle(e, jobs[0], rejecting);
      if s.posted.Some? {
        PostedIsNext(s, jobs);
        assert false;
      }
      assert |s.engine.stash| == 0;
      assert s.ran == jobs;
    }
  }

  /**
    Three single posts A, B, C on executors that accept: only A's
    continuation is posted while B and C wait in the stash; when A's
    continuation runs, B's is posted next.
   */
  lemma AcceptingExecutorScenario(a: Job, b: Job, c: Job, rejecting: set<ExecutorId>)
    requires a.executor !in rejecting && b.executor !in rejecting
    ensures var w := Submit(Submit(Submit(Start, [a], rejecting), [b], rejecting), [c], rejecting);
      && w.inFlight == [a] && w.engine.stash == [b, c] && w.started == []
      && Execute(w, 0, rejecting).inFlight == [b]
      && Execute(w, 0, rejecting).engine.stash == [c]
      && Execute(w, 0, rejecting).started == [a]
  {
  }

  /**
    Two single posts A, B on executors that reject: each runs inline during
    its own post, in order, and nothing is ever posted to an executor.
   */
  lemma RejectingExecutorScenario(a: Job, b: Job, rejecting: set<ExecutorId>)
    requires a.executor in rejecting && b.executor in rejecting
    ensures Submit(Start, [a], rejecting).started == [a]
    ensures Submit(Submit(Start, [a], rejecting), [b], rejecting).started == [a, b]
    ensures |Submit(Submit(Start, [a], rejecting), [b], rejecting).inFlight| == 0
  {
  }
}
