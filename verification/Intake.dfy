/** The bounded committed-bar intake and its single worker. */
module Intake {
  import opened Wrappers

  datatype Event = CommittedBar(instrument: string, timeframe: string, openTime: int)

  datatype PutError = NotAccepting | Full

  // ---------------------------------------------------------------- the boundary

  /** The queue and its accept flag; `accepted` and `taken` are the whole history of both ends. */
  class IntakeBoundary {
    const capacity: nat
    var queue: seq<Event>
    var accepting: bool
    var unfinished: nat
    ghost var accepted: seq<Event>
    ghost var taken: seq<Event>

    ghost predicate Valid()
      reads this
    {
      && capacity > 0 && |queue| <= capacity
      && accepted == taken + queue && |queue| <= unfinished <= |accepted|
    }

    constructor (capacity: nat)
      requires capacity > 0
      ensures Valid() && this.capacity == capacity && accepting && accepted == [] && taken == [] && unfinished == 0
    {
      this.capacity := capacity;
      queue := [];
      accepting := true;
      unfinished := 0;
      accepted := [];
      taken := [];
    }

    /** None stands for the ValueError: a bound that would mean no bound is refused. */
    static method Make(capacity: int) returns (r: Option<IntakeBoundary>)
      ensures r.None? <==> capacity <= 0
      ensures r.Some? ==> fresh(r.value) && r.value.Valid() && r.value.capacity == capacity && r.value.accepting && r.value.accepted == []
    {
      if capacity <= 0 {
        return None;
      }
      var boundary := new IntakeBoundary(capacity);
      return Some(boundary);
    }

    /** First in the order of acceptance, or refused with nothing changed. */
    method PutNowait(e: Event) returns (r: Outcome<PutError>)
      requires Valid()
      modifies this
      ensures Valid() && accepting == old(accepting) && taken == old(taken)
      ensures !accepting ==> r == Fail(NotAccepting)
      ensures accepting ==> r == if |old(queue)| < capacity then Pass else Fail(Full)
      ensures accepted == if r.Pass? then old(accepted) + [e] else old(accepted)
      ensures r.Fail? ==> queue == old(queue) && unfinished == old(unfinished)
    {
      if !accepting {
        return Fail(NotAccepting);
      }
      if |queue| >= capacity {
        return Fail(Full);
      }
      queue := queue + [e];
      unfinished := unfinished + 1;
      accepted := accepted + [e];
      return Pass;
    }

    method StopAccepting()
      requires Valid()
      modifies this
      ensures Valid() && !accepting && accepted == old(accepted) && taken == old(taken) && queue == old(queue)
    {
      accepting := false;
    }

    /** The oldest accepted event that was not taken yet; None stands for the timeout. */
    method Get() returns (r: Option<Event>)
      requires Valid()
      modifies this
      ensures Valid() && accepted == old(accepted) && accepting == old(accepting) && unfinished == old(unfinished)
      ensures r.None? <==> old(queue) == []
      ensures r.None? ==> taken == old(taken)
      ensures r.Some? ==> |taken| <= |accepted| && taken == old(taken) + [r.value] && accepted[|old(taken)|] == r.value
    {
      if queue == [] {
        return None;
      }
      r := Some(queue[0]);
      taken := taken + [queue[0]];
      queue := queue[1..];
    }

    method TaskDone()
      requires Valid() && unfinished > |queue|
      modifies this
      ensures Valid() && unfinished == old(unfinished) - 1
      ensures queue == old(queue) && accepted == old(accepted) && taken == old(taken) && accepting == old(accepting)
    {
      unfinished := unfinished - 1;
    }
  }

  // ---------------------------------------------------------------- the worker and its callers

  datatype Lifecycle = NotStarted | Running | Stopping | Stopped

  /** Where a worker thread stands in its loop. */
  datatype Loop = Polling | Took(event: Event) | Processing(current: Event) | Exited

  /** `joining`: a stop call holds the stop lock and waits for the thread; `stopReturned`: some stop call has returned. */
  datatype System = System(
    capacity: nat, queue: seq<Event>, accepting: bool, lifecycle: Lifecycle, threads: seq<Loop>, joining: bool,
    stopReturned: bool, accepted: seq<Event>, processed: seq<Event>)

  datatype Move =
    | Put(event: Event)
    | StopAccepting
    | StartWorker(spawned: bool)
    | EnterStop
    | FinishStop
    | Take(thread: nat)
    | SeeEmpty(thread: nat)
    | Decide(thread: nat)
    | Finish(thread: nat)

  predicate At(y: System, t: nat, p: Loop) {
    t < |y.threads| && y.threads[t] == p
  }

  predicate AllExited(y: System) {
    forall t | 0 <= t < |y.threads| :: y.threads[t].Exited?
  }

  /** Which moves can happen; a start that is refused and a put that is refused change nothing and are left out. */
  predicate Can(y: System, m: Move) {
    match m
    case Put(_) => y.accepting && |y.queue| < y.capacity
    case StopAccepting => true
    case StartWorker(_) => y.lifecycle.NotStarted?
    case EnterStop => !y.joining
    case FinishStop => y.joining && AllExited(y)
    case Take(t) => At(y, t, Polling) && y.queue != []
    case SeeEmpty(t) => At(y, t, Polling) && y.queue == []
    case Decide(t) => t < |y.threads| && y.threads[t].Took?
    case Finish(t) => t < |y.threads| && y.threads[t].Processing?
  }

  function Do(y: System, m: Move): System
    requires Can(y, m)
  {
    match m
    case Put(e) => y.(queue := y.queue + [e], accepted := y.accepted + [e])
    case StopAccepting => y.(accepting := false)
    case StartWorker(spawned) =>
      if spawned then y.(lifecycle := Running, threads := y.threads + [Polling]) else y.(lifecycle := Stopped)
    case EnterStop =>
      if y.lifecycle.NotStarted? || y.lifecycle.Stopped? then y.(lifecycle := Stopped, stopReturned := true)
      else y.(lifecycle := Stopping, joining := true)
    case FinishStop => y.(lifecycle := Stopped, joining := false, stopReturned := true)
    case Take(t) => y.(queue := y.queue[1..], threads := y.threads[t := Took(y.queue[0])])
    case SeeEmpty(t) => if y.lifecycle.Running? then y else y.(threads := y.threads[t := Exited])
    case Decide(t) => y.(threads := y.threads[t := if y.lifecycle.Running? then Processing(y.threads[t].event) else Exited])
    case Finish(t) => y.(threads := y.threads[t := Polling], processed := y.processed + [y.threads[t].current])
  }

  datatype Moves = NoMove | More(prev: Moves, last: Move)

  function Fresh(capacity: nat): System {
    System(capacity, [], true, NotStarted, [], false, false, [], [])
  }

  predicate Possible(capacity: nat, ms: Moves)
    decreases ms, 0
  {
    ms.NoMove? || (Possible(capacity, ms.prev) && Can(After(capacity, ms.prev), ms.last))
  }

  function After(capacity: nat, ms: Moves): System
    requires Possible(capacity, ms)
    decreases ms, 1
  {
    if ms.NoMove? then Fresh(capacity) else Do(After(capacity, ms.prev), ms.last)
  }

  predicate Prefix(early: Moves, late: Moves) {
    early == late || (late.More? && Prefix(early, late.prev))
  }

  // ---------------------------------------------------------------- the invariant

  /** What the worker holds of the accepted events between the processed ones and the queue. */
  function InHand(y: System): seq<Event> {
    if y.threads == [] then []
    else
      match y.threads[0]
      case Took(e) => [e]
      case Processing(e) => [e]
      case Polling | Exited => []
  }

  /** Processed, in hand and queued events together are the accepted ones, in order; an exited worker may have dropped one. */
  predicate Inv(y: System) {
    && |y.queue| <= y.capacity && |y.threads| <= 1
    && (y.lifecycle.NotStarted? ==> y.threads == []) && (y.threads == [] ==> y.lifecycle.NotStarted? || y.lifecycle.Stopped?)
    && (y.joining <==> y.lifecycle.Stopping?)
    && (y.lifecycle.Running? ==> !AllExited(y))
    && (y.lifecycle.Stopped? ==> AllExited(y))
    && (y.stopReturned ==> y.lifecycle.Stopped?)
    && y.processed <= y.accepted
    && (y.threads == [] ==> y.processed == [])
    && (y.threads != [] && !AllExited(y) ==> y.accepted == y.processed + InHand(y) + y.queue)
    && (y.threads == [] ==> y.accepted == y.queue)
  }

  lemma CallerKeepsInv(y: System, m: Move)
    requires Inv(y) && Can(y, m) && (m.Put? || m.StopAccepting? || m.StartWorker? || m.EnterStop? || m.FinishStop?)
    ensures Inv(Do(y, m))
  {
    var y' := Do(y, m);
    if m.Put? {
      assert y'.threads == y.threads && y'.processed <= y'.accepted;
      assert y.threads != [] && !AllExited(y) ==> y'.accepted == y'.processed + InHand(y') + y'.queue;
    } else if m.StartWorker? {
      assert m.spawned ==> y'.threads == [Polling] && y'.threads[0].Polling?;
    } else {
      assert y'.threads == y.threads;
    }
  }

  /** The worker's own step: it is the only thread, so the new loop position is the whole of `threads`. */
  lemma WorkerKeepsInv(y: System, m: Move)
    requires Inv(y) && Can(y, m) && (m.Take? || m.SeeEmpty? || m.Decide? || m.Finish?)
    ensures Inv(Do(y, m))
  {
    var y' := Do(y, m);
    var p, p' := y.threads[0], y'.threads[0];
    assert y.threads == [p] && y'.threads == [p'];
    assert AllExited(y) == p.Exited? && AllExited(y') == p'.Exited?;
    hide AllExited;
    if m.Take? {
      assert y.queue == [y.queue[0]] + y.queue[1..];
    } else if m.Finish? {
      assert y'.accepted == y'.processed + InHand(y') + y'.queue;
    }
  }

  lemma MoveKeepsInv(y: System, m: Move)
    requires Inv(y) && Can(y, m)
    ensures Inv(Do(y, m))
  {
    hide Inv, Can, Do;
    if m.Take? || m.SeeEmpty? || m.Decide? || m.Finish? {
      WorkerKeepsInv(y, m);
    } else {
      CallerKeepsInv(y, m);
    }
  }

  lemma {:induction false} ReachableKeepsInv(capacity: nat, ms: Moves)
    requires Possible(capacity, ms)
    ensures Inv(After(capacity, ms)) && After(capacity, ms).capacity == capacity
  {
    hide Can, Do;
    if ms.More? {
      ReachableKeepsInv(capacity, ms.prev);
      MoveKeepsInv(After(capacity, ms.prev), ms.last);
      MoveKeepsCapacity(After(capacity, ms.prev), ms.last);
    }
  }

  lemma MoveKeepsCapacity(y: System, m: Move)
    requires Can(y, m)
    ensures Do(y, m).capacity == y.capacity
  {
  }

  // ---------------------------------------------------------------- the theorems

  /** In every run the processed bars are a prefix of the accepted ones, at most one is in flight, the queue keeps its bound. */
  lemma ProcessedInOrderOneAtATime(capacity: nat, ms: Moves, t: nat, u: nat)
    requires Possible(capacity, ms)
    ensures var y := After(capacity, ms);
      && y.processed <= y.accepted && |y.queue| <= capacity
      && (t < |y.threads| && u < |y.threads| && y.threads[t].Processing? && y.threads[u].Processing? ==> t == u)
  {
    hide Possible, After;
    ReachableKeepsInv(capacity, ms);
  }

  /** Nothing is accepted once `stop_accepting` has run. */
  lemma {:induction false} NothingAcceptedAfterStop(capacity: nat, early: Moves, late: Moves)
    requires Possible(capacity, late) && Prefix(early, late)
    ensures Possible(capacity, early)
    ensures early.More? && early.last.StopAccepting? ==> !After(capacity, early).accepting
    ensures !After(capacity, early).accepting ==>
      !After(capacity, late).accepting && After(capacity, late).accepted == After(capacity, early).accepted
  {
    if early != late {
      NothingAcceptedAfterStop(capacity, early, late.prev);
    }
  }

  /** Once `stop_once` has returned, no processing is running and none ever starts. */
  lemma {:induction false} NothingProcessedAfterStop(capacity: nat, early: Moves, late: Moves)
    requires Possible(capacity, late) && Prefix(early, late)
    ensures Possible(capacity, early)
    ensures early.More? && early.last.FinishStop? ==> After(capacity, early).stopReturned
    ensures After(capacity, early).stopReturned ==>
      && After(capacity, late).stopReturned && AllExited(After(capacity, late))
      && After(capacity, late).processed == After(capacity, early).processed
  {
    if early == late && early.More? && early.last.FinishStop? {
      assert After(capacity, early) == Do(After(capacity, early.prev), early.last);
    }
    hide Can, Do;
    ReachableKeepsInv(capacity, late);
    if early != late {
      NothingProcessedAfterStop(capacity, early, late.prev);
      if After(capacity, early).stopReturned {
        StoppedStays(After(capacity, late.prev), late.last);
      }
    }
  }

  lemma StoppedStays(y: System, m: Move)
    requires Can(y, m) && y.stopReturned && AllExited(y)
    ensures Do(y, m).stopReturned && Do(y, m).processed == y.processed
  {
  }

  /** A running, idle worker with a waiting event can take, process and finish it: the oldest one, and nothing else changes. */
  lemma RunningWorkerProcessesOldest(capacity: nat, ms: Moves)
    requires Possible(capacity, ms)
    requires var y := After(capacity, ms); y.lifecycle.Running? && y.queue != [] && At(y, 0, Polling)
    ensures var done := More(More(More(ms, Take(0)), Decide(0)), Finish(0));
      && Possible(capacity, done)
      && var y, y' := After(capacity, ms), After(capacity, done);
      y' == y.(queue := y.queue[1..], processed := y.processed + [y.queue[0]])
  {
    var y := After(capacity, ms);
    var a, b, c := More(ms, Take(0)), More(More(ms, Take(0)), Decide(0)), More(More(More(ms, Take(0)), Decide(0)), Finish(0));
    assert Possible(capacity, a) && After(capacity, a) == Do(y, Take(0));
    assert Possible(capacity, b) && After(capacity, b) == Do(After(capacity, a), Decide(0));
    assert Possible(capacity, c) && After(capacity, c) == Do(After(capacity, b), Finish(0));
    assert After(capacity, c).threads == y.threads;
  }
}
