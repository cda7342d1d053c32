/** The lifetime of an unfilled touch_trigger entry order over whole runs of bars. */
module TouchTriggerLaws {
  import opened Wrappers
  import opened Recipes
  import opened State
  import opened Lifetime
  import opened EntryReconciliation
  import opened FirstFill
  import opened PositionManagement
  import opened Discipline
  import opened Effects
  import opened BarPlans

  /** The order is not reported filled or closed on this bar; the Engine may answer anything, or not at all. */
  predicate Unfilled(b: Bar) {
    b.barOpen >= 0 && (b.position.PositionFlat? || b.position.LookupFailed?)
  }

  predicate RestingOrder(s: Option<Aggregate>) {
    s.Some? && !Marked(s.value) && s.value.cycle.Some? && s.value.cycle.value.frozen.None?
  }

  function SignalBar(s: Option<Aggregate>): int
    requires RestingOrder(s)
  {
    s.value.cycle.value.package.entry.sourceBar
  }

  /** Any bars one after another, failed ones included: each starts from what the ones before left durable. */
  function RunBars(mode: Mode, d: Deployment, bars: seq<Bar>, log: Log): Log {
    if bars == [] then log
    else RunBars(mode, d, bars[1..], BarPlan(mode, LastSaved(log), d, bars[0], log).log)
  }

  /** Commands and saves: what a bar may do besides asking. */
  function Acts(log: Log): nat {
    match log
    case NoEffect => 0
    case Add(prev, e) => Acts(prev) + if e.AskedPosition? || e.AskedLiveEntry? then 0 else 1
  }

  lemma LogSteps()
    ensures forall prev: Log, e: Effect ::
      Acts(Add(prev, e)) == Acts(prev) + if e.AskedPosition? || e.AskedLiveEntry? then 0 else 1
    ensures forall prev: Log, e: Effect | !e.Registered? && !e.Restarted? ::
      LastSaved(Add(prev, e)) == if e.Saved? then Some(e.state) else LastSaved(prev)
  {
  }

  // ---------------------------------------------------------------- one bar

  /** Before the boundary the decision is to hold, whatever the Engine wants; from the boundary on it is to end. */
  lemma HoldIffBeforeBoundary(n: nat, s: Aggregate, timeframe: string, desired: Option<DesiredEntry>, barOpen: int)
    requires barOpen >= 0 && RestingOrder(Some(s)) && TimeframeMs(timeframe).Some?
    ensures
      var decision := Decide(TouchTrigger(n), desired, s.cycle, barOpen, timeframe);
      var boundary := SignalBar(Some(s)) + (n + 1) * TimeframeMs(timeframe).value;
      && decision.Success?
      && (decision.value == NoOp <==> barOpen < boundary)
      && (barOpen >= boundary ==>
            decision.value == if desired.Some? && desired.value.sourceBar == barOpen then Replace(s.cycle.value.id, desired.value)
                              else Cancel(s.cycle.value.id))
  {
    hide ExpirationMs, IsExpired, TimeframeMs;
    ExpiredIffPastLifetime(SignalBar(Some(s)), TimeframeMs(timeframe).value, n, barOpen);
  }

  lemma HeldBar(n: nat, s: Aggregate, d: Deployment, b: Bar, log: Log)
    requires LastSaved(log) == Some(s) && RestingOrder(Some(s)) && Unfilled(b) && TimeframeMs(d.snapshot.timeframe).Some?
    requires b.barOpen < SignalBar(Some(s)) + (n + 1) * TimeframeMs(d.snapshot.timeframe).value
    ensures var after := BarPlan(TouchTrigger(n), Some(s), d, b, log).log;
      LastSaved(after) == Some(s) && Acts(after) == Acts(log)
  {
    hide TimeframeMs, Decide, Acts, LastSaved, LegPlan;
    LogSteps();
    if b.wish.Wish? {
      HoldIffBeforeBoundary(n, s, d.snapshot.timeframe, b.wish.desired, b.barOpen);
    }
  }

  predicate Begins(early: Log, late: Log) {
    early == late || (late.Add? && Begins(early, late.prev))
  }

  /** The log right after the cancel leg of this bar has left. */
  function CancelSent(s: Aggregate, b: Bar, log: Log): Log
    requires s.cycle.Some?
  {
    var id := s.cycle.value.id;
    var asked := Add(Add(log, AskedPosition(id, b.position)), AskedLiveEntry(b.wish));
    Add(Add(asked, Saved(s.(pendingEntry := Some(id)))), SentEntry(Command(s.instance, id, s.snapshot.instrument, None), b.first))
  }

  /** From the boundary on, the bar marks the cycle and sends its cancel before anything else. */
  lemma EndedBar(n: nat, s: Aggregate, d: Deployment, b: Bar, log: Log)
    requires RestingOrder(Some(s)) && s.strategy == d.strategy && TimeframeMs(d.snapshot.timeframe).Some?
    requires b.barOpen >= 0 && b.position.PositionFlat? && b.wish.Wish?
    requires b.barOpen >= SignalBar(Some(s)) + (n + 1) * TimeframeMs(d.snapshot.timeframe).value
    ensures Begins(CancelSent(s, b, log), BarPlan(TouchTrigger(n), Some(s), d, b, log).log)
  {
    hide TimeframeMs, Decide, LegPlan, FinishPlan, Begins, CancelSent;
    HoldIffBeforeBoundary(n, s, d.snapshot.timeframe, b.wish.desired, b.barOpen);
    var id := s.cycle.value.id;
    var asked := Add(Add(log, AskedPosition(id, b.position)), AskedLiveEntry(b.wish));
    CancelLegBegins(s, b, log);
    var absent := LegPlan(s, CancelLeg(id), b.first, asked);
    var desired := b.wish.desired;
    if desired.Some? && desired.value.sourceBar == b.barOpen && absent.end.Success? {
      LegGrows(absent.end.value, ApplyLeg(b.newId, desired.value), b.second, absent.log);
      BeginsTransitive(CancelSent(s, b, log), absent.log,
        LegPlan(absent.end.value, ApplyLeg(b.newId, desired.value), b.second, absent.log).log);
    }
    var entry := EntryPlan(TouchTrigger(n), s, d.snapshot.timeframe, b, asked);
    if entry.end.Success? {
      FinishGrows(s, entry.end.value, entry.log);
      BeginsTransitive(CancelSent(s, b, log), entry.log, FinishPlan(s, entry.end.value, false, false, entry.log).log);
    }
  }

  lemma CancelLegBegins(s: Aggregate, b: Bar, log: Log)
    requires s.cycle.Some?
    ensures var asked := Add(Add(log, AskedPosition(s.cycle.value.id, b.position)), AskedLiveEntry(b.wish));
      Begins(CancelSent(s, b, log), LegPlan(s, CancelLeg(s.cycle.value.id), b.first, asked).log)
  {
    hide DecodeEntry;
    assert Begins(CancelSent(s, b, log), CancelSent(s, b, log));
  }

  lemma LegGrows(s: Aggregate, leg: Leg, reply: EntryReply, log: Log)
    ensures Begins(log, LegPlan(s, leg, reply, log).log)
  {
    hide DecodeEntry;
    assert Begins(log, log);
    if BuildCommand(s, leg).Success? {
      var saved := Add(log, Saved(s.(pendingEntry := Some(BuildCommand(s, leg).value.id))));
      assert Begins(log, saved);
      assert Begins(log, Add(saved, SentEntry(BuildCommand(s, leg).value, reply)));
    }
  }

  lemma FinishGrows(source: Aggregate, result: Aggregate, log: Log)
    ensures Begins(log, FinishPlan(source, result, false, false, log).log)
  {
    assert Begins(log, log);
    assert Begins(log, Add(log, Saved(result)));
  }

  lemma {:induction false} BeginsTransitive(a: Log, b: Log, c: Log)
    requires Begins(a, b) && Begins(b, c)
    ensures Begins(a, c)
  {
    if b != c { BeginsTransitive(a, b, c.prev); }
  }

  // ---------------------------------------------------------------- whole runs

  /** All bars open before the boundary of the order planned on `signal`, in any order, skipped or repeated. */
  predicate AllBefore(bars: seq<Bar>, signal: int, n: nat, tf: int) {
    forall i | 0 <= i < |bars| :: Unfilled(bars[i]) && bars[i].barOpen < signal + (n + 1) * tf
  }

  /**
   * The order planned on S is held through every bar opening before S + (N + 1) timeframes, and the first
   * later bar on which the Engine answers marks and cancels it, whatever was skipped or repeated before.
   */
  lemma {:induction false} HeldUntilBoundaryThenEnded(n: nat, s: Aggregate, d: Deployment, bars: seq<Bar>, last: Bar, log: Log)
    requires LastSaved(log) == Some(s) && RestingOrder(Some(s)) && s.strategy == d.strategy
    requires TimeframeMs(d.snapshot.timeframe).Some?
    requires AllBefore(bars, SignalBar(Some(s)), n, TimeframeMs(d.snapshot.timeframe).value)
    requires last.barOpen >= 0 && last.position.PositionFlat? && last.wish.Wish?
    ensures
      var held := RunBars(TouchTrigger(n), d, bars, log);
      LastSaved(held) == Some(s) && Acts(held) == Acts(log)
    ensures
      var held := RunBars(TouchTrigger(n), d, bars, log);
      last.barOpen >= SignalBar(Some(s)) + (n + 1) * TimeframeMs(d.snapshot.timeframe).value ==>
        Begins(CancelSent(s, last, held), BarPlan(TouchTrigger(n), LastSaved(held), d, last, held).log)
    decreases |bars|
  {
    hide TimeframeMs, BarPlan, Acts, LastSaved, Begins, CancelSent;
    if bars == [] {
      if last.barOpen >= SignalBar(Some(s)) + (n + 1) * TimeframeMs(d.snapshot.timeframe).value {
        EndedBar(n, s, d, last, log);
      }
    } else {
      HeldBar(n, s, d, bars[0], log);
      HeldUntilBoundaryThenEnded(n, s, d, bars[1..], last, BarPlan(TouchTrigger(n), Some(s), d, bars[0], log).log);
    }
  }
}
