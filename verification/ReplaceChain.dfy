/** The signal bars of a chain of touch_trigger orders, through lost replies and the resolver. */
module ReplaceChain {
  import opened Wrappers
  import opened DecimalText
  import opened Recipes
  import opened State
  import opened Lifetime
  import opened EntryReconciliation
  import opened FirstFill
  import opened PositionManagement
  import opened Discipline
  import opened Effects
  import opened BarPlans
  import opened TouchTriggerLaws
  import BarLaws
  import Resolver

  /** One bar, or one attempt of the resolver. */
  datatype Step = BarStep(b: Bar) | AttemptStep(a: Resolver.Answers)

  function LogAfter(mode: Mode, d: Deployment, step: Step, log: Log): Log {
    match step
    case BarStep(b) => BarPlan(mode, LastSaved(log), d, b, log).log
    case AttemptStep(a) => if LastSaved(log).None? then log else Resolver.AttemptPlan(mode, LastSaved(log).value, a, log).log
  }

  /** The entry last sent to the executor under this id. */
  function SentFor(log: Log, id: string): Option<DesiredEntry> {
    match log
    case NoEffect => None
    case Add(prev, e) => if e.SentEntry? && e.command.id == id && e.command.entry.Some? then e.command.entry else SentFor(prev, id)
  }

  /** The unfilled order of the chain: its id and signal bar, also while its apply or its removal is uncertain. */
  function OrderOf(log: Log): Option<(string, int)> {
    match LastSaved(log)
    case None => None
    case Some(s) =>
      if s.pendingClose.Some? then None
      else if s.cycle.Some? then
        if s.cycle.value.frozen.Some? then None else Some((s.cycle.value.id, s.cycle.value.package.entry.sourceBar))
      else if s.pendingEntry.None? || SentFor(log, s.pendingEntry.value).None? then None
      else Some((s.pendingEntry.value, SentFor(log, s.pendingEntry.value).value.sourceBar))
  }

  /** The executor holds the package it was sent; bars do not report a fill. */
  predicate Plain(log: Log, step: Step) {
    match step
    case BarStep(b) => Unfilled(b)
    case AttemptStep(a) =>
      a.recovery.OrderLive? && LastSaved(log).Some? && LastSaved(log).value.pendingEntry.Some? ==>
        DecodeEntry(a.recovery.package.wire) == SentFor(log, LastSaved(log).value.pendingEntry.value)
  }

  lemma Steps()
    ensures forall prev: Log, e: Effect | !e.Registered? && !e.Restarted? ::
      LastSaved(Add(prev, e)) == if e.Saved? then Some(e.state) else LastSaved(prev)
    ensures forall prev: Log, e: Effect, id: string ::
      SentFor(Add(prev, e), id) ==
        if e.SentEntry? && e.command.id == id && e.command.entry.Some? then e.command.entry else SentFor(prev, id)
  {
  }

  /** A question, a cancel or a record leaves the chain's order alone. */
  lemma EffectKeepsOrder(log: Log, e: Effect)
    requires !e.Saved? && !e.SentEntry? && !e.Registered? && !e.Restarted?
    ensures OrderOf(Add(log, e)) == OrderOf(log) && LastSaved(Add(log, e)) == LastSaved(log)
    ensures forall id :: SentFor(Add(log, e), id) == SentFor(log, id)
  {
    hide LastSaved, SentFor;
    Steps();
  }

  lemma ClearedHasNoOrder(log: Log, s: Aggregate)
    ensures OrderOf(Add(log, Saved(Resolver.Cleared(s)))).None?
  {
    hide SentFor;
  }

  // ---------------------------------------------------------------- one bar

  lemma CancelLegKeepsOrder(s: Aggregate, reply: EntryReply, log: Log)
    requires LastSaved(log) == Some(s) && RestingOrder(Some(s))
    ensures OrderOf(LegPlan(s, CancelLeg(s.cycle.value.id), reply, log).log) == OrderOf(log)
    ensures forall id :: SentFor(LegPlan(s, CancelLeg(s.cycle.value.id), reply, log).log, id) == SentFor(log, id)
  {
    hide LastSaved, SentFor, DecodeEntry;
    Steps();
  }

  /** After an apply leg the chain's order is the one just sent, or there is none. */
  lemma ApplyLegMovesOrder(s: Aggregate, id: string, entry: DesiredEntry, reply: EntryReply, log: Log)
    requires !Marked(s) && s.cycle.None? && id != ""
    ensures var leg := LegPlan(s, ApplyLeg(id, entry), reply, log);
      && (OrderOf(leg.log).None? || OrderOf(leg.log) == Some((id, entry.sourceBar)))
      && (leg.end.Success? ==> leg.end.value == s || leg.end.value == s.(cycle := Some(ConfirmedCycle(id, entry, reply.quantity))))
  {
    hide LastSaved, SentFor, DecodeEntry;
    Steps();
  }

  predicate Spaced(before: (string, int), after: (string, int), barOpen: int, gap: int) {
    after == before || (after.1 == barOpen && barOpen >= before.1 + gap)
  }

  lemma FinishMovesOrder(source: Aggregate, result: Aggregate, log: Log)
    requires result != source && !Marked(result)
    ensures var plan := FinishPlan(source, result, false, false, log);
      OrderOf(plan.log) ==
        if result.cycle.None? || result.cycle.value.frozen.Some? then None
        else Some((result.cycle.value.id, result.cycle.value.package.entry.sourceBar))
  {
    hide LastSaved, SentFor;
    Steps();
  }

  /** A bar that cannot or need not act on its resting order. */
  lemma QuietBarKeepsOrder(n: nat, s: Aggregate, d: Deployment, b: Bar, log: Log)
    requires LastSaved(log) == Some(s) && RestingOrder(Some(s)) && Unfilled(b)
    requires s.strategy != d.strategy || b.position.LookupFailed? || b.wish.NoWishReceived?
      || Decide(TouchTrigger(n), b.wish.desired, s.cycle, b.barOpen, d.snapshot.timeframe) == Success(NoOp)
    ensures OrderOf(BarPlan(TouchTrigger(n), Some(s), d, b, log).log) == OrderOf(log)
  {
    hide Decide, LastSaved, SentFor, LegPlan, OrderOf, FinishPlan;
    var asked := Add(log, AskedPosition(s.cycle.value.id, b.position));
    EffectKeepsOrder(log, AskedPosition(s.cycle.value.id, b.position));
    EffectKeepsOrder(asked, AskedLiveEntry(b.wish));
    BarLaws.FinishSame(s, Add(asked, AskedLiveEntry(b.wish)));
  }

  /** A bar on a resting order keeps it, ends it, or replaces it by one planned on that very bar, a lifetime later. */
  lemma BarIsSpaced(n: nat, s: Aggregate, d: Deployment, b: Bar, log: Log)
    requires LastSaved(log) == Some(s) && RestingOrder(Some(s)) && Unfilled(b) && b.newId != "" && TimeframeMs(d.snapshot.timeframe).Some?
    requires OrderOf(BarPlan(TouchTrigger(n), Some(s), d, b, log).log).Some?
    ensures OrderOf(log) == Some((s.cycle.value.id, SignalBar(Some(s))))
    ensures Spaced(OrderOf(log).value, OrderOf(BarPlan(TouchTrigger(n), Some(s), d, b, log).log).value, b.barOpen,
                   (n + 1) * TimeframeMs(d.snapshot.timeframe).value)
  {
    RestingIsOrder(s, log);
    hide TimeframeMs, Decide, LastSaved, BarPlan, OrderOf;
    if s.strategy == d.strategy && b.position.PositionFlat? && b.wish.Wish? {
      HoldIffBeforeBoundary(n, s, d.snapshot.timeframe, b.wish.desired, b.barOpen);
      if b.barOpen < SignalBar(Some(s)) + (n + 1) * TimeframeMs(d.snapshot.timeframe).value {
        QuietBarKeepsOrder(n, s, d, b, log);
      } else {
        EndingBarIsSpaced(n, s, d, b, log);
      }
    } else {
      QuietBarKeepsOrder(n, s, d, b, log);
    }
  }

  lemma RestingIsOrder(s: Aggregate, log: Log)
    requires LastSaved(log) == Some(s) && RestingOrder(Some(s))
    ensures OrderOf(log) == Some((s.cycle.value.id, SignalBar(Some(s))))
  {
    hide LastSaved, SentFor;
  }

  lemma EndingBarIsSpaced(n: nat, s: Aggregate, d: Deployment, b: Bar, log: Log)
    requires LastSaved(log) == Some(s) && RestingOrder(Some(s)) && b.newId != "" && TimeframeMs(d.snapshot.timeframe).Some?
    requires s.strategy == d.strategy && b.barOpen >= 0 && b.position.PositionFlat? && b.wish.Wish?
    requires b.barOpen >= SignalBar(Some(s)) + (n + 1) * TimeframeMs(d.snapshot.timeframe).value
    ensures var after := OrderOf(BarPlan(TouchTrigger(n), Some(s), d, b, log).log);
      after.None? || after == OrderOf(log) || after.value.1 == b.barOpen
  {
    hide TimeframeMs, Decide, LastSaved, SentFor, LegPlan, DecodeEntry, FinishPlan, OrderOf;
    HoldIffBeforeBoundary(n, s, d.snapshot.timeframe, b.wish.desired, b.barOpen);
    var id := s.cycle.value.id;
    var asked := Add(Add(log, AskedPosition(id, b.position)), AskedLiveEntry(b.wish));
    AskedKeepsOrder(s, b, log);
    CancelLegKeepsOrder(s, b.first, asked);
    var first := LegPlan(s, CancelLeg(id), b.first, asked);
    if first.end.Success? {
      BarLaws.LegResult(s, CancelLeg(id), b.first, asked);
      var absent := s.(cycle := None);
      FinishMovesOrder(s, absent, first.log);
      if b.wish.desired.Some? {
        var entry := b.wish.desired.value;
        ApplyLegMovesOrder(absent, b.newId, entry, b.second, first.log);
        var second := LegPlan(absent, ApplyLeg(b.newId, entry), b.second, first.log);
        if second.end.Success? && second.end.value != s {
          FinishMovesOrder(s, second.end.value, second.log);
        } else if second.end.Success? {
          BarLaws.FinishSame(s, second.log);
        }
      }
    }
  }

  lemma AskedKeepsOrder(s: Aggregate, b: Bar, log: Log)
    requires LastSaved(log) == Some(s) && s.cycle.Some?
    ensures var asked := Add(Add(log, AskedPosition(s.cycle.value.id, b.position)), AskedLiveEntry(b.wish));
      OrderOf(asked) == OrderOf(log) && LastSaved(asked) == Some(s)
  {
    hide LastSaved, SentFor;
    Steps();
  }

  // ---------------------------------------------------------------- one attempt

  lemma CancelKeepsOrder(s: Aggregate, id: string, reply: EntryReply, log: Log)
    ensures var after := OrderOf(Resolver.CancelPlan(s, id, reply, log).log); after.None? || after == OrderOf(log)
  {
    hide OrderOf, LastSaved, SentFor;
    var asked := Add(log, SentCancel(id, reply));
    EffectKeepsOrder(log, SentCancel(id, reply));
    ClearedHasNoOrder(asked, s);
    EffectKeepsOrder(Add(asked, Saved(Resolver.Cleared(s))), Wrote(Ended(id, ExactAbsent)));
  }

  lemma TerminalEndsOrder(s: Aggregate, id: string, reply: RecoveryReply, log: Log)
    ensures OrderOf(Resolver.TerminalPlan(s, id, reply, log).log).None?
  {
    hide OrderOf, LastSaved, SentFor;
    ClearedHasNoOrder(log, s);
    EffectKeepsOrder(Add(log, Saved(Resolver.Cleared(s))), Wrote(Ended(id, TerminalWithoutFill)));
  }

  /** A rebuilt order is the one that was sent; a rebuilt fill is no unfilled order. */
  lemma RebuildKeepsOrder(mode: Mode, s: Aggregate, id: string, p: AppliedPackage, firstFill: Option<int>, log: Log)
    requires LastSaved(log) == Some(s) && s.cycle.None? && s.pendingEntry == Some(id) && s.pendingClose.None? && OrderOf(log).Some?
    requires firstFill.None? ==> DecodeEntry(p.wire) == SentFor(log, id)
    ensures var after := OrderOf(Resolver.RebuildPlan(mode, s, id, p, firstFill, log).log); after.None? || after == OrderOf(log)
  {
    hide SentFor, DecodeEntry, Freeze;
    if DecodeEntry(p.wire).Some? && firstFill.Some? {
      var built := Resolver.Rebuilt(s, id, DecodeEntry(p.wire).value, p.quantity);
      RebuiltIsFrozen(mode, s, id, DecodeEntry(p.wire).value, p.quantity, firstFill.value);
      if Freeze(mode, built, id, firstFill.value).Success? {
        EffectKeepsOrder(Add(log, Saved(Freeze(mode, built, id, firstFill.value).value)), Wrote(Opened(id)));
      }
    }
  }

  lemma ApplyAttemptKeepsOrder(mode: Mode, s: Aggregate, id: string, a: Resolver.Answers, log: Log)
    requires LastSaved(log) == Some(s) && s.cycle.None? && s.pendingEntry == Some(id) && s.pendingClose.None? && OrderOf(log).Some?
    requires a.recovery.OrderLive? ==> DecodeEntry(a.recovery.package.wire) == SentFor(log, id)
    ensures var after := OrderOf(Resolver.UncertainApplyPlan(mode, s, id, a, log).log); after.None? || after == OrderOf(log)
  {
    hide OrderOf, LastSaved, SentFor, DecodeEntry, Resolver.RebuildPlan, Resolver.CancelPlan, Resolver.TerminalPlan;
    match a.recovery
    case OrderLive(p) => RebuildKeepsOrder(mode, s, id, p, None, log);
    case RecoveredOpen(p, firstFill) => RebuildKeepsOrder(mode, s, id, p, Some(firstFill), log);
    case OrderNotFound => CancelKeepsOrder(s, id, a.cancel, log);
    case QueryFailed =>
    case TerminalNoFill | TerminalFilled => TerminalEndsOrder(s, id, a.recovery, log);
  }

  lemma RemovalAttemptKeepsOrder(s: Aggregate, id: string, a: Resolver.Answers, log: Log)
    requires LastSaved(log) == Some(s) && s.cycle.Some? && OrderOf(log).Some?
    ensures var after := OrderOf(Resolver.UncertainRemovalPlan(s, id, a, log).log); after.None? || after == OrderOf(log)
  {
    hide SentFor, Resolver.CancelPlan, Resolver.TerminalPlan;
    match a.recovery
    case OrderLive(_) => CancelKeepsOrder(s, id, a.cancel, log);
    case RecoveredOpen(_, _) =>
    case OrderNotFound | QueryFailed =>
    case TerminalNoFill | TerminalFilled => TerminalEndsOrder(s, id, a.recovery, log);
  }

  /** An attempt keeps the chain's order as it is or ends it. */
  lemma AttemptKeepsOrder(mode: Mode, s: Aggregate, a: Resolver.Answers, log: Log)
    requires LastSaved(log) == Some(s) && Plain(log, AttemptStep(a)) && OrderOf(log).Some?
    ensures var after := OrderOf(Resolver.AttemptPlan(mode, s, a, log).log); after.None? || after == OrderOf(log)
  {
    hide LastSaved, SentFor, DecodeEntry, Resolver.UncertainApplyPlan, Resolver.UncertainRemovalPlan, Resolver.PendingClosePlan;
    assert s.pendingClose.None?;
    hide OrderOf;
    if s.pendingEntry.Some? {
      var asked := Add(log, AskedRecovery(s.pendingEntry.value, a.recovery));
      EffectKeepsOrder(log, AskedRecovery(s.pendingEntry.value, a.recovery));
      if s.cycle.None? {
        ApplyAttemptKeepsOrder(mode, s, s.pendingEntry.value, a, asked);
      } else {
        RemovalAttemptKeepsOrder(s, s.cycle.value.id, a, asked);
      }
    }
  }

  lemma RebuiltIsFrozen(mode: Mode, s: Aggregate, id: string, entry: DesiredEntry, quantity: string, firstFill: int)
    ensures var r := Freeze(mode, Resolver.Rebuilt(s, id, entry, quantity), id, firstFill); r.Success? ==> IsFrozen(r.value)
  {
    hide FrozenFor;
  }

  // ---------------------------------------------------------------- whole chains

  function RunSteps(mode: Mode, d: Deployment, steps: seq<Step>, log: Log): Log
    decreases |steps|
  {
    if steps == [] then log else RunSteps(mode, d, steps[1..], LogAfter(mode, d, steps[0], log))
  }

  /** An unfilled order of this instance is there before the run and after each step, resting or uncertain. */
  predicate ChainLasts(mode: Mode, d: Deployment, steps: seq<Step>, log: Log)
    decreases |steps|
  {
    && OrderOf(log).Some? && LastSaved(log).Some? && ValidAggregate(LastSaved(log).value)
    && (steps != [] ==>
          && Plain(log, steps[0]) && (steps[0].BarStep? ==> steps[0].b.newId != "")
          && ChainLasts(mode, d, steps[1..], LogAfter(mode, d, steps[0], log)))
  }

  function Replacements(mode: Mode, d: Deployment, steps: seq<Step>, log: Log): nat
    decreases |steps|
  {
    if steps == [] then 0
    else
      var next := LogAfter(mode, d, steps[0], log);
      Replacements(mode, d, steps[1..], next) + if OrderOf(next) == OrderOf(log) then 0 else 1
  }

  lemma StepIsSpaced(n: nat, d: Deployment, step: Step, log: Log)
    requires TimeframeMs(d.snapshot.timeframe).Some? && OrderOf(log).Some? && LastSaved(log).Some?
    requires ValidAggregate(LastSaved(log).value) && Plain(log, step) && (step.BarStep? ==> step.b.newId != "")
    requires OrderOf(LogAfter(TouchTrigger(n), d, step, log)).Some?
    ensures var (before, after) := (OrderOf(log).value, OrderOf(LogAfter(TouchTrigger(n), d, step, log)).value);
      after == before || after.1 >= before.1 + (n + 1) * TimeframeMs(d.snapshot.timeframe).value
  {
    hide TimeframeMs, LastSaved, ValidCycle, ValidSnapshot, IsBlank, IsPositiveExactDecimal, UnmarkedBarPlan, Resolver.AttemptPlan;
    var s := LastSaved(log).value;
    match step
    case AttemptStep(a) => AttemptKeepsOrder(TouchTrigger(n), s, a, log);
    case BarStep(b) =>
      if !Marked(s) {
        BarIsSpaced(n, s, d, b, log);
      }
  }

  /**
   * Along any run of bars and resolver attempts, with replies lost, cancels retried and orders rebuilt, k replacements
   * move the signal bar by at least k(N + 1) timeframes.
   */
  lemma {:induction false} SignalBarsAreSpaced(n: nat, d: Deployment, steps: seq<Step>, log: Log)
    requires TimeframeMs(d.snapshot.timeframe).Some? && ChainLasts(TouchTrigger(n), d, steps, log)
    ensures OrderOf(RunSteps(TouchTrigger(n), d, steps, log)).Some?
    ensures OrderOf(RunSteps(TouchTrigger(n), d, steps, log)).value.1 >=
      OrderOf(log).value.1 + Replacements(TouchTrigger(n), d, steps, log) * ((n + 1) * TimeframeMs(d.snapshot.timeframe).value)
    decreases |steps|
  {
    hide TimeframeMs, LogAfter, LastSaved, OrderOf, Plain, ValidAggregate;
    if steps != [] {
      var mode := TouchTrigger(n);
      var next := LogAfter(mode, d, steps[0], log);
      SignalBarsAreSpaced(n, d, steps[1..], next);
      assert OrderOf(next).Some?;
      StepIsSpaced(n, d, steps[0], log);
      var gap := (n + 1) * TimeframeMs(d.snapshot.timeframe).value;
      var rest := Replacements(mode, d, steps[1..], next);
      assert (rest + 1) * gap == rest * gap + gap;
    }
  }
}
