/** Laws of repeated bars: convergence, and when the remainder of a filled entry order is cancelled. */
module BarLaws {
  import opened Wrappers
  import opened DecimalText
  import opened Recipes
  import opened State
  import opened Lifetime
  import opened EntryReconciliation
  import opened FirstFill
  import opened PositionManagement
  import opened Discipline
  import opened Effects
  import opened BarPlans
  import opened ConfirmationLaws

  // ---------------------------------------------------------------- entry convergence

  /** What one leg that returned leaves, whatever the rest of the bar does. */
  lemma LegResult(s: Aggregate, leg: Leg, reply: EntryReply, log: Log)
    requires !Marked(s) && LegPlan(s, leg, reply, log).end.Success?
    ensures var r := LegPlan(s, leg, reply, log).end.value;
      match leg
      case CancelLeg(_) => r == s.(cycle := None)
      case ApplyLeg(id, entry) =>
        if reply.EntryDeclined? then r == s
        else reply.EntryApplied? && r == s.(cycle := Some(ConfirmedCycle(reply.id, entry, reply.quantity)))
  {
    hide DecodeEntry;
  }

  /** The Engine still wants an entry that the executor declined. */
  predicate WantsDeclined(r: Aggregate, wish: EntryWish) {
    r.cycle.None? && wish.Wish? && wish.desired.Some?
  }

  /** What the Engine asks for is what the saved cycle holds, unless the executor declined it. */
  lemma EntryReachesWish(s: Aggregate, timeframe: string, b: Bar, log: Log)
    requires !Marked(s) && b.wish.Wish? && EntryPlan(EmaAnchor, s, timeframe, b, log).end.Success?
    ensures var r := EntryPlan(EmaAnchor, s, timeframe, b, log).end.value;
      && !Marked(r) && SameRegistration(s, r) && !IsFrozen(r)
      && (b.wish.desired.None? ==> r.cycle.None?)
      && (b.wish.desired.Some? && r.cycle.Some? ==> r.cycle.value.package.entry == b.wish.desired.value)
      && (WantsDeclined(r, b.wish) ==> b.first.EntryDeclined? || b.second.EntryDeclined?)
  {
    hide LegPlan;
    match Decide(EmaAnchor, b.wish.desired, s.cycle, b.barOpen, timeframe)
    case Success(NoOp) =>
    case Success(Apply(entry)) =>
      LegResult(s, ApplyLeg(b.newId, entry), b.first, log);
    case Success(Cancel(id)) =>
      LegResult(s, CancelLeg(id), b.first, log);
    case Success(Replace(id, entry)) =>
      LegResult(s, CancelLeg(id), b.first, log);
      var absent := LegPlan(s, CancelLeg(id), b.first, log);
      LegResult(absent.end.value, ApplyLeg(b.newId, entry), b.second, absent.log);
  }

  /** Questions only: the position of the current cycle, if any, and the Engine's wish. */
  function AskedOnly(s: Aggregate, b: Bar, log: Log): Log {
    Add(if s.cycle.None? then log else Add(log, AskedPosition(s.cycle.value.id, b.position)), AskedLiveEntry(b.wish))
  }

  /**
   * After a bar that returned, repeating it with the same wish and position sends no command and saves
   * nothing, exactly unless the executor declined the wished entry.
   */
  lemma EmaEntryConverges(s: Aggregate, d: Deployment, b: Bar, again: Bar, log: Log, later: Log)
    requires !Marked(s) && b.wish.Wish? && b.position.PositionFlat?
    requires again.wish == b.wish && again.position == b.position && again.newId != ""
    requires BarPlan(EmaAnchor, Some(s), d, b, log).end.Success?
    ensures
      var r := BarPlan(EmaAnchor, Some(s), d, b, log).end.value;
      BarPlan(EmaAnchor, Some(r), d, again, later) == Plan(AskedOnly(r, again, later), Success(r))
      <==> !WantsDeclined(r, b.wish)
    ensures
      var r := BarPlan(EmaAnchor, Some(s), d, b, log).end.value;
      WantsDeclined(r, b.wish) ==> b.first.EntryDeclined? || b.second.EntryDeclined?
  {
    var r := BarPlan(EmaAnchor, Some(s), d, b, log).end.value;
    FlatBarReachesWish(s, d, b, log);
    if WantsDeclined(r, b.wish) {
      ApplyIsVisible(r, d, again, later);
    } else {
      hide LegPlan;
      FinishSame(r, AskedOnly(r, again, later));
    }
  }

  lemma FlatBarReachesWish(s: Aggregate, d: Deployment, b: Bar, log: Log)
    requires !Marked(s) && b.wish.Wish? && b.position.PositionFlat?
    requires BarPlan(EmaAnchor, Some(s), d, b, log).end.Success?
    ensures var r := BarPlan(EmaAnchor, Some(s), d, b, log).end.value;
      && !Marked(r) && s.strategy == r.strategy == d.strategy && !IsFrozen(r)
      && (b.wish.desired.None? ==> r.cycle.None?)
      && (b.wish.desired.Some? && r.cycle.Some? ==> r.cycle.value.package.entry == b.wish.desired.value)
      && (WantsDeclined(r, b.wish) ==> b.first.EntryDeclined? || b.second.EntryDeclined?)
  {
    hide EntryPlan;
    EntryReachesWish(s, d.snapshot.timeframe, b, AskedOnly(s, b, log));
  }

  lemma FinishSame(r: Aggregate, log: Log)
    ensures FinishPlan(r, r, false, false, log) == Plan(log, Success(r))
  {
  }

  lemma ApplyIsVisible(r: Aggregate, d: Deployment, b: Bar, log: Log)
    requires !Marked(r) && WantsDeclined(r, b.wish) && b.newId != "" && r.strategy == d.strategy
    ensures BarPlan(EmaAnchor, Some(r), d, b, log).log != AskedOnly(r, b, log)
  {
    hide DecodeEntry;
    var asked := AskedOnly(r, b, log);
    var leg := LegPlan(r, ApplyLeg(b.newId, b.wish.desired.value), b.first, asked);
    assert asked < leg.log;
    assert EntryPlan(EmaAnchor, r, d.snapshot.timeframe, b, asked) == leg;
    if leg.end.Success? {
      assert asked < FinishPlan(r, leg.end.value, false, false, leg.log).log;
    }
  }

  // ---------------------------------------------------------------- the end record of a replaced cycle

  /** End records of bars for `id` so far. */
  function EndRecords(log: Log, id: string): nat {
    match log
    case NoEffect => 0
    case Add(prev, e) => EndRecords(prev, id) + if e == Wrote(Ended(id, Cancelled)) then 1 else 0
  }

  lemma EndStep(id: string)
    ensures forall prev: Log, e: Effect ::
      EndRecords(Add(prev, e), id) == EndRecords(prev, id) + if e == Wrote(Ended(id, Cancelled)) then 1 else 0
  {
  }

  /** The answers on which an apply returns: applied or declined, for this instance and id, and applied as it was sent. */
  predicate ApplyReturns(instance: string, id: string, entry: DesiredEntry, reply: EntryReply)
    requires ValidEntry(entry) && TypedEntryReply(reply)
  {
    EncodingAlwaysAccepted(entry);
    match reply
    case EntryApplied(i, r, wire, _) => i == instance && r == id && ExactEcho(entry, wire)
    case EntryDeclined(i, r) => i == instance && r == id
    case _ => false
  }

  lemma ApplyReturnsIff(s: Aggregate, id: string, entry: DesiredEntry, reply: EntryReply, log: Log)
    requires !Marked(s) && s.cycle.None? && id != "" && ValidEntry(entry) && TypedEntryReply(reply)
    ensures var leg := LegPlan(s, ApplyLeg(id, entry), reply, log);
      && (leg.end.Success? <==> ApplyReturns(s.instance, id, entry, reply))
      && (leg.end.Success? ==> leg.end.value.cycle.None? || leg.end.value.cycle.value.id == id)
  {
    hide ValidEntry, DecodeEntry, ExactEcho, ValidWire, IsExactDecimal;
    if reply.EntryApplied? {
      ApplyConfirmedIffExactEcho(s, id, entry, reply, log);
    }
  }

  lemma LegEndsNothing(s: Aggregate, leg: Leg, reply: EntryReply, log: Log, id: string)
    ensures EndRecords(LegPlan(s, leg, reply, log).log, id) == EndRecords(log, id)
  {
    hide EndRecords, DecodeEntry;
    EndStep(id);
  }

  /** This bar ends the current cycle and wants `entry` in its place. */
  predicate Replaces(mode: Mode, s: Aggregate, d: Deployment, b: Bar, entry: DesiredEntry) {
    && s.strategy == d.strategy && !Marked(s) && s.cycle.Some? && b.position.PositionFlat? && b.wish.Wish?
    && Decide(mode, b.wish.desired, s.cycle, b.barOpen, d.snapshot.timeframe) == Success(Replace(s.cycle.value.id, entry))
  }

  lemma ReplacePlan(mode: Mode, s: Aggregate, d: Deployment, b: Bar, entry: DesiredEntry, log: Log)
    requires Replaces(mode, s, d, b, entry) && b.first == EntryAbsent(s.instance, s.cycle.value.id)
    ensures
      var first := LegPlan(s, CancelLeg(s.cycle.value.id), b.first, AskedOnly(s, b, log));
      var second := LegPlan(s.(cycle := None), ApplyLeg(b.newId, entry), b.second, first.log);
      BarPlan(mode, Some(s), d, b, log) ==
        if second.end.Failure? then second else FinishPlan(s, second.end.value, false, false, second.log)
    ensures s.cycle.value.frozen.None?
  {
    hide LegPlan, DecodeEntry, FinishPlan, TimeframeMs;
    CancelConfirmedIffExactAbsent(s, s.cycle.value.id, b.first, AskedOnly(s, b, log));
  }

  /**
   * After a Replace whose cancel was confirmed the old cycle's end record is written exactly when the apply returns:
   * an exact echo of this command, or declined for it. On every other answer the bar fails, and nothing ever
   * records that the cycle it has just ended is gone.
   */
  lemma ReplaceRecordedIffApplyReturns(mode: Mode, s: Aggregate, d: Deployment, b: Bar, entry: DesiredEntry, log: Log)
    requires Replaces(mode, s, d, b, entry) && b.first == EntryAbsent(s.instance, s.cycle.value.id)
    requires b.newId != "" && b.newId != s.cycle.value.id && ValidEntry(entry) && TypedEntryReply(b.second)
    ensures
      var plan, returns' := BarPlan(mode, Some(s), d, b, log), ApplyReturns(s.instance, b.newId, entry, b.second);
      && (plan.end.Success? <==> returns')
      && EndRecords(plan.log, s.cycle.value.id) == EndRecords(log, s.cycle.value.id) + if returns' then 1 else 0
  {
    hide LegPlan, ApplyReturns, ValidEntry, Decide, BarPlan, EndRecords;
    var id := s.cycle.value.id;
    ReplacePlan(mode, s, d, b, entry, log);
    var first := LegPlan(s, CancelLeg(id), b.first, AskedOnly(s, b, log));
    var second := LegPlan(s.(cycle := None), ApplyLeg(b.newId, entry), b.second, first.log);
    ApplyReturnsIff(s.(cycle := None), b.newId, entry, b.second, first.log);
    LegEndsNothing(s, CancelLeg(id), b.first, AskedOnly(s, b, log), id);
    LegEndsNothing(s.(cycle := None), ApplyLeg(b.newId, entry), b.second, first.log, id);
    EndStep(id);
  }

  /** And then the durable state no longer holds the cycle, recorded or not. */
  lemma ReplacedCycleIsGone(mode: Mode, s: Aggregate, d: Deployment, b: Bar, entry: DesiredEntry, log: Log)
    requires Replaces(mode, s, d, b, entry) && b.first == EntryAbsent(s.instance, s.cycle.value.id)
    requires b.newId != "" && b.newId != s.cycle.value.id && TypedEntryReply(b.second)
    ensures var left := LastSaved(BarPlan(mode, Some(s), d, b, log).log);
      left.Some? && NamedId(left.value) != Some(s.cycle.value.id)
  {
    hide LegPlan, Decide, BarPlan, LastSaved;
    ReplacePlan(mode, s, d, b, entry, log);
    var first := LegPlan(s, CancelLeg(s.cycle.value.id), b.first, AskedOnly(s, b, log));
    ApplyLegLeaves(s.(cycle := None), b.newId, entry, b.second, first.log);
    SavedStep();
  }

  lemma SavedStep()
    ensures forall prev: Log, e: Effect | !e.Registered? && !e.Restarted? ::
      LastSaved(Add(prev, e)) == if e.Saved? then Some(e.state) else LastSaved(prev)
  {
  }

  lemma ApplyLegLeaves(s: Aggregate, id: string, entry: DesiredEntry, reply: EntryReply, log: Log)
    requires !Marked(s) && s.cycle.None? && id != "" && TypedEntryReply(reply)
    ensures var leg := LegPlan(s, ApplyLeg(id, entry), reply, log);
      && LastSaved(leg.log).Some? && (NamedId(LastSaved(leg.log).value).None? || NamedId(LastSaved(leg.log).value) == Some(id))
      && (leg.end.Success? ==> NamedId(leg.end.value).None? || NamedId(leg.end.value) == Some(id))
  {
    hide LastSaved, DecodeEntry, ValidWire, IsExactDecimal;
    SavedStep();
  }

  /** Not ready is one such answer: the effects of the bar, with no end record among them. */
  lemma NotReadyReplaceLeavesNoRecord(mode: Mode, s: Aggregate, d: Deployment, b: Bar, entry: DesiredEntry, log: Log)
    requires Replaces(mode, s, d, b, entry) && b.first == EntryAbsent(s.instance, s.cycle.value.id)
    requires b.newId != "" && b.second.EntryNotReady?
    ensures
      var id, absent := s.cycle.value.id, s.(cycle := None);
      var cancelled := Add(Add(AskedOnly(s, b, log), Saved(s.(pendingEntry := Some(id)))),
                           SentEntry(Command(s.instance, id, s.snapshot.instrument, None), b.first));
      var refused := Add(Add(cancelled, Saved(absent.(pendingEntry := Some(b.newId)))),
                         SentEntry(Command(s.instance, b.newId, s.snapshot.instrument, Some(entry)), EntryNotReady));
      BarPlan(mode, Some(s), d, b, log) == Plan(Add(refused, Saved(absent)), Failure(Raised(NotReady)))
  {
    hide Decide, BarPlan, DecodeEntry;
    ReplacePlan(mode, s, d, b, entry, log);
  }

  // ---------------------------------------------------------------- open-trade convergence

  function AskedOpenOnly(r: Aggregate, b: Bar, log: Log): Log
    requires IsFrozen(r)
  {
    var asked := Add(log, AskedPosition(r.cycle.value.id, b.position));
    if r.cycle.value.frozen.value.entryBar > b.barOpen then asked else Add(asked, AskedOpenTrade(b.recipe))
  }

  /** What an open-trade bar that keeps its cycle leaves: the wanted protection is the effective one. */
  lemma OpenTradeReachesRecipe(s: Aggregate, b: Bar, log: Log)
    requires !Marked(s) && IsFrozen(s) && OpenTradePlan(s, b, log).end.Success?
    requires OpenTradePlan(s, b, log).end.value.cycle.Some?
    ensures var r := OpenTradePlan(s, b, log).end.value;
      && !Marked(r) && SameRegistration(s, r) && r.cycle.value.frozen == s.cycle.value.frozen && r.cycle.value.id == s.cycle.value.id
      && b.recipe.Received? && DecidePosition(b.recipe.recipe, r.cycle) == Success(KeepAsIs)
      && (RemainderDue(r, b.barOpen) ==> b.remainder.RemainderFailed? || !b.markDurable)
  {
    hide TimeframeMs, MakeProtection;
  }

  /**
   * After an open-trade bar that keeps its cycle, repeating it asks the same questions, sends nothing and
   * saves nothing, exactly unless the remainder of the entry order is still due.
   */
  lemma OpenTradeConverges(mode: Mode, s: Aggregate, d: Deployment, b: Bar, again: Bar, log: Log, later: Log)
    requires !Marked(s) && s.cycle.Some? && b.position.PositionIsOpen?
    requires again.position == b.position && again.barOpen == b.barOpen && again.recipe == b.recipe
    requires BarPlan(mode, Some(s), d, b, log).end.Success? && BarPlan(mode, Some(s), d, b, log).end.value.cycle.Some?
    ensures
      var r := BarPlan(mode, Some(s), d, b, log).end.value;
      && IsFrozen(r)
      && (BarPlan(mode, Some(r), d, again, later) == Plan(AskedOpenOnly(r, again, later), Success(r))
          <==> !(RemainderDue(r, b.barOpen) && r.cycle.value.frozen.value.entryBar <= b.barOpen))
    ensures
      var r := BarPlan(mode, Some(s), d, b, log).end.value;
      RemainderDue(r, b.barOpen) && IsFrozen(r) && r.cycle.value.frozen.value.entryBar <= b.barOpen ==>
        b.remainder.RemainderFailed? || !b.markDurable
  {
    hide OpenTradePlan, Freeze, RemainderDue;
    var r := BarPlan(mode, Some(s), d, b, log).end.value;
    var id, firstFill := s.cycle.value.id, b.position.firstFill;
    FreezeIsFinal(mode, mode, s, id, firstFill, firstFill);
    FreezeKeepsUnmarked(mode, s, id, firstFill);
    var frozen := Freeze(mode, s, id, firstFill).value;
    if frozen.cycle.value.frozen.value.entryBar <= b.barOpen {
      var asked := Add(log, AskedPosition(id, b.position));
      var noted := if IsFrozen(s) then asked else Add(Add(asked, Saved(frozen)), Wrote(Opened(id)));
      assert BarPlan(mode, Some(s), d, b, log) == OpenTradePlan(frozen, b, noted);
      OpenTradeReachesRecipe(frozen, b, noted);
      RefreezeOther(mode, frozen, r, id, firstFill);
      var asked' := Add(later, AskedPosition(id, again.position));
      assert BarPlan(mode, Some(r), d, again, later) == OpenTradePlan(r, again, asked');
      RepeatedOpenTrade(r, again, asked');
    }
  }

  lemma FreezeKeepsUnmarked(mode: Mode, s: Aggregate, id: string, firstFill: int)
    requires Freeze(mode, s, id, firstFill).Success?
    ensures var r := Freeze(mode, s, id, firstFill).value; Marked(r) == Marked(s) && SameRegistration(s, r) && r.cycle.value.id == id
  {
    hide FrozenFor;
  }

  /** Freezing again looks only at the cycle's id and frozen context. */
  lemma RefreezeOther(mode: Mode, s: Aggregate, r: Aggregate, id: string, firstFill: int)
    requires Freeze(mode, s, id, firstFill) == Success(s) && IsFrozen(s) && IsFrozen(r)
    requires r.cycle.value.id == s.cycle.value.id && r.cycle.value.frozen == s.cycle.value.frozen
    ensures Freeze(mode, r, id, firstFill) == Success(r)
  {
    hide FrozenFor;
  }

  lemma RepeatedOpenTrade(r: Aggregate, b: Bar, log: Log)
    requires IsFrozen(r) && b.recipe.Received? && DecidePosition(b.recipe.recipe, r.cycle) == Success(KeepAsIs)
    ensures OpenTradePlan(r, b, log) == Plan(Add(log, AskedOpenTrade(b.recipe)), Success(r)) <==> !RemainderDue(r, b.barOpen)
  {
    hide RemainderDue;
    if RemainderDue(r, b.barOpen) {
      assert log < RemainderPlan(r, b, log).0;
      assert OpenTradePlan(r, b, log).log.Add?;
      hide DecidePosition;
      RemainderIsVisible(r, b, log);
    } else {
      assert PositionPlan(r, false, b, Add(log, AskedOpenTrade(b.recipe))) ==
        Plan(Add(log, AskedOpenTrade(b.recipe)), Success((r, false)));
    }
  }

  lemma RemainderIsVisible(r: Aggregate, b: Bar, log: Log)
    requires IsFrozen(r) && RemainderDue(r, b.barOpen)
    ensures OpenTradePlan(r, b, log).log != Add(log, AskedOpenTrade(b.recipe))
  {
    CountStep();
    RemainderAdds(r, b, log);
    OpenTradeAdds(r, b, log);
  }

  // ---------------------------------------------------------------- the remainder cancel

  /** How many remainder cancels were requested so far. */
  function RemainderCalls(log: Log): nat {
    match log
    case NoEffect => 0
    case Add(prev, e) => RemainderCalls(prev) + if e.SentRemainderCancel? then 1 else 0
  }

  lemma CountStep()
    ensures forall prev: Log, e: Effect ::
      RemainderCalls(Add(prev, e)) == RemainderCalls(prev) + if e.SentRemainderCancel? then 1 else 0
  {
  }

  lemma RemainderAdds(s: Aggregate, b: Bar, log: Log)
    ensures RemainderCalls(RemainderPlan(s, b, log).0) == RemainderCalls(log) + if RemainderDue(s, b.barOpen) then 1 else 0
  {
    hide RemainderDue, RemainderCalls;
    CountStep();
  }

  lemma OpenTradeAdds(s: Aggregate, b: Bar, log: Log)
    requires s.cycle.Some?
    ensures RemainderCalls(OpenTradePlan(s, b, log).log) == RemainderCalls(log) + if RemainderDue(s, b.barOpen) then 1 else 0
  {
    hide RemainderDue, RemainderCalls, RemainderPlan, PositionPlan, FinishPlan;
    CountStep();
    RemainderAdds(s, b, log);
    var (after, source, lost) := RemainderPlan(s, b, log);
    var asked := Add(after, AskedOpenTrade(b.recipe));
    if b.recipe.Received? {
      PositionAddsNone(source, lost, b, asked);
      var managed := PositionPlan(source, lost, b, asked);
      if managed.end.Success? {
        FinishAddsNone(source, managed.end.value.0, managed.end.value.1, lost, managed.log);
      }
    }
  }

  lemma PositionAddsNone(s: Aggregate, lost: bool, b: Bar, log: Log)
    requires b.recipe.Received?
    ensures RemainderCalls(PositionPlan(s, lost, b, log).log) == RemainderCalls(log)
    ensures PositionPlan(s, lost, b, log).end.Success? ==> s.cycle.Some?
  {
    hide RemainderCalls, MakeProtection;
    CountStep();
  }

  lemma FinishAddsNone(source: Aggregate, result: Aggregate, closure: bool, lost: bool, log: Log)
    requires source.cycle.Some? || !closure
    ensures RemainderCalls(FinishPlan(source, result, closure, lost, log).log) == RemainderCalls(log)
  {
    hide RemainderCalls;
    CountStep();
  }

  lemma LegAddsNone(s: Aggregate, leg: Leg, reply: EntryReply, log: Log)
    ensures RemainderCalls(LegPlan(s, leg, reply, log).log) == RemainderCalls(log)
  {
    hide RemainderCalls, DecodeEntry;
    CountStep();
  }

  lemma LiveEntryAddsNone(mode: Mode, s: Aggregate, timeframe: string, b: Bar, log: Log)
    ensures RemainderCalls(LiveEntryPlan(mode, s, timeframe, b, log).log) == RemainderCalls(log)
  {
    hide RemainderCalls, LegPlan, FinishPlan;
    CountStep();
    var asked := Add(log, AskedLiveEntry(b.wish));
    if b.wish.Wish? {
      match Decide(mode, b.wish.desired, s.cycle, b.barOpen, timeframe) {
        case Failure(_) =>
        case Success(NoOp) =>
        case Success(Apply(entry)) =>
          LegAddsNone(s, ApplyLeg(b.newId, entry), b.first, asked);
        case Success(Cancel(id)) =>
          LegAddsNone(s, CancelLeg(id), b.first, asked);
        case Success(Replace(id, entry)) =>
          LegAddsNone(s, CancelLeg(id), b.first, asked);
          var absent := LegPlan(s, CancelLeg(id), b.first, asked);
          if absent.end.Success? {
            LegAddsNone(absent.end.value, ApplyLeg(b.newId, entry), b.second, absent.log);
          }
      }
      var entry := EntryPlan(mode, s, timeframe, b, asked);
      if entry.end.Success? {
        FinishAddsNone(s, entry.end.value, false, false, entry.log);
      }
    }
  }

  /** The frozen context this bar manages, if it gets that far: it is not before its entry bar. */
  function ManagedState(mode: Mode, s: Aggregate, b: Bar): Option<Aggregate> {
    if Marked(s) || s.cycle.None? || !b.position.PositionIsOpen? then None
    else
      match Freeze(mode, s, s.cycle.value.id, b.position.firstFill)
      case Failure(_) => None
      case Success(frozen) => if frozen.cycle.value.frozen.value.entryBar > b.barOpen then None else Some(frozen)
  }

  /** A bar asks for the remainder cancel at most once, and exactly when the managed cycle's frozen boundary has passed. */
  lemma RemainderAskedIffDue(mode: Mode, s: Aggregate, d: Deployment, b: Bar, log: Log)
    requires s.strategy == d.strategy
    ensures
      var managed := ManagedState(mode, s, b);
      RemainderCalls(BarPlan(mode, Some(s), d, b, log).log)
      == RemainderCalls(log) + if managed.Some? && RemainderDue(managed.value, b.barOpen) then 1 else 0
  {
    hide RemainderCalls, RemainderDue, OpenTradePlan, LiveEntryPlan, Freeze;
    CountStep();
    if !Marked(s) {
      if s.cycle.None? {
        LiveEntryAddsNone(mode, s, d.snapshot.timeframe, b, log);
      } else {
        var asked := Add(log, AskedPosition(s.cycle.value.id, b.position));
        LiveEntryAddsNone(mode, s, d.snapshot.timeframe, b, asked);
        if ManagedState(mode, s, b).Some? {
          var frozen := ManagedState(mode, s, b).value;
          OpenTradeAdds(frozen, b, asked);
          OpenTradeAdds(frozen, b, Add(Add(asked, Saved(frozen)), Wrote(Opened(s.cycle.value.id))));
        }
      }
    }
  }

  /** Once the mark is stored, no bar asks for this cycle's remainder again. */
  lemma MarkedRemainderNeverAsked(mode: Mode, s: Aggregate, d: Deployment, b: Bar, log: Log)
    requires s.strategy == d.strategy && s.cycle.Some? && s.cycle.value.remainderCancelled
    ensures RemainderCalls(BarPlan(mode, Some(s), d, b, log).log) == RemainderCalls(log)
  {
    hide BarPlan, RemainderCalls;
    RemainderAskedIffDue(mode, s, d, b, log);
    if ManagedState(mode, s, b).Some? {
      FreezeKeepsMark(mode, s, s.cycle.value.id, b.position.firstFill);
    }
  }

  lemma FreezeKeepsMark(mode: Mode, s: Aggregate, id: string, firstFill: int)
    requires Freeze(mode, s, id, firstFill).Success?
    ensures s.cycle.Some? && Freeze(mode, s, id, firstFill).value.cycle.value.remainderCancelled == s.cycle.value.remainderCancelled
  {
    hide FrozenFor;
  }

  /** The frozen boundary is the one the unfilled order had: the remainder falls due on the same bars. */
  lemma FrozenBoundaryIsOrderBoundary(n: nat, s: Aggregate, id: string, firstFill: int, desired: Option<DesiredEntry>, barOpen: int)
    requires barOpen >= 0 && s.cycle.Some? && s.cycle.value.frozen.None? && !s.cycle.value.remainderCancelled
    requires Freeze(TouchTrigger(n), s, id, firstFill).Success?
    ensures
      var decision := Decide(TouchTrigger(n), desired, s.cycle, barOpen, s.snapshot.timeframe);
      decision.Success? && (RemainderDue(Freeze(TouchTrigger(n), s, id, firstFill).value, barOpen) <==> decision.value != NoOp)
  {
    hide ExpirationMs;
  }

  /** In ema_anchor the frozen context has no boundary, so nothing is ever due. */
  lemma EmaHasNoRemainder(s: Aggregate, id: string, firstFill: int, barOpen: int)
    requires s.cycle.Some? && s.cycle.value.frozen.None? && Freeze(EmaAnchor, s, id, firstFill).Success?
    ensures !RemainderDue(Freeze(EmaAnchor, s, id, firstFill).value, barOpen)
  {
  }
}
