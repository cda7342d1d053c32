/** Processing one committed bar for one instance, under its mutex. */
module BarProcessing {
  import opened Wrappers
  import opened DecimalText
  import opened Recipes
  import opened State
  import opened Lifetime
  import opened EntryReconciliation
  import opened FirstFill
  import opened PositionManagement
  import opened Discipline
  import opened LogTail
  import opened Effects
  import opened Saves
  import opened Runtime
  import opened BarPlans
  import Resolver

  /** What may be stored when a leg starts from the local aggregate `s`. */
  predicate LegReady(w: World, s: Aggregate, leg: Leg) {
    && w.stored.Some? && !w.poisoned && !Marked(s)
    && match leg
       case CancelLeg(_) => w.stored == Some(s)
       case ApplyLeg(id, _) =>
         && id != "" && id !in w.used && s == Resolver.Cleared(w.stored.value)
         && (NamedId(w.stored.value).Some? ==> NamedId(w.stored.value).value in w.settled)
  }

  function MarkedFor(s: Aggregate, command: Command): Aggregate {
    s.(pendingEntry := Some(command.id))
  }

  /** The marker is durable before the command leaves. */
  method SendLeg(rt: Instance, s: Aggregate, leg: Leg, reply: EntryReply) returns (r: Result<Command, Stop>)
    requires rt.Running() && LegReady(rt.w, s, leg)
    modifies rt
    ensures rt.Valid() && old(rt.past) <= rt.past && (rt.cutOff <==> r == Failure(Interrupted))
    ensures r.Success? ==> BuildCommand(s, leg) == r && !rt.w.poisoned && rt.w.stored == Some(MarkedFor(s, r.value))
    ensures r.Success? ==> rt.log == Add(Add(old(rt.log), Saved(MarkedFor(s, r.value))), SentEntry(r.value, reply))
    ensures r.Success? ==> rt.w.used == old(rt.w).used + {r.value.id}
    ensures r.Success? && EntryEvidence(s.instance, r.value, reply) == Some(r.value.id) ==> r.value.id in rt.w.settled
    ensures r.Success? && leg.ApplyLeg? ==> OldNameEnds(old(rt.w), rt.w)
    ensures r.Failure? && r.error != Interrupted ==> BuildCommand(s, leg) == r && rt.log == old(rt.log)
  {
    hide Inv, Coherent, Permitted, Legal, After, Remembers, WholeCut, AfterAppend, Harmless, ValidEntry;
    var command :- BuildCommand(s, leg);
    var pending := MarkedFor(s, command);
    NamedIsUsed(rt.w);
    MayMarkEntry(rt.w, pending, command.id);
    if leg.ApplyLeg? { FreshIsUnknown(rt.w, command.id); }
    :- rt.SaveState(pending);
    if leg.ApplyLeg? { rt.HandOverApply(command.id); }
    :- rt.Call(EntryEvidence(s.instance, command, reply), SentEntry(command, reply));
    return Success(command);
  }

  /** The id named before is named no more, and its terminal record is due. */
  predicate OldNameEnds(before: World, w: World) {
    && before.stored.Some?
    && (NamedId(before.stored.value).Some? ==> NamedId(before.stored.value).value in w.endDue)
  }

  /** The marker stays until an exact answer takes it away. */
  method ExecuteLeg(rt: Instance, s: Aggregate, leg: Leg, reply: EntryReply) returns (r: Result<Aggregate, Stop>)
    requires rt.Running() && LegReady(rt.w, s, leg)
    modifies rt
    ensures rt.Valid() && old(rt.past) <= rt.past && (rt.cutOff <==> r == Failure(Interrupted))
    ensures r != Failure(Interrupted) ==> Plan(rt.log, r) == LegPlan(s, leg, reply, old(rt.log))
    ensures r.Success? ==> !rt.w.poisoned
    ensures r.Success? && leg.CancelLeg? ==> CancelDone(old(rt.w), rt.w, s, leg.id, r.value)
    ensures r.Success? && leg.ApplyLeg? ==> ApplyDone(old(rt.w), rt.w, s, leg, reply, r.value)
  {
    hide Inv, Coherent, Permitted, Legal, After, Remembers, WholeCut, AfterAppend, Harmless, ValidEntry, DecodeEntry;
    var command :- SendLeg(rt, s, leg, reply);
    match reply
    case EntryNotReady =>
      // The state is still the marked one; the marker goes, and with it this whole attempt.
      ClearUnsent(rt.w, s, command);
      :- rt.SaveState(s);
      return Failure(Raised(NotReady));
    case EntryRejected | EntryFailed =>
      return Failure(Raised(AbiUnavailable));
    case EntryDeclined(instance, id) =>
      if leg.CancelLeg? || instance != command.instance || id != command.id {
        return Failure(Raised(InvariantError));
      }
      ClearUnsent(rt.w, s, command);
      :- rt.SaveState(s);
      return Success(s);
    case _ =>
      return ApplyConfirmation(s.(pendingEntry := Some(command.id)), leg, command, reply);
  }

  lemma NamedIsUsed(w: World)
    requires Inv(w) && w.stored.Some?
    ensures NamedId(w.stored.value).Some? ==>
      NamedId(w.stored.value).value in w.used && NamedId(w.stored.value).value != ""
  {
    hide Kept, ValidPackage, ValidFrozen, ValidProtection, ValidSnapshot, FrozenFits;
  }

  lemma ClearUnsent(w: World, s: Aggregate, command: Command)
    requires Inv(w) && w.stored == Some(s.(pendingEntry := Some(command.id))) && !Marked(s)
    requires s.cycle.Some? || command.id in w.settled
    ensures Permitted(w, s)
  {
    hide Inv, Permitted;
    if s.cycle.Some? { MayReleaseRemoval(w, s); } else { MayDrop(w, s); }
  }

  /** What a cancel leg that returned leaves behind: the old id is settled and still marked. */
  predicate CancelDone(before: World, w: World, s: Aggregate, id: string, result: Aggregate) {
    && s.cycle.Some? && s.cycle.value.id == id && w.stored == Some(s.(pendingEntry := Some(id)))
    && id in w.settled && w.used == before.used + {id} && result == Resolver.Cleared(s)
  }

  /** What an apply leg that returned leaves behind: its marker and a confirmed cycle, or nothing at all. */
  predicate ApplyDone(before: World, w: World, s: Aggregate, leg: Leg, reply: EntryReply, result: Aggregate)
    requires leg.ApplyLeg?
  {
    && OldNameEnds(before, w)
    && if reply.EntryDeclined? then w.stored == Some(s) && result == s
       else
         && reply.EntryApplied? && w.stored == Some(s.(pendingEntry := Some(leg.id)))
         && result == s.(cycle := Some(ConfirmedCycle(leg.id, leg.entry, reply.quantity)))
  }

  /** One reconciliation decision carried through; the result is not saved yet. */
  method ExecuteEntry(rt: Instance, s: Aggregate, timeframe: string, b: Bar) returns (r: Result<Aggregate, Stop>)
    requires rt.Running() && !rt.w.poisoned && rt.w.stored == Some(s) && !Marked(s)
    requires TypedBar(b) && b.newId !in rt.w.used && b.wish.Wish?
    modifies rt
    ensures rt.Valid() && old(rt.past) <= rt.past && (rt.cutOff <==> r == Failure(Interrupted))
    ensures r != Failure(Interrupted) ==> Plan(rt.log, r) == EntryPlan(rt.mode, s, timeframe, b, old(rt.log))
    ensures r.Success? ==> !rt.w.poisoned && rt.w.stored.Some? && ReadyToFinish(rt.w, s, r.value)
  {
    hide Inv, Coherent, Permitted, Legal, After, Remembers, WholeCut, AfterAppend, Harmless, ValidEntry, DecodeEntry, ValidWire, IsExactDecimal;
    NamedIsUsed(rt.w);
    var decision :- Decide(rt.mode, b.wish.desired, s.cycle, b.barOpen, timeframe);
    DecisionIsOwn(rt.mode, b.wish.desired, s.cycle, b.barOpen, timeframe);
    match decision
    case NoOp =>
      return Success(s);
    case Apply(entry) =>
      var result :- ExecuteLeg(rt, s, ApplyLeg(b.newId, entry), b.first);
      ApplyIsFinishable(rt.w, s, ApplyLeg(b.newId, entry), b.first, result);
      return Success(result);
    case Cancel(id) =>
      var result :- ExecuteLeg(rt, s, CancelLeg(id), b.first);
      CancelIsFinishable(rt.w, s, id, result);
      return Success(result);
    case Replace(id, entry) =>
      var absent :- ExecuteLeg(rt, s, CancelLeg(id), b.first);
      var result :- ExecuteLeg(rt, absent, ApplyLeg(b.newId, entry), b.second);
      ApplyIsFinishable(rt.w, absent, ApplyLeg(b.newId, entry), b.second, result);
      return Success(result);
  }

  /** A decision only names the current cycle and only asks for the Engine's entry. */
  lemma DecisionIsOwn(mode: Mode, desired: Option<DesiredEntry>, cycle: Option<TradeCycle>, barOpen: int, timeframe: string)
    ensures match Decide(mode, desired, cycle, barOpen, timeframe)
      case Success(Apply(entry)) => cycle.None? && desired == Some(entry)
      case Success(Cancel(id)) => cycle.Some? && cycle.value.id == id
      case Success(Replace(id, entry)) => cycle.Some? && cycle.value.id == id && desired == Some(entry)
      case _ => true
  {
    hide TimeframeMs;
  }

  /** The bar's result may be saved now, and if it ends the source's unfilled cycle the record is due. */
  predicate ReadyToFinish(w: World, source: Aggregate, result: Aggregate)
    requires w.stored.Some?
  {
    && (result == source ==> w.stored == Some(source))
    && (result != source ==> Permitted(w, result))
    && (EntryEnded(source, result) ==>
          source.cycle.value.id in w.endDue + Dropped(w.stored.value, result))
  }

  lemma ApplyIsFinishable(w: World, s: Aggregate, leg: Leg, reply: EntryReply, result: Aggregate)
    requires Inv(w) && leg.ApplyLeg? && ValidEntry(leg.entry) && TypedEntryReply(reply)
    requires !Marked(s) && s.cycle.None?
    requires reply.EntryDeclined? ==> w.stored == Some(s) && result == s
    requires !reply.EntryDeclined? ==> reply.EntryApplied? && w.stored == Some(s.(pendingEntry := Some(leg.id)))
    requires !reply.EntryDeclined? ==> result == s.(cycle := Some(ConfirmedCycle(leg.id, leg.entry, reply.quantity)))
    ensures Permitted(w, result)
  {
    if reply.EntryDeclined? {
      SaveAgain(w, s);
    } else {
      hide Inv, Permitted, ValidEntry;
      MayBuildCycle(w, result, leg.id, leg.entry, reply.quantity);
    }
  }

  lemma SaveAgain(w: World, s: Aggregate)
    requires Inv(w) && w.stored == Some(s)
    ensures Permitted(w, s)
  {
    hide Kept, Coherent;
  }

  lemma CancelIsFinishable(w: World, s: Aggregate, id: string, result: Aggregate)
    requires Inv(w) && !Marked(s) && s.cycle.Some? && s.cycle.value.id == id
    requires w.stored == Some(s.(pendingEntry := Some(id))) && id in w.settled && result == Resolver.Cleared(s)
    ensures Permitted(w, result)
  {
    hide Inv, Permitted;
    MayDrop(w, result);
  }

  /** The bar's last save and its records. */
  method Finish(rt: Instance, source: Aggregate, result: Aggregate, closure: bool) returns (r: Result<Aggregate, Stop>)
    requires rt.Running() && rt.w.stored.Some?
    requires !rt.w.poisoned ==> ReadyToFinish(rt.w, source, result)
    requires closure ==> source.cycle.Some? && result.cycle.None? && result.pendingEntry.None? && IsFrozen(source)
    requires closure && !rt.w.poisoned ==> NamedId(rt.w.stored.value) == Some(source.cycle.value.id)
    modifies rt
    ensures rt.Valid() && old(rt.past) <= rt.past && (rt.cutOff <==> r == Failure(Interrupted))
    ensures r != Failure(Interrupted) ==>
      Plan(rt.log, r) == FinishPlan(source, result, closure, old(rt.w.poisoned), old(rt.log))
    ensures r.Success? ==> rt.w.poisoned == old(rt.w.poisoned)
    ensures r.Success? && !old(rt.w.poisoned) ==> rt.w.stored == Some(r.value)
  {
    hide Inv, Coherent, Permitted, Legal, After, Remembers, WholeCut, AfterAppend, Harmless;
    if result == source {
      return Success(result);
    }
    :- rt.SaveState(result);
    if closure {
      :- rt.WriteRecord(Closed(source.cycle.value.id));
    }
    if EntryEnded(source, result) {
      :- rt.WriteRecord(Ended(source.cycle.value.id, Cancelled));
    }
    return Success(result);
  }

  method LiveEntryBar(rt: Instance, s: Aggregate, timeframe: string, b: Bar) returns (r: Result<Aggregate, Stop>)
    requires rt.Running() && !rt.w.poisoned && rt.w.stored == Some(s) && !Marked(s)
    requires TypedBar(b) && b.newId !in rt.w.used
    modifies rt
    ensures rt.Valid() && old(rt.past) <= rt.past && (rt.cutOff <==> r == Failure(Interrupted))
    ensures r != Failure(Interrupted) ==> Plan(rt.log, r) == LiveEntryPlan(rt.mode, s, timeframe, b, old(rt.log))
    ensures r.Success? ==> rt.w.stored == Some(r.value)
  {
    hide Inv, Coherent, Permitted, Legal, After, Remembers, WholeCut, AfterAppend, Harmless, TypedBar, EntryPlan, FinishPlan, ReadyToFinish;
    :- rt.Call(None, AskedLiveEntry(b.wish));
    if b.wish.NoWishReceived? {
      return Failure(Raised(EngineUnavailable));
    }
    var result :- ExecuteEntry(rt, s, timeframe, b);
    r := Finish(rt, s, result, false);
  }

  /** The remainder cancel of an expired, filled entry order: a failed call or save never stops the bar. */
  method CancelExpiredRemainder(rt: Instance, s: Aggregate, b: Bar) returns (r: Result<Aggregate, Stop>)
    requires rt.Running() && !rt.w.poisoned && rt.w.stored == Some(s)
    modifies rt
    ensures rt.Valid() && old(rt.past) <= rt.past && (rt.cutOff <==> r == Failure(Interrupted))
    ensures r.Failure? ==> r.error == Interrupted
    ensures r.Success? ==> (rt.log, r.value, rt.w.poisoned) == RemainderPlan(s, b, old(rt.log))
    ensures r.Success? ==> rt.w.stored.Some?
    ensures r.Success? && !rt.w.poisoned ==> rt.w.stored == Some(r.value)
  {
    hide Inv, Coherent, Permitted, Legal, After, Remembers, WholeCut, AfterAppend, Harmless;
    if !RemainderDue(s, b.barOpen) {
      return Success(s);
    }
    :- rt.Call(None, SentRemainderCancel(s.cycle.value.id, b.remainder));
    if b.remainder.RemainderFailed? {
      return Success(s);
    }
    MayUpdateFrozenCycle(rt.w, MarkRemainder(s));
    var saved := rt.SaveOrPoison(MarkRemainder(s), b.markDurable);
    match saved
    case Pass => return Success(MarkRemainder(s));
    case Fail(Interrupted) => return Failure(Interrupted);
    case Fail(Raised(_)) => return Success(s);
  }

  /** The close marker is durable before the close leaves. The result is not saved yet. */
  method ManagePosition(rt: Instance, s: Aggregate, b: Bar) returns (r: Result<(Aggregate, bool), Stop>)
    requires rt.Running() && !Marked(s) && b.recipe.Received? && TypedBar(b)
    requires IsFrozen(s) && (!rt.w.poisoned ==> rt.w.stored == Some(s)) && rt.w.stored.Some?
    modifies rt
    ensures rt.Valid() && old(rt.past) <= rt.past && (rt.cutOff <==> r == Failure(Interrupted))
    ensures r != Failure(Interrupted) ==> Plan(rt.log, r) == PositionPlan(s, old(rt.w.poisoned), b, old(rt.log))
    ensures r.Success? ==> rt.w.poisoned == old(rt.w.poisoned) && rt.w.stored.Some?
    ensures r.Success? && !rt.w.poisoned ==> ReadyToFinish(rt.w, s, r.value.0)
    ensures r.Success? && r.value.1 ==> r.value.0.cycle.None? && r.value.0.pendingEntry.None?
    ensures r.Success? && r.value.1 && !rt.w.poisoned ==> NamedId(rt.w.stored.value) == NamedId(s)
  {
    hide Inv, Coherent, Permitted, Legal, After, Remembers, WholeCut, AfterAppend, Harmless, ValidProtection, MakeProtection;
    var decision :- DecidePosition(b.recipe.recipe, s.cycle);
    match decision
    case KeepAsIs =>
      return Success((s, false));
    case ApplyProtection(id, protection) =>
      :- rt.Call(None, SentProtection(id, protection, b.protect));
      if b.protect.ProtectFailed? {
        return Failure(Raised(AbiUnavailable));
      }
      var done :- ConfirmProtection(s, id, protection, b.protect);
      if !rt.w.poisoned {
        MayUpdateFrozenCycle(rt.w, done);
      }
      return Success((done, false));
    case ClosePosition(id) =>
      r := CloseMarked(rt, s, id, b.close);
  }

  method CloseMarked(rt: Instance, s: Aggregate, id: string, reply: CloseReply) returns (r: Result<(Aggregate, bool), Stop>)
    requires rt.Running() && !Marked(s) && IsFrozen(s) && s.cycle.value.id == id
    requires (!rt.w.poisoned ==> rt.w.stored == Some(s)) && rt.w.stored.Some?
    modifies rt
    ensures rt.Valid() && old(rt.past) <= rt.past && (rt.cutOff <==> r == Failure(Interrupted))
    ensures r != Failure(Interrupted) ==> Plan(rt.log, r) == ClosePlan(s, id, old(rt.w.poisoned), reply, old(rt.log))
    ensures r.Success? ==> !rt.w.poisoned && rt.w.stored == Some(s.(pendingClose := Some(id)))
    ensures r.Success? ==> Permitted(rt.w, r.value.0) && r.value.0 == Resolver.Cleared(s)
  {
    hide Inv, Coherent, Permitted, Legal, After, Remembers, WholeCut, AfterAppend, Harmless;
    var pending := s.(pendingClose := Some(id));
    if !rt.w.poisoned {
      MayMarkClose(rt.w, pending);
      NamedIsUsed(rt.w);
    }
    :- rt.SaveState(pending);
    :- rt.Call(CloseEvidence(s.instance, reply), SentClose(id, reply));
    if reply.CloseFailed? {
      return Failure(Raised(AbiUnavailable));
    }
    var done :- ConfirmClose(pending, id, reply);
    MayDrop(rt.w, done);
    return Success((done, reply.withClosure));
  }

  method OpenTradeBar(rt: Instance, s: Aggregate, b: Bar) returns (r: Result<Aggregate, Stop>)
    requires rt.Running() && !rt.w.poisoned && rt.w.stored == Some(s) && !Marked(s) && IsFrozen(s) && TypedBar(b)
    modifies rt
    ensures rt.Valid() && old(rt.past) <= rt.past && (rt.cutOff <==> r == Failure(Interrupted))
    ensures r != Failure(Interrupted) ==> Plan(rt.log, r) == OpenTradePlan(s, b, old(rt.log))
    ensures r.Success? && !rt.w.poisoned ==> rt.w.stored == Some(r.value)
  {
    hide Inv, Coherent, Permitted, Legal, After, Remembers, WholeCut, AfterAppend, Harmless, TypedBar, PositionPlan, FinishPlan, RemainderDue;
    var source :- CancelExpiredRemainder(rt, s, b);
    :- rt.Call(None, AskedOpenTrade(b.recipe));
    if b.recipe.NoRecipeReceived? {
      return Failure(Raised(EngineUnavailable));
    }
    var managed :- ManagePosition(rt, source, b);
    r := Finish(rt, source, managed.0, managed.1);
  }

  /** First the fill is frozen and journaled, then the open trade is managed from its entry bar on. */
  method FilledBar(rt: Instance, s: Aggregate, firstFill: int, b: Bar) returns (r: Result<Aggregate, Stop>)
    requires rt.Running() && !rt.w.poisoned && rt.w.stored == Some(s) && !Marked(s) && s.cycle.Some? && TypedBar(b)
    modifies rt
    ensures rt.Valid() && old(rt.past) <= rt.past && (rt.cutOff <==> r == Failure(Interrupted))
    ensures r != Failure(Interrupted) ==> Plan(rt.log, r) == FilledPlan(rt.mode, s, firstFill, b, old(rt.log))
    ensures r.Success? && !rt.w.poisoned ==> rt.w.stored == Some(r.value)
  {
    hide Inv, Coherent, Permitted, Legal, After, Remembers, WholeCut, AfterAppend, Harmless, TypedBar, OpenTradePlan, Freeze;
    var frozen :- Freeze(rt.mode, s, s.cycle.value.id, firstFill);
    StoredIsCoherent(rt.w);
    FreezeKeepsCoherent(rt.mode, s, s.cycle.value.id, firstFill);
    if !IsFrozen(s) {
      MayFreeze(rt.w, rt.mode, frozen, s.cycle.value.id, firstFill);
      :- rt.SaveState(frozen);
      :- rt.WriteRecord(Opened(s.cycle.value.id));
    }
    if frozen.cycle.value.frozen.value.entryBar > b.barOpen {
      return Success(frozen);
    }
    r := OpenTradeBar(rt, frozen, b);
  }

  /** The executor proved that the cycle ended on its own orders: no Engine, no entry on this bar. */
  method EndOnClosure(rt: Instance, s: Aggregate, closure: Closure) returns (r: Result<Aggregate, Stop>)
    requires rt.Running() && !rt.w.poisoned && rt.w.stored == Some(s) && !Marked(s)
    requires closure.instance == s.instance && closure.id in rt.w.used ==> closure.id in rt.w.settled
    modifies rt
    ensures rt.Valid() && old(rt.past) <= rt.past && (rt.cutOff <==> r == Failure(Interrupted))
    ensures r != Failure(Interrupted) ==> Plan(rt.log, r) == ClosurePlan(s, closure, old(rt.log))
    ensures r.Success? ==> rt.w.stored == Some(r.value)
  {
    hide Inv, Coherent, Permitted, Legal, After, Remembers, WholeCut, AfterAppend, Harmless;
    NamedIsUsed(rt.w);
    var ended :- ApplyClosure(s, closure);
    MayDrop(rt.w, ended);
    :- rt.SaveState(ended);
    :- rt.WriteRecord(Closed(closure.id));
    return Success(ended);
  }

  method GetOrCreate(rt: Instance, d: Deployment) returns (r: Result<Aggregate, Stop>)
    requires rt.Running() && !rt.w.poisoned && d.instance == rt.id
    modifies rt
    ensures rt.Valid() && old(rt.past) <= rt.past && (rt.cutOff <==> r == Failure(Interrupted))
    ensures r.Success? ==> !rt.w.poisoned && rt.w.stored == Some(r.value)
    ensures r.Success? ==> rt.w.used == old(rt.w).used
    ensures r != Failure(Interrupted) ==> match old(rt.w.stored)
      case Some(s) => rt.log == old(rt.log) && r == if s.strategy == d.strategy then Success(s) else Failure(Raised(IdentityConflict))
      case None =>
        if ValidAggregate(InitialState(d)) then r == Success(InitialState(d)) && rt.log == Add(old(rt.log), Registered(InitialState(d)))
        else r == Failure(Raised(InvalidValue)) && rt.log == old(rt.log)
  {
    hide Inv, Coherent, Permitted, Legal, After, Remembers, WholeCut, AfterAppend, Harmless, ValidAggregate;
    match rt.w.stored
    case Some(s) =>
      if s.strategy != d.strategy {
        return Failure(Raised(IdentityConflict));
      }
      return Success(s);
    case None =>
      if !ValidAggregate(InitialState(d)) {
        return Failure(Raised(InvalidValue));
      }
      InitialIsCoherent(d);
      :- rt.RegisterState(InitialState(d));
      return Success(InitialState(d));
  }

  lemma InitialIsCoherent(d: Deployment)
    requires ValidAggregate(InitialState(d))
    ensures Coherent(InitialState(d))
  {
    hide ValidAggregate;
  }

  /** One whole bar: exactly the effects and the result of its plan, by steps the protocol allows. */
  method Process(rt: Instance, d: Deployment, b: Bar) returns (r: Result<Aggregate, Stop>)
    requires rt.Running() && d.instance == rt.id
    requires TypedBar(b) && b.newId !in rt.w.used
    modifies rt
    ensures rt.Valid() && old(rt.past) <= rt.past && (rt.cutOff <==> r == Failure(Interrupted))
    ensures old(rt.w.poisoned) ==> r == Failure(Raised(StoreFailed)) && rt.w == old(rt.w) && rt.log == old(rt.log)
    ensures !old(rt.w.poisoned) && r != Failure(Interrupted) ==>
      Plan(rt.log, r) == BarPlan(rt.mode, old(rt.w.stored), d, b, old(rt.log))
    ensures r.Success? && !rt.w.poisoned ==> rt.w.stored == Some(r.value)
  {
    hide Inv, Coherent, Permitted, Legal, After, Remembers, WholeCut, AfterAppend, Harmless, TypedBar, ValidAggregate, LiveEntryPlan, FilledPlan, ClosurePlan;
    if rt.w.poisoned {
      return Failure(Raised(StoreFailed));
    }
    var s :- GetOrCreate(rt, d);
    if Marked(s) {
      return Success(s);
    }
    if s.cycle.None? {
      r := LiveEntryBar(rt, s, d.snapshot.timeframe, b);
      return;
    }
    :- rt.Call(PositionEvidence(s.instance, b.position), AskedPosition(s.cycle.value.id, b.position));
    match b.position
    case LookupFailed =>
      return Failure(Raised(AbiUnavailable));
    case PositionClosedBy(closure) =>
      r := EndOnClosure(rt, s, closure);
    case PositionIsOpen(firstFill) =>
      r := FilledBar(rt, s, firstFill, b);
    case PositionFlat =>
      r := LiveEntryBar(rt, s, d.snapshot.timeframe, b);
  }
}
