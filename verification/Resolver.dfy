/** One bounded attempt to turn a recovery marker back into state from executor evidence. */
module Resolver {
  import opened Wrappers
  import opened DecimalText
  import opened Recipes
  import opened State
  import opened EntryReconciliation
  import opened FirstFill
  import opened PositionManagement
  import opened Discipline
  import opened LogTail
  import opened Effects
  import opened Saves
  import opened Runtime

  datatype Answers = Answers(recovery: RecoveryReply, cancel: EntryReply, close: CloseReply)

  predicate Typed(a: Answers) {
    TypedRecovery(a.recovery) && TypedEntryReply(a.cancel)
  }

  function Cleared(s: Aggregate): Aggregate {
    s.(cycle := None, pendingEntry := None)
  }

  function Rebuilt(s: Aggregate, id: string, entry: DesiredEntry, quantity: string): Aggregate {
    s.(cycle := Some(ConfirmedCycle(id, entry, quantity)), pendingEntry := None)
  }

  function CancelPlan(s: Aggregate, id: string, reply: EntryReply, log: Log): Plan<Aggregate> {
    var asked := Add(log, SentCancel(id, reply));
    if reply == EntryAbsent(s.instance, id) then
      Plan(Add(Add(asked, Saved(Cleared(s))), Wrote(Ended(id, ExactAbsent))), Success(Cleared(s)))
    else Plan(asked, Success(s))
  }

  function TerminalPlan(s: Aggregate, id: string, reply: RecoveryReply, log: Log): Plan<Aggregate> {
    var saved := Add(log, Saved(Cleared(s)));
    Plan(if reply.TerminalNoFill? then Add(saved, Wrote(Ended(id, TerminalWithoutFill))) else saved, Success(Cleared(s)))
  }

  function RebuildPlan(mode: Mode, s: Aggregate, id: string, p: AppliedPackage, firstFill: Option<int>, log: Log): Plan<Aggregate> {
    var entry := DecodeEntry(p.wire);
    if entry.None? then Plan(log, Failure(Raised(InvalidValue)))
    else
      var built := Rebuilt(s, id, entry.value, p.quantity);
      if firstFill.None? then Plan(Add(log, Saved(built)), Success(built))
      else
        match Freeze(mode, built, id, firstFill.value)
        case Failure(e) => Plan(log, Failure(e))
        case Success(frozen) => Plan(Add(Add(log, Saved(frozen)), Wrote(Opened(id))), Success(frozen))
  }

  function UncertainApplyPlan(mode: Mode, s: Aggregate, id: string, a: Answers, log: Log): Plan<Aggregate> {
    match a.recovery
    case OrderLive(p) => RebuildPlan(mode, s, id, p, None, log)
    case RecoveredOpen(p, firstFill) => RebuildPlan(mode, s, id, p, Some(firstFill), log)
    case OrderNotFound => CancelPlan(s, id, a.cancel, log)
    case QueryFailed => Plan(log, Success(s))
    case _ => TerminalPlan(s, id, a.recovery, log)
  }

  function UncertainRemovalPlan(s: Aggregate, id: string, a: Answers, log: Log): Plan<Aggregate> {
    match a.recovery
    case RecoveredOpen(_, _) => Plan(Add(log, Saved(s.(pendingEntry := None))), Success(s.(pendingEntry := None)))
    case OrderLive(_) => CancelPlan(s, id, a.cancel, log)
    case OrderNotFound => Plan(log, Success(s))
    case QueryFailed => Plan(log, Success(s))
    case _ => TerminalPlan(s, id, a.recovery, log)
  }

  function PendingClosePlan(s: Aggregate, id: string, reply: CloseReply, log: Log): Plan<Aggregate> {
    var asked := Add(log, SentClose(id, reply));
    if reply.CloseFailed? then Plan(asked, Success(s))
    else
      match ConfirmClose(s, id, reply)
      case Failure(_) => Plan(asked, Success(s))
      case Success(ended) =>
        var saved := Add(asked, Saved(ended));
        Plan(if reply.withClosure then Add(saved, Wrote(Closed(id))) else saved, Success(ended))
  }

  /** The three resolution tables. The plan's value is the state stored when the attempt returns. */
  function AttemptPlan(mode: Mode, s: Aggregate, a: Answers, log: Log): Plan<Aggregate> {
    if s.pendingClose.Some? then PendingClosePlan(s, s.pendingClose.value, a.close, log)
    else if s.pendingEntry.None? then Plan(log, Success(s))
    else
      var asked := Add(log, AskedRecovery(s.pendingEntry.value, a.recovery));
      if s.cycle.None? then UncertainApplyPlan(mode, s, s.pendingEntry.value, a, asked)
      else UncertainRemovalPlan(s, s.cycle.value.id, a, asked)
  }

  /** The attempt does exactly what the tables say, and only steps the protocol allows. */
  method Attempt(rt: Instance, a: Answers) returns (r: Result<(), Stop>)
    requires rt.Running() && Typed(a)
    modifies rt
    ensures rt.Valid() && old(rt.past) <= rt.past && (rt.cutOff <==> r == Failure(Interrupted))
    ensures old(rt.w.poisoned) ==> r == Failure(Raised(StoreFailed)) && rt.w == old(rt.w) && rt.log == old(rt.log)
    ensures !old(rt.w.poisoned) && (old(rt.w.stored).Some? ==> !Marked(old(rt.w.stored).value)) ==>
      r == Success(()) && rt.w == old(rt.w) && rt.log == old(rt.log)
    ensures !old(rt.w.poisoned) && old(rt.w.stored).Some? && r != Failure(Interrupted) ==>
      var plan := AttemptPlan(rt.mode, old(rt.w.stored).value, a, old(rt.log));
      && rt.log == plan.log
      && (if plan.end.Success? then r == Success(()) && rt.w.stored == Some(plan.end.value)
          else r == Failure(plan.end.error) && rt.w.stored == old(rt.w.stored))
  {
    hide Inv, Coherent, Permitted, Legal, After, Remembers, WholeCut, AfterAppend, Harmless, DecodeEntry, Freeze, Extends, FrozenFits, ValidWire, ValidAggregate;
    if rt.w.poisoned {
      return Failure(Raised(StoreFailed));
    }
    if rt.w.stored.None? {
      return Success(());
    }
    var s := rt.w.stored.value;
    if s.pendingClose.Some? {
      r := ResolvePendingClose(rt, s, a.close);
      return;
    }
    if s.pendingEntry.None? {
      return Success(());
    }
    var id := s.pendingEntry.value;
    NamedIsUsed(rt.w);
    :- rt.Call(RecoveryEvidence(id, a.recovery), AskedRecovery(id, a.recovery));
    if s.cycle.None? {
      r := ResolveUncertainApply(rt, s, id, a);
    } else {
      r := ResolveUncertainRemoval(rt, s, s.cycle.value.id, a);
    }
  }

  lemma NamedIsUsed(w: World)
    requires Inv(w) && w.stored.Some?
    ensures NamedId(w.stored.value).Some? ==> NamedId(w.stored.value).value in w.used
    ensures w.stored.value.pendingEntry.Some? ==> NamedId(w.stored.value) == w.stored.value.pendingEntry
    ensures w.stored.value.pendingClose.Some? ==>
      NamedId(w.stored.value) == w.stored.value.pendingClose && w.stored.value.cycle.Some?
  {
    hide Kept, ValidCycle, ValidSnapshot, FrozenFits;
  }

  method ResolvePendingClose(rt: Instance, s: Aggregate, reply: CloseReply) returns (r: Result<(), Stop>)
    requires rt.Running() && !rt.w.poisoned && rt.w.stored == Some(s) && s.pendingClose.Some?
    modifies rt
    ensures rt.Valid() && old(rt.past) <= rt.past && (rt.cutOff <==> r == Failure(Interrupted))
    ensures r != Failure(Interrupted) ==>
      var plan := PendingClosePlan(s, s.pendingClose.value, reply, old(rt.log));
      rt.log == plan.log && plan.end.Success? && r == Success(()) && rt.w.stored == Some(plan.end.value)
  {
    hide Inv, Coherent, Permitted, Legal, After, Remembers, WholeCut, AfterAppend, Harmless;
    var id := s.pendingClose.value;
    NamedIsUsed(rt.w);
    :- rt.Call(CloseEvidence(s.instance, reply), SentClose(id, reply));
    if reply.CloseFailed? {
      return Success(());
    }
    var confirmed := ConfirmClose(s, id, reply);
    if confirmed.Failure? {
      return Success(());
    }
    PendingCloseExcludesEntry(rt.w);
    MayDrop(rt.w, confirmed.value);
    :- rt.SaveState(confirmed.value);
    if reply.withClosure {
      :- rt.WriteRecord(Closed(id));
    }
    return Success(());
  }

  lemma PendingCloseExcludesEntry(w: World)
    requires Inv(w) && w.stored.Some? && w.stored.value.pendingClose.Some?
    ensures w.stored.value.pendingEntry.None?
  {
    hide Kept, ValidCycle, ValidSnapshot, FrozenFits;
  }

  /** Rebuilds the cycle from the package the executor holds, frozen at once when it already filled. */
  method Rebuild(rt: Instance, s: Aggregate, id: string, p: AppliedPackage, firstFill: Option<int>)
    returns (r: Result<(), Stop>)
    requires rt.Running() && !rt.w.poisoned && rt.w.stored == Some(s) && IsExactDecimal(p.quantity)
    requires s.cycle.None? && s.pendingEntry == Some(id) && s.pendingClose.None?
    modifies rt
    ensures rt.Valid() && old(rt.past) <= rt.past && (rt.cutOff <==> r == Failure(Interrupted))
    ensures r != Failure(Interrupted) ==>
      var plan := RebuildPlan(rt.mode, s, id, p, firstFill, old(rt.log));
      && rt.log == plan.log
      && (if plan.end.Success? then r == Success(()) && rt.w.stored == Some(plan.end.value)
          else r == Failure(plan.end.error) && rt.w.stored == Some(s))
  {
    hide Inv, Coherent, Permitted, Legal, After, Remembers, WholeCut, AfterAppend, Harmless, DecodeEntry, Freeze, ValidEntry, IsExactDecimal;
    var entry := DecodeEntry(p.wire);
    if entry.None? {
      return Failure(Raised(InvalidValue));
    }
    DecodedIsValid(p.wire);
    var built := Rebuilt(s, id, entry.value, p.quantity);
    MayBuildCycle(rt.w, built, id, entry.value, p.quantity);
    if firstFill.None? {
      :- rt.SaveState(built);
    } else {
      var frozen :- Freeze(rt.mode, built, id, firstFill.value);
      MayBuildFrozenCycle(rt.w, rt.mode, built, frozen, id, firstFill.value);
      :- rt.SaveState(frozen);
      :- rt.WriteRecord(Opened(id));
    }
    return Success(());
  }

  method ResolveUncertainApply(rt: Instance, s: Aggregate, id: string, a: Answers) returns (r: Result<(), Stop>)
    requires rt.Running() && !rt.w.poisoned && rt.w.stored == Some(s) && Typed(a)
    requires s.cycle.None? && s.pendingEntry == Some(id) && s.pendingClose.None?
    requires RecoveryEvidence(id, a.recovery).Some? ==> id in rt.w.settled
    modifies rt
    ensures rt.Valid() && old(rt.past) <= rt.past && (rt.cutOff <==> r == Failure(Interrupted))
    ensures r != Failure(Interrupted) ==>
      var plan := UncertainApplyPlan(rt.mode, s, id, a, old(rt.log));
      && rt.log == plan.log
      && (if plan.end.Success? then r == Success(()) && rt.w.stored == Some(plan.end.value)
          else r == Failure(plan.end.error) && rt.w.stored == Some(s))
  {
    hide Inv, Coherent, Permitted, Legal, After, Remembers, WholeCut, AfterAppend, Harmless, DecodeEntry, Freeze, ValidWire;
    match a.recovery
    case OrderLive(p) =>
      r := Rebuild(rt, s, id, p, None);
    case RecoveredOpen(p, firstFill) =>
      r := Rebuild(rt, s, id, p, Some(firstFill));
    case OrderNotFound =>
      r := CancelAndClearOnlyIfExactAbsent(rt, s, id, a.cancel);
    case QueryFailed =>
      return Success(());
    case TerminalNoFill | TerminalFilled =>
      r := EndTerminal(rt, s, id, a.recovery);
  }

  lemma DecodedIsValid(wire: WireEntry)
    requires DecodeEntry(wire).Some?
    ensures ValidEntry(DecodeEntry(wire).value)
  {
    EntryConstructorFixpoint(wire.side, wire.sourceBar, wire.plannedPrice, wire.stopPrice, wire.takePrice, wire.profile);
  }

  method EndTerminal(rt: Instance, s: Aggregate, id: string, reply: RecoveryReply) returns (r: Result<(), Stop>)
    requires rt.Running() && !rt.w.poisoned && rt.w.stored == Some(s)
    requires NamedId(s) == Some(id) && s.pendingClose.None? && id in rt.w.settled
    modifies rt
    ensures rt.Valid() && old(rt.past) <= rt.past && (rt.cutOff <==> r == Failure(Interrupted))
    ensures r != Failure(Interrupted) ==>
      rt.log == TerminalPlan(s, id, reply, old(rt.log)).log && r == Success(()) && rt.w.stored == Some(Cleared(s))
  {
    hide Inv, Coherent, Permitted, Legal, After, Remembers, WholeCut, AfterAppend, Harmless;
    MayDrop(rt.w, Cleared(s));
    :- rt.SaveState(Cleared(s));
    if reply.TerminalNoFill? {
      :- rt.WriteRecord(Ended(id, TerminalWithoutFill));
    }
    return Success(());
  }

  method ResolveUncertainRemoval(rt: Instance, s: Aggregate, id: string, a: Answers) returns (r: Result<(), Stop>)
    requires rt.Running() && !rt.w.poisoned && rt.w.stored == Some(s) && Typed(a)
    requires s.cycle.Some? && s.cycle.value.id == id && s.pendingClose.None?
    requires RecoveryEvidence(id, a.recovery).Some? ==> id in rt.w.settled
    modifies rt
    ensures rt.Valid() && old(rt.past) <= rt.past && (rt.cutOff <==> r == Failure(Interrupted))
    ensures r != Failure(Interrupted) ==>
      var plan := UncertainRemovalPlan(s, id, a, old(rt.log));
      rt.log == plan.log && plan.end.Success? && r == Success(()) && rt.w.stored == Some(plan.end.value)
  {
    hide Inv, Coherent, Permitted, Legal, After, Remembers, WholeCut, AfterAppend, Harmless;
    match a.recovery
    case RecoveredOpen(_, _) =>
      MayReleaseRemoval(rt.w, s.(pendingEntry := None));
      :- rt.SaveState(s.(pendingEntry := None));
      return Success(());
    case OrderLive(_) =>
      r := CancelAndClearOnlyIfExactAbsent(rt, s, id, a.cancel);
    case OrderNotFound =>
      return Success(());
    case QueryFailed =>
      return Success(());
    case TerminalNoFill | TerminalFilled =>
      r := EndTerminal(rt, s, id, a.recovery);
  }

  method CancelAndClearOnlyIfExactAbsent(rt: Instance, s: Aggregate, id: string, reply: EntryReply)
    returns (r: Result<(), Stop>)
    requires rt.Running() && !rt.w.poisoned && rt.w.stored == Some(s) && NamedId(s) == Some(id) && s.pendingClose.None?
    modifies rt
    ensures rt.Valid() && old(rt.past) <= rt.past && (rt.cutOff <==> r == Failure(Interrupted))
    ensures r != Failure(Interrupted) ==>
      var plan := CancelPlan(s, id, reply, old(rt.log));
      rt.log == plan.log && plan.end.Success? && r == Success(()) && rt.w.stored == Some(plan.end.value)
  {
    hide Inv, Coherent, Permitted, Legal, After, Remembers, WholeCut, AfterAppend, Harmless;
    NamedIsUsed(rt.w);
    :- rt.Call(CancelEvidence(s.instance, reply), SentCancel(id, reply));
    if reply == EntryAbsent(s.instance, id) {
      MayDrop(rt.w, Cleared(s));
      :- rt.SaveState(Cleared(s));
      :- rt.WriteRecord(Ended(id, ExactAbsent));
    }
    return Success(());
  }

  /** The instance has no marker when its turn comes: its list entry is stale. */
  predicate Stale(w: World) {
    !w.poisoned && (w.stored.Some? ==> !Marked(w.stored.value))
  }

  /** What an attempt that was not cut off must have done, from the instant its turn came. */
  ghost predicate Attempted(mode: Mode, w: World, log: Log, a: Answers, log': Log, end: Result<(), Stop>) {
    if w.poisoned then log' == log && end == Failure(Raised(StoreFailed))
    else if w.stored.None? then log' == log && end == Success(())
    else
      var plan := AttemptPlan(mode, w.stored.value, a, log);
      log' == plan.log && end == if plan.end.Success? then Success(()) else Failure(plan.end.error)
  }

  /**
   * One tick over a pending list that was read outside the mutexes, with what each attempt ended in. `stopAfter` is where
   * the worker sees that it is being stopped. Only that or a crash ends a tick early, a failed attempt never does; every
   * attempt does its whole plan, and stale or unreached entries are left exactly as they are.
   */
  method Tick(pending: seq<Instance>, answers: seq<Answers>, stopAfter: nat) returns (ends: seq<Result<(), Stop>>)
    requires |pending| == |answers| && (forall i | 0 <= i < |pending| :: pending[i].Running() && Typed(answers[i]))
    requires forall i, j | 0 <= i < j < |pending| :: pending[i] != pending[j]
    modifies pending
    ensures forall i | 0 <= i < |pending| :: pending[i].Valid() && old(pending[i].past) <= pending[i].past
    ensures forall i | 0 <= i < |pending| && (i >= |ends| || Stale(old(pending[i].w))) :: pending[i].w == old(pending[i].w)
    ensures |ends| <= |pending| && |ends| <= stopAfter
    ensures (forall end | end in ends :: end != Failure(Interrupted)) ==> |ends| == |pending| || |ends| == stopAfter
    ensures forall i | 0 <= i < |ends| && ends[i] != Failure(Interrupted) ::
      Attempted(pending[i].mode, old(pending[i].w), old(pending[i].log), answers[i], pending[i].log, ends[i])
  {
    hide Inv, Coherent, Permitted, Legal, After, Remembers, WholeCut, AfterAppend, Harmless, TypedRecovery, TypedEntryReply, Attempted;
    ends := [];
    var crashed := false;
    while |ends| < |pending| && |ends| < stopAfter && !crashed
      invariant |ends| <= |pending| && |ends| <= stopAfter
      invariant crashed <==> Failure(Interrupted) in ends
      invariant forall k | 0 <= k < |pending| :: pending[k].Valid() && old(pending[k].past) <= pending[k].past
      invariant forall k | 0 <= k < |ends| && Stale(old(pending[k].w)) :: pending[k].w == old(pending[k].w)
      invariant forall k | |ends| <= k < |pending| ::
        pending[k].w == old(pending[k].w) && pending[k].log == old(pending[k].log) && !pending[k].cutOff
      invariant forall k | 0 <= k < |ends| && ends[k] != Failure(Interrupted) ::
        Attempted(pending[k].mode, old(pending[k].w), old(pending[k].log), answers[k], pending[k].log, ends[k])
    {
      var end := AttemptOnce(pending[|ends|], answers[|ends|]);
      ends := ends + [end];
      crashed := end == Failure(Interrupted);
    }
  }

  /** The attempt as the tick sees it. */
  method AttemptOnce(rt: Instance, a: Answers) returns (end: Result<(), Stop>)
    requires rt.Running() && Typed(a)
    modifies rt
    ensures rt.Valid() && old(rt.past) <= rt.past && (rt.cutOff <==> end == Failure(Interrupted))
    ensures Stale(old(rt.w)) ==> rt.w == old(rt.w)
    ensures end != Failure(Interrupted) ==> Attempted(rt.mode, old(rt.w), old(rt.log), a, rt.log, end)
  {
    hide Inv, Coherent, Permitted, Legal, After, Remembers, WholeCut, AfterAppend, Harmless, AttemptPlan, TypedRecovery, TypedEntryReply;
    end := Attempt(rt, a);
  }
}
