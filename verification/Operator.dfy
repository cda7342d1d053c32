/** The writers that are not bars: the first-fill webhook, disable, cancel entry orders, delete, operator close. */
module Operator {
  import opened Wrappers
  import opened State
  import opened EntryReconciliation
  import opened FirstFill
  import opened PositionManagement
  import opened Discipline
  import opened LogTail
  import opened Effects
  import opened Saves
  import opened Runtime
  import opened BarPlans
  import Resolver

  /** Every answer an operator command can meet; the file flags are false when the file refuses. */
  datatype Control = Control(
    catalog: bool, position: PositionReply, cancel: EntryReply, close: CloseReply, readable: bool, writable: bool)

  predicate Typed(c: Control) {
    TypedPosition(c.position) && TypedEntryReply(c.cancel)
  }

  // ---------------------------------------------------------------- plans

  /** The webhook freezes, saves only a change and journals nothing. */
  function WebhookPlan(mode: Mode, w: World, id: string, firstFill: int, log: Log): Plan<Aggregate> {
    if w.poisoned then Plan(log, Failure(Raised(StoreFailed)))
    else if w.stored.None? then Plan(log, Failure(Raised(NotFound)))
    else
      match Freeze(mode, w.stored.value, id, firstFill)
      case Failure(e) => Plan(log, Failure(e))
      case Success(s') => Plan(if IsFrozen(w.stored.value) then log else Add(log, Saved(s')), Success(s'))
  }

  /** Refuse, or cancel a resting entry order and clear the cycle on exact absence only. */
  function CancelStepPlan(w: World, c: Control, log: Log): Plan<bool> {
    if w.poisoned then Plan(log, Failure(Raised(StoreFailed)))
    else if w.stored.None? then Plan(log, Success(false))
    else
      var s := w.stored.value;
      if Marked(s) then Plan(log, Failure(Raised(RecoveryPending)))
      else if s.cycle.None? then Plan(log, Success(false))
      else
        var id := s.cycle.value.id;
        var asked := Add(log, AskedPosition(id, c.position));
        match c.position
        case LookupFailed => Plan(asked, Failure(Raised(AbiUnavailable)))
        case PositionIsOpen(_) => Plan(asked, Failure(Raised(PositionOpen)))
        case PositionClosedBy(_) => Plan(asked, Failure(Raised(CycleNotSettled)))
        case PositionFlat =>
          var sent := Add(asked, SentCancel(id, c.cancel));
          if c.cancel.EntryFailed? then Plan(sent, Failure(Raised(AbiUnavailable)))
          else if c.cancel != EntryAbsent(s.instance, id) then Plan(sent, Failure(Raised(CancelNotConfirmed)))
          else Plan(Add(Add(sent, Saved(s.(cycle := None))), Wrote(Ended(id, Disabled))), Success(true))
  }

  /** A file change after everything else: `change` is appended when the file takes it. */
  function ThenChangeFile(step: Plan<bool>, writable: bool, change: Effect): Plan<bool> {
    if step.end.Failure? then step
    else if !writable then Plan(step.log, Failure(Raised(FileFailed)))
    else Plan(Add(step.log, change), step.end)
  }

  function SetEnabledPlan(w: World, enabled: bool, c: Control, log: Log): Plan<bool> {
    if !c.catalog then Plan(log, Failure(Raised(CatalogUnavailable)))
    else if !w.present then Plan(log, Failure(Raised(NotFound)))
    else if w.enabled == enabled then Plan(log, Success(false))
    else
      var step := if enabled then Plan(log, Success(false)) else CancelStepPlan(w, c, log);
      ThenChangeFile(step, c.writable, WroteEnabled(enabled))
  }

  function CancelEntryOrdersPlan(w: World, c: Control, log: Log): Plan<bool> {
    if !c.catalog then Plan(log, Failure(Raised(CatalogUnavailable)))
    else if !w.present then Plan(log, Failure(Raised(NotFound)))
    else ThenChangeFile(CancelStepPlan(w, c, log), c.writable, WroteEnabled(false))
  }

  function DeletePlan(w: World, c: Control, log: Log): Plan<bool> {
    if !c.catalog then Plan(log, Failure(Raised(CatalogUnavailable)))
    else if !w.present then Plan(log, Failure(Raised(NotFound)))
    else if w.enabled then Plan(log, Failure(Raised(StillEnabled)))
    else if !c.readable then Plan(log, Failure(Raised(FileFailed)))
    else ThenChangeFile(CancelStepPlan(w, c, log), c.writable, Trashed)
  }

  /** Disable, mark, close, clear; the position must already be frozen. */
  function CloseFrozenPlan(s: Aggregate, id: string, c: Control, log: Log): Plan<string> {
    if !c.writable then Plan(log, Failure(Raised(FileFailed)))
    else
      var pending := s.(pendingClose := Some(id));
      var sent := Add(Add(Add(log, WroteEnabled(false)), Saved(pending)), SentClose(id, c.close));
      if c.close.CloseFailed? || c.close.instance != s.instance || c.close.id != id then
        Plan(sent, Failure(Raised(AbiUnavailable)))
      else
        var saved := Add(sent, Saved(Resolver.Cleared(s)));
        Plan(if c.close.withClosure then Add(saved, Wrote(Closed(id))) else saved, Success(id))
  }

  function ClosePositionPlan(mode: Mode, w: World, c: Control, log: Log): Plan<string> {
    if !c.catalog then Plan(log, Failure(Raised(CatalogUnavailable)))
    else if !w.present then Plan(log, Failure(Raised(NotFound)))
    else if w.poisoned then Plan(log, Failure(Raised(StoreFailed)))
    else if w.stored.None? then Plan(log, Failure(Raised(NoPosition)))
    else
      var s := w.stored.value;
      if Marked(s) then Plan(log, Failure(Raised(RecoveryPending)))
      else if s.cycle.None? then Plan(log, Failure(Raised(NoPosition)))
      else
        var id := s.cycle.value.id;
        var asked := Add(log, AskedPosition(id, c.position));
        match c.position
        case LookupFailed => Plan(asked, Failure(Raised(AbiUnavailable)))
        case PositionClosedBy(_) => Plan(asked, Failure(Raised(CycleNotSettled)))
        case PositionFlat => Plan(asked, Failure(Raised(NoPosition)))
        case PositionIsOpen(firstFill) =>
          if IsFrozen(s) then CloseFrozenPlan(s, id, c, asked)
          else
            match Freeze(mode, s, id, firstFill)
            case Failure(e) => Plan(asked, Failure(e))
            case Success(frozen) => CloseFrozenPlan(frozen, id, c, Add(Add(asked, Saved(frozen)), Wrote(Opened(id))))
  }

  // ---------------------------------------------------------------- methods

  method OnFirstFill(rt: Instance, id: string, firstFill: int) returns (r: Result<Aggregate, Stop>)
    requires rt.Running()
    modifies rt
    ensures rt.Valid() && old(rt.past) <= rt.past && (rt.cutOff <==> r == Failure(Interrupted))
    ensures r != Failure(Interrupted) ==> Plan(rt.log, r) == WebhookPlan(rt.mode, old(rt.w), id, firstFill, old(rt.log))
    ensures r.Success? ==> rt.w.stored == Some(r.value)
  {
    hide Inv, Coherent, Permitted, Legal, After, Remembers, WholeCut, AfterAppend, Harmless, Freeze;
    if rt.w.poisoned {
      return Failure(Raised(StoreFailed));
    }
    if rt.w.stored.None? {
      return Failure(Raised(NotFound));
    }
    var s := rt.w.stored.value;
    var frozen :- Freeze(rt.mode, s, id, firstFill);
    StoredIsCoherent(rt.w);
    FreezeKeepsCoherent(rt.mode, s, id, firstFill);
    if !IsFrozen(s) {
      MayFreeze(rt.w, rt.mode, frozen, id, firstFill);
      :- rt.SaveState(frozen);
    }
    return Success(frozen);
  }

  /** When it returns, the durable state names nothing. */
  method CancelStep(rt: Instance, c: Control) returns (r: Result<bool, Stop>)
    requires rt.Running() && Typed(c)
    modifies rt
    ensures rt.Valid() && old(rt.past) <= rt.past && (rt.cutOff <==> r == Failure(Interrupted))
    ensures r != Failure(Interrupted) ==> Plan(rt.log, r) == CancelStepPlan(old(rt.w), c, old(rt.log))
    ensures r.Success? ==> Quiet(rt.w.stored) && !rt.w.poisoned
  {
    hide Inv, Coherent, Permitted, Legal, After, Remembers, WholeCut, AfterAppend, Harmless;
    if rt.w.poisoned {
      return Failure(Raised(StoreFailed));
    }
    if rt.w.stored.None? {
      return Success(false);
    }
    var s := rt.w.stored.value;
    if Marked(s) {
      return Failure(Raised(RecoveryPending));
    }
    if s.cycle.None? {
      return Success(false);
    }
    var id := s.cycle.value.id;
    Resolver.NamedIsUsed(rt.w);
    :- rt.Call(PositionEvidence(s.instance, c.position), AskedPosition(id, c.position));
    match c.position
    case LookupFailed => return Failure(Raised(AbiUnavailable));
    case PositionIsOpen(_) => return Failure(Raised(PositionOpen));
    case PositionClosedBy(_) => return Failure(Raised(CycleNotSettled));
    case PositionFlat =>
      :- rt.Call(CancelEvidence(s.instance, c.cancel), SentCancel(id, c.cancel));
      if c.cancel.EntryFailed? {
        return Failure(Raised(AbiUnavailable));
      }
      if c.cancel != EntryAbsent(s.instance, id) {
        return Failure(Raised(CancelNotConfirmed));
      }
      MayDrop(rt.w, s.(cycle := None));
      :- rt.SaveState(s.(cycle := None));
      :- rt.WriteRecord(Ended(id, Disabled));
      return Success(true);
  }

  /** No cycle and no marker in the served state: nothing can be at the exchange, as long as the log's tail was kept. */
  lemma QuietMeansNothingLive(w: World)
    requires Inv(w) && !w.poisoned && Quiet(w.stored)
    ensures w.tailKept ==> forall id :: !MayBeLive(w, id)
  {
    hide OpenedOnce, EndedOnce, IdsKnown;
    if w.tailKept {
      forall id ensures !MayBeLive(w, id) {
        assert MayBeLive(w, id) ==> NamesNow(w, id);
      }
    }
  }

  /** The served state names nothing, and nothing is live unless an append once followed a torn tail. */
  ghost predicate NothingLeft(w: World) {
    Quiet(w.stored) && (w.tailKept ==> forall id :: !MayBeLive(w, id))
  }

  method SetEnabled(rt: Instance, enabled: bool, c: Control) returns (r: Result<bool, Stop>)
    requires rt.Running() && Typed(c)
    modifies rt
    ensures rt.Valid() && old(rt.past) <= rt.past && (rt.cutOff <==> r == Failure(Interrupted))
    ensures r != Failure(Interrupted) ==> Plan(rt.log, r) == SetEnabledPlan(old(rt.w), enabled, c, old(rt.log))
    ensures r.Success? ==> rt.w.enabled == enabled
    ensures r.Success? && !enabled && old(rt.w.enabled) ==> NothingLeft(rt.w)
  {
    hide Inv, Coherent, Permitted, Legal, After, Remembers, WholeCut, AfterAppend, Harmless, CancelStepPlan, MayBeLive;
    if !c.catalog {
      return Failure(Raised(CatalogUnavailable));
    }
    if !rt.w.present {
      return Failure(Raised(NotFound));
    }
    if rt.w.enabled == enabled {
      return Success(false);
    }
    var cancelled := false;
    if !enabled {
      cancelled :- CancelStep(rt, c);
    }
    :- rt.WriteEnabledFlag(enabled, c.writable);
    if !enabled {
      QuietMeansNothingLive(rt.w);
    }
    return Success(cancelled);
  }

  method CancelEntryOrders(rt: Instance, c: Control) returns (r: Result<bool, Stop>)
    requires rt.Running() && Typed(c)
    modifies rt
    ensures rt.Valid() && old(rt.past) <= rt.past && (rt.cutOff <==> r == Failure(Interrupted))
    ensures r != Failure(Interrupted) ==> Plan(rt.log, r) == CancelEntryOrdersPlan(old(rt.w), c, old(rt.log))
    ensures r.Success? ==> !rt.w.enabled && NothingLeft(rt.w)
  {
    hide Inv, Coherent, Permitted, Legal, After, Remembers, WholeCut, AfterAppend, Harmless, CancelStepPlan, MayBeLive;
    if !c.catalog {
      return Failure(Raised(CatalogUnavailable));
    }
    if !rt.w.present {
      return Failure(Raised(NotFound));
    }
    var cancelled :- CancelStep(rt, c);
    :- rt.WriteEnabledFlag(false, c.writable);
    QuietMeansNothingLive(rt.w);
    return Success(cancelled);
  }

  method Delete(rt: Instance, c: Control) returns (r: Result<bool, Stop>)
    requires rt.Running() && Typed(c)
    modifies rt
    ensures rt.Valid() && old(rt.past) <= rt.past && (rt.cutOff <==> r == Failure(Interrupted))
    ensures r != Failure(Interrupted) ==> Plan(rt.log, r) == DeletePlan(old(rt.w), c, old(rt.log))
    ensures r.Success? ==> !rt.w.present && NothingLeft(rt.w)
  {
    hide Inv, Coherent, Permitted, Legal, After, Remembers, WholeCut, AfterAppend, Harmless, CancelStepPlan, MayBeLive;
    if !c.catalog {
      return Failure(Raised(CatalogUnavailable));
    }
    if !rt.w.present {
      return Failure(Raised(NotFound));
    }
    if rt.w.enabled {
      return Failure(Raised(StillEnabled));
    }
    if !c.readable {
      return Failure(Raised(FileFailed));
    }
    var cancelled :- CancelStep(rt, c);
    :- rt.MoveDeployment(c.writable);
    QuietMeansNothingLive(rt.w);
    return Success(cancelled);
  }

  /** The close leaves only after `enabled=false` and the marker are durable. */
  method DisableMarkAndSendClose(rt: Instance, s: Aggregate, id: string, c: Control) returns (r: Result<(), Stop>)
    requires rt.Running() && !rt.w.poisoned && rt.w.stored == Some(s) && !Marked(s) && IsFrozen(s) && s.cycle.value.id == id
    modifies rt
    ensures rt.Valid() && old(rt.past) <= rt.past && (rt.cutOff <==> r == Failure(Interrupted))
    ensures r.Failure? && r.error != Interrupted ==> r.error == Raised(FileFailed) && !c.writable && rt.log == old(rt.log)
    ensures r.Success? ==> c.writable
    ensures r.Success? ==>
      rt.log == Add(Add(Add(old(rt.log), WroteEnabled(false)), Saved(s.(pendingClose := Some(id)))), SentClose(id, c.close))
    ensures r.Success? ==> !rt.w.poisoned && !rt.w.enabled && rt.w.stored == Some(s.(pendingClose := Some(id)))
    ensures r.Success? && CloseEvidence(s.instance, c.close) == Some(id) ==> id in rt.w.settled
  {
    hide Inv, Coherent, Permitted, Legal, After, Remembers, WholeCut, AfterAppend, Harmless;
    :- rt.WriteEnabledFlag(false, c.writable);
    MayMarkClose(rt.w, s.(pendingClose := Some(id)));
    :- rt.SaveState(s.(pendingClose := Some(id)));
    Resolver.NamedIsUsed(rt.w);
    :- rt.Call(CloseEvidence(s.instance, c.close), SentClose(id, c.close));
    return Success(());
  }

  method CloseFrozen(rt: Instance, s: Aggregate, id: string, c: Control) returns (r: Result<string, Stop>)
    requires rt.Running() && !rt.w.poisoned && rt.w.stored == Some(s) && !Marked(s) && IsFrozen(s) && s.cycle.value.id == id
    modifies rt
    ensures rt.Valid() && old(rt.past) <= rt.past && (rt.cutOff <==> r == Failure(Interrupted))
    ensures r != Failure(Interrupted) ==> Plan(rt.log, r) == CloseFrozenPlan(s, id, c, old(rt.log))
    ensures r.Success? ==> !rt.w.enabled && Quiet(rt.w.stored) && !rt.w.poisoned
  {
    hide Inv, Coherent, Permitted, Legal, After, Remembers, WholeCut, AfterAppend, Harmless;
    var _ :- DisableMarkAndSendClose(rt, s, id, c);
    if c.close.CloseFailed? || c.close.instance != s.instance || c.close.id != id {
      return Failure(Raised(AbiUnavailable));
    }
    MayDrop(rt.w, Resolver.Cleared(s));
    :- rt.SaveState(Resolver.Cleared(s));
    if c.close.withClosure {
      :- rt.WriteRecord(Closed(id));
    }
    return Success(id);
  }

  method ClosePosition(rt: Instance, c: Control) returns (r: Result<string, Stop>)
    requires rt.Running() && Typed(c)
    modifies rt
    ensures rt.Valid() && old(rt.past) <= rt.past && (rt.cutOff <==> r == Failure(Interrupted))
    ensures r != Failure(Interrupted) ==> Plan(rt.log, r) == ClosePositionPlan(rt.mode, old(rt.w), c, old(rt.log))
    ensures r.Success? ==> !rt.w.enabled && NothingLeft(rt.w)
  {
    hide Inv, Coherent, Permitted, Legal, After, Remembers, WholeCut, AfterAppend, Harmless, CloseFrozenPlan, Freeze, MayBeLive;
    if !c.catalog {
      return Failure(Raised(CatalogUnavailable));
    }
    if !rt.w.present {
      return Failure(Raised(NotFound));
    }
    if rt.w.poisoned {
      return Failure(Raised(StoreFailed));
    }
    if rt.w.stored.None? {
      return Failure(Raised(NoPosition));
    }
    var s := rt.w.stored.value;
    if Marked(s) {
      return Failure(Raised(RecoveryPending));
    }
    if s.cycle.None? {
      return Failure(Raised(NoPosition));
    }
    var id := s.cycle.value.id;
    :- rt.Call(PositionEvidence(s.instance, c.position), AskedPosition(id, c.position));
    match c.position
    case LookupFailed => return Failure(Raised(AbiUnavailable));
    case PositionClosedBy(_) => return Failure(Raised(CycleNotSettled));
    case PositionFlat => return Failure(Raised(NoPosition));
    case PositionIsOpen(firstFill) =>
      if !IsFrozen(s) {
        var frozen :- Freeze(rt.mode, s, id, firstFill);
        StoredIsCoherent(rt.w);
        FreezeKeepsCoherent(rt.mode, s, id, firstFill);
        MayFreeze(rt.w, rt.mode, frozen, id, firstFill);
        :- rt.SaveState(frozen);
        :- rt.WriteRecord(Opened(id));
        s := frozen;
      }
      var closed :- CloseFrozen(rt, s, id, c);
      QuietMeansNothingLive(rt.w);
      return Success(closed);
  }
}
