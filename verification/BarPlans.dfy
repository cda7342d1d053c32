/** What processing one committed bar does, as a function of the stored state, the bar and the answers met. */
module BarPlans {
  import opened Wrappers
  import opened State
  import opened EntryReconciliation
  import opened FirstFill
  import opened PositionManagement
  import opened Discipline
  import opened Effects

  datatype Deployment = Deployment(instance: string, strategy: string, snapshot: SpecSnapshot)

  /** The bar, the id the factory would hand out, and every answer this bar can meet. */
  datatype Bar = Bar(
    barOpen: int, newId: string, position: PositionReply, wish: EntryWish, first: EntryReply, second: EntryReply,
    remainder: RemainderReply, markDurable: bool, recipe: RecipeReply, protect: ProtectReply, close: CloseReply)

  predicate TypedBar(b: Bar) {
    && b.newId != "" && TypedPosition(b.position) && TypedWish(b.wish) && TypedRecipe(b.recipe)
    && TypedEntryReply(b.first) && TypedEntryReply(b.second)
  }

  function InitialState(d: Deployment): Aggregate {
    Aggregate(d.instance, d.strategy, d.snapshot, "1", None, None, None)
  }

  /** One command leg: the marker is stored before the command leaves. */
  function LegPlan(s: Aggregate, leg: Leg, reply: EntryReply, log: Log): Plan<Aggregate> {
    match BuildCommand(s, leg)
    case Failure(e) => Plan(log, Failure(e))
    case Success(command) =>
      var pending := s.(pendingEntry := Some(command.id));
      var sent := Add(Add(log, Saved(pending)), SentEntry(command, reply));
      match reply
      case EntryNotReady => Plan(Add(sent, Saved(s)), Failure(Raised(NotReady)))
      case EntryRejected | EntryFailed => Plan(sent, Failure(Raised(AbiUnavailable)))
      case EntryDeclined(instance, id) =>
        if leg.CancelLeg? || instance != command.instance || id != command.id then Plan(sent, Failure(Raised(InvariantError)))
        else Plan(Add(sent, Saved(s)), Success(s))
      case _ => Plan(sent, ApplyConfirmation(pending, leg, command, reply))
  }

  /** Replace is a confirmed cancel, then an apply under the new id. */
  function EntryPlan(mode: Mode, s: Aggregate, timeframe: string, b: Bar, log: Log): Plan<Aggregate>
    requires b.wish.Wish?
  {
    match Decide(mode, b.wish.desired, s.cycle, b.barOpen, timeframe)
    case Failure(e) => Plan(log, Failure(e))
    case Success(NoOp) => Plan(log, Success(s))
    case Success(Apply(entry)) => LegPlan(s, ApplyLeg(b.newId, entry), b.first, log)
    case Success(Cancel(id)) => LegPlan(s, CancelLeg(id), b.first, log)
    case Success(Replace(id, entry)) =>
      var absent := LegPlan(s, CancelLeg(id), b.first, log);
      if absent.end.Failure? then absent
      else LegPlan(absent.end.value, ApplyLeg(b.newId, entry), b.second, absent.log)
  }

  /** An entry cycle that never filled is gone from the saved state. */
  predicate EntryEnded(source: Aggregate, result: Aggregate) {
    && source.cycle.Some? && source.cycle.value.frozen.None?
    && !(result.cycle.Some? && result.cycle.value.id == source.cycle.value.id)
  }

  /** Saving the bar's result, unless nothing changed, and its end-of-cycle records. */
  function FinishPlan(source: Aggregate, result: Aggregate, closure: bool, lost: bool, log: Log): Plan<Aggregate>
    requires closure ==> source.cycle.Some?
  {
    if result == source then Plan(log, Success(result))
    else if lost then Plan(log, Failure(Raised(StoreFailed)))
    else
      var saved := Add(log, Saved(result));
      var closed := if closure then Add(saved, Wrote(Closed(source.cycle.value.id))) else saved;
      var ended := if EntryEnded(source, result) then Add(closed, Wrote(Ended(source.cycle.value.id, Cancelled))) else closed;
      Plan(ended, Success(result))
  }

  function LiveEntryPlan(mode: Mode, s: Aggregate, timeframe: string, b: Bar, log: Log): Plan<Aggregate> {
    var asked := Add(log, AskedLiveEntry(b.wish));
    if b.wish.NoWishReceived? then Plan(asked, Failure(Raised(EngineUnavailable)))
    else
      var entry := EntryPlan(mode, s, timeframe, b, asked);
      if entry.end.Failure? then entry else FinishPlan(s, entry.end.value, false, false, entry.log)
  }

  /** Log, state to continue with, and whether the mark's save failed. */
  function RemainderPlan(s: Aggregate, b: Bar, log: Log): (r: (Log, Aggregate, bool))
    ensures r.1.cycle.Some? == s.cycle.Some?
  {
    if !RemainderDue(s, b.barOpen) then (log, s, false)
    else
      var asked := Add(log, SentRemainderCancel(s.cycle.value.id, b.remainder));
      if b.remainder.RemainderFailed? then (asked, s, false)
      else if b.markDurable then (Add(asked, Saved(MarkRemainder(s))), MarkRemainder(s), false)
      else (Add(asked, SaveLost(MarkRemainder(s))), s, true)
  }

  /** The state after position management, and whether its closure is to be journaled. */
  function PositionPlan(s: Aggregate, lost: bool, b: Bar, log: Log): Plan<(Aggregate, bool)>
    requires b.recipe.Received?
  {
    match DecidePosition(b.recipe.recipe, s.cycle)
    case Failure(e) => Plan(log, Failure(e))
    case Success(KeepAsIs) => Plan(log, Success((s, false)))
    case Success(ApplyProtection(id, protection)) =>
      var sent := Add(log, SentProtection(id, protection, b.protect));
      if b.protect.ProtectFailed? then Plan(sent, Failure(Raised(AbiUnavailable)))
      else
        (match ConfirmProtection(s, id, protection, b.protect)
         case Failure(e) => Plan(sent, Failure(e))
         case Success(done) => Plan(sent, Success((done, false))))
    case Success(ClosePosition(id)) => ClosePlan(s, id, lost, b.close, log)
  }

  /** The marker is stored before the close leaves. */
  function ClosePlan(s: Aggregate, id: string, lost: bool, reply: CloseReply, log: Log): Plan<(Aggregate, bool)> {
    if lost then Plan(log, Failure(Raised(StoreFailed)))
    else
      var pending := s.(pendingClose := Some(id));
      var sent := Add(Add(log, Saved(pending)), SentClose(id, reply));
      if reply.CloseFailed? then Plan(sent, Failure(Raised(AbiUnavailable)))
      else
        match ConfirmClose(pending, id, reply)
        case Failure(e) => Plan(sent, Failure(e))
        case Success(done) => Plan(sent, Success((done, reply.withClosure)))
  }

  function OpenTradePlan(s: Aggregate, b: Bar, log: Log): Plan<Aggregate>
    requires s.cycle.Some?
  {
    var (after, source, lost) := RemainderPlan(s, b, log);
    var asked := Add(after, AskedOpenTrade(b.recipe));
    if b.recipe.NoRecipeReceived? then Plan(asked, Failure(Raised(EngineUnavailable)))
    else
      var managed := PositionPlan(source, lost, b, asked);
      match managed.end
      case Failure(e) => Plan(managed.log, Failure(e))
      case Success((result, closure)) => FinishPlan(source, result, closure, lost, managed.log)
  }

  function FilledPlan(mode: Mode, s: Aggregate, firstFill: int, b: Bar, log: Log): Plan<Aggregate>
    requires s.cycle.Some?
  {
    match Freeze(mode, s, s.cycle.value.id, firstFill)
    case Failure(e) => Plan(log, Failure(e))
    case Success(frozen) =>
      var saved := if IsFrozen(s) then log else Add(Add(log, Saved(frozen)), Wrote(Opened(s.cycle.value.id)));
      if frozen.cycle.value.frozen.value.entryBar > b.barOpen then Plan(saved, Success(frozen))
      else OpenTradePlan(frozen, b, saved)
  }

  function ClosurePlan(s: Aggregate, closure: Closure, log: Log): Plan<Aggregate> {
    match ApplyClosure(s, closure)
    case Failure(e) => Plan(log, Failure(e))
    case Success(ended) => Plan(Add(Add(log, Saved(ended)), Wrote(Closed(closure.id))), Success(ended))
  }

  /** A bar on a known, unmarked state. */
  function UnmarkedBarPlan(mode: Mode, s: Aggregate, timeframe: string, b: Bar, log: Log): Plan<Aggregate> {
    if s.cycle.None? then LiveEntryPlan(mode, s, timeframe, b, log)
    else
      var asked := Add(log, AskedPosition(s.cycle.value.id, b.position));
      match b.position
      case LookupFailed => Plan(asked, Failure(Raised(AbiUnavailable)))
      case PositionClosedBy(closure) => ClosurePlan(s, closure, asked)
      case PositionIsOpen(firstFill) => FilledPlan(mode, s, firstFill, b, asked)
      case PositionFlat => LiveEntryPlan(mode, s, timeframe, b, asked)
  }

  function BarPlan(mode: Mode, stored: Option<Aggregate>, d: Deployment, b: Bar, log: Log): Plan<Aggregate> {
    match stored
    case None =>
      if !ValidAggregate(InitialState(d)) then Plan(log, Failure(Raised(InvalidValue)))
      else UnmarkedBarPlan(mode, InitialState(d), d.snapshot.timeframe, b, Add(log, Registered(InitialState(d))))
    case Some(s) =>
      if s.strategy != d.strategy then Plan(log, Failure(Raised(IdentityConflict)))
      else if Marked(s) then Plan(log, Success(s))
      else UnmarkedBarPlan(mode, s, d.snapshot.timeframe, b, log)
  }
}
