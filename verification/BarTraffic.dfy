/** A whole bar from outside: every call it makes with its arguments, every record it writes, and what it ends in. */
module BarTraffic {
  import opened Wrappers
  import opened DecimalText
  import opened Recipes
  import opened State
  import opened Lifetime
  import opened EntryReconciliation
  import opened FirstFill
  import opened PositionManagement
  import opened Discipline
  import opened Effects
  import opened BarPlans
  import opened ConfirmationLaws
  import opened BarLaws
  import opened Traffic
  import opened EntryTraffic
  import BarProcessing

  // ---------------------------------------------------------------- an open trade

  /** The remainder cancel got through and its mark did not: the store takes no more saves on this bar. */
  predicate MarkLost(m: Aggregate, b: Bar) {
    RemainderDue(m, b.barOpen) && b.remainder.RemainderEnded? && !b.markDurable
  }

  /** The open trade as the bar goes on with it. */
  function Marking(m: Aggregate, b: Bar): Aggregate {
    if RemainderDue(m, b.barOpen) && b.remainder.RemainderEnded? && b.markDurable
    then m.(cycle := Some(m.cycle.value.(remainderCancelled := true))) else m
  }

  predicate WantsClose(m: Aggregate, b: Bar) {
    b.recipe.Received? && b.recipe.recipe.closeSignal && !MarkLost(m, b)
  }

  predicate WantsProtection(m: Aggregate, b: Bar)
    requires IsFrozen(m)
  {
    b.recipe.Received? && !b.recipe.recipe.closeSignal && b.recipe.recipe.protection != Held(m.cycle.value)
  }

  function TradeDeeds(m: Aggregate, b: Bar): seq<Deed>
    requires IsFrozen(m)
  {
    var id := m.cycle.value.id;
    (if RemainderDue(m, b.barOpen) then [SendRemainderCancel(id)] else []) + [AskRecipe] + PositionDeeds(m, b)
  }

  /** The close on a close signal, the recipe's whole protection unless it is held already. */
  function PositionDeeds(m: Aggregate, b: Bar): seq<Deed>
    requires IsFrozen(m)
  {
    if WantsClose(m, b) then [SendClose(m.cycle.value.id)]
    else if WantsProtection(m, b) then [SendProtection(m.cycle.value.id, b.recipe.recipe.protection)]
    else []
  }

  /** The close is confirmed for this very cycle, with proof of its closure. */
  predicate ClosedWithProof(m: Aggregate, b: Bar)
    requires IsFrozen(m)
  {
    WantsClose(m, b) && b.close == PositionClosed(m.instance, m.cycle.value.id, true)
  }

  /** What the bar's position half ends in before anything is saved, and whether a closure is to be recorded. */
  function PositionEnd(m: Aggregate, b: Bar): Result<(Aggregate, bool), Stop>
    requires IsFrozen(m) && b.recipe.Received?
  {
    var id, m' := m.cycle.value.id, Marking(m, b);
    if b.recipe.recipe.closeSignal then
      if MarkLost(m, b) then Failure(Raised(StoreFailed))
      else if b.close.CloseFailed? then Failure(Raised(AbiUnavailable))
      else if b.close.instance != m.instance || b.close.id != id then Failure(Raised(InvariantError))
      else Success((m'.(cycle := None), b.close.withClosure))
    else if !WantsProtection(m, b) then Success((m', false))
    else if b.protect.ProtectFailed? then Failure(Raised(AbiUnavailable))
    else if b.protect != ProtectionApplied(m.instance, id, b.recipe.recipe.protection) then Failure(Raised(InvariantError))
    else Success((m'.(cycle := Some(m'.cycle.value.(protection := Some(b.recipe.recipe.protection)))), false))
  }

  /** A lost mark poisons the store, so a protection confirmed after it cannot be saved. */
  function TradeEnd(m: Aggregate, b: Bar): Result<Aggregate, Stop>
    requires IsFrozen(m)
  {
    if b.recipe.NoRecipeReceived? then Failure(Raised(EngineUnavailable))
    else
      match PositionEnd(m, b)
      case Failure(e) => Failure(e)
      case Success((result, _)) => if WantsProtection(m, b) && MarkLost(m, b) then Failure(Raised(StoreFailed)) else Success(result)
  }

  lemma RemainderDoes(m: Aggregate, b: Bar, log: Log)
    requires IsFrozen(m)
    ensures var (after, source, lost) := RemainderPlan(m, b, log);
      && Did(log, after, if RemainderDue(m, b.barOpen) then [SendRemainderCancel(m.cycle.value.id)] else [], [])
      && source == Marking(m, b) && lost == MarkLost(m, b)
  {
    hide RemainderDue, Did;
    var id := m.cycle.value.id;
    DidNothing(log);
    DidSteps(log, [], []);
    DidSteps(log, [SendRemainderCancel(id)], []);
    assert [] + [SendRemainderCancel(id)] == [SendRemainderCancel(id)];
  }

  lemma MarkingKeeps(m: Aggregate, b: Bar)
    requires IsFrozen(m) && ValidFrozen(m.cycle.value.frozen.value)
    ensures var m' := Marking(m, b);
      && IsFrozen(m') && m'.cycle.value.frozen == m.cycle.value.frozen && Held(m'.cycle.value) == Held(m.cycle.value)
      && m'.instance == m.instance && m'.cycle.value.id == m.cycle.value.id && Marked(m') == Marked(m)
      && m'.pendingClose == m.pendingClose
  {
    hide RemainderDue, ValidFrozen;
  }

  lemma PositionDoes(m: Aggregate, b: Bar, log: Log)
    requires IsFrozen(m) && ValidFrozen(m.cycle.value.frozen.value) && !Marked(m) && b.recipe.Received?
    ensures var plan := PositionPlan(Marking(m, b), MarkLost(m, b), b, log);
      Did(log, plan.log, PositionDeeds(m, b), []) && plan.end == PositionEnd(m, b)
  {
    hide RemainderDue, Did, Held, ValidFrozen, DecidePosition, Marking, MarkLost;
    MarkingKeeps(m, b);
    var m' := Marking(m, b);
    DecisionFollowsHeldProtection(b.recipe.recipe, m'.cycle.value);
    DidNothing(log);
    DidSteps(log, [], []);
    var close, protect := SendClose(m.cycle.value.id), SendProtection(m.cycle.value.id, b.recipe.recipe.protection);
    assert [] + [close] == [close] && [] + [protect] == [protect];
  }

  lemma TradeDoes(m: Aggregate, b: Bar, log: Log)
    requires IsFrozen(m) && ValidFrozen(m.cycle.value.frozen.value) && !Marked(m)
    ensures var plan := OpenTradePlan(m, b, log);
      && Did(log, plan.log, TradeDeeds(m, b), if ClosedWithProof(m, b) then [Closed(m.cycle.value.id)] else [])
      && plan.end == TradeEnd(m, b)
  {
    hide RemainderDue, Did, Held, ValidFrozen, RemainderPlan, PositionPlan, FinishPlan, Marking, MarkLost;
    RemainderDoes(m, b, log);
    MarkingKeeps(m, b);
    var (after, source, lost) := RemainderPlan(m, b, log);
    var asked := Add(after, AskedOpenTrade(b.recipe));
    var first := if RemainderDue(m, b.barOpen) then [SendRemainderCancel(m.cycle.value.id)] else [];
    DidSteps(log, first, []);
    assert Did(log, asked, first + [AskRecipe], []);
    if b.recipe.NoRecipeReceived? {
      assert first + [AskRecipe] + [] == first + [AskRecipe];
    } else {
      PositionDoes(m, b, asked);
      var managed := PositionPlan(source, lost, b, asked);
      DidThen(log, asked, managed.log, first + [AskRecipe], [], PositionDeeds(m, b), []);
      if managed.end.Success? {
        FinishTrade(m, b, log, managed.log);
      }
    }
  }

  lemma FinishTrade(m: Aggregate, b: Bar, base: Log, log: Log)
    requires IsFrozen(m) && !Marked(m) && b.recipe.Received? && PositionEnd(m, b).Success?
    requires Did(base, log, TradeDeeds(m, b), [])
    ensures var (result, closure) := PositionEnd(m, b).value;
      var plan := FinishPlan(Marking(m, b), result, closure, MarkLost(m, b), log);
      && Did(base, plan.log, TradeDeeds(m, b), if ClosedWithProof(m, b) then [Closed(m.cycle.value.id)] else [])
      && plan.end == TradeEnd(m, b)
  {
    hide Did, TradeDeeds, RemainderDue;
    var deeds := TradeDeeds(m, b);
    DidSteps(base, deeds, []);
    assert [] + [Closed(m.cycle.value.id)] == [Closed(m.cycle.value.id)];
  }

  // ---------------------------------------------------------------- the whole bar

  function BarDeeds(mode: Mode, s: Aggregate, timeframe: string, b: Bar): seq<Deed> {
    var entry := [AskEntry] + EntryCommands(mode, s, timeframe, b);
    if s.cycle.None? then entry
    else
      [AskPosition(s.cycle.value.id)] +
      match b.position
      case PositionFlat => entry
      case PositionIsOpen(_) => if ManagedState(mode, s, b).Some? then TradeDeeds(ManagedState(mode, s, b).value, b) else []
      case _ => []
  }

  /** Opened when the fill is frozen for the first time, closed on proof of closure, ended when an unfilled order is gone. */
  function BarRecords(mode: Mode, s: Aggregate, timeframe: string, b: Bar): seq<Record>
    requires TypedWish(b.wish) && TypedEntryReply(b.first) && TypedEntryReply(b.second)
  {
    if s.cycle.None? then []
    else
      var id, managed := s.cycle.value.id, ManagedState(mode, s, b);
      match b.position
      case LookupFailed => []
      case PositionFlat => if OrderEnds(mode, s, timeframe, b) then [Ended(id, Cancelled)] else []
      case PositionClosedBy(closure) => if closure == Closure(s.instance, id) then [Closed(id)] else []
      case PositionIsOpen(firstFill) =>
        (if !IsFrozen(s) && Freeze(mode, s, id, firstFill).Success? then [Opened(id)] else [])
        + (if managed.Some? && ClosedWithProof(managed.value, b) then [Closed(id)] else [])
  }

  function BarEnd(mode: Mode, s: Aggregate, timeframe: string, b: Bar): Result<Aggregate, Stop>
    requires TypedWish(b.wish) && TypedEntryReply(b.first) && TypedEntryReply(b.second)
  {
    if s.cycle.None? || b.position.PositionFlat? then EntryEnd(mode, s, timeframe, b)
    else
      match b.position
      case LookupFailed => Failure(Raised(AbiUnavailable))
      case PositionClosedBy(closure) =>
        if closure == Closure(s.instance, s.cycle.value.id) then Success(s.(cycle := None)) else Failure(Raised(InvariantError))
      case PositionIsOpen(firstFill) =>
        if ManagedState(mode, s, b).Some? then TradeEnd(ManagedState(mode, s, b).value, b)
        else Freeze(mode, s, s.cycle.value.id, firstFill)
  }

  lemma ManagedIsFrozen(mode: Mode, s: Aggregate, b: Bar)
    requires Coherent(s) && !Marked(s) && ManagedState(mode, s, b).Some?
    ensures var m := ManagedState(mode, s, b).value;
      && IsFrozen(m) && ValidFrozen(m.cycle.value.frozen.value) && !Marked(m)
      && m.instance == s.instance && m.cycle.value.id == s.cycle.value.id
  {
    hide Coherent, Freeze;
    FreezeKeepsCoherent(mode, s, s.cycle.value.id, b.position.firstFill);
    CoherentFrozenIsValid(ManagedState(mode, s, b).value);
  }

  lemma CoherentFrozenIsValid(m: Aggregate)
    requires Coherent(m) && IsFrozen(m)
    ensures ValidFrozen(m.cycle.value.frozen.value)
  {
    hide ValidFrozen, ValidSnapshot, ValidPackage, ValidProtection, IsBlank, IsPositiveExactDecimal, FrozenFits;
  }

  /** The freeze comes first, is saved and recorded once, and what it refuses ends the bar. */
  lemma FreezeDoes(mode: Mode, s: Aggregate, b: Bar, log: Log)
    requires !Marked(s) && s.cycle.Some? && b.position.PositionIsOpen?
    ensures
      var id, frozen := s.cycle.value.id, Freeze(mode, s, s.cycle.value.id, b.position.firstFill);
      var noted := if frozen.Failure? || IsFrozen(s) then log else Add(Add(log, Saved(frozen.value)), Wrote(Opened(id)));
      && FilledPlan(mode, s, b.position.firstFill, b, log) ==
         (if ManagedState(mode, s, b).Some? then OpenTradePlan(ManagedState(mode, s, b).value, b, noted) else Plan(noted, frozen))
      && Did(log, noted, [], if !IsFrozen(s) && frozen.Success? then [Opened(id)] else [])
  {
    hide Freeze, OpenTradePlan, Did;
    DidNothing(log);
    DidSteps(log, [], []);
    assert [] + [Opened(s.cycle.value.id)] == [Opened(s.cycle.value.id)];
  }

  lemma FilledDoes(mode: Mode, s: Aggregate, timeframe: string, b: Bar, log: Log)
    requires Coherent(s) && !Marked(s) && s.cycle.Some? && b.position.PositionIsOpen? && TypedBar(b)
    ensures var plan, managed := FilledPlan(mode, s, b.position.firstFill, b, log), ManagedState(mode, s, b);
      && Did(log, plan.log, if managed.Some? then TradeDeeds(managed.value, b) else [], BarRecords(mode, s, timeframe, b))
      && plan.end == BarEnd(mode, s, timeframe, b)
  {
    hide Coherent, Freeze, FilledPlan, OpenTradePlan, ManagedState, TradeDeeds, TradeEnd, ClosedWithProof, Did, TypedEntryReply,
      TypedWish, EntryEnd, OrderEnds;
    FreezeDoes(mode, s, b, log);
    var id, frozen := s.cycle.value.id, Freeze(mode, s, s.cycle.value.id, b.position.firstFill);
    var first := if !IsFrozen(s) && frozen.Success? then [Opened(id)] else [];
    if ManagedState(mode, s, b).Some? {
      var m := ManagedState(mode, s, b).value;
      var noted := if frozen.Failure? || IsFrozen(s) then log else Add(Add(log, Saved(frozen.value)), Wrote(Opened(id)));
      ManagedIsFrozen(mode, s, b);
      TradeDoes(m, b, noted);
      DidThen(log, noted, OpenTradePlan(m, b, noted).log, [], first, TradeDeeds(m, b), if ClosedWithProof(m, b) then [Closed(id)] else []);
      assert [] + TradeDeeds(m, b) == TradeDeeds(m, b);
    } else {
      assert first + [] == first;
    }
  }

  lemma ClosureDoes(s: Aggregate, closure: Closure, log: Log)
    requires !Marked(s) && s.cycle.Some?
    ensures var plan, own := ClosurePlan(s, closure, log), closure == Closure(s.instance, s.cycle.value.id);
      && Did(log, plan.log, [], if own then [Closed(s.cycle.value.id)] else [])
      && plan.end == if own then Success(s.(cycle := None)) else Failure(Raised(InvariantError))
  {
    hide Did;
    DidNothing(log);
    DidSteps(log, [], []);
    assert [] + [Closed(closure.id)] == [Closed(closure.id)];
  }

  lemma UnmarkedBarDoes(mode: Mode, s: Aggregate, timeframe: string, b: Bar, log: Log)
    requires Coherent(s) && !Marked(s) && Fresh(s, b) && TypedBar(b)
    ensures var plan := UnmarkedBarPlan(mode, s, timeframe, b, log);
      && Did(log, plan.log, BarDeeds(mode, s, timeframe, b), BarRecords(mode, s, timeframe, b))
      && plan.end == BarEnd(mode, s, timeframe, b)
  {
    hide Coherent, Freeze, LiveEntryPlan, FilledPlan, ClosurePlan, TradeDeeds, TradeEnd, ClosedWithProof, Did, TypedEntryReply, TypedWish,
      EntryEnd, OrderEnds, EntryCommands, ManagedState, Fresh;
    if s.cycle.None? {
      LiveEntryDoes(mode, s, timeframe, b, log);
      NoCycleNoEnd(mode, s, timeframe, b);
    } else {
      var id := s.cycle.value.id;
      var asked := Add(log, AskedPosition(id, b.position));
      DidStep();
      assert Did(log, asked, [AskPosition(id)], []);
      var rest := match b.position
        case PositionFlat => LiveEntryPlan(mode, s, timeframe, b, asked)
        case PositionIsOpen(firstFill) => FilledPlan(mode, s, firstFill, b, asked)
        case PositionClosedBy(closure) => ClosurePlan(s, closure, asked)
        case LookupFailed => Plan(asked, Failure(Raised(AbiUnavailable)));
      match b.position {
        case PositionFlat => LiveEntryDoes(mode, s, timeframe, b, asked);
        case PositionIsOpen(_) => FilledDoes(mode, s, timeframe, b, asked);
        case PositionClosedBy(closure) => ClosureDoes(s, closure, asked);
        case LookupFailed => DidNothing(asked);
      }
      var records := BarRecords(mode, s, timeframe, b);
      var deeds := BarDeeds(mode, s, timeframe, b)[1..];
      assert BarDeeds(mode, s, timeframe, b) == [AskPosition(id)] + deeds;
      DidThen(log, asked, rest.log, [AskPosition(id)], [], deeds, records);
      assert [] + records == records;
    }
  }

  lemma NoCycleNoEnd(mode: Mode, s: Aggregate, timeframe: string, b: Bar)
    requires s.cycle.None? && TypedWish(b.wish) && TypedEntryReply(b.first) && TypedEntryReply(b.second)
    ensures !OrderEnds(mode, s, timeframe, b)
  {
    hide TypedWish, TypedEntryReply, EntryEnd;
  }

  /** The state a bar starts from: the stored one, or a new registration the constructors accept. */
  function StartOf(stored: Option<Aggregate>, d: Deployment): Result<Aggregate, Stop> {
    match stored
    case Some(s) => if s.strategy == d.strategy then Success(s) else Failure(Raised(IdentityConflict))
    case None => if ValidAggregate(InitialState(d)) then Success(InitialState(d)) else Failure(Raised(InvalidValue))
  }

  /**
   * Every bar, whatever is answered: it makes exactly these calls, writes exactly these records and ends in exactly
   * this. A marked instance and a refused registration are left alone without any call.
   */
  lemma BarDoes(mode: Mode, stored: Option<Aggregate>, d: Deployment, b: Bar, log: Log)
    requires TypedBar(b) && (stored.Some? ==> Coherent(stored.value) && Fresh(stored.value, b))
    ensures
      var plan := BarPlan(mode, stored, d, b, log);
      match StartOf(stored, d)
      case Failure(e) => plan == Plan(log, Failure(e))
      case Success(s) =>
        if Marked(s) then plan == Plan(log, Success(s))
        else
          && Did(log, plan.log, BarDeeds(mode, s, d.snapshot.timeframe, b), BarRecords(mode, s, d.snapshot.timeframe, b))
          && plan.end == BarEnd(mode, s, d.snapshot.timeframe, b)
  {
    hide Coherent, ValidAggregate, UnmarkedBarPlan, BarDeeds, BarRecords, BarEnd, Did, TypedPosition, TypedRecipe, TypedEntryReply, TypedWish;
    var start := StartOf(stored, d);
    if start.Success? && !Marked(start.value) {
      if stored.Some? {
        UnmarkedBarDoes(mode, start.value, d.snapshot.timeframe, b, log);
      } else {
        var s := start.value;
        BarProcessing.InitialIsCoherent(d);
        var registered := Add(log, Registered(s));
        UnmarkedBarDoes(mode, s, d.snapshot.timeframe, b, registered);
        DidStep();
        var deeds, records := BarDeeds(mode, s, d.snapshot.timeframe, b), BarRecords(mode, s, d.snapshot.timeframe, b);
        DidThen(log, registered, UnmarkedBarPlan(mode, s, d.snapshot.timeframe, b, registered).log, [], [], deeds, records);
        assert [] + deeds == deeds && [] + records == records;
      }
    }
  }

  // ---------------------------------------------------------------- what is durable when the bar is over

  /** A bar that failed after its close left is durable with the close marker; otherwise as far as it had come. */
  function TradeDurable(m: Aggregate, b: Bar): Aggregate
    requires IsFrozen(m)
  {
    if TradeEnd(m, b).Success? then TradeEnd(m, b).value
    else if WantsClose(m, b) then Marking(m, b).(pendingClose := Some(m.cycle.value.id))
    else Marking(m, b)
  }

  lemma TradeLeaves(m: Aggregate, b: Bar, log: Log)
    requires IsFrozen(m) && ValidFrozen(m.cycle.value.frozen.value) && !Marked(m) && LastSaved(log) == Some(m)
    ensures LastSaved(OpenTradePlan(m, b, log).log) == Some(TradeDurable(m, b))
  {
    hide RemainderDue, Did, Held, ValidFrozen, PositionPlan, RemainderPlan, Marking, MarkLost, LastSaved;
    SavedStep();
    RemainderDoes(m, b, log);
    RemainderLeaves(m, b, log);
    MarkingKeeps(m, b);
    var asked := Add(RemainderPlan(m, b, log).0, AskedOpenTrade(b.recipe));
    assert LastSaved(asked) == Some(Marking(m, b));
    if b.recipe.Received? {
      PositionDoes(m, b, asked);
      PositionLeaves(m, b, asked);
    }
  }

  lemma RemainderLeaves(m: Aggregate, b: Bar, log: Log)
    requires IsFrozen(m) && LastSaved(log) == Some(m)
    ensures LastSaved(RemainderPlan(m, b, log).0) == Some(Marking(m, b))
  {
    hide RemainderDue, LastSaved;
    SavedStep();
  }

  lemma PositionLeaves(m: Aggregate, b: Bar, log: Log)
    requires IsFrozen(m) && ValidFrozen(m.cycle.value.frozen.value) && !Marked(m) && b.recipe.Received?
    requires LastSaved(log) == Some(Marking(m, b))
    ensures LastSaved(PositionPlan(Marking(m, b), MarkLost(m, b), b, log).log) ==
      Some(if WantsClose(m, b) then Marking(m, b).(pendingClose := Some(m.cycle.value.id)) else Marking(m, b))
  {
    hide RemainderDue, Held, ValidFrozen, DecidePosition, Marking, MarkLost, LastSaved;
    SavedStep();
    MarkingKeeps(m, b);
    DecisionFollowsHeldProtection(b.recipe.recipe, Marking(m, b).cycle.value);
  }

  function BarDurable(mode: Mode, s: Aggregate, timeframe: string, b: Bar): Aggregate
    requires TypedWish(b.wish) && TypedEntryReply(b.first) && TypedEntryReply(b.second)
  {
    if s.cycle.None? || b.position.PositionFlat? then EntryDurable(mode, s, timeframe, b)
    else if b.position.PositionIsOpen? && ManagedState(mode, s, b).Some? && IsFrozen(ManagedState(mode, s, b).value) then
      TradeDurable(ManagedState(mode, s, b).value, b)
    else if BarEnd(mode, s, timeframe, b).Success? then BarEnd(mode, s, timeframe, b).value
    else s
  }

  lemma FilledLeaves(mode: Mode, s: Aggregate, timeframe: string, b: Bar, log: Log)
    requires Coherent(s) && !Marked(s) && s.cycle.Some? && b.position.PositionIsOpen? && TypedBar(b) && LastSaved(log) == Some(s)
    ensures LastSaved(FilledPlan(mode, s, b.position.firstFill, b, log).log) == Some(BarDurable(mode, s, timeframe, b))
  {
    hide Coherent, Freeze, FilledPlan, OpenTradePlan, ManagedState, TradeDurable, TradeEnd, Did, TypedEntryReply, TypedWish, EntryEnd, LastSaved;
    SavedStep();
    FreezeDoes(mode, s, b, log);
    var frozen := Freeze(mode, s, s.cycle.value.id, b.position.firstFill);
    if frozen.Success? {
      FreezeKeepsCoherent(mode, s, s.cycle.value.id, b.position.firstFill);
      var noted := if IsFrozen(s) then log else Add(Add(log, Saved(frozen.value)), Wrote(Opened(s.cycle.value.id)));
      assert LastSaved(noted) == Some(frozen.value);
      if ManagedState(mode, s, b).Some? {
        ManagedIsFrozen(mode, s, b);
        ManagedIsFreeze(mode, s, b);
        TradeLeaves(frozen.value, b, noted);
      }
    } else {
      ManagedIsFreeze(mode, s, b);
    }
  }

  lemma ManagedIsFreeze(mode: Mode, s: Aggregate, b: Bar)
    requires s.cycle.Some? && b.position.PositionIsOpen?
    ensures ManagedState(mode, s, b).Some? ==>
      Freeze(mode, s, s.cycle.value.id, b.position.firstFill) == Success(ManagedState(mode, s, b).value)
  {
    hide Freeze;
  }

  lemma UnmarkedBarLeaves(mode: Mode, s: Aggregate, timeframe: string, b: Bar, log: Log)
    requires Coherent(s) && !Marked(s) && Fresh(s, b) && TypedBar(b) && LastSaved(log) == Some(s)
    ensures LastSaved(UnmarkedBarPlan(mode, s, timeframe, b, log).log) == Some(BarDurable(mode, s, timeframe, b))
  {
    hide Coherent, Freeze, LiveEntryPlan, FilledPlan, TradeDurable, TradeEnd, TypedEntryReply, TypedWish, EntryEnd, EntryDurable,
      ManagedState, Fresh, LastSaved;
    SavedStep();
    if s.cycle.None? {
      LiveEntryLeaves(mode, s, timeframe, b, log);
    } else {
      var asked := Add(log, AskedPosition(s.cycle.value.id, b.position));
      assert LastSaved(asked) == Some(s);
      match b.position
      case PositionFlat => LiveEntryLeaves(mode, s, timeframe, b, asked);
      case PositionIsOpen(_) => FilledLeaves(mode, s, timeframe, b, asked);
      case _ =>
    }
  }

  /** Every bar, returned or failed: what a restart right after it would serve. */
  lemma BarLeaves(mode: Mode, d: Deployment, b: Bar, log: Log)
    requires TypedBar(b) && (LastSaved(log).Some? ==> Coherent(LastSaved(log).value) && Fresh(LastSaved(log).value, b))
    ensures
      var after := LastSaved(BarPlan(mode, LastSaved(log), d, b, log).log);
      match StartOf(LastSaved(log), d)
      case Failure(_) => after == LastSaved(log)
      case Success(s) => after == Some(if Marked(s) then s else BarDurable(mode, s, d.snapshot.timeframe, b))
  {
    hide Coherent, ValidAggregate, UnmarkedBarPlan, BarDurable, TypedPosition, TypedRecipe, TypedEntryReply, TypedWish, LastSaved;
    var start := StartOf(LastSaved(log), d);
    if start.Success? && !Marked(start.value) {
      if LastSaved(log).Some? {
        UnmarkedBarLeaves(mode, start.value, d.snapshot.timeframe, b, log);
      } else {
        BarProcessing.InitialIsCoherent(d);
        var registered := Add(log, Registered(start.value));
        NewIsDurable(log, start.value);
        UnmarkedBarLeaves(mode, start.value, d.snapshot.timeframe, b, registered);
      }
    }
  }

  lemma NewIsDurable(log: Log, s: Aggregate)
    ensures LastSaved(Add(log, Registered(s))) == Some(s)
  {
  }

  // ---------------------------------------------------------------- one order at a time

  /** How often a log made this very call. */
  function Times(log: Log, deed: Deed): nat {
    multiset(Deeds(log))[deed]
  }

  /**
   * Over every bar and every argument: a protection is sent exactly once when the managed trade does not hold it and no
   * close is signalled, and it is the recipe's own, whole; a close exactly on the signal; a remainder cancel exactly when due.
   */
  lemma OrdersIffDue(mode: Mode, s: Aggregate, d: Deployment, b: Bar, log: Log, id: string, wanted: DesiredProtection)
    requires TypedBar(b) && Coherent(s) && Fresh(s, b) && s.strategy == d.strategy
    ensures
      var after, managed := BarPlan(mode, Some(s), d, b, log).log, ManagedState(mode, s, b);
      var own := managed.Some? && IsFrozen(managed.value) && managed.value.cycle.value.id == id;
      && Times(after, SendProtection(id, wanted)) == Times(log, SendProtection(id, wanted)) +
         (if own && WantsProtection(managed.value, b) && wanted == b.recipe.recipe.protection then 1 else 0)
      && Times(after, SendClose(id)) == Times(log, SendClose(id)) + (if own && WantsClose(managed.value, b) then 1 else 0)
      && Times(after, SendRemainderCancel(id)) == Times(log, SendRemainderCancel(id)) +
         (if own && RemainderDue(managed.value, b.barOpen) then 1 else 0)
  {
    hide Coherent, BarPlan, TypedBar, BarRecords, BarEnd, BarDeeds, ManagedState, WantsProtection, WantsClose, RemainderDue, Fresh;
    BarDoes(mode, Some(s), d, b, log);
    if Marked(s) {
      MarkedIsNotManaged(mode, s, b);
    } else {
      CountBar(mode, s, d.snapshot.timeframe, b, id, wanted);
    }
  }

  lemma MarkedIsNotManaged(mode: Mode, s: Aggregate, b: Bar)
    requires Marked(s)
    ensures ManagedState(mode, s, b).None?
  {
  }

  lemma CountBar(mode: Mode, s: Aggregate, timeframe: string, b: Bar, id: string, wanted: DesiredProtection)
    requires Coherent(s) && !Marked(s)
    ensures
      var deeds, managed := multiset(BarDeeds(mode, s, timeframe, b)), ManagedState(mode, s, b);
      var own := managed.Some? && IsFrozen(managed.value) && managed.value.cycle.value.id == id;
      && deeds[SendProtection(id, wanted)] == (if own && WantsProtection(managed.value, b) && wanted == b.recipe.recipe.protection then 1 else 0)
      && deeds[SendClose(id)] == (if own && WantsClose(managed.value, b) then 1 else 0)
      && deeds[SendRemainderCancel(id)] == (if own && RemainderDue(managed.value, b.barOpen) then 1 else 0)
  {
    hide Coherent, Freeze, EntryCommands, WantsProtection, WantsClose, RemainderDue, TradeDeeds;
    var entry := EntryCommands(mode, s, timeframe, b);
    OnlyEntries(mode, s, timeframe, b);
    AskedFirst(entry, SendProtection(id, wanted));
    AskedFirst(entry, SendClose(id));
    AskedFirst(entry, SendRemainderCancel(id));
    if ManagedState(mode, s, b).Some? {
      ManagedIsFrozen(mode, s, b);
      CountTrade(ManagedState(mode, s, b).value, b, id, wanted);
    }
  }

  lemma AskedFirst(entry: seq<Deed>, x: Deed)
    requires x !in entry && !x.AskEntry?
    ensures multiset([AskEntry] + entry)[x] == 0
    ensures forall deeds: seq<Deed>, id | x != AskPosition(id) :: multiset([AskPosition(id)] + deeds)[x] == multiset(deeds)[x]
  {
    assert x !in multiset(entry);
  }

  lemma OnlyEntries(mode: Mode, s: Aggregate, timeframe: string, b: Bar)
    ensures forall x | x in EntryCommands(mode, s, timeframe, b) :: x.SendEntry?
  {
    hide Over, Succeeds, Forbidden;
  }

  lemma CountTrade(m: Aggregate, b: Bar, id: string, wanted: DesiredProtection)
    requires IsFrozen(m)
    ensures
      var deeds, own := multiset(TradeDeeds(m, b)), m.cycle.value.id == id;
      && deeds[SendProtection(id, wanted)] == (if own && WantsProtection(m, b) && wanted == b.recipe.recipe.protection then 1 else 0)
      && deeds[SendClose(id)] == (if own && WantsClose(m, b) then 1 else 0)
      && deeds[SendRemainderCancel(id)] == (if own && RemainderDue(m, b.barOpen) then 1 else 0)
  {
    hide RemainderDue, PositionDeeds, WantsProtection, WantsClose;
    var first := if RemainderDue(m, b.barOpen) then [SendRemainderCancel(m.cycle.value.id)] else [];
    CountPosition(m, b, id, wanted);
    CountParts(first, PositionDeeds(m, b), SendProtection(id, wanted));
    CountParts(first, PositionDeeds(m, b), SendClose(id));
    CountParts(first, PositionDeeds(m, b), SendRemainderCancel(id));
  }

  lemma CountParts(first: seq<Deed>, rest: seq<Deed>, x: Deed)
    requires !x.AskRecipe?
    ensures multiset(first + [AskRecipe] + rest)[x] == multiset(first)[x] + multiset(rest)[x]
  {
    assert multiset([AskRecipe])[x] == 0;
  }

  lemma CountPosition(m: Aggregate, b: Bar, id: string, wanted: DesiredProtection)
    requires IsFrozen(m)
    ensures
      var deeds, own := multiset(PositionDeeds(m, b)), m.cycle.value.id == id;
      && deeds[SendProtection(id, wanted)] == (if own && WantsProtection(m, b) && wanted == b.recipe.recipe.protection then 1 else 0)
      && deeds[SendClose(id)] == (if own && WantsClose(m, b) then 1 else 0)
      && deeds[SendRemainderCancel(id)] == 0
  {
    hide Held, MarkLost;
  }
}
