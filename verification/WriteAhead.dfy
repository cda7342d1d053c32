/** What every writer owes its store: only saves it will grant, and no entry command or close before its marker is durable. */
module WriteAhead {
  import opened Wrappers
  import opened DecimalText
  import opened Recipes
  import opened State
  import opened Lifetime
  import opened EntryReconciliation
  import opened FirstFill
  import opened PositionManagement
  import opened Discipline
  import opened Effects
  import opened BarPlans
  import opened BarLaws
  import opened ConfirmationLaws
  import opened LogReplay
  import opened Store
  import BarProcessing
  import Resolver
  import Operator

  /** Over a durable state: a save keeps its registration, a registration finds nothing, a command finds its own marker. */
  predicate Owed(stored: Option<Aggregate>, e: Effect) {
    match e
    case Saved(t) => stored.Some? && SameRegistration(stored.value, t) && ValidAggregate(t)
    case SaveLost(t) => stored.Some? && SameRegistration(stored.value, t) && ValidAggregate(t)
    case Registered(t) => stored.None? && ValidAggregate(t) && t == NewState(Registration(t.instance, t.strategy, t.snapshot))
    case SentEntry(command, _) => stored.Some? && stored.value.pendingEntry == Some(command.id)
    case SentClose(id, _) => stored.Some? && stored.value.pendingClose == Some(id)
    case Restarted(_) => false
    case _ => true
  }

  /** Every effect after `base` was owed when it happened. */
  predicate Ahead(base: Log, log: Log) {
    log == base || (log.Add? && Ahead(base, log.prev) && Owed(LastSaved(log.prev), log.effect))
  }

  lemma AheadStep(base: Log)
    ensures Ahead(base, base)
    ensures forall b: Log, e: Effect | Ahead(base, b) && Owed(LastSaved(b), e) :: Ahead(base, Add(b, e))
  {
  }

  lemma Durable()
    ensures forall prev: Log, e: Effect | !e.Restarted? ::
      LastSaved(Add(prev, e)) == if e.Saved? || e.Registered? then Some(e.state) else LastSaved(prev)
  {
  }

  // ---------------------------------------------------------------- valid states stay valid

  lemma MarkingIsValid(s: Aggregate, id: string)
    requires ValidAggregate(s) && !Marked(s) && id != "" && (s.cycle.Some? ==> s.cycle.value.id == id)
    ensures ValidAggregate(s.(pendingEntry := Some(id)))
    ensures s.cycle.Some? ==> ValidAggregate(s.(pendingClose := Some(id)))
  {
    hide ValidCycle, ValidSnapshot, IsBlank, IsPositiveExactDecimal;
  }

  lemma ClearingIsValid(s: Aggregate)
    requires ValidAggregate(s)
    ensures ValidAggregate(s.(cycle := None, pendingClose := None)) && ValidAggregate(s.(pendingEntry := None))
    ensures ValidAggregate(s.(cycle := None, pendingEntry := None, pendingClose := None))
  {
    hide ValidCycle, ValidSnapshot, IsBlank, IsPositiveExactDecimal;
  }

  lemma NewCycleIsValid(s: Aggregate, id: string, entry: DesiredEntry, quantity: string)
    requires ValidAggregate(s) && !Marked(s) && id != "" && ValidEntry(entry) && IsExactDecimal(quantity)
    ensures ValidAggregate(s.(cycle := Some(ConfirmedCycle(id, entry, quantity))))
  {
    hide ValidSnapshot, IsBlank, IsPositiveExactDecimal, ValidEntry, IsExactDecimal;
  }

  lemma ManagedIsValid(s: Aggregate, p: DesiredProtection)
    requires ValidAggregate(s) && s.cycle.Some?
    ensures ValidAggregate(MarkRemainder(s))
    ensures ValidProtection(p) ==> ValidAggregate(s.(cycle := Some(s.cycle.value.(protection := Some(p)))))
    ensures s.cycle.value.id != ""
  {
    hide ValidSnapshot, IsBlank, IsPositiveExactDecimal, ValidPackage, ValidFrozen, ValidProtection;
  }

  // ---------------------------------------------------------------- bars

  lemma LegAhead(s: Aggregate, leg: Leg, reply: EntryReply, base: Log, log: Log)
    requires Ahead(base, log) && LastSaved(log).Some? && SameRegistration(LastSaved(log).value, s)
    requires ValidAggregate(s) && !Marked(s) && TypedEntryReply(reply) && (leg.ApplyLeg? ==> ValidEntry(leg.entry))
    ensures var plan := LegPlan(s, leg, reply, log);
      && Ahead(base, plan.log) && LastSaved(plan.log).Some? && SameRegistration(LastSaved(plan.log).value, s)
      && (plan.end.Success? ==>
            !Marked(plan.end.value) && ValidAggregate(plan.end.value) && SameRegistration(s, plan.end.value))
  {
    hide Ahead, ValidAggregate, ValidEntry, DecodeEntry, LastSaved, ValidWire, IsExactDecimal;
    AheadStep(base);
    Durable();
    if BuildCommand(s, leg).Success? {
      var id := BuildCommand(s, leg).value.id;
      CommandIdIsOwn(s, leg);
      MarkingIsValid(s, id);
      ClearingIsValid(s);
      if leg.ApplyLeg? && reply.EntryApplied? {
        AppliedCycleIsValid(s, leg.entry, reply);
      }
    }
  }

  lemma CommandIdIsOwn(s: Aggregate, leg: Leg)
    requires ValidAggregate(s) && BuildCommand(s, leg).Success?
    ensures var id := BuildCommand(s, leg).value.id; id != "" && (s.cycle.Some? ==> s.cycle.value.id == id)
  {
    hide ValidSnapshot, IsBlank, IsPositiveExactDecimal, ValidPackage, ValidFrozen, ValidProtection;
  }

  lemma AppliedCycleIsValid(s: Aggregate, entry: DesiredEntry, reply: EntryReply)
    requires ValidAggregate(s) && !Marked(s) && ValidEntry(entry) && reply.EntryApplied? && TypedEntryReply(reply)
    ensures ValidAggregate(s.(cycle := Some(ConfirmedCycle(reply.id, entry, reply.quantity))))
  {
    hide ValidAggregate, ValidEntry, ValidWire, IsExactDecimal;
    NewCycleIsValid(s, reply.id, entry, reply.quantity);
  }

  lemma EntryAhead(mode: Mode, s: Aggregate, timeframe: string, b: Bar, base: Log, log: Log)
    requires Ahead(base, log) && LastSaved(log).Some? && SameRegistration(LastSaved(log).value, s)
    requires ValidAggregate(s) && !Marked(s) && TypedBar(b) && b.wish.Wish?
    ensures var plan := EntryPlan(mode, s, timeframe, b, log);
      && Ahead(base, plan.log) && LastSaved(plan.log).Some? && SameRegistration(LastSaved(plan.log).value, s)
      && (plan.end.Success? ==>
            !Marked(plan.end.value) && ValidAggregate(plan.end.value) && SameRegistration(s, plan.end.value))
  {
    hide Ahead, ValidAggregate, ValidEntry, LegPlan, LastSaved, Decide, TypedEntryReply, TypedPosition, TypedRecipe;
    BarProcessing.DecisionIsOwn(mode, b.wish.desired, s.cycle, b.barOpen, timeframe);
    match Decide(mode, b.wish.desired, s.cycle, b.barOpen, timeframe)
    case Failure(_) =>
    case Success(NoOp) =>
    case Success(Apply(entry)) => LegAhead(s, ApplyLeg(b.newId, entry), b.first, base, log);
    case Success(Cancel(id)) => LegAhead(s, CancelLeg(id), b.first, base, log);
    case Success(Replace(id, entry)) =>
      LegAhead(s, CancelLeg(id), b.first, base, log);
      var absent := LegPlan(s, CancelLeg(id), b.first, log);
      if absent.end.Success? {
        LegAhead(absent.end.value, ApplyLeg(b.newId, entry), b.second, base, absent.log);
      }
  }

  lemma FinishAhead(source: Aggregate, result: Aggregate, closure: bool, lost: bool, base: Log, log: Log)
    requires Ahead(base, log) && LastSaved(log).Some? && SameRegistration(LastSaved(log).value, result) && ValidAggregate(result)
    requires closure ==> source.cycle.Some?
    ensures Ahead(base, FinishPlan(source, result, closure, lost, log).log)
  {
    hide Ahead, ValidAggregate, LastSaved;
    AheadStep(base);
  }

  lemma LiveEntryAhead(mode: Mode, s: Aggregate, timeframe: string, b: Bar, base: Log, log: Log)
    requires Ahead(base, log) && LastSaved(log) == Some(s) && ValidAggregate(s) && !Marked(s) && TypedBar(b)
    ensures Ahead(base, LiveEntryPlan(mode, s, timeframe, b, log).log)
  {
    hide Ahead, ValidAggregate, LastSaved, EntryPlan, FinishPlan, TypedBar;
    AheadStep(base);
    Durable();
    var asked := Add(log, AskedLiveEntry(b.wish));
    assert LastSaved(asked) == Some(s) && Ahead(base, asked);
    if b.wish.Wish? {
      EntryAhead(mode, s, timeframe, b, base, asked);
      var entry := EntryPlan(mode, s, timeframe, b, asked);
      if entry.end.Success? {
        FinishAhead(s, entry.end.value, false, false, base, entry.log);
      }
    }
  }

  lemma RemainderAhead(m: Aggregate, b: Bar, base: Log, log: Log)
    requires Ahead(base, log) && LastSaved(log) == Some(m) && ValidAggregate(m) && IsFrozen(m)
    ensures var (after, source, lost) := RemainderPlan(m, b, log);
      && Ahead(base, after) && LastSaved(after) == Some(source) && ValidAggregate(source) && IsFrozen(source)
      && SameRegistration(m, source) && Marked(source) == Marked(m) && source.cycle.value.id == m.cycle.value.id
  {
    hide Ahead, ValidAggregate, LastSaved, RemainderDue;
    AheadStep(base);
    Durable();
    ManagedIsValid(m, DesiredProtection("", None));
  }

  lemma PositionAhead(m: Aggregate, lost: bool, b: Bar, base: Log, log: Log)
    requires Ahead(base, log) && LastSaved(log) == Some(m) && ValidAggregate(m) && IsFrozen(m) && !Marked(m)
    requires b.recipe.Received? && TypedRecipe(b.recipe)
    ensures var plan := PositionPlan(m, lost, b, log);
      && Ahead(base, plan.log) && LastSaved(plan.log).Some? && SameRegistration(LastSaved(plan.log).value, m)
      && (plan.end.Success? ==> ValidAggregate(plan.end.value.0) && SameRegistration(m, plan.end.value.0))
  {
    hide Ahead, ValidAggregate, LastSaved, EffectiveProtection, ValidProtection;
    AheadStep(base);
    Durable();
    ManagedIsValid(m, b.recipe.recipe.protection);
    MarkingIsValid(m, m.cycle.value.id);
    ClearingIsValid(m.(pendingClose := Some(m.cycle.value.id)));
  }

  lemma OpenTradeAhead(m: Aggregate, b: Bar, base: Log, log: Log)
    requires Ahead(base, log) && LastSaved(log) == Some(m) && ValidAggregate(m) && IsFrozen(m) && !Marked(m) && TypedRecipe(b.recipe)
    ensures Ahead(base, OpenTradePlan(m, b, log).log)
  {
    hide Ahead, ValidAggregate, LastSaved, RemainderPlan, PositionPlan, FinishPlan, ValidProtection;
    RemainderAhead(m, b, base, log);
    var (after, source, lost) := RemainderPlan(m, b, log);
    AheadStep(base);
    Durable();
    var asked := Add(after, AskedOpenTrade(b.recipe));
    assert LastSaved(asked) == Some(source) && Ahead(base, asked);
    if b.recipe.Received? {
      PositionAhead(source, lost, b, base, asked);
      var managed := PositionPlan(source, lost, b, asked);
      if managed.end.Success? {
        FinishAhead(source, managed.end.value.0, managed.end.value.1, lost, base, managed.log);
      }
    }
  }

  lemma FrozenIsValid(mode: Mode, s: Aggregate, id: string, firstFill: int)
    requires Coherent(s) && !Marked(s) && Freeze(mode, s, id, firstFill).Success?
    ensures var frozen := Freeze(mode, s, id, firstFill).value;
      ValidAggregate(frozen) && IsFrozen(frozen) && !Marked(frozen) && SameRegistration(s, frozen) && frozen.cycle.value.id == id
      && (IsFrozen(s) ==> frozen == s)
  {
    hide Freeze, ValidAggregate, FrozenFits;
    FreezeKeepsCoherent(mode, s, id, firstFill);
  }

  lemma FilledAhead(mode: Mode, s: Aggregate, b: Bar, base: Log, log: Log)
    requires Ahead(base, log) && LastSaved(log) == Some(s) && Coherent(s) && !Marked(s) && s.cycle.Some?
    requires b.position.PositionIsOpen? && TypedRecipe(b.recipe)
    ensures Ahead(base, FilledPlan(mode, s, b.position.firstFill, b, log).log)
  {
    hide Ahead, ValidAggregate, LastSaved, Coherent, Freeze, OpenTradePlan, ValidProtection;
    var id := s.cycle.value.id;
    if Freeze(mode, s, id, b.position.firstFill).Success? {
      var frozen := Freeze(mode, s, id, b.position.firstFill).value;
      FrozenIsValid(mode, s, id, b.position.firstFill);
      AheadStep(base);
      Durable();
      var noted := if IsFrozen(s) then log else Add(Add(log, Saved(frozen)), Wrote(Opened(id)));
      assert LastSaved(noted) == Some(frozen) && Ahead(base, noted);
      OpenTradeAhead(frozen, b, base, noted);
    }
  }

  lemma ClosureAhead(s: Aggregate, closure: Closure, base: Log, log: Log)
    requires Ahead(base, log) && LastSaved(log) == Some(s) && ValidAggregate(s)
    ensures Ahead(base, ClosurePlan(s, closure, log).log)
  {
    hide Ahead, ValidAggregate, LastSaved;
    AheadStep(base);
    ClearingIsValid(s);
  }

  lemma UnmarkedBarAhead(mode: Mode, s: Aggregate, timeframe: string, b: Bar, base: Log, log: Log)
    requires Ahead(base, log) && LastSaved(log) == Some(s) && Coherent(s) && !Marked(s) && TypedBar(b)
    ensures Ahead(base, UnmarkedBarPlan(mode, s, timeframe, b, log).log)
  {
    hide Ahead, ValidAggregate, LastSaved, LiveEntryPlan, FilledPlan, ClosurePlan, FrozenFits, TypedEntryReply, TypedWish, TypedRecipe;
    if s.cycle.None? {
      LiveEntryAhead(mode, s, timeframe, b, base, log);
    } else {
      AheadStep(base);
      Durable();
      var asked := Add(log, AskedPosition(s.cycle.value.id, b.position));
      assert LastSaved(asked) == Some(s) && Ahead(base, asked);
      match b.position
      case LookupFailed =>
      case PositionClosedBy(closure) => ClosureAhead(s, closure, base, asked);
      case PositionIsOpen(_) => FilledAhead(mode, s, b, base, asked);
      case PositionFlat => LiveEntryAhead(mode, s, timeframe, b, base, asked);
    }
  }

  /** Every bar: each save is one the store grants, each entry command and close leaves under its durable marker. */
  lemma BarIsAhead(mode: Mode, d: Deployment, b: Bar, log: Log)
    requires TypedBar(b) && (LastSaved(log).Some? ==> Coherent(LastSaved(log).value))
    ensures Ahead(log, BarPlan(mode, LastSaved(log), d, b, log).log)
  {
    hide Ahead, ValidAggregate, LastSaved, UnmarkedBarPlan, TypedBar, Coherent;
    AheadStep(log);
    Durable();
    match LastSaved(log)
    case None =>
      if ValidAggregate(InitialState(d)) {
        BarProcessing.InitialIsCoherent(d);
        UnmarkedBarAhead(mode, InitialState(d), d.snapshot.timeframe, b, log, Add(log, Registered(InitialState(d))));
      }
    case Some(s) =>
      if s.strategy == d.strategy && !Marked(s) {
        UnmarkedBarAhead(mode, s, d.snapshot.timeframe, b, log, log);
      }
  }

  // ---------------------------------------------------------------- resolver attempts

  lemma RebuildAhead(mode: Mode, s: Aggregate, id: string, p: AppliedPackage, firstFill: Option<int>, base: Log, log: Log)
    requires Ahead(base, log) && LastSaved(log) == Some(s) && Coherent(s) && IsExactDecimal(p.quantity)
    requires s.cycle.None? && s.pendingClose.None? && s.pendingEntry == Some(id)
    ensures Ahead(base, Resolver.RebuildPlan(mode, s, id, p, firstFill, log).log)
  {
    hide Ahead, ValidAggregate, LastSaved, DecodeEntry, Freeze, IsExactDecimal, ValidEntry, Coherent;
    AheadStep(base);
    var entry := DecodeEntry(p.wire);
    if entry.Some? {
      Resolver.DecodedIsValid(p.wire);
      RebuiltIsCoherent(s, id, entry.value, p.quantity);
      var built := Resolver.Rebuilt(s, id, entry.value, p.quantity);
      CoherentIsValid(built);
      if firstFill.Some? && Freeze(mode, built, id, firstFill.value).Success? {
        FrozenIsValid(mode, built, id, firstFill.value);
      }
    }
  }

  lemma CoherentIsValid(s: Aggregate)
    requires Coherent(s)
    ensures ValidAggregate(s)
  {
    hide ValidAggregate, FrozenFits;
  }

  lemma RebuiltIsCoherent(s: Aggregate, id: string, entry: DesiredEntry, quantity: string)
    requires Coherent(s) && s.cycle.None? && s.pendingClose.None? && s.pendingEntry == Some(id)
    requires ValidEntry(entry) && IsExactDecimal(quantity)
    ensures Coherent(Resolver.Rebuilt(s, id, entry, quantity))
  {
    hide ValidAggregate, ValidEntry, IsExactDecimal, FrozenFits;
    ClearingIsValid(s);
    MarkerIsId(s);
    NewCycleIsValid(s.(pendingEntry := None), id, entry, quantity);
  }

  lemma MarkerIsId(s: Aggregate)
    requires ValidAggregate(s)
    ensures s.pendingEntry.Some? ==> s.pendingEntry.value != ""
  {
    hide ValidCycle, ValidSnapshot, IsBlank, IsPositiveExactDecimal;
  }

  /** Every attempt on every coherent state. */
  lemma AttemptIsAhead(mode: Mode, s: Aggregate, a: Resolver.Answers, log: Log)
    requires LastSaved(log) == Some(s) && Coherent(s) && Resolver.Typed(a)
    ensures Ahead(log, Resolver.AttemptPlan(mode, s, a, log).log)
  {
    hide Ahead, ValidAggregate, LastSaved, Coherent, Resolver.RebuildPlan, IsExactDecimal, ValidWire;
    AheadStep(log);
    Durable();
    CoherentIsValid(s);
    ClearingIsValid(s);
    if s.pendingClose.None? && s.pendingEntry.Some? {
      var id := s.pendingEntry.value;
      var asked := Add(log, AskedRecovery(id, a.recovery));
      assert LastSaved(asked) == Some(s) && Ahead(log, asked);
      if s.cycle.None? {
        match a.recovery {
          case OrderLive(p) => RebuildAhead(mode, s, id, p, None, log, asked);
          case RecoveredOpen(p, firstFill) => RebuildAhead(mode, s, id, p, Some(firstFill), log, asked);
          case _ => AttemptClears(s, id, a, log, asked);
        }
      } else {
        AttemptClears(s, s.cycle.value.id, a, log, asked);
      }
    }
  }

  lemma AttemptClears(s: Aggregate, id: string, a: Resolver.Answers, base: Log, log: Log)
    requires Ahead(base, log) && LastSaved(log) == Some(s) && ValidAggregate(s) && s.pendingClose.None?
    ensures Ahead(base, Resolver.CancelPlan(s, id, a.cancel, log).log)
    ensures Ahead(base, Resolver.TerminalPlan(s, id, a.recovery, log).log)
    ensures Ahead(base, Add(log, Saved(s.(pendingEntry := None))))
  {
    hide Ahead, ValidAggregate, LastSaved;
    AheadStep(base);
    Durable();
    ClearingIsValid(s);
    assert s.(cycle := None, pendingEntry := None) == s.(cycle := None, pendingEntry := None, pendingClose := None);
  }

  // ---------------------------------------------------------------- the operator and the webhook

  lemma CancelStepAhead(w: World, c: Operator.Control, log: Log)
    requires LastSaved(log) == w.stored && (w.stored.Some? ==> ValidAggregate(w.stored.value))
    ensures Ahead(log, Operator.CancelStepPlan(w, c, log).log)
  {
    hide Ahead, ValidAggregate, LastSaved;
    AheadStep(log);
    Durable();
    if w.stored.Some? { ClearingIsValid(w.stored.value); }
  }

  lemma CloseFrozenAhead(s: Aggregate, id: string, c: Operator.Control, base: Log, log: Log)
    requires Ahead(base, log) && LastSaved(log) == Some(s) && ValidAggregate(s) && !Marked(s) && s.cycle.Some? && s.cycle.value.id == id
    ensures Ahead(base, Operator.CloseFrozenPlan(s, id, c, log).log)
  {
    hide Ahead, ValidAggregate, LastSaved;
    AheadStep(base);
    Durable();
    CommandIdIsOwn(s, CancelLeg(id));
    MarkingIsValid(s, id);
    ClearingIsValid(s);
    assert Resolver.Cleared(s) == s.(cycle := None, pendingClose := None);
  }

  lemma ClosePositionAhead(mode: Mode, w: World, c: Operator.Control, log: Log)
    requires LastSaved(log) == w.stored && (w.stored.Some? ==> Coherent(w.stored.value))
    ensures Ahead(log, Operator.ClosePositionPlan(mode, w, c, log).log)
  {
    hide Ahead, ValidAggregate, LastSaved, Coherent, Freeze, Operator.CloseFrozenPlan;
    AheadStep(log);
    Durable();
    if w.stored.Some? && w.stored.value.cycle.Some? && !Marked(w.stored.value) {
      var s, id := w.stored.value, w.stored.value.cycle.value.id;
      CoherentIsValid(s);
      var asked := Add(log, AskedPosition(id, c.position));
      assert LastSaved(asked) == Some(s) && Ahead(log, asked);
      CloseFrozenAhead(s, id, c, log, asked);
      if c.position.PositionIsOpen? && Freeze(mode, s, id, c.position.firstFill).Success? {
        var frozen := Freeze(mode, s, id, c.position.firstFill).value;
        FrozenIsValid(mode, s, id, c.position.firstFill);
        var noted := Add(Add(asked, Saved(frozen)), Wrote(Opened(id)));
        assert LastSaved(noted) == Some(frozen) && Ahead(log, noted);
        CloseFrozenAhead(frozen, id, c, log, noted);
      }
    }
  }

  /** Every operator command and every webhook call. */
  lemma OperatorIsAhead(mode: Mode, w: World, enabled: bool, id: string, firstFill: int, c: Operator.Control, log: Log)
    requires LastSaved(log) == w.stored && (w.stored.Some? ==> Coherent(w.stored.value))
    ensures Ahead(log, Operator.SetEnabledPlan(w, enabled, c, log).log) && Ahead(log, Operator.CancelEntryOrdersPlan(w, c, log).log)
    ensures Ahead(log, Operator.DeletePlan(w, c, log).log) && Ahead(log, Operator.ClosePositionPlan(mode, w, c, log).log)
    ensures Ahead(log, Operator.WebhookPlan(mode, w, id, firstFill, log).log)
  {
    hide Ahead, ValidAggregate, LastSaved, Coherent, Freeze, Operator.CancelStepPlan, Operator.ClosePositionPlan;
    AheadStep(log);
    if w.stored.Some? {
      CoherentIsValid(w.stored.value);
      WebhookSaveIsValid(mode, w.stored.value, id, firstFill);
    }
    CancelStepAhead(w, c, log);
    ClosePositionAhead(mode, w, c, log);
  }

  lemma WebhookSaveIsValid(mode: Mode, s: Aggregate, id: string, firstFill: int)
    requires Coherent(s)
    ensures var r := Freeze(mode, s, id, firstFill); r.Success? ==> ValidAggregate(r.value) && SameRegistration(s, r.value)
  {
    hide Freeze, ValidAggregate, FrozenFits;
    if Freeze(mode, s, id, firstFill).Success? { FreezeKeepsCoherent(mode, s, id, firstFill); }
  }

  // ---------------------------------------------------------------- the store grants them

  /** The store after the saves and registrations of a log, asked one after another. */
  function Stored(base: Log, log: Log, states: map<string, Aggregate>): map<string, Aggregate> {
    if log == base || log.NoEffect? then states
    else
      var before := Stored(base, log.prev, states);
      match log.effect
      case Saved(t) => StatesAfter(before, SaveAnswer(before, t))
      case Registered(t) => StatesAfter(before, CreateAnswer(before, Registration(t.instance, t.strategy, t.snapshot)))
      case _ => before
  }

  /** Every save and registration of the log was granted as it was asked. */
  predicate AllGranted(base: Log, log: Log, states: map<string, Aggregate>) {
    log == base || (
      && log.Add? && AllGranted(base, log.prev, states)
      && var before := Stored(base, log.prev, states);
      match log.effect
      case Saved(t) => SaveAnswer(before, t) == Success(t)
      case Registered(t) => CreateAnswer(before, Registration(t.instance, t.strategy, t.snapshot)) == Success(t)
      case _ => true)
  }

  /** What the store holds for the instance is what the log says is durable. */
  predicate Serves(states: map<string, Aggregate>, id: string, stored: Option<Aggregate>) {
    if stored.None? then id !in states else id in states && states[id] == stored.value && stored.value.instance == id
  }

  predicate Concerns(base: Log, log: Log, id: string) {
    log == base || (
      && log.Add? && Concerns(base, log.prev, id)
      && (log.effect.Registered? ==> log.effect.state.instance == id))
  }

  /** Whatever a writer that keeps the rule saves, the store grants and serves; no other instance's state changes. */
  lemma {:induction false} OwedIsGranted(base: Log, log: Log, states: map<string, Aggregate>, id: string)
    requires Ahead(base, log) && Concerns(base, log, id) && Serves(states, id, LastSaved(base))
    ensures AllGranted(base, log, states) && Serves(Stored(base, log, states), id, LastSaved(log))
    ensures forall other | other != id && other in states :: other in Stored(base, log, states) && Stored(base, log, states)[other] == states[other]
    decreases log
  {
    hide ValidAggregate;
    if log != base {
      OwedIsGranted(base, log.prev, states, id);
    }
  }
}
