/** What a resolver attempt amounts to, against the confirmation that was lost and the exchange as it is. */
module RecoveryLaws {
  import opened Wrappers
  import opened DecimalText
  import opened Recipes
  import opened State
  import opened Lifetime
  import opened EntryReconciliation
  import opened FirstFill
  import opened PositionManagement
  import opened Discipline
  import opened Effects
  import opened BarPlans
  import opened Resolver
  import opened Store

  /** The state an apply leaves durable while its answer is unknown. */
  function AwaitingApply(s: Aggregate, id: string): Aggregate {
    s.(pendingEntry := Some(id))
  }

  /**
   * An apply whose confirmation would have given `confirmed` and whose answer was lost: resolved as
   * live it gives `confirmed`; resolved as filled it gives `confirmed` frozen on that fill, or fails
   * exactly as that freeze fails and keeps the marker.
   */
  lemma RecoveryEqualsLostConfirmation(mode: Mode, s: Aggregate, id: string, entry: DesiredEntry, wire: WireEntry,
                                       quantity: string, confirmed: Aggregate, firstFill: int, a: Answers, log: Log)
    requires !Marked(s)
    requires LegPlan(s, ApplyLeg(id, entry), EntryApplied(s.instance, id, wire, quantity), log).end == Success(confirmed)
    ensures var asked := Add(log, AskedRecovery(id, OrderLive(AppliedPackage(wire, quantity))));
      AttemptPlan(mode, AwaitingApply(s, id), a.(recovery := OrderLive(AppliedPackage(wire, quantity))), log)
      == Plan(Add(asked, Saved(confirmed)), Success(confirmed))
    ensures
      var reply := RecoveredOpen(AppliedPackage(wire, quantity), firstFill);
      var asked := Add(log, AskedRecovery(id, reply));
      AttemptPlan(mode, AwaitingApply(s, id), a.(recovery := reply), log)
      == match Freeze(mode, confirmed, id, firstFill)
         case Success(frozen) => Plan(Add(Add(asked, Saved(frozen)), Wrote(Opened(id))), Success(frozen))
         case Failure(e) => Plan(asked, Failure(e))
  {
    hide DecodeEntry, Freeze;
    assert confirmed == Rebuilt(AwaitingApply(s, id), id, entry, quantity);
  }

  /** Recovered as live and then seen to fill by the webhook or a bar is the same as recovered as filled. */
  lemma RecoveredThenFilled(mode: Mode, s: Aggregate, id: string, p: AppliedPackage, firstFill: int, a: Answers, log: Log)
    requires s.cycle.None? && s.pendingEntry == Some(id) && s.pendingClose.None? && DecodeEntry(p.wire).Some?
    ensures
      var live := AttemptPlan(mode, s, a.(recovery := OrderLive(p)), log).end;
      var filled := AttemptPlan(mode, s, a.(recovery := RecoveredOpen(p, firstFill)), log).end;
      live.Success? && filled == Freeze(mode, live.value, id, firstFill)
  {
    hide DecodeEntry, Freeze;
    var built := Rebuilt(s, id, DecodeEntry(p.wire).value, p.quantity);
    assert AttemptPlan(mode, s, a.(recovery := OrderLive(p)), log).end == Success(built);
  }

  // ---------------------------------------------------------------- keeps or clears

  /** What is durable after the attempt, from its log alone. */
  ghost predicate KeepsOrClears(s: Aggregate, plan: Plan<Aggregate>, log: Log) {
    && (plan.end.Failure? ==> LastSaved(plan.log) == LastSaved(log))
    && (plan.end.Success? ==>
          if plan.end.value == s then LastSaved(plan.log) == LastSaved(log)
          else !Marked(plan.end.value) && LastSaved(plan.log) == Some(plan.end.value))
  }

  /** Whatever the executor answers, an attempt leaves the stored state alone or clears its marker. */
  lemma AttemptKeepsOrClears(mode: Mode, s: Aggregate, a: Answers, log: Log)
    requires ValidAggregate(s)
    ensures KeepsOrClears(s, AttemptPlan(mode, s, a, log), log)
  {
    hide ValidCycle, ValidSnapshot, DecodeEntry, Freeze;
    if s.pendingClose.None? && s.pendingEntry.Some? {
      var asked := Add(log, AskedRecovery(s.pendingEntry.value, a.recovery));
      if s.cycle.None? {
        ApplyKeepsOrClears(mode, s, s.pendingEntry.value, a, asked);
      } else {
        RemovalKeepsOrClears(s, s.cycle.value.id, a, asked);
      }
    } else if s.pendingClose.Some? {
      CloseKeepsOrClears(s, a.close, log);
    }
  }

  lemma CloseKeepsOrClears(s: Aggregate, reply: CloseReply, log: Log)
    requires s.pendingClose.Some? && s.pendingEntry.None?
    ensures KeepsOrClears(s, PendingClosePlan(s, s.pendingClose.value, reply, log), log)
  {
  }

  lemma CancelKeepsOrClears(s: Aggregate, id: string, reply: EntryReply, log: Log)
    requires s.pendingEntry.Some? && s.pendingClose.None?
    ensures KeepsOrClears(s, CancelPlan(s, id, reply, log), log)
  {
  }

  lemma RecordAfterSave(log: Log, s: Aggregate, record: Record)
    ensures LastSaved(Add(Add(log, Saved(s)), Wrote(record))) == Some(s)
  {
    assert LastSaved(Add(log, Saved(s))) == Some(s);
  }

  lemma ApplyKeepsOrClears(mode: Mode, s: Aggregate, id: string, a: Answers, log: Log)
    requires s.pendingEntry.Some? && s.pendingClose.None? && s.cycle.None?
    ensures KeepsOrClears(s, UncertainApplyPlan(mode, s, id, a, log), log)
  {
    hide DecodeEntry, Freeze;
    CancelKeepsOrClears(s, id, a.cancel, log);
    RecordAfterSave(log, Cleared(s), Ended(id, TerminalWithoutFill));
    if a.recovery.OrderLive? {
      RebuildKeepsOrClears(mode, s, id, a.recovery.package, None, log);
    } else if a.recovery.RecoveredOpen? {
      RebuildKeepsOrClears(mode, s, id, a.recovery.package, Some(a.recovery.firstFill), log);
    }
  }

  lemma RebuildKeepsOrClears(mode: Mode, s: Aggregate, id: string, p: AppliedPackage, firstFill: Option<int>, log: Log)
    requires s.pendingEntry.Some? && s.pendingClose.None? && s.cycle.None?
    ensures KeepsOrClears(s, RebuildPlan(mode, s, id, p, firstFill, log), log)
  {
    hide DecodeEntry, Freeze;
    var entry := DecodeEntry(p.wire);
    if entry.Some? && firstFill.Some? {
      var built := Rebuilt(s, id, entry.value, p.quantity);
      FreezeKeepsMarkers(mode, built, id, firstFill.value);
      if Freeze(mode, built, id, firstFill.value).Success? {
        RecordAfterSave(log, Freeze(mode, built, id, firstFill.value).value, Opened(id));
      }
    }
  }

  lemma FreezeKeepsMarkers(mode: Mode, s: Aggregate, id: string, firstFill: int)
    ensures var r := Freeze(mode, s, id, firstFill);
      r.Success? ==> r.value.pendingEntry == s.pendingEntry && r.value.pendingClose == s.pendingClose && r.value.cycle.Some?
  {
    hide FrozenFor;
  }

  lemma RemovalKeepsOrClears(s: Aggregate, id: string, a: Answers, log: Log)
    requires s.pendingEntry.Some? && s.pendingClose.None? && s.cycle.Some?
    ensures KeepsOrClears(s, UncertainRemovalPlan(s, id, a, log), log)
  {
    CancelKeepsOrClears(s, id, a.cancel, log);
    RecordAfterSave(log, Cleared(s), Ended(id, TerminalWithoutFill));
  }

  /**
   * The two pending lists hold exactly the marked instances, each in one list. A list read before the mutex may be
   * stale: an attempt on an instance that is in neither list now, and a bar on one that is, change nothing.
   */
  lemma StaleListIsHarmless(mode: Mode, states: map<string, Aggregate>, id: string, a: Answers, d: Deployment, b: Bar, log: Log)
    requires id in states && ValidAggregate(states[id]) && states[id].strategy == d.strategy
    ensures id !in PendingEntry(states) * PendingClose(states)
    ensures id !in PendingEntry(states) + PendingClose(states) ==> AttemptPlan(mode, states[id], a, log) == Plan(log, Success(states[id]))
    ensures id in PendingEntry(states) + PendingClose(states) ==> BarPlan(mode, Some(states[id]), d, b, log) == Plan(log, Success(states[id]))
  {
    hide ValidCycle, ValidSnapshot, IsBlank, IsPositiveExactDecimal, UnmarkedBarPlan;
  }

  // ---------------------------------------------------------------- the exchange as it is

  /** Answers about `id` that are true while the exchange holds `x` for it, `None` when the request never arrived. */
  predicate TrueOf(x: Option<Exchange>, id: string, instance: string, a: Answers) {
    && (a.recovery.OrderLive? ==> x == Some(Working))
    && (a.recovery.RecoveredOpen? ==> x == Some(Filled))
    && (a.recovery.TerminalNoFill? || a.recovery.TerminalFilled? ==> x == Some(Gone))
    && (a.recovery.OrderNotFound? ==> x.None? || x == Some(InFlight))
    && (a.cancel == EntryAbsent(instance, id) ==> x != Some(Filled))
    && (a.close.PositionClosed? ==> x == Some(Filled) || x == Some(Gone))
  }

  /** The package the executor holds when it took the entry as sent. */
  function PackageOf(entry: DesiredEntry, quantity: string): AppliedPackage {
    AppliedPackage(EncodeEntry(entry), quantity)
  }

  predicate Clears(mode: Mode, s: Aggregate, a: Answers, log: Log) {
    var end := AttemptPlan(mode, s, a, log).end;
    end.Success? && !Marked(end.value)
  }

  /** One true answer clears an uncertain apply, except for a fill its own bar arithmetic refuses. */
  lemma UncertainApplyCanClear(mode: Mode, s: Aggregate, entry: DesiredEntry, x: Option<Exchange>, quantity: string,
                               firstFill: int, log: Log)
    returns (a: Answers)
    requires IsExactDecimal(quantity) && firstFill > 0
    requires Coherent(s) && s.cycle.None? && s.pendingEntry.Some? && ValidEntry(entry)
    ensures TrueOf(x, s.pendingEntry.value, s.instance, a) && Typed(a)
    ensures a.recovery.RecoveredOpen? ==> a.recovery.firstFill == firstFill
    ensures Clears(mode, s, a, log) <==> (x == Some(Filled) ==> FillFits(firstFill, s.snapshot.timeframe, entry))
  {
    hide ValidCycle, ValidSnapshot, FrozenFits, ValidEntry, DecodeEntry, IsExactDecimal, AlignToBar, TimeframeMs, ValidWire;
    var id := s.pendingEntry.value;
    a := Answers(QueryFailed, EntryAbsent(s.instance, id), CloseFailed);
    SentDecodes(entry);
    EncodingAlwaysAccepted(entry);
    match x
    case None => a := a.(recovery := OrderNotFound);
    case Some(InFlight) => a := a.(recovery := OrderNotFound);
    case Some(Working) => a := a.(recovery := OrderLive(PackageOf(entry, quantity)), cancel := EntryFailed);
    case Some(Gone) => a := a.(recovery := TerminalNoFill);
    case Some(Filled) =>
      a := a.(recovery := RecoveredOpen(PackageOf(entry, quantity), firstFill), cancel := EntryFailed);
      FreezesIffFits(mode, Rebuilt(s, id, entry, quantity), id, firstFill);
  }

  /**
   * A filled apply whose fill does not fit is stuck: whatever true answer comes, the marker and the stored state stay,
   * and every answer that reports the fill makes the attempt fail. Only a fitting fill can clear it.
   */
  lemma UnfittingFillIsStuck(mode: Mode, s: Aggregate, entry: DesiredEntry, firstFill: int, a: Answers, log: Log)
    requires Coherent(s) && s.cycle.None? && s.pendingEntry.Some? && ValidEntry(entry)
    requires TrueOf(Some(Filled), s.pendingEntry.value, s.instance, a) && Typed(a)
    requires a.recovery.RecoveredOpen? ==> DecodeEntry(a.recovery.package.wire) == Some(entry) && a.recovery.firstFill == firstFill
    ensures Clears(mode, s, a, log) ==> FillFits(firstFill, s.snapshot.timeframe, entry)
    ensures !FillFits(firstFill, s.snapshot.timeframe, entry) ==>
      var plan := AttemptPlan(mode, s, a, log);
      && LastSaved(plan.log) == LastSaved(log) && (plan.end.Success? ==> plan.end.value == s)
      && (a.recovery.RecoveredOpen? ==> plan.end.Failure?)
  {
    hide ValidCycle, ValidSnapshot, FrozenFits, ValidEntry, DecodeEntry, IsExactDecimal, AlignToBar, TimeframeMs, ValidWire,
      Freeze;
    var id := s.pendingEntry.value;
    if a.recovery.RecoveredOpen? {
      SourceBarIsNonnegative(entry);
      FreezesIffFits(mode, Rebuilt(s, id, entry, a.recovery.package.quantity), id, firstFill);
    }
  }

  lemma SentDecodes(entry: DesiredEntry)
    requires ValidEntry(entry)
    ensures DecodeEntry(EncodeEntry(entry)) == Some(entry) && entry.sourceBar >= 0
  {
  }

  /** The fill's candle exists on the timeframe grid and is not before the signal bar. */
  predicate FillFits(firstFill: int, timeframe: string, entry: DesiredEntry) {
    AlignToBar(firstFill, timeframe).Some? && AlignToBar(firstFill, timeframe).value >= entry.sourceBar
  }

  /** An unfrozen cycle freezes exactly when the fill fits its entry. */
  lemma FreezesIffFits(mode: Mode, s: Aggregate, id: string, firstFill: int)
    requires id != "" && s.cycle.Some? && s.cycle.value.id == id && s.cycle.value.frozen.None?
    requires s.cycle.value.package.entry.sourceBar >= 0
    ensures Freeze(mode, s, id, firstFill).Success? <==> FillFits(firstFill, s.snapshot.timeframe, s.cycle.value.package.entry)
    ensures Freeze(mode, s, id, firstFill).Success? ==> Marked(Freeze(mode, s, id, firstFill).value) == Marked(s)
  {
    hide ExpirationMs;
  }

  /** And how it fails when it does not: a foreign or second fill, a fill before the signal bar, or no candle at all. */
  lemma FreezeRefusedAs(mode: Mode, s: Aggregate, id: string, firstFill: int)
    requires s.cycle.Some? ==> s.cycle.value.package.entry.sourceBar >= 0
    ensures
      var own := id != "" && s.cycle.Some? && s.cycle.value.id == id;
      var fits := own && FillFits(firstFill, s.snapshot.timeframe, s.cycle.value.package.entry);
      match Freeze(mode, s, id, firstFill)
      case Success(_) => own && firstFill > 0 && (if IsFrozen(s) then s.cycle.value.frozen.value.firstFill == firstFill else fits)
      case Failure(e) =>
        if !own then e == Raised(FirstFillError)
        else if firstFill <= 0 then e == Raised(InvalidValue)
        else if IsFrozen(s) then e == Raised(FirstFillError) && s.cycle.value.frozen.value.firstFill != firstFill
        else !fits && e == Raised(if AlignToBar(firstFill, s.snapshot.timeframe).None? then InvalidValue else FirstFillError)
  {
    hide ExpirationMs;
  }

  /** One true answer clears an uncertain removal, whatever the exchange still holds. */
  lemma UncertainRemovalCanClear(mode: Mode, s: Aggregate, x: Exchange, log: Log) returns (a: Answers)
    requires Coherent(s) && s.cycle.Some? && s.pendingEntry.Some? && x != InFlight
    ensures TrueOf(Some(x), s.pendingEntry.value, s.instance, a) && Clears(mode, s, a, log)
  {
    hide ValidCycle, ValidSnapshot, FrozenFits;
    var id := s.pendingEntry.value;
    a := Answers(QueryFailed, EntryAbsent(s.instance, id), CloseFailed);
    var some := PackageOf(s.cycle.value.package.entry, "1");
    match x
    case Working => a := a.(recovery := OrderLive(some));
    case Filled => a := a.(recovery := RecoveredOpen(some, 1), cancel := EntryFailed);
    case Gone => a := a.(recovery := TerminalNoFill);
  }

  /** A removal whose order is still on its way stays marked, whatever true answer comes. */
  lemma RemovalInFlightStays(mode: Mode, s: Aggregate, a: Answers, log: Log)
    requires Coherent(s) && s.cycle.Some? && s.pendingEntry.Some?
    requires TrueOf(Some(InFlight), s.pendingEntry.value, s.instance, a)
    ensures AttemptPlan(mode, s, a, log) == Plan(Add(log, AskedRecovery(s.pendingEntry.value, a.recovery)), Success(s))
  {
    hide ValidCycle, ValidSnapshot, FrozenFits;
  }

  /** One true answer clears a pending close, whether the position is still open or already gone. */
  lemma PendingCloseCanClear(mode: Mode, s: Aggregate, x: Exchange, log: Log) returns (a: Answers)
    requires Coherent(s) && s.pendingClose.Some? && (x == Filled || x == Gone)
    ensures TrueOf(Some(x), s.pendingClose.value, s.instance, a) && Clears(mode, s, a, log)
  {
    hide ValidCycle, ValidSnapshot, FrozenFits;
    a := Answers(QueryFailed, EntryFailed, PositionClosed(s.instance, s.pendingClose.value, false));
  }
}
