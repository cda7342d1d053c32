/** A resolver attempt from outside: its calls, its records and the state it ends in, for every marker and every answer. */
module RecoveryTraffic {
  import opened Wrappers
  import opened DecimalText
  import opened Recipes
  import opened State
  import opened Lifetime
  import opened EntryReconciliation
  import opened FirstFill
  import opened PositionManagement
  import opened Discipline
  import opened Effects
  import opened Resolver
  import opened RecoveryLaws
  import opened Traffic

  /** The two rows that send a corrective cancel: an apply that was never seen, a removal whose order is still live. */
  predicate Corrects(s: Aggregate, a: Answers) {
    s.pendingEntry.Some? && if s.cycle.None? then a.recovery.OrderNotFound? else a.recovery.OrderLive?
  }

  predicate ExactlyAbsent(s: Aggregate, a: Answers) {
    Corrects(s, a) && a.cancel == EntryAbsent(s.instance, s.pendingEntry.value)
  }

  function AttemptDeeds(s: Aggregate, a: Answers): seq<Deed> {
    if s.pendingClose.Some? then [SendClose(s.pendingClose.value)]
    else if s.pendingEntry.None? then []
    else [AskRecovery(s.pendingEntry.value)] + if Corrects(s, a) then [SendCancel(s.pendingEntry.value)] else []
  }

  /** A lost apply that the executor shows filled, by a fill that fits the entry it holds. */
  predicate RecoversOpen(s: Aggregate, a: Answers) {
    && s.cycle.None? && a.recovery.RecoveredOpen?
    && var entry := DecodeEntry(a.recovery.package.wire);
    entry.Some? && FillFits(a.recovery.firstFill, s.snapshot.timeframe, entry.value)
  }

  /** Which record, if any, by marker and answer. A terminal order that did fill gets none here. */
  function AttemptRecords(s: Aggregate, a: Answers): seq<Record> {
    if s.pendingClose.Some? then
      var id := s.pendingClose.value;
      if a.close == PositionClosed(s.instance, id, true) then [Closed(id)] else []
    else if s.pendingEntry.None? then []
    else
      var id := s.pendingEntry.value;
      if a.recovery.TerminalNoFill? then [Ended(id, TerminalWithoutFill)]
      else if ExactlyAbsent(s, a) then [Ended(id, ExactAbsent)]
      else if RecoversOpen(s, a) then [Opened(id)]
      else []
  }

  /** A lost apply the executor shows live or filled. */
  function RecoveredEnd(mode: Mode, s: Aggregate, id: string, p: AppliedPackage, firstFill: Option<int>): Result<Aggregate, Stop> {
    var entry := DecodeEntry(p.wire);
    if entry.None? then Failure(Raised(InvalidValue))
    else
      var cycle := TradeCycle(id, EntryPackage(entry.value, p.quantity), None, None, false);
      var live := s.(cycle := Some(cycle), pendingEntry := None);
      if firstFill.None? then Success(live) else Freeze(mode, live, id, firstFill.value)
  }

  function AttemptEnd(mode: Mode, s: Aggregate, a: Answers): Result<Aggregate, Stop> {
    var gone := s.(cycle := None, pendingEntry := None, pendingClose := None);
    if s.pendingClose.Some? then
      Success(if a.close.PositionClosed? && a.close.instance == s.instance && a.close.id == s.pendingClose.value then gone else s)
    else if s.pendingEntry.None? then Success(s)
    else if a.recovery.TerminalNoFill? || a.recovery.TerminalFilled? || ExactlyAbsent(s, a) then Success(gone)
    else if s.cycle.Some? then Success(if a.recovery.RecoveredOpen? then s.(pendingEntry := None) else s)
    else
      match a.recovery
      case OrderLive(p) => RecoveredEnd(mode, s, s.pendingEntry.value, p, None)
      case RecoveredOpen(p, firstFill) => RecoveredEnd(mode, s, s.pendingEntry.value, p, Some(firstFill))
      case _ => Success(s)
  }

  predicate AttemptIs(mode: Mode, s: Aggregate, a: Answers, log: Log, plan: Plan<Aggregate>) {
    Did(log, plan.log, AttemptDeeds(s, a), AttemptRecords(s, a)) && plan.end == AttemptEnd(mode, s, a)
  }

  /** Every attempt on every valid state, whatever is answered. */
  lemma AttemptDoes(mode: Mode, s: Aggregate, a: Answers, log: Log)
    requires ValidAggregate(s)
    ensures AttemptIs(mode, s, a, log, AttemptPlan(mode, s, a, log))
  {
    hide ValidAggregate, Did, Freeze, DecodeEntry, FillFits, PendingClosePlan, UncertainApplyPlan, UncertainRemovalPlan;
    MarkersNameTheCycle(s);
    DidNothing(log);
    if s.pendingClose.Some? {
      CloseDoes(mode, s, a, log);
    } else if s.pendingEntry.Some? {
      var id := s.pendingEntry.value;
      var asked := Add(log, AskedRecovery(id, a.recovery));
      DidStep();
      assert Did(log, asked, [AskRecovery(id)], []);
      if s.cycle.None? {
        ApplyDoes(mode, s, a, log, asked);
      } else {
        RemovalDoes(mode, s, a, log, asked);
      }
    }
  }

  lemma MarkersNameTheCycle(s: Aggregate)
    requires ValidAggregate(s)
    ensures s.pendingClose.Some? ==> s.pendingEntry.None? && s.cycle.Some? && s.cycle.value.id == s.pendingClose.value
    ensures s.pendingEntry.Some? ==> s.pendingEntry.value != "" && (s.cycle.Some? ==> s.cycle.value.id == s.pendingEntry.value)
  {
    hide ValidCycle, ValidSnapshot, IsBlank, IsPositiveExactDecimal;
  }

  lemma CloseDoes(mode: Mode, s: Aggregate, a: Answers, log: Log)
    requires s.pendingClose.Some? && s.pendingEntry.None? && s.cycle.Some? && s.cycle.value.id == s.pendingClose.value
    ensures AttemptIs(mode, s, a, log, PendingClosePlan(s, s.pendingClose.value, a.close, log))
  {
    hide Did, Freeze, DecodeEntry, FillFits;
    var id := s.pendingClose.value;
    DidNothing(log);
    DidSteps(log, [], []);
    DidSteps(log, [SendClose(id)], []);
    assert [] + [SendClose(id)] == [SendClose(id)] && [] + [Closed(id)] == [Closed(id)];
  }

  lemma CancelDoes(s: Aggregate, id: string, reply: EntryReply, base: Log, log: Log)
    requires Did(base, log, [AskRecovery(id)], [])
    ensures var absent := reply == EntryAbsent(s.instance, id);
      Did(base, CancelPlan(s, id, reply, log).log, [AskRecovery(id)] + [SendCancel(id)], if absent then [Ended(id, ExactAbsent)] else [])
  {
    hide Did;
    DidSteps(base, [AskRecovery(id)], []);
    DidSteps(base, [AskRecovery(id)] + [SendCancel(id)], []);
    assert [] + [Ended(id, ExactAbsent)] == [Ended(id, ExactAbsent)];
  }

  lemma TerminalDoes(s: Aggregate, id: string, reply: RecoveryReply, base: Log, log: Log)
    requires Did(base, log, [AskRecovery(id)], [])
    ensures Did(base, TerminalPlan(s, id, reply, log).log, [AskRecovery(id)] + [], if reply.TerminalNoFill? then [Ended(id, TerminalWithoutFill)] else [])
  {
    hide Did;
    DidSteps(base, [AskRecovery(id)], []);
    assert [AskRecovery(id)] + [] == [AskRecovery(id)];
    assert [] + [Ended(id, TerminalWithoutFill)] == [Ended(id, TerminalWithoutFill)];
  }

  lemma RebuildDoes(mode: Mode, s: Aggregate, id: string, p: AppliedPackage, firstFill: Option<int>, base: Log, log: Log)
    requires Did(base, log, [AskRecovery(id)], []) && s.cycle.None? && id != ""
    ensures
      var plan, entry := RebuildPlan(mode, s, id, p, firstFill, log), DecodeEntry(p.wire);
      && Did(base, plan.log, [AskRecovery(id)] + [],
             if entry.Some? && firstFill.Some? && FillFits(firstFill.value, s.snapshot.timeframe, entry.value) then [Opened(id)] else [])
      && plan.end == RecoveredEnd(mode, s, id, p, firstFill)
  {
    hide Did, DecodeEntry, Freeze, FillFits;
    DidSteps(base, [AskRecovery(id)], []);
    assert [AskRecovery(id)] + [] == [AskRecovery(id)];
    assert [] + [Opened(id)] == [Opened(id)];
    if firstFill.Some? {
      RebuiltFreezesIffFits(mode, s, id, p, firstFill.value);
    }
  }

  lemma RebuiltFreezesIffFits(mode: Mode, s: Aggregate, id: string, p: AppliedPackage, firstFill: int)
    requires s.cycle.None? && id != ""
    ensures var entry := DecodeEntry(p.wire);
      entry.Some? ==>
        (Freeze(mode, Rebuilt(s, id, entry.value, p.quantity), id, firstFill).Success? <==>
         FillFits(firstFill, s.snapshot.timeframe, entry.value))
  {
    hide DecodeEntry, Freeze, FillFits, ValidEntry;
    var entry := DecodeEntry(p.wire);
    if entry.Some? {
      DecodedIsValid(p.wire);
      SourceBarIsNonnegative(entry.value);
      FreezesIffFits(mode, Rebuilt(s, id, entry.value, p.quantity), id, firstFill);
    }
  }

  lemma ApplyDoes(mode: Mode, s: Aggregate, a: Answers, base: Log, log: Log)
    requires s.cycle.None? && s.pendingClose.None? && s.pendingEntry.Some? && s.pendingEntry.value != ""
    requires Did(base, log, [AskRecovery(s.pendingEntry.value)], [])
    ensures AttemptIs(mode, s, a, base, UncertainApplyPlan(mode, s, s.pendingEntry.value, a, log))
  {
    hide Did, DecodeEntry, Freeze, FillFits, RebuildPlan, RecoveredEnd;
    var id := s.pendingEntry.value;
    assert [AskRecovery(id)] + [] == [AskRecovery(id)];
    match a.recovery
    case OrderLive(p) => RebuildDoes(mode, s, id, p, None, base, log);
    case RecoveredOpen(p, firstFill) => RebuildDoes(mode, s, id, p, Some(firstFill), base, log);
    case OrderNotFound => CancelDoes(s, id, a.cancel, base, log);
    case QueryFailed =>
    case _ => TerminalDoes(s, id, a.recovery, base, log);
  }

  lemma RemovalDoes(mode: Mode, s: Aggregate, a: Answers, base: Log, log: Log)
    requires s.cycle.Some? && s.pendingClose.None? && s.pendingEntry.Some? && s.cycle.value.id == s.pendingEntry.value
    requires Did(base, log, [AskRecovery(s.pendingEntry.value)], [])
    ensures AttemptIs(mode, s, a, base, UncertainRemovalPlan(s, s.cycle.value.id, a, log))
  {
    hide Did, DecodeEntry, Freeze, FillFits;
    var id := s.pendingEntry.value;
    assert [AskRecovery(id)] + [] == [AskRecovery(id)];
    DidSteps(base, [AskRecovery(id)], []);
    match a.recovery
    case OrderLive(_) => CancelDoes(s, id, a.cancel, base, log);
    case TerminalNoFill => TerminalDoes(s, id, a.recovery, base, log);
    case TerminalFilled => TerminalDoes(s, id, a.recovery, base, log);
    case _ =>
  }
}
