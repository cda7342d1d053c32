/** The entry half of a bar, from outside: what leaves the process and what the bar ends in, for every wish and every answer. */
module EntryTraffic {
  import opened Wrappers
  import opened DecimalText
  import opened Recipes
  import opened State
  import opened Lifetime
  import opened EntryReconciliation
  import opened Discipline
  import opened Effects
  import opened BarPlans
  import opened ConfirmationLaws
  import opened BarLaws
  import opened Traffic

  // ---------------------------------------------------------------- the decision

  /** Nothing forbids a decision: no fill is frozen, and touch_trigger can place the bar on its grid. */
  function Forbidden(mode: Mode, cycle: Option<TradeCycle>, barOpen: int, timeframe: string): Option<Error> {
    if mode.TouchTrigger? && (barOpen < 0 || TimeframeMs(timeframe).None?) then Some(InvalidValue)
    else if cycle.Some? && cycle.value.frozen.Some? then Some(InvariantError)
    else None
  }

  /** The resting order has to go: it is not the wished one, or its lifetime of N + 1 bars is over. */
  predicate Over(mode: Mode, held: DesiredEntry, desired: Option<DesiredEntry>, barOpen: int, timeframe: string)
    requires mode.TouchTrigger? ==> TimeframeMs(timeframe).Some?
  {
    match mode
    case EmaAnchor => desired != Some(held)
    case TouchTrigger(n) => barOpen >= held.sourceBar + (n + 1) * TimeframeMs(timeframe).value
  }

  /** The wish takes the place of an order that goes; in touch_trigger only a signal of this very bar does. */
  predicate Succeeds(mode: Mode, desired: Option<DesiredEntry>, barOpen: int) {
    desired.Some? && (mode.TouchTrigger? ==> desired.value.sourceBar == barOpen)
  }

  /** Both modes: what is decided, and when deciding is refused. */
  lemma DecidedBy(mode: Mode, desired: Option<DesiredEntry>, cycle: Option<TradeCycle>, barOpen: int, timeframe: string)
    ensures Decide(mode, desired, cycle, barOpen, timeframe) ==
      if Forbidden(mode, cycle, barOpen, timeframe).Some? then Failure(Raised(Forbidden(mode, cycle, barOpen, timeframe).value))
      else Success(
        if cycle.None? then (if desired.None? then NoOp else Apply(desired.value))
        else if !Over(mode, cycle.value.package.entry, desired, barOpen, timeframe) then NoOp
        else if Succeeds(mode, desired, barOpen) then Replace(cycle.value.id, desired.value)
        else Cancel(cycle.value.id))
  {
    hide TimeframeMs, ExpirationMs, IsExpired;
    if mode.TouchTrigger? && TimeframeMs(timeframe).Some? && cycle.Some? {
      ExpiredIffPastLifetime(cycle.value.package.entry.sourceBar, TimeframeMs(timeframe).value, mode.lifetimeBars, barOpen);
    }
  }

  // ---------------------------------------------------------------- one command

  /** The exception an answer ends in that neither confirms nor declines the command. */
  function Refusal(reply: EntryReply): Error {
    match reply
    case EntryNotReady => NotReady
    case EntryRejected | EntryFailed => AbiUnavailable
    case EntryApplied(_, _, wire, _) => if DecodeEntry(wire).None? then InvalidValue else InvariantError
    case _ => InvariantError
  }

  function ApplyEnd(s: Aggregate, id: string, entry: DesiredEntry, reply: EntryReply): Result<Aggregate, Stop>
    requires ValidEntry(entry) && TypedEntryReply(reply)
  {
    if !ApplyReturns(s.instance, id, entry, reply) then Failure(Raised(Refusal(reply)))
    else if reply.EntryDeclined? then Success(s)
    else Success(s.(cycle := Some(TradeCycle(id, EntryPackage(entry, reply.quantity), None, None, false))))
  }

  /** The answer settles an apply without a cycle: it was not ready, or declined this very command. */
  predicate Settles(instance: string, id: string, reply: EntryReply) {
    reply.EntryNotReady? || reply == EntryDeclined(instance, id)
  }

  /** Whether the command's marker is still there when the leg is over: not if it is refused, declined or not ready. */
  function LegLeaves(s: Aggregate, id: string, settled: bool): Aggregate {
    if settled then s else s.(pendingEntry := Some(id))
  }

  lemma ApplyLegDoes(s: Aggregate, id: string, entry: DesiredEntry, reply: EntryReply, log: Log)
    requires !Marked(s) && s.cycle.None? && id != "" && ValidEntry(entry) && TypedEntryReply(reply)
    ensures var leg := LegPlan(s, ApplyLeg(id, entry), reply, log);
      && Did(log, leg.log, [SendEntry(Command(s.instance, id, s.snapshot.instrument, Some(entry)))], [])
      && leg.end == ApplyEnd(s, id, entry, reply)
      && LastSaved(leg.log) == Some(LegLeaves(s, id, Settles(s.instance, id, reply)))
  {
    hide ValidEntry, DecodeEntry, ExactEcho, ValidWire, IsExactDecimal, Did;
    LegIsOneCommand(s, Command(s.instance, id, s.snapshot.instrument, Some(entry)), reply, log);
    if reply.EntryApplied? {
      ApplyConfirmedIffExactEcho(s, id, entry, reply, log);
    }
  }

  lemma LegIsOneCommand(s: Aggregate, command: Command, reply: EntryReply, log: Log)
    ensures var sent := Add(Add(log, Saved(s.(pendingEntry := Some(command.id)))), SentEntry(command, reply));
      Did(log, sent, [SendEntry(command)], []) && Did(log, Add(sent, Saved(s)), [SendEntry(command)], [])
  {
    hide Did;
    DidNothing(log);
    DidSteps(log, [], []);
    DidSteps(log, [SendEntry(command)], []);
    assert [] + [SendEntry(command)] == [SendEntry(command)];
  }

  lemma CancelLegDoes(s: Aggregate, id: string, reply: EntryReply, log: Log)
    requires !Marked(s) && s.cycle.Some? && s.cycle.value.id == id
    ensures var leg := LegPlan(s, CancelLeg(id), reply, log);
      && Did(log, leg.log, [SendEntry(Command(s.instance, id, s.snapshot.instrument, None))], [])
      && leg.end == (if reply == EntryAbsent(s.instance, id) then Success(s.(cycle := None)) else Failure(Raised(Refusal(reply))))
      && LastSaved(leg.log) == Some(LegLeaves(s, id, reply.EntryNotReady?))
  {
    hide DecodeEntry, Did;
    LegIsOneCommand(s, Command(s.instance, id, s.snapshot.instrument, None), reply, log);
  }

  // ---------------------------------------------------------------- the entry half of a bar

  predicate Fresh(s: Aggregate, b: Bar) {
    b.newId != "" && NamedId(s) != Some(b.newId)
  }

  /** The commands, in order. The second of a swap leaves only after the first is confirmed. */
  function EntryCommands(mode: Mode, s: Aggregate, timeframe: string, b: Bar): seq<Deed> {
    var apply := (entry: DesiredEntry) => SendEntry(Command(s.instance, b.newId, s.snapshot.instrument, Some(entry)));
    if !b.wish.Wish? || Forbidden(mode, s.cycle, b.barOpen, timeframe).Some? then []
    else
      var desired := b.wish.desired;
      if s.cycle.None? then (if desired.None? then [] else [apply(desired.value)])
      else
        var c := s.cycle.value;
        if !Over(mode, c.package.entry, desired, b.barOpen, timeframe) then []
        else
          [SendEntry(Command(s.instance, c.id, s.snapshot.instrument, None))]
          + if Succeeds(mode, desired, b.barOpen) && b.first == EntryAbsent(s.instance, c.id) then [apply(desired.value)] else []
  }

  function EntryEnd(mode: Mode, s: Aggregate, timeframe: string, b: Bar): Result<Aggregate, Stop>
    requires TypedWish(b.wish) && TypedEntryReply(b.first) && TypedEntryReply(b.second)
  {
    if !b.wish.Wish? then Failure(Raised(EngineUnavailable))
    else if Forbidden(mode, s.cycle, b.barOpen, timeframe).Some? then
      Failure(Raised(Forbidden(mode, s.cycle, b.barOpen, timeframe).value))
    else
      var desired := b.wish.desired;
      if s.cycle.None? then (if desired.None? then Success(s) else ApplyEnd(s, b.newId, desired.value, b.first))
      else
        var c := s.cycle.value;
        if !Over(mode, c.package.entry, desired, b.barOpen, timeframe) then Success(s)
        else if b.first != EntryAbsent(s.instance, c.id) then Failure(Raised(Refusal(b.first)))
        else if !Succeeds(mode, desired, b.barOpen) then Success(s.(cycle := None))
        else ApplyEnd(s.(cycle := None), b.newId, desired.value, b.second)
  }

  lemma EntryDoes(mode: Mode, s: Aggregate, timeframe: string, b: Bar, log: Log)
    requires !Marked(s) && Fresh(s, b) && b.wish.Wish?
    requires TypedWish(b.wish) && TypedEntryReply(b.first) && TypedEntryReply(b.second)
    ensures var plan := EntryPlan(mode, s, timeframe, b, log);
      Did(log, plan.log, EntryCommands(mode, s, timeframe, b), []) && plan.end == EntryEnd(mode, s, timeframe, b)
  {
    hide Decide, Over, Forbidden, LegPlan, TypedEntryReply, ValidEntry, ApplyEnd, Refusal, Did, LegLeaves;
    DecidedBy(mode, b.wish.desired, s.cycle, b.barOpen, timeframe);
    DidNothing(log);
    match Decide(mode, b.wish.desired, s.cycle, b.barOpen, timeframe)
    case Failure(_) =>
    case Success(NoOp) =>
    case Success(Apply(entry)) =>
      WishIsValid(b.wish);
      ApplyLegDoes(s, b.newId, entry, b.first, log);
    case Success(Cancel(id)) =>
      CancelLegDoes(s, id, b.first, log);
      OneDeed(SendEntry(Command(s.instance, id, s.snapshot.instrument, None)));
    case Success(Replace(id, entry)) =>
      CancelLegDoes(s, id, b.first, log);
      OneDeed(SendEntry(Command(s.instance, id, s.snapshot.instrument, None)));
      WishIsValid(b.wish);
      if b.first == EntryAbsent(s.instance, id) {
        SwapDoes(s, id, entry, b, log);
      }
  }

  lemma OneDeed(d: Deed)
    ensures [d] + [] == [d]
    ensures forall d': Deed :: [d] + [d'] == [d, d']
  {
  }

  lemma WishIsValid(wish: EntryWish)
    requires TypedWish(wish) && wish.Wish? && wish.desired.Some?
    ensures ValidEntry(wish.desired.value)
  {
  }

  lemma SwapDoes(s: Aggregate, id: string, entry: DesiredEntry, b: Bar, log: Log)
    requires !Marked(s) && s.cycle.Some? && s.cycle.value.id == id && b.first == EntryAbsent(s.instance, id)
    requires b.newId != "" && ValidEntry(entry) && TypedEntryReply(b.second)
    ensures
      var first := LegPlan(s, CancelLeg(id), b.first, log);
      first.end.Success? &&
      var second := LegPlan(first.end.value, ApplyLeg(b.newId, entry), b.second, first.log);
      && Did(log, second.log, [SendEntry(Command(s.instance, id, s.snapshot.instrument, None)),
                               SendEntry(Command(s.instance, b.newId, s.snapshot.instrument, Some(entry)))], [])
      && second.end == ApplyEnd(s.(cycle := None), b.newId, entry, b.second)
  {
    hide LegPlan, TypedEntryReply, ValidEntry, ApplyEnd, Refusal, Did, LegLeaves;
    CancelLegDoes(s, id, b.first, log);
    var first := LegPlan(s, CancelLeg(id), b.first, log);
    ApplyLegDoes(s.(cycle := None), b.newId, entry, b.second, first.log);
    var second := LegPlan(s.(cycle := None), ApplyLeg(b.newId, entry), b.second, first.log);
    var x, y := SendEntry(Command(s.instance, id, s.snapshot.instrument, None)),
                SendEntry(Command(s.instance, b.newId, s.snapshot.instrument, Some(entry)));
    DidThen(log, first.log, second.log, [x], [], [y], []);
    assert [x] + [y] == [x, y];
  }

  /** The resting order is gone for good: its removal was confirmed, and so was its successor, if any. */
  predicate OrderEnds(mode: Mode, s: Aggregate, timeframe: string, b: Bar)
    requires TypedWish(b.wish) && TypedEntryReply(b.first) && TypedEntryReply(b.second)
  {
    s.cycle.Some? && EntryEnd(mode, s, timeframe, b).Success? && EntryEnd(mode, s, timeframe, b).value != s
  }

  lemma LiveEntryDoes(mode: Mode, s: Aggregate, timeframe: string, b: Bar, log: Log)
    requires !Marked(s) && Fresh(s, b) && TypedWish(b.wish) && TypedEntryReply(b.first) && TypedEntryReply(b.second)
    ensures var plan := LiveEntryPlan(mode, s, timeframe, b, log);
      && Did(log, plan.log, [AskEntry] + EntryCommands(mode, s, timeframe, b),
             if OrderEnds(mode, s, timeframe, b) then [Ended(s.cycle.value.id, Cancelled)] else [])
      && plan.end == EntryEnd(mode, s, timeframe, b)
  {
    hide TypedEntryReply, TypedWish, EntryPlan, EntryCommands, EntryEnd, Did;
    var asked := Add(log, AskedLiveEntry(b.wish));
    DidStep();
    if b.wish.Wish? {
      EntryDoes(mode, s, timeframe, b, asked);
      var entry := EntryPlan(mode, s, timeframe, b, asked);
      DidThen(log, asked, entry.log, [AskEntry], [], EntryCommands(mode, s, timeframe, b), []);
      if entry.end.Success? {
        EndChanges(mode, s, timeframe, b);
        FinishDoes(s, entry.end.value, entry.log);
        var finished := FinishPlan(s, entry.end.value, false, false, entry.log).log;
        var deeds := [AskEntry] + EntryCommands(mode, s, timeframe, b);
        var records := if OrderEnds(mode, s, timeframe, b) then [Ended(s.cycle.value.id, Cancelled)] else [];
        assert Did(entry.log, finished, [], records);
        DidThen(log, entry.log, finished, deeds, [], [], records);
        assert deeds + [] == deeds && [] + records == records;
      }
    } else {
      NoWishNoCommand(mode, s, timeframe, b);
      OneDeed(AskEntry);
    }
  }

  lemma NoWishNoCommand(mode: Mode, s: Aggregate, timeframe: string, b: Bar)
    requires !b.wish.Wish? && TypedWish(b.wish) && TypedEntryReply(b.first) && TypedEntryReply(b.second)
    ensures EntryCommands(mode, s, timeframe, b) == [] && EntryEnd(mode, s, timeframe, b) == Failure(Raised(EngineUnavailable))
  {
    hide TypedEntryReply;
  }

  /** An entry half that changes a state with a cycle has ended that cycle. */
  lemma EndChanges(mode: Mode, s: Aggregate, timeframe: string, b: Bar)
    requires Fresh(s, b) && TypedWish(b.wish) && TypedEntryReply(b.first) && TypedEntryReply(b.second)
    requires EntryEnd(mode, s, timeframe, b).Success?
    ensures EntryEnd(mode, s, timeframe, b).value != s ==>
      (EntryEnded(s, EntryEnd(mode, s, timeframe, b).value) <==> s.cycle.Some?)
  {
    hide Over, Succeeds, TypedEntryReply, ValidEntry, ApplyReturns;
  }

  lemma FinishDoes(s: Aggregate, result: Aggregate, log: Log)
    ensures var plan := FinishPlan(s, result, false, false, log);
      && Did(log, plan.log, [], if result != s && EntryEnded(s, result) then [Ended(s.cycle.value.id, Cancelled)] else [])
      && plan.end == Success(result)
  {
  }

  // ---------------------------------------------------------------- what is durable when the entry half is over

  /** Durable before the bar's own last save: the marker of a command whose answer left it uncertain stays. */
  function EntryLeft(mode: Mode, s: Aggregate, timeframe: string, b: Bar): Aggregate {
    if !b.wish.Wish? || Forbidden(mode, s.cycle, b.barOpen, timeframe).Some? then s
    else if s.cycle.None? then
      if b.wish.desired.None? then s else LegLeaves(s, b.newId, Settles(s.instance, b.newId, b.first))
    else
      var c := s.cycle.value;
      if !Over(mode, c.package.entry, b.wish.desired, b.barOpen, timeframe) then s
      else if b.first != EntryAbsent(s.instance, c.id) || !Succeeds(mode, b.wish.desired, b.barOpen) then
        LegLeaves(s, c.id, b.first.EntryNotReady?)
      else LegLeaves(s.(cycle := None), b.newId, Settles(s.instance, b.newId, b.second))
  }

  lemma EntryLeaves(mode: Mode, s: Aggregate, timeframe: string, b: Bar, log: Log)
    requires !Marked(s) && Fresh(s, b) && b.wish.Wish? && LastSaved(log) == Some(s)
    requires TypedWish(b.wish) && TypedEntryReply(b.first) && TypedEntryReply(b.second)
    ensures LastSaved(EntryPlan(mode, s, timeframe, b, log).log) == Some(EntryLeft(mode, s, timeframe, b))
  {
    hide Decide, Over, Forbidden, LegPlan, TypedEntryReply, ValidEntry, ApplyEnd, Refusal, Did, LegLeaves, LastSaved;
    DecidedBy(mode, b.wish.desired, s.cycle, b.barOpen, timeframe);
    match Decide(mode, b.wish.desired, s.cycle, b.barOpen, timeframe)
    case Failure(_) =>
    case Success(NoOp) =>
    case Success(Apply(entry)) =>
      WishIsValid(b.wish);
      ApplyLegDoes(s, b.newId, entry, b.first, log);
    case Success(Cancel(id)) =>
      CancelLegDoes(s, id, b.first, log);
    case Success(Replace(id, entry)) =>
      WishIsValid(b.wish);
      CancelLegDoes(s, id, b.first, log);
      if b.first == EntryAbsent(s.instance, id) {
        ApplyLegDoes(s.(cycle := None), b.newId, entry, b.second, LegPlan(s, CancelLeg(id), b.first, log).log);
      }
  }

  /** A returned entry half is durable as it returned; a failed one leaves the marker of an uncertain command, or none. */
  function EntryDurable(mode: Mode, s: Aggregate, timeframe: string, b: Bar): Aggregate
    requires TypedWish(b.wish) && TypedEntryReply(b.first) && TypedEntryReply(b.second)
  {
    if EntryEnd(mode, s, timeframe, b).Success? then EntryEnd(mode, s, timeframe, b).value else EntryLeft(mode, s, timeframe, b)
  }

  lemma LiveEntryLeaves(mode: Mode, s: Aggregate, timeframe: string, b: Bar, log: Log)
    requires !Marked(s) && Fresh(s, b) && LastSaved(log) == Some(s)
    requires TypedWish(b.wish) && TypedEntryReply(b.first) && TypedEntryReply(b.second)
    ensures LastSaved(LiveEntryPlan(mode, s, timeframe, b, log).log) == Some(EntryDurable(mode, s, timeframe, b))
  {
    hide TypedEntryReply, TypedWish, EntryPlan, EntryLeft, EntryEnd, Did, LastSaved;
    SavedStep();
    var asked := Add(log, AskedLiveEntry(b.wish));
    assert LastSaved(asked) == Some(s);
    if b.wish.Wish? {
      EntryDoes(mode, s, timeframe, b, asked);
      EntryLeaves(mode, s, timeframe, b, asked);
      if EntryEnd(mode, s, timeframe, b) == Success(s) {
        UnchangedIsLeft(mode, s, timeframe, b);
      }
    } else {
      NoWishNoCommand(mode, s, timeframe, b);
      NoWishLeft(mode, s, timeframe, b);
    }
  }

  lemma NoWishLeft(mode: Mode, s: Aggregate, timeframe: string, b: Bar)
    requires !b.wish.Wish?
    ensures EntryLeft(mode, s, timeframe, b) == s
  {
  }

  lemma UnchangedIsLeft(mode: Mode, s: Aggregate, timeframe: string, b: Bar)
    requires Fresh(s, b) && TypedWish(b.wish) && TypedEntryReply(b.first) && TypedEntryReply(b.second)
    requires EntryEnd(mode, s, timeframe, b) == Success(s)
    ensures EntryLeft(mode, s, timeframe, b) == s
  {
    hide Over, TypedEntryReply, ValidEntry, ExactEcho;
  }
}
