/** Open-position decisions, and the application of protection and close confirmations. */
module PositionManagement {
  import opened Wrappers
  import opened Recipes
  import opened State
  import opened Lifetime
  import opened EntryReconciliation

  /** Engine's answer for an open trade. */
  datatype Recipe = Recipe(protection: DesiredProtection, closeSignal: bool)

  datatype PmDecision = KeepAsIs | ApplyProtection(id: string, protection: DesiredProtection) | ClosePosition(id: string)

  /** A closure is executor evidence that a cycle ended on its own orders. */
  datatype Closure = Closure(instance: string, id: string)

  datatype PositionReply =
    | PositionFlat
    | PositionIsOpen(firstFill: int)
    | PositionClosedBy(closure: Closure)
    | LookupFailed

  datatype ProtectReply = ProtectionApplied(instance: string, id: string, protection: DesiredProtection) | ProtectFailed

  datatype CloseReply = PositionClosed(instance: string, id: string, withClosure: bool) | CloseFailed

  datatype RemainderReply = RemainderEnded | RemainderFailed

  /** The protection the exchange holds as far as the executor ever confirmed. */
  function EffectiveProtection(c: TradeCycle): Option<DesiredProtection>
    requires c.frozen.Some?
  {
    if c.protection.Some? then c.protection
    else MakeProtection(c.frozen.value.entry.stopPrice, Some(c.frozen.value.entry.takePrice))
  }

  function DecidePosition(recipe: Recipe, cycle: Option<TradeCycle>): Result<PmDecision, Stop> {
    if cycle.None? || cycle.value.frozen.None? then Failure(Raised(InvariantError))
    else if recipe.closeSignal then Success(ClosePosition(cycle.value.id))
    else
      var effective := EffectiveProtection(cycle.value);
      if effective.None? then Failure(Raised(InvalidValue))
      else if effective.value == recipe.protection then Success(KeepAsIs)
      else Success(ApplyProtection(cycle.value.id, recipe.protection))
  }

  function ConfirmProtection(s: Aggregate, id: string, protection: DesiredProtection, reply: ProtectReply): Result<Aggregate, Stop>
    requires reply.ProtectionApplied?
  {
    if reply.instance != s.instance || s.cycle.None? || s.cycle.value.id != id || reply.id != id || reply.protection != protection then
      Failure(Raised(InvariantError))
    else Success(s.(cycle := Some(s.cycle.value.(protection := Some(reply.protection)))))
  }

  function ConfirmClose(s: Aggregate, id: string, reply: CloseReply): Result<Aggregate, Stop>
    requires reply.PositionClosed?
  {
    if reply.instance != s.instance || s.cycle.None? || s.cycle.value.id != id || reply.id != id then
      Failure(Raised(InvariantError))
    else Success(s.(cycle := None, pendingClose := None))
  }

  function ApplyClosure(s: Aggregate, closure: Closure): Result<Aggregate, Stop> {
    if s.cycle.None? || closure.instance != s.instance || s.cycle.value.id != closure.id then
      Failure(Raised(InvariantError))
    else Success(s.(cycle := None, pendingClose := None))
  }

  /** Whether this bar must ask the executor to end the entry order's remainder. A frozen context exists only under a supported timeframe. */
  predicate RemainderDue(s: Aggregate, barOpen: int) {
    && s.cycle.Some? && !s.cycle.value.remainderCancelled
    && s.cycle.value.frozen.Some? && s.cycle.value.frozen.value.expiresAt.Some?
    && TimeframeMs(s.snapshot.timeframe).Some?
    && IsExpired(barOpen, TimeframeMs(s.snapshot.timeframe).value, s.cycle.value.frozen.value.expiresAt.value)
  }

  function MarkRemainder(s: Aggregate): Aggregate
    requires s.cycle.Some?
  {
    s.(cycle := Some(s.cycle.value.(remainderCancelled := true)))
  }
}
