/** Entry decisions, commands, and the application of entry confirmations. */
module EntryReconciliation {
  import opened Wrappers
  import opened DecimalText
  import opened Recipes
  import opened State
  import opened Lifetime

  /** Why a call stopped: the process was cut off, or an exception reached the caller. */
  datatype Stop = Interrupted | Raised(error: Error)

  datatype Error =
    | InvariantError | FirstFillError | InvalidValue | IdentityConflict | StoreFailed
    | AbiUnavailable | EngineUnavailable | NotReady
    | NotFound | NoPosition | RecoveryPending | PositionOpen | CycleNotSettled | CancelNotConfirmed
    | StillEnabled | FileFailed | CatalogUnavailable

  datatype Mode = EmaAnchor | TouchTrigger(lifetimeBars: nat)

  datatype Decision = NoOp | Apply(entry: DesiredEntry) | Cancel(id: string) | Replace(id: string, entry: DesiredEntry)

  function DecideEmaAnchor(desired: Option<DesiredEntry>, cycle: Option<TradeCycle>): Result<Decision, Stop> {
    if cycle.Some? && cycle.value.frozen.Some? then Failure(Raised(InvariantError))
    else if cycle.None? then Success(if desired.None? then NoOp else Apply(desired.value))
    else if desired.None? then Success(Cancel(cycle.value.id))
    else if desired.value == cycle.value.package.entry then Success(NoOp)
    else Success(Replace(cycle.value.id, desired.value))
  }

  function DecideTouchTrigger(desired: Option<DesiredEntry>, cycle: Option<TradeCycle>, barOpen: int, tf: int,
                              lifetimeBars: nat): Result<Decision, Stop> {
    if barOpen < 0 || tf <= 0 then Failure(Raised(InvalidValue))
    else if cycle.Some? && cycle.value.frozen.Some? then Failure(Raised(InvariantError))
    else if cycle.None? then Success(if desired.None? then NoOp else Apply(desired.value))
    else
      var held := cycle.value.package.entry;
      if !IsExpired(barOpen, tf, ExpirationMs(held.sourceBar, tf, lifetimeBars)) then Success(NoOp)
      else if desired.None? || desired.value.sourceBar != barOpen then Success(Cancel(cycle.value.id))
      else Success(Replace(cycle.value.id, desired.value))
  }

  function Decide(mode: Mode, desired: Option<DesiredEntry>, cycle: Option<TradeCycle>, barOpen: int,
                  timeframe: string): Result<Decision, Stop> {
    match mode
    case EmaAnchor => DecideEmaAnchor(desired, cycle)
    case TouchTrigger(n) =>
      var tf := TimeframeMs(timeframe);
      if tf.None? then Failure(Raised(InvalidValue)) else DecideTouchTrigger(desired, cycle, barOpen, tf.value, n)
  }

  // ---------------------------------------------------------------- commands and answers

  /** `entry` present: make this package present; absent: make it absent. */
  datatype Command = Command(instance: string, id: string, ticker: string, entry: Option<DesiredEntry>)

  datatype Leg = ApplyLeg(id: string, entry: DesiredEntry) | CancelLeg(id: string)

  function BuildCommand(s: Aggregate, leg: Leg): Result<Command, Stop> {
    match leg
    case ApplyLeg(id, entry) =>
      if s.cycle.Some? || id == "" then Failure(Raised(InvariantError))
      else Success(Command(s.instance, id, s.snapshot.instrument, Some(entry)))
    case CancelLeg(id) =>
      if s.cycle.None? || s.cycle.value.id != id then Failure(Raised(InvariantError))
      else Success(Command(s.instance, id, s.snapshot.instrument, None))
  }

  /** What the executor may answer to an entry command: `EntryRejected` a typed public error, `EntryFailed` no valid answer. */
  datatype EntryReply =
    | EntryApplied(instance: string, id: string, wire: WireEntry, quantity: string)
    | EntryAbsent(instance: string, id: string)
    | EntryDeclined(instance: string, id: string)
    | EntryNotReady
    | EntryRejected
    | EntryFailed

  function ConfirmedCycle(id: string, entry: DesiredEntry, quantity: string): TradeCycle {
    TradeCycle(id, EntryPackage(entry, quantity), None, None, false)
  }

  /** The aggregate after one matching formal success, or the shared invariant error. */
  function ApplyConfirmation(s: Aggregate, leg: Leg, sent: Command, reply: EntryReply): Result<Aggregate, Stop>
    requires reply.EntryApplied? || reply.EntryAbsent?
  {
    if reply.EntryApplied? && DecodeEntry(reply.wire).None? then Failure(Raised(InvalidValue))
    else if sent.instance != s.instance || reply.instance != s.instance || sent.ticker != s.snapshot.instrument then
      Failure(Raised(InvariantError))
    else
      match leg
      case ApplyLeg(id, entry) =>
        if s.cycle.Some? || !reply.EntryApplied? || sent.id != reply.id then Failure(Raised(InvariantError))
        else if sent.entry != Some(entry) || DecodeEntry(reply.wire).value != entry then Failure(Raised(InvariantError))
        else Success(s.(cycle := Some(ConfirmedCycle(reply.id, entry, reply.quantity)), pendingEntry := None))
      case CancelLeg(id) =>
        if s.cycle.None? || !reply.EntryAbsent? then Failure(Raised(InvariantError))
        else if s.cycle.value.id != id || id != sent.id || sent.id != reply.id || sent.entry.Some? then
          Failure(Raised(InvariantError))
        else Success(s.(cycle := None, pendingEntry := None))
  }
}
