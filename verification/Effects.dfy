/** What one writer does, seen from outside, and the answers it can meet. */
module Effects {
  import opened Wrappers
  import opened DecimalText
  import opened Recipes
  import opened State
  import opened EntryReconciliation
  import opened PositionManagement
  import opened Discipline

  datatype AppliedPackage = AppliedPackage(wire: WireEntry, quantity: string)

  /** The recovery-state endpoint's answers; `QueryFailed` covers every inconclusive one. */
  datatype RecoveryReply =
    | OrderLive(package: AppliedPackage)
    | OrderNotFound
    | RecoveredOpen(package: AppliedPackage, firstFill: int)
    | TerminalNoFill
    | TerminalFilled
    | QueryFailed

  /** Engine's live-entry answer: an entry or explicitly none. */
  datatype EntryWish = Wish(desired: Option<DesiredEntry>) | NoWishReceived

  datatype RecipeReply = Received(recipe: Recipe) | NoRecipeReceived

  /** One visible action, in the order it happened: a call with its answer, a save, a record, a file change. */
  datatype Effect =
    | Registered(state: Aggregate)
    | Saved(state: Aggregate)
    | SaveLost(state: Aggregate)
    | AskedPosition(id: string, position: PositionReply)
    | AskedLiveEntry(wish: EntryWish)
    | AskedOpenTrade(recipe: RecipeReply)
    | SentEntry(command: Command, entry: EntryReply)
    | SentCancel(id: string, cancel: EntryReply)
    | AskedRecovery(id: string, recovery: RecoveryReply)
    | SentClose(id: string, close: CloseReply)
    | SentProtection(id: string, wanted: DesiredProtection, protect: ProtectReply)
    | SentRemainderCancel(id: string, remainder: RemainderReply)
    | Wrote(record: Record)
    | WroteEnabled(value: bool)
    | Trashed
    | Restarted(replayed: Option<Aggregate>)

  datatype Log = NoEffect | Add(prev: Log, effect: Effect)

  /** What a fresh process would replay, as far as the log tells. */
  function LastSaved(log: Log): Option<Aggregate> {
    match log
    case NoEffect => None
    case Add(prev, Saved(s)) => Some(s)
    case Add(prev, Registered(s)) => Some(s)
    case Add(prev, Restarted(s)) => s
    case Add(prev, _) => LastSaved(prev)
  }

  /** How a call ends: its effects appended to a log, and its returned value or exception. */
  datatype Plan<T> = Plan(log: Log, end: Result<T, Stop>)

  // ---------------------------------------------------------------- what the answers' own types guarantee

  predicate TypedEntryReply(r: EntryReply) {
    match r
    case EntryApplied(instance, id, wire, quantity) => ValidWire(wire) && IsExactDecimal(quantity) && id != ""
    case _ => true
  }

  predicate TypedRecovery(r: RecoveryReply) {
    match r
    case OrderLive(p) => ValidWire(p.wire) && IsExactDecimal(p.quantity)
    case RecoveredOpen(p, firstFill) => ValidWire(p.wire) && IsExactDecimal(p.quantity) && firstFill > 0
    case _ => true
  }

  predicate TypedWish(r: EntryWish) {
    r.Wish? && r.desired.Some? ==> ValidEntry(r.desired.value)
  }

  predicate TypedRecipe(r: RecipeReply) {
    r.Received? ==> ValidProtection(r.recipe.protection)
  }

  predicate TypedPosition(r: PositionReply) {
    r.PositionIsOpen? ==> r.firstFill > 0
  }

  // ---------------------------------------------------------------- which id an answer proves settled

  /** Absent, and declined or not-ready for an apply, are given only when nothing of the id is left or can land. */
  function EntryEvidence(instance: string, c: Command, r: EntryReply): Option<string> {
    match r
    case EntryAbsent(i, id) => if i == instance then Some(id) else None
    case EntryDeclined(i, id) => if i == instance && c.entry.Some? then Some(id) else None
    case EntryNotReady => if c.entry.Some? then Some(c.id) else None
    case _ => None
  }

  function CancelEvidence(instance: string, r: EntryReply): Option<string> {
    match r
    case EntryAbsent(i, id) => if i == instance then Some(id) else None
    case _ => None
  }

  function RecoveryEvidence(id: string, r: RecoveryReply): Option<string> {
    if r.TerminalNoFill? || r.TerminalFilled? then Some(id) else None
  }

  function CloseEvidence(instance: string, r: CloseReply): Option<string> {
    if r.PositionClosed? && r.instance == instance then Some(r.id) else None
  }

  function PositionEvidence(instance: string, r: PositionReply): Option<string> {
    if r.PositionClosedBy? && r.closure.instance == instance then Some(r.closure.id) else None
  }
}
