/** The operator's commands from outside: what each refuses and in which order, what it sends, records and changes. */
module OperatorTraffic {
  import opened Wrappers
  import opened State
  import opened EntryReconciliation
  import opened FirstFill
  import opened PositionManagement
  import opened Discipline
  import opened Effects
  import opened BarPlans
  import opened Operator
  import OperatorLaws
  import BarLaws
  import opened Traffic

  predicate Is<T(==)>(log: Log, plan: Plan<T>, deeds: seq<Deed>, records: seq<Record>, end: Result<T, Stop>) {
    Did(log, plan.log, deeds, records) && plan.end == end
  }

  // ---------------------------------------------------------------- the cancel step

  /** There is an unmarked cycle, so the executor is asked for its position. */
  predicate Looks(w: World) {
    !w.poisoned && w.stored.Some? && w.stored.value.cycle.Some? && !Marked(w.stored.value)
  }

  function CurrentId(w: World): string
    requires Looks(w)
  {
    w.stored.value.cycle.value.id
  }

  /** A cancel is sent only for an unmarked cycle whose position is flat and not settled by a closure. */
  predicate Cancels(w: World, c: Control) {
    Looks(w) && c.position.PositionFlat?
  }

  predicate CancelConfirmed(w: World, c: Control) {
    Cancels(w, c) && c.cancel == EntryAbsent(w.stored.value.instance, CurrentId(w))
  }

  function StepRefusal(w: World, c: Control): Option<Error> {
    if w.poisoned then Some(StoreFailed)
    else if w.stored.Some? && Marked(w.stored.value) then Some(RecoveryPending)
    else if !Looks(w) then None
    else if c.position.LookupFailed? then Some(AbiUnavailable)
    else if c.position.PositionIsOpen? then Some(PositionOpen)
    else if c.position.PositionClosedBy? then Some(CycleNotSettled)
    else if CancelConfirmed(w, c) then None
    else if c.cancel.EntryFailed? then Some(AbiUnavailable)
    else Some(CancelNotConfirmed)
  }

  function StepDeeds(w: World, c: Control): seq<Deed> {
    if !Looks(w) then []
    else if Cancels(w, c) then [AskPosition(CurrentId(w)), SendCancel(CurrentId(w))]
    else [AskPosition(CurrentId(w))]
  }

  function StepRecords(w: World, c: Control): seq<Record> {
    if CancelConfirmed(w, c) then [Ended(CurrentId(w), Disabled)] else []
  }

  /** The exception if there is one, else whether an order was cancelled. */
  function StepEnd(w: World, c: Control): Result<bool, Stop> {
    if StepRefusal(w, c).Some? then Failure(Raised(StepRefusal(w, c).value)) else Success(CancelConfirmed(w, c))
  }

  /** The shared step: an open or unsettled position, a failed look-up or a marker refuse it before anything is sent. */
  lemma CancelStepDoes(w: World, c: Control, log: Log)
    ensures Is(log, CancelStepPlan(w, c, log), StepDeeds(w, c), StepRecords(w, c), StepEnd(w, c))
    ensures !Cancels(w, c) ==> CancelStepPlan(w, c, log).log == if Looks(w) then Add(log, AskedPosition(CurrentId(w), c.position)) else log
  {
    hide Did;
    DidNothing(log);
    if Looks(w) {
      var ask, send, ended := AskPosition(CurrentId(w)), SendCancel(CurrentId(w)), Ended(CurrentId(w), Disabled);
      DidSteps(log, [], []);
      DidSteps(log, [ask], []);
      DidSteps(log, [ask, send], []);
      assert [] + [ask] == [ask] && [ask] + [send] == [ask, send] && [] + [ended] == [ended];
    }
  }

  // ---------------------------------------------------------------- commands that change the file last

  /** What every command checks before the step. */
  function Unavailable(w: World, c: Control): Option<Error> {
    if !c.catalog then Some(CatalogUnavailable) else if !w.present then Some(NotFound) else None
  }

  /** The file changes after a step that refused nothing, if the file can be written. */
  function FileDeeds(w: World, c: Control, change: Deed): seq<Deed> {
    if StepRefusal(w, c).None? && c.writable then [change] else []
  }

  function FileEnd(w: World, c: Control): Result<bool, Stop> {
    if StepRefusal(w, c).None? && !c.writable then Failure(Raised(FileFailed)) else StepEnd(w, c)
  }

  lemma StepThenFileDoes(w: World, c: Control, change: Effect, log: Log)
    requires change == WroteEnabled(false) || change == Trashed
    ensures Is(log, ThenChangeFile(CancelStepPlan(w, c, log), c.writable, change),
               StepDeeds(w, c) + FileDeeds(w, c, DeedOf(change)[0]), StepRecords(w, c), FileEnd(w, c))
  {
    hide Did, CancelStepPlan, StepDeeds, StepRecords, StepRefusal;
    CancelStepDoes(w, c, log);
    DidSteps(log, StepDeeds(w, c), StepRecords(w, c));
    assert StepDeeds(w, c) + [] == StepDeeds(w, c);
  }

  lemma SetEnabledDoes(w: World, enabled: bool, c: Control, log: Log)
    ensures var plan := SetEnabledPlan(w, enabled, c, log);
      if Unavailable(w, c).Some? then plan == Plan(log, Failure(Raised(Unavailable(w, c).value)))
      else if w.enabled == enabled then plan == Plan(log, Success(false))
      else if enabled then
        Is(log, plan, if c.writable then [SetEnabledFile(true)] else [], [], if c.writable then Success(false) else Failure(Raised(FileFailed)))
      else
        Is(log, plan, StepDeeds(w, c) + FileDeeds(w, c, SetEnabledFile(false)), StepRecords(w, c), FileEnd(w, c))
  {
    hide Did, CancelStepPlan, StepDeeds, StepRecords, StepRefusal;
    StepThenFileDoes(w, c, WroteEnabled(false), log);
    DidNothing(log);
    DidSteps(log, [], []);
    assert [] + [SetEnabledFile(true)] == [SetEnabledFile(true)];
  }

  lemma CancelEntryOrdersDoes(w: World, c: Control, log: Log)
    ensures var plan := CancelEntryOrdersPlan(w, c, log);
      if Unavailable(w, c).Some? then plan == Plan(log, Failure(Raised(Unavailable(w, c).value)))
      else Is(log, plan, StepDeeds(w, c) + FileDeeds(w, c, SetEnabledFile(false)), StepRecords(w, c), FileEnd(w, c))
  {
    hide Did, CancelStepPlan, StepDeeds, StepRecords, StepRefusal, ThenChangeFile;
    StepThenFileDoes(w, c, WroteEnabled(false), log);
  }

  lemma DeleteDoes(w: World, c: Control, log: Log)
    ensures var plan := DeletePlan(w, c, log);
      if Unavailable(w, c).Some? then plan == Plan(log, Failure(Raised(Unavailable(w, c).value)))
      else if w.enabled then plan == Plan(log, Failure(Raised(StillEnabled)))
      else if !c.readable then plan == Plan(log, Failure(Raised(FileFailed)))
      else Is(log, plan, StepDeeds(w, c) + FileDeeds(w, c, MoveToTrashFolder), StepRecords(w, c), FileEnd(w, c))
  {
    hide Did, CancelStepPlan, StepDeeds, StepRecords, StepRefusal, ThenChangeFile;
    StepThenFileDoes(w, c, Trashed, log);
  }

  // ---------------------------------------------------------------- the operator's close

  /** What the close refuses before anything is changed. */
  function CloseRefusal(w: World, c: Control): Option<Error> {
    if Unavailable(w, c).Some? then Unavailable(w, c)
    else if w.poisoned then Some(StoreFailed)
    else if w.stored.Some? && Marked(w.stored.value) then Some(RecoveryPending)
    else if !Looks(w) then Some(NoPosition)
    else
      match c.position
      case LookupFailed => Some(AbiUnavailable)
      case PositionClosedBy(_) => Some(CycleNotSettled)
      case PositionFlat => Some(NoPosition)
      case PositionIsOpen(_) => None
  }

  /** An open position whose fill is frozen already or can be frozen now. */
  function Closing(mode: Mode, w: World, c: Control): Result<Aggregate, Stop>
    requires CloseRefusal(w, c).None?
  {
    if IsFrozen(w.stored.value) then Success(w.stored.value)
    else Freeze(mode, w.stored.value, CurrentId(w), c.position.firstFill)
  }

  predicate CloseMatches(w: World, c: Control)
    requires Looks(w)
  {
    c.close.PositionClosed? && c.close.instance == w.stored.value.instance && c.close.id == CurrentId(w)
  }

  /** Once the fill is frozen: disabled first, then the close of this very cycle, recorded when it proves a closure. */
  lemma ClosePositionDoes(mode: Mode, w: World, c: Control, log: Log)
    ensures
      var plan, refused := ClosePositionPlan(mode, w, c, log), CloseRefusal(w, c);
      if refused.Some? then
        Is(log, plan, if Unavailable(w, c).None? && Looks(w) then [AskPosition(CurrentId(w))] else [], [], Failure(Raised(refused.value)))
      else
        var id, ready := CurrentId(w), Closing(mode, w, c);
        var noted := if !IsFrozen(w.stored.value) && ready.Success? then [Opened(id)] else [];
        if ready.Failure? || !c.writable then
          Is(log, plan, [AskPosition(id)], noted, Failure(if ready.Failure? then ready.error else Raised(FileFailed)))
        else
          Is(log, plan, [AskPosition(id), SetEnabledFile(false), SendClose(id)],
             noted + (if CloseMatches(w, c) && c.close.withClosure then [Closed(id)] else []),
             if CloseMatches(w, c) then Success(id) else Failure(Raised(AbiUnavailable)))
  {
    hide Did, Freeze, CloseFrozenPlan;
    DidNothing(log);
    if Unavailable(w, c).None? && Looks(w) {
      var s, id := w.stored.value, CurrentId(w);
      var asked := Add(log, AskedPosition(id, c.position));
      DidSteps(log, [], []);
      assert [] + [AskPosition(id)] == [AskPosition(id)];
      assert Did(log, asked, [AskPosition(id)], []);
      if CloseRefusal(w, c).None? {
        if IsFrozen(s) {
          CloseFrozenDoes(s, id, c, log, asked, []);
        } else if Closing(mode, w, c).Success? {
          var frozen := Closing(mode, w, c).value;
          OperatorLaws.FreezeTouchesOnlyTheCycle(mode, s, id, c.position.firstFill);
          FreezeKeepsInstance(mode, s, id, c.position.firstFill);
          DidSteps(log, [AskPosition(id)], []);
          assert [] + [Opened(id)] == [Opened(id)];
          CloseFrozenDoes(frozen, id, c, log, Add(Add(asked, Saved(frozen)), Wrote(Opened(id))), [Opened(id)]);
        }
      }
    }
  }

  lemma FreezeKeepsInstance(mode: Mode, s: Aggregate, id: string, firstFill: int)
    requires Freeze(mode, s, id, firstFill).Success?
    ensures Freeze(mode, s, id, firstFill).value.instance == s.instance
  {
    hide FrozenFor;
  }

  lemma CloseFrozenDoes(s: Aggregate, id: string, c: Control, base: Log, log: Log, records: seq<Record>)
    requires Did(base, log, [AskPosition(id)], records)
    ensures
      var plan, matches := CloseFrozenPlan(s, id, c, log), c.close.PositionClosed? && c.close.instance == s.instance && c.close.id == id;
      if !c.writable then Is(base, plan, [AskPosition(id)], records, Failure(Raised(FileFailed)))
      else
        Is(base, plan, [AskPosition(id), SetEnabledFile(false), SendClose(id)],
           records + (if matches && c.close.withClosure then [Closed(id)] else []),
           if matches then Success(id) else Failure(Raised(AbiUnavailable)))
  {
    hide Did;
    var ask, off, close := AskPosition(id), SetEnabledFile(false), SendClose(id);
    DidSteps(base, [ask], records);
    DidSteps(base, [ask, off], records);
    DidSteps(base, [ask, off, close], records);
    assert [ask] + [off] == [ask, off] && [ask, off] + [close] == [ask, off, close] && records + [] == records;
  }

  /** What is durable after the close: as it was, the frozen fill, the close marker, or nothing of the cycle. */
  function CloseDurable(mode: Mode, w: World, c: Control): Option<Aggregate> {
    if CloseRefusal(w, c).Some? || Closing(mode, w, c).Failure? then w.stored
    else
      var ready := Closing(mode, w, c).value;
      if !c.writable then Some(ready)
      else if !CloseMatches(w, c) then Some(ready.(pendingClose := Some(CurrentId(w))))
      else Some(w.stored.value.(cycle := None))
  }

  lemma ClosePositionLeaves(mode: Mode, w: World, c: Control, log: Log)
    requires LastSaved(log) == w.stored
    ensures LastSaved(ClosePositionPlan(mode, w, c, log).log) == CloseDurable(mode, w, c)
  {
    hide Freeze, LastSaved;
    BarLaws.SavedStep();
    if CloseRefusal(w, c).None? && Closing(mode, w, c).Success? {
      FreezeChangesOnlyTheCycle(mode, w.stored.value, CurrentId(w), c.position.firstFill);
    }
  }

  lemma FreezeChangesOnlyTheCycle(mode: Mode, s: Aggregate, id: string, firstFill: int)
    ensures var r := Freeze(mode, s, id, firstFill);
      r.Success? ==> r.value.(cycle := None) == s.(cycle := None)
  {
    hide FrozenFor;
  }

  // ---------------------------------------------------------------- the webhook

  /** It sends and records nothing, and ends as the freeze does. */
  lemma WebhookDoes(mode: Mode, w: World, id: string, firstFill: int, log: Log)
    ensures Is(log, WebhookPlan(mode, w, id, firstFill, log), [], [],
      if w.poisoned then Failure(Raised(StoreFailed))
      else if w.stored.None? then Failure(Raised(NotFound))
      else Freeze(mode, w.stored.value, id, firstFill))
  {
    hide Did, Freeze;
    DidNothing(log);
    DidSteps(log, [], []);
  }
}
