/** The order of effects that the operator paths promise. */
module OperatorLaws {
  import opened Wrappers
  import opened State
  import opened EntryReconciliation
  import opened FirstFill
  import opened PositionManagement
  import opened Discipline
  import opened Effects
  import opened BarPlans
  import opened Operator
  import Resolver

  predicate StopsTrading(e: Effect) {
    e == WroteEnabled(false) || e == Trashed
  }

  /** After `base`, the file is disabled or moved only while the durable state has no cycle and no marker. */
  predicate StopsOnlyWhenQuiet(base: Log, log: Log) {
    log == base || (
      && log.Add? && StopsOnlyWhenQuiet(base, log.prev)
      && (StopsTrading(log.effect) ==> Quiet(LastSaved(log.prev))))
  }

  /** After `base`, no stop at all. */
  predicate NeverStops(base: Log, log: Log) {
    log == base || (log.Add? && NeverStops(base, log.prev) && !StopsTrading(log.effect))
  }

  lemma {:induction false} NeverStopsIsQuiet(base: Log, log: Log)
    requires NeverStops(base, log)
    ensures StopsOnlyWhenQuiet(base, log)
  {
    if log != base { NeverStopsIsQuiet(base, log.prev); }
  }

  /** The cancel step touches no file; when it returns, the durable state is quiet. */
  lemma CancelStepLeavesQuiet(w: World, c: Control, log: Log)
    requires LastSaved(log) == w.stored
    ensures var plan := CancelStepPlan(w, c, log);
      NeverStops(log, plan.log) && (plan.end.Success? ==> Quiet(LastSaved(plan.log)))
  {
    if w.stored.Some? && w.stored.value.cycle.Some? {
      var s := w.stored.value;
      var asked := Add(log, AskedPosition(s.cycle.value.id, c.position));
      var sent := Add(asked, SentCancel(s.cycle.value.id, c.cancel));
      var saved := Add(sent, Saved(s.(cycle := None)));
      assert NeverStops(log, log);
      assert NeverStops(log, asked) && NeverStops(log, sent) && NeverStops(log, saved);
      assert LastSaved(saved) == Some(s.(cycle := None));
    }
  }

  /** Disable, cancel-entry-orders and delete: whatever is answered, the file changes only at a quiet instant. */
  lemma FileChangesOnlyWhenQuiet(w: World, c: Control, log: Log)
    requires LastSaved(log) == w.stored
    ensures StopsOnlyWhenQuiet(log, SetEnabledPlan(w, false, c, log).log)
    ensures StopsOnlyWhenQuiet(log, CancelEntryOrdersPlan(w, c, log).log)
    ensures StopsOnlyWhenQuiet(log, DeletePlan(w, c, log).log)
  {
    hide CancelStepPlan, Quiet;
    CancelStepLeavesQuiet(w, c, log);
    NeverStopsIsQuiet(log, CancelStepPlan(w, c, log).log);
  }

  /** A refusal by the cancel step changes no durable state and no file. */
  lemma RefusalChangesNothing(w: World, c: Control, log: Log)
    requires CancelStepPlan(w, c, log).end.Failure?
    ensures LastSaved(CancelStepPlan(w, c, log).log) == LastSaved(log)
    ensures SetEnabledPlan(w, false, c, log).log == log || SetEnabledPlan(w, false, c, log) == CancelStepPlan(w, c, log)
  {
    if !w.poisoned && w.stored.Some? && w.stored.value.cycle.Some? {
      var asked := Add(log, AskedPosition(w.stored.value.cycle.value.id, c.position));
      assert LastSaved(asked) == LastSaved(log);
    }
  }

  predicate DisabledSince(base: Log, log: Log) {
    log != base && log.Add? && (log.effect == WroteEnabled(false) || DisabledSince(base, log.prev))
  }

  /** After `base`, a close marker is stored, and a close leaves, only once `enabled=false` is on disk. */
  predicate DisabledBeforeClose(base: Log, log: Log) {
    log == base || (
      && log.Add? && DisabledBeforeClose(base, log.prev)
      && (log.effect.SentClose? || (log.effect.Saved? && log.effect.state.pendingClose.Some?) ==> DisabledSince(base, log.prev)))
  }

  /** Every log up to and including this one is longer than `base`. */
  predicate Grown(base: Log, log: Log) {
    log.Add? && (log.prev == base || Grown(base, log.prev))
  }

  lemma {:induction false} GrownIsNotBase(base: Log, log: Log)
    requires Grown(base, log)
    ensures base < log
  {
    if log.prev != base { GrownIsNotBase(base, log.prev); }
  }

  lemma CloseFrozenDisablesFirst(base: Log, s: Aggregate, id: string, c: Control, log: Log)
    requires log == base || Grown(base, log)
    requires DisabledBeforeClose(base, log) && s.pendingClose.None?
    ensures DisabledBeforeClose(base, CloseFrozenPlan(s, id, c, log).log)
  {
    var off := Add(log, WroteEnabled(false));
    var marked := Add(off, Saved(s.(pendingClose := Some(id))));
    var sent := Add(marked, SentClose(id, c.close));
    var cleared := Add(sent, Saved(Resolver.Cleared(s)));
    GrownIsNotBase(base, off);
    assert Grown(base, marked) && DisabledSince(base, off);
    GrownIsNotBase(base, marked);
    assert DisabledBeforeClose(base, off) && DisabledBeforeClose(base, marked);
    assert DisabledSince(base, marked);
    assert DisabledBeforeClose(base, sent) && DisabledBeforeClose(base, cleared);
  }

  /** The operator's close disables before it marks and before it closes, so the instance cannot enter again. */
  lemma CloseDisablesFirst(mode: Mode, w: World, c: Control, log: Log)
    requires w.stored.Some? ==> ValidAggregate(w.stored.value)
    ensures DisabledBeforeClose(log, ClosePositionPlan(mode, w, c, log).log)
  {
    hide CloseFrozenPlan, Freeze, ValidCycle, ValidSnapshot;
    if w.stored.Some? && w.stored.value.cycle.Some? && !Marked(w.stored.value) {
      var s, id := w.stored.value, w.stored.value.cycle.value.id;
      var asked := Add(log, AskedPosition(id, c.position));
      assert DisabledBeforeClose(log, log);
      assert DisabledBeforeClose(log, asked) && Grown(log, asked);
      if c.position.PositionIsOpen? {
        if IsFrozen(s) {
          CloseFrozenDisablesFirst(log, s, id, c, asked);
        } else if Freeze(mode, s, id, c.position.firstFill).Success? {
          var frozen := Freeze(mode, s, id, c.position.firstFill).value;
          FreezeTouchesOnlyTheCycle(mode, s, id, c.position.firstFill);
          var saved := Add(asked, Saved(frozen));
          var noted := Add(saved, Wrote(Opened(id)));
          assert DisabledBeforeClose(log, saved) && Grown(log, saved);
          assert DisabledBeforeClose(log, noted) && Grown(log, noted);
          CloseFrozenDisablesFirst(log, frozen, id, c, noted);
        }
      }
    }
  }

  lemma FreezeTouchesOnlyTheCycle(mode: Mode, s: Aggregate, id: string, firstFill: int)
    requires Freeze(mode, s, id, firstFill).Success?
    ensures Freeze(mode, s, id, firstFill).value.pendingClose == s.pendingClose
  {
    hide FrozenFor;
  }

  // ---------------------------------------------------------------- one policy for every fill path

  /** The webhook, a bar and the operator's close freeze the same fill to the same state, or fail alike. */
  lemma FillPathsAgree(mode: Mode, w: World, firstFill: int, b: Bar, c: Control, log: Log)
    requires !w.poisoned && w.present && c.catalog && w.stored.Some? && !Marked(w.stored.value)
    requires w.stored.value.cycle.Some? && !IsFrozen(w.stored.value)
    ensures
      var s, id := w.stored.value, w.stored.value.cycle.value.id;
      var asked := Add(log, AskedPosition(id, PositionIsOpen(firstFill)));
      match WebhookPlan(mode, w, id, firstFill, log).end
      case Failure(e) =>
        && FilledPlan(mode, s, firstFill, b, asked) == Plan(asked, Failure(e))
        && ClosePositionPlan(mode, w, c.(position := PositionIsOpen(firstFill)), log) == Plan(asked, Failure(e))
      case Success(frozen) =>
        && (b.barOpen < frozen.cycle.value.frozen.value.entryBar ==>
              FilledPlan(mode, s, firstFill, b, asked) == Plan(Add(Add(asked, Saved(frozen)), Wrote(Opened(id))), Success(frozen)))
        && (b.barOpen >= frozen.cycle.value.frozen.value.entryBar ==>
              FilledPlan(mode, s, firstFill, b, asked) == OpenTradePlan(frozen, b, Add(Add(asked, Saved(frozen)), Wrote(Opened(id)))))
        && ClosePositionPlan(mode, w, c.(position := PositionIsOpen(firstFill)), log)
           == CloseFrozenPlan(frozen, id, c.(position := PositionIsOpen(firstFill)), Add(Add(asked, Saved(frozen)), Wrote(Opened(id))))
  {
    hide Freeze, CloseFrozenPlan, OpenTradePlan;
  }
}
