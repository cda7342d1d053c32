/** The durable strategy-instance aggregate and its constructor rules. */
module State {
  import opened Wrappers
  import opened Json
  import opened DecimalText
  import opened Recipes

  datatype SpecSnapshot = SpecSnapshot(instrument: string, timeframe: string, rawSpec: Dict, sourcePath: string)

  datatype EntryPackage = EntryPackage(entry: DesiredEntry, quantity: string)

  /** What the first fill froze. `expiresAt` is the entry order's lifetime boundary, touch_trigger only. */
  datatype FrozenEntry = FrozenEntry(entry: DesiredEntry, firstFill: int, entryBar: int, expiresAt: Option<int>)

  datatype TradeCycle = TradeCycle(
    id: string, package: EntryPackage, frozen: Option<FrozenEntry>,
    protection: Option<DesiredProtection>, remainderCancelled: bool)

  datatype Aggregate = Aggregate(
    instance: string, strategy: string, snapshot: SpecSnapshot, riskMultiplier: string,
    cycle: Option<TradeCycle>, pendingEntry: Option<string>, pendingClose: Option<string>)

  predicate ValidSnapshot(s: SpecSnapshot) {
    && !IsBlank(s.instrument) && !IsBlank(s.timeframe) && !IsBlank(s.sourcePath) && CanonicalDict(s.rawSpec)
  }

  predicate ValidPackage(p: EntryPackage) {
    ValidEntry(p.entry) && IsExactDecimal(p.quantity)
  }

  predicate ValidFrozen(f: FrozenEntry) {
    && ValidEntry(f.entry) && f.firstFill > 0 && 0 <= f.entryBar <= f.firstFill
    && (f.expiresAt.Some? ==> f.expiresAt.value > 0)
  }

  predicate ValidCycle(c: TradeCycle) {
    && c.id != "" && ValidPackage(c.package)
    && (c.frozen.Some? ==> ValidFrozen(c.frozen.value))
    && (c.protection.Some? ==> ValidProtection(c.protection.value))
  }

  /** Exactly when the aggregate's constructors accept the fields. */
  predicate ValidAggregate(s: Aggregate) {
    && !IsBlank(s.instance) && !IsBlank(s.strategy) && ValidSnapshot(s.snapshot)
    && IsPositiveExactDecimal(s.riskMultiplier)
    && (s.cycle.Some? ==> ValidCycle(s.cycle.value))
    && (s.pendingEntry.Some? ==> s.pendingEntry.value != "")
    && (s.pendingEntry.Some? && s.cycle.Some? ==> s.pendingEntry.value == s.cycle.value.id)
    && (s.pendingClose.Some? ==> s.cycle.Some? && s.pendingClose.value == s.cycle.value.id)
    && !(s.pendingEntry.Some? && s.pendingClose.Some?)
  }

  /** The single trade-cycle id the aggregate names, as current cycle or as pending marker. */
  function NamedId(s: Aggregate): Option<string> {
    if s.cycle.Some? then Some(s.cycle.value.id) else s.pendingEntry
  }

  /** A valid aggregate names no second id anywhere. */
  lemma NamesAtMostOneId(s: Aggregate, id: string)
    requires ValidAggregate(s)
    requires
      || (s.cycle.Some? && s.cycle.value.id == id)
      || s.pendingEntry == Some(id) || s.pendingClose == Some(id)
    ensures NamedId(s) == Some(id)
  {
  }

  predicate Marked(s: Aggregate) {
    s.pendingEntry.Some? || s.pendingClose.Some?
  }

  predicate IsFrozen(s: Aggregate) {
    s.cycle.Some? && s.cycle.value.frozen.Some?
  }

  /** No cycle and no marker: nothing of this instance can be at the exchange. */
  predicate Quiet(s: Option<Aggregate>) {
    s.Some? ==> s.value.cycle.None? && !Marked(s.value)
  }

  predicate SameRegistration(a: Aggregate, b: Aggregate) {
    a.instance == b.instance && a.strategy == b.strategy && a.snapshot == b.snapshot
    && a.riskMultiplier == b.riskMultiplier
  }
}
