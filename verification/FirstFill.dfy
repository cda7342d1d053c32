/** Freezing the executed entry context on the first fill: one policy for every path. */
module FirstFill {
  import opened Wrappers
  import opened DecimalText
  import opened Recipes
  import opened State
  import opened Lifetime
  import opened EntryReconciliation

  function LifetimeOf(mode: Mode): Option<nat> {
    match mode
    case EmaAnchor => None
    case TouchTrigger(n) => Some(n)
  }

  function FrozenFor(entry: DesiredEntry, firstFill: int, timeframe: string, lifetimeBars: Option<nat>): (r: Result<FrozenEntry, Stop>)
    requires firstFill > 0
    ensures r.Success? ==> r.value.entry == entry && r.value.firstFill == firstFill
    ensures r.Failure? ==> r.error.Raised?
  {
    var bar := AlignToBar(firstFill, timeframe);
    if bar.None? then Failure(Raised(InvalidValue))
    else if bar.value < entry.sourceBar then Failure(Raised(FirstFillError))
    else if entry.sourceBar < 0 then Failure(Raised(InvalidValue))
    else
      var tf := TimeframeMs(timeframe).value;
      var expires := if lifetimeBars.None? then None else Some(ExpirationMs(entry.sourceBar, tf, lifetimeBars.value));
      Success(FrozenEntry(entry, firstFill, bar.value, expires))
  }

  function Freeze(mode: Mode, s: Aggregate, id: string, firstFill: int): (r: Result<Aggregate, Stop>)
    ensures r.Success? ==> IsFrozen(r.value) && r.value.cycle.value.id == id
    ensures r.Failure? ==> r.error.Raised?
  {
    if id == "" || s.cycle.None? || s.cycle.value.id != id then Failure(Raised(FirstFillError))
    else if firstFill <= 0 then Failure(Raised(InvalidValue))
    else
      var c := s.cycle.value;
      if c.frozen.Some? then
        if c.frozen.value.firstFill == firstFill then Success(s) else Failure(Raised(FirstFillError))
      else
        var f :- FrozenFor(c.package.entry, firstFill, s.snapshot.timeframe, LifetimeOf(mode));
        Success(s.(cycle := Some(c.(frozen := Some(f)))))
  }

  /** What a frozen context of this cycle says about the fill, whoever froze it. */
  predicate FrozenFits(f: FrozenEntry, c: TradeCycle, timeframe: string) {
    var tf := TimeframeMs(timeframe);
    && tf.Some? && f.entry == c.package.entry && f.firstFill > 0
    && f.entryBar % tf.value == 0 && f.entryBar <= f.firstFill < f.entryBar + tf.value
    && f.entryBar >= f.entry.sourceBar
    && (f.expiresAt.Some? ==> f.expiresAt.value >= f.entry.sourceBar + 2 * tf.value)
  }

  /** The cross-field rules every reachable aggregate keeps beyond its constructors. */
  predicate Coherent(s: Aggregate) {
    && ValidAggregate(s)
    && (s.pendingClose.Some? ==> IsFrozen(s))
    && (s.cycle.Some? ==>
          var c := s.cycle.value;
          && (c.protection.Some? ==> c.frozen.Some?)
          && (c.remainderCancelled ==> c.frozen.Some? && c.frozen.value.expiresAt.Some?)
          && (c.frozen.Some? ==> FrozenFits(c.frozen.value, c, s.snapshot.timeframe)))
  }

  lemma FrozenForFits(c: TradeCycle, firstFill: int, timeframe: string, n: Option<nat>)
    requires firstFill > 0 && ValidEntry(c.package.entry)
    requires FrozenFor(c.package.entry, firstFill, timeframe, n).Success?
    ensures var f := FrozenFor(c.package.entry, firstFill, timeframe, n).value;
      ValidFrozen(f) && FrozenFits(f, c, timeframe) && (f.expiresAt.Some? <==> n.Some?)
  {
    hide TimeframeMs, ValidEntry, AlignToBar, ExpirationMs;
    var entry := c.package.entry;
    SourceBarIsNonnegative(entry);
    AlignedBarExists(firstFill, timeframe);
    AlignedBarContainsFill(firstFill, timeframe, AlignToBar(firstFill, timeframe).value);
    if n.Some? {
      ExpirationAtLeastTwoBars(entry.sourceBar, TimeframeMs(timeframe).value, n.value);
    }
  }

  lemma SourceBarIsNonnegative(e: DesiredEntry)
    requires ValidEntry(e)
    ensures e.sourceBar >= 0
  {
  }

  lemma AlignedBarExists(firstFill: int, timeframe: string)
    requires AlignToBar(firstFill, timeframe).Some?
    ensures firstFill > 0 && TimeframeMs(timeframe).Some?
  {
  }

  /** Freezing keeps every rule, and changes nothing except an absent frozen context. */
  lemma FreezeKeepsCoherent(mode: Mode, s: Aggregate, id: string, firstFill: int)
    requires Coherent(s) && Freeze(mode, s, id, firstFill).Success?
    ensures var s' := Freeze(mode, s, id, firstFill).value;
      && Coherent(s') && IsFrozen(s') && s'.cycle.value.frozen.value.firstFill == firstFill
      && s' == s.(cycle := Some(s.cycle.value.(frozen := s'.cycle.value.frozen)))
      && (IsFrozen(s) ==> s' == s)
      && (!IsFrozen(s) && !Marked(s) ==> !Marked(s'))
  {
    hide ValidEntry, FrozenFor, ValidSnapshot, ValidProtection, IsExactDecimal, IsPositiveExactDecimal, IsBlank, FrozenFits;
    if !IsFrozen(s) {
      FrozenForFits(s.cycle.value, firstFill, s.snapshot.timeframe, LifetimeOf(mode));
      FitsIgnoresFrozenField(s.cycle.value, Freeze(mode, s, id, firstFill).value.cycle.value, s.snapshot.timeframe);
    }
  }

  lemma FitsIgnoresFrozenField(c: TradeCycle, c': TradeCycle, timeframe: string)
    requires c.package == c'.package
    ensures c'.frozen.Some? ==> (FrozenFits(c'.frozen.value, c, timeframe) <==> FrozenFits(c'.frozen.value, c', timeframe))
  {
  }

  /** A second observation with the same fill time changes nothing; with another one it is refused. */
  lemma FreezeIsFinal(mode: Mode, later: Mode, s: Aggregate, id: string, firstFill: int, other: int)
    requires Freeze(mode, s, id, firstFill).Success?
    ensures var s' := Freeze(mode, s, id, firstFill).value;
      && Freeze(later, s', id, firstFill) == Success(s')
      && (other != firstFill ==> Freeze(later, s', id, other).Failure?)
  {
    hide FrozenFor;
  }
}
