/** Each kind of save the writers make is one the protocol permits, under what its code knows at that point. */
module Saves {
  import opened Wrappers
  import opened DecimalText
  import opened Recipes
  import opened State
  import opened Lifetime
  import opened EntryReconciliation
  import opened FirstFill
  import opened PositionManagement
  import opened Discipline

  /** The write-ahead marker of an entry removal, or of an apply under a fresh id once the old id is settled. */
  lemma MayMarkEntry(w: World, s': Aggregate, id: string)
    requires Inv(w) && w.stored.Some? && id != ""
    requires var s := w.stored.value;
      || (s.cycle.Some? && s.cycle.value.id == id && !Marked(s) && s' == s.(pendingEntry := Some(id)))
      || (id !in w.used && s.pendingClose.None? && (NamedId(s).Some? ==> NamedId(s).value in w.settled)
          && s' == s.(cycle := None, pendingEntry := Some(id)))
    ensures Permitted(w, s')
  {
    hide ValidCycle, ValidSnapshot, FrozenFits, IsPositiveExactDecimal, IsBlank, Kept;
  }

  /** Ending the named id, with every marker, once it is settled. */
  lemma MayDrop(w: World, s': Aggregate)
    requires Inv(w) && w.stored.Some?
    requires var s := w.stored.value;
      && NamedId(s).Some? && NamedId(s).value in w.settled
      && s' == s.(cycle := None, pendingEntry := None, pendingClose := None)
    ensures Permitted(w, s')
  {
    hide ValidCycle, ValidSnapshot, FrozenFits, IsPositiveExactDecimal, IsBlank, Kept;
  }

  /** Taking the entry marker back from a cycle that stays. */
  lemma MayReleaseRemoval(w: World, s': Aggregate)
    requires Inv(w) && w.stored.Some? && w.stored.value.cycle.Some?
    requires s' == w.stored.value.(pendingEntry := None)
    ensures Permitted(w, s')
  {
    hide ValidCycle, ValidSnapshot, FrozenFits, IsPositiveExactDecimal, IsBlank, Kept;
  }

  /** A confirmed or rebuilt cycle takes the place of its own marker, possibly already frozen. */
  lemma MayBuildCycle(w: World, s': Aggregate, id: string, entry: DesiredEntry, quantity: string)
    requires Inv(w) && w.stored.Some? && ValidEntry(entry) && IsExactDecimal(quantity)
    requires var s := w.stored.value;
      && s.cycle.None? && s.pendingEntry == Some(id)
      && s' == s.(cycle := Some(ConfirmedCycle(id, entry, quantity)), pendingEntry := None)
    ensures Permitted(w, s')
  {
    hide ValidEntry, ValidSnapshot, FrozenFits, IsPositiveExactDecimal, IsExactDecimal, IsBlank, Kept;
  }

  lemma MayBuildFrozenCycle(w: World, mode: Mode, built: Aggregate, s': Aggregate, id: string, firstFill: int)
    requires Inv(w) && Permitted(w, built) && CycleNamed(built, id) && w.stored.value.cycle.None?
    requires Freeze(mode, built, id, firstFill) == Success(s')
    ensures Permitted(w, s')
  {
    hide Coherent, Freeze, Inv, Extends, SameRegistration;
    FreezeKeepsCoherent(mode, built, id, firstFill);
    SameButCycle(w.stored.value, built, s');
  }

  lemma SameButCycle(s: Aggregate, built: Aggregate, s': Aggregate)
    requires SameRegistration(s, built) && s' == built.(cycle := s'.cycle)
    ensures SameRegistration(s, s')
  {
  }

  predicate CycleNamed(s: Aggregate, id: string) {
    s.cycle.Some? && s.cycle.value.id == id
  }

  lemma MayFreeze(w: World, mode: Mode, s': Aggregate, id: string, firstFill: int)
    requires Inv(w) && w.stored.Some?
    requires Freeze(mode, w.stored.value, id, firstFill) == Success(s')
    ensures Permitted(w, s')
  {
    hide Kept;
    FreezeKeepsCoherent(mode, w.stored.value, id, firstFill);
    hide Coherent, FrozenFor;
  }

  /** A protection or a remainder mark on a frozen cycle. */
  lemma MayUpdateFrozenCycle(w: World, s': Aggregate)
    requires Inv(w) && w.stored.Some? && IsFrozen(w.stored.value)
    requires var s := w.stored.value;
      || (exists p | ValidProtection(p) :: s' == s.(cycle := Some(s.cycle.value.(protection := Some(p)))))
      || (s.cycle.value.frozen.value.expiresAt.Some? && s' == MarkRemainder(s))
    ensures Permitted(w, s')
  {
    hide ValidEntry, ValidFrozen, ValidPackage, ValidProtection, ValidSnapshot, TimeframeMs,
      IsPositiveExactDecimal, IsExactDecimal, IsBlank, Kept;
  }

  lemma MayMarkClose(w: World, s': Aggregate)
    requires Inv(w) && w.stored.Some? && IsFrozen(w.stored.value) && !Marked(w.stored.value)
    requires s' == w.stored.value.(pendingClose := Some(w.stored.value.cycle.value.id))
    ensures Permitted(w, s')
  {
    hide ValidFrozen, ValidPackage, ValidProtection, ValidSnapshot, FrozenFits,
      IsPositiveExactDecimal, IsExactDecimal, IsBlank, Kept;
  }

  /** A fresh id was never sent and never settled. */
  lemma FreshIsUnknown(w: World, id: string)
    requires Inv(w) && id !in w.used
    ensures id !in w.exchange && id !in w.settled
  {
    hide Coherent, Kept;
  }

  lemma StoredIsCoherent(w: World)
    requires Inv(w) && w.stored.Some?
    ensures Coherent(w.stored.value)
  {
    hide Coherent, Kept;
  }
}
