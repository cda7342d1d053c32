/** Exactly which answers confirm a command, and which protection an open trade holds. */
module ConfirmationLaws {
  import opened Wrappers
  import opened DecimalText
  import DecimalNormalize
  import opened Recipes
  import opened State
  import opened EntryReconciliation
  import opened PositionManagement
  import opened Effects
  import opened BarPlans

  /** An echo of the sent entry under this id: every price is numerically the one that was sent. */
  predicate ExactEcho(entry: DesiredEntry, wire: WireEntry)
    requires ValidWire(wire) && ValidWire(EncodeEntry(entry))
  {
    PositiveMeansExact(wire.takePrice);
    PositiveMeansExact(entry.takePrice);
    && wire.side == entry.side && wire.sourceBar == entry.sourceBar && wire.profile == entry.profile
    && SamePrice(wire.plannedPrice, entry.plannedPrice) && SamePrice(wire.stopPrice, entry.stopPrice)
    && SamePrice(wire.takePrice, entry.takePrice)
  }

  /** An apply is confirmed exactly by an answer for this instance and id that echoes the sent entry, however spelled. */
  lemma ApplyConfirmedIffExactEcho(s: Aggregate, id: string, entry: DesiredEntry, reply: EntryReply, log: Log)
    requires !Marked(s) && s.cycle.None? && id != "" && ValidEntry(entry) && reply.EntryApplied? && ValidWire(reply.wire)
    ensures ValidWire(EncodeEntry(entry))
    ensures var end := LegPlan(s, ApplyLeg(id, entry), reply, log).end;
      && (end.Success? <==> reply.instance == s.instance && reply.id == id && ExactEcho(entry, reply.wire))
      && (end.Success? ==> end.value == s.(cycle := Some(ConfirmedCycle(id, entry, reply.quantity))))
  {
    hide ValidEntry, DecodeEntry, SamePrice, ValidWire;
    EncodingAlwaysAccepted(entry);
    EchoMatchesIffNumericallyEqual(entry, reply.wire);
  }

  /** A removal is confirmed exactly by absence of this instance's very cycle. */
  lemma CancelConfirmedIffExactAbsent(s: Aggregate, id: string, reply: EntryReply, log: Log)
    requires !Marked(s) && s.cycle.Some? && s.cycle.value.id == id
    ensures var end := LegPlan(s, CancelLeg(id), reply, log).end;
      && (end.Success? <==> reply == EntryAbsent(s.instance, id))
      && (end.Success? ==> end.value == s.(cycle := None))
  {
    hide DecodeEntry;
  }

  /** The protection the exchange holds: the last confirmed one, before that the entry's own stop and take. */
  function Held(c: TradeCycle): DesiredProtection
    requires c.frozen.Some?
  {
    if c.protection.Some? then c.protection.value
    else DesiredProtection(c.frozen.value.entry.stopPrice, Some(c.frozen.value.entry.takePrice))
  }

  /** An open trade is closed exactly on the close signal, kept exactly when it holds the wanted protection, else protected. */
  lemma DecisionFollowsHeldProtection(recipe: Recipe, c: TradeCycle)
    requires c.frozen.Some? && ValidFrozen(c.frozen.value)
    ensures DecidePosition(recipe, Some(c)) == Success(
      if recipe.closeSignal then ClosePosition(c.id)
      else if recipe.protection == Held(c) then KeepAsIs
      else ApplyProtection(c.id, recipe.protection))
  {
    EntryPricesAreNormal(c.frozen.value.entry);
    hide ValidEntry, IsNormal;
    NormalPricesProtect(c.frozen.value.entry.stopPrice, c.frozen.value.entry.takePrice);
  }

  lemma EntryPricesAreNormal(e: DesiredEntry)
    requires ValidEntry(e)
    ensures IsNormal(e.stopPrice) && IsNormal(e.takePrice)
  {
    hide IsNormal, IsPositiveExactDecimal, IsBlank;
  }

  lemma NormalPricesProtect(stop: string, take: string)
    requires IsNormal(stop) && IsNormal(take)
    ensures MakeProtection(stop, Some(take)) == Some(DesiredProtection(stop, Some(take)))
  {
    hide DecimalNormalize.Normalize;
  }
}
