/** Concrete inputs at which a property one might expect does not hold. */
module Witnesses {
  import opened Wrappers
  import opened DecimalText
  import opened Recipes
  import opened Json
  import opened State
  import opened Lifetime
  import opened EntryReconciliation
  import opened FirstFill
  import opened PositionManagement
  import opened Effects
  import opened StateLines
  import opened LineBreaks
  import opened LogReplay
  import opened BarPlans
  import opened Lifecycle
  import opened BarLaws
  import Discipline
  import Resolver
  import RecoveryLaws

  /** A flat bar on which the Engine wants this entry and the executor answers this. */
  function FlatBar(newId: string, entry: DesiredEntry, answer: EntryReply): Bar {
    Bar(0, newId, PositionFlat, Wish(Some(entry)), answer, EntryFailed, RemainderFailed, false, NoRecipeReceived,
        ProtectFailed, CloseFailed)
  }

  /** An entry the executor declined: the bar returns, and repeating it sends the apply again. */
  lemma DeclinedEntryIsAskedAgain() returns (d: Deployment, b: Bar, again: Bar)
    ensures var plan := BarPlan(EmaAnchor, Some(PLAIN_INSTANCE), d, b, NoEffect);
      && plan.end == Success(PLAIN_INSTANCE) && WantsDeclined(PLAIN_INSTANCE, b.wish)
      && again.wish == b.wish && again.position == b.position
      && BarPlan(EmaAnchor, Some(PLAIN_INSTANCE), d, again, plan.log).log != AskedOnly(PLAIN_INSTANCE, again, plan.log)
  {
    hide ValidEntry, DecodeEntry;
    var entry := SomeEntryExists(0);
    d := Deployment("i", "i", PLAIN_INSTANCE.snapshot);
    b := FlatBar("a", entry, EntryDeclined("i", "a"));
    again := FlatBar("b", entry, EntryFailed);
    var log := BarPlan(EmaAnchor, Some(PLAIN_INSTANCE), d, b, NoEffect).log;
    ApplyIsVisible(PLAIN_INSTANCE, d, again, log);
  }

  const NEL_PATH := "i\U{85}"

  const NEL_STATE := PLAIN_INSTANCE.(snapshot := PLAIN_INSTANCE.snapshot.(sourcePath := NEL_PATH))

  lemma NelStateIsValid()
    ensures ValidAggregate(NEL_STATE) && !CleanState(NEL_STATE)
  {
    OneIsPositive();
    hide Parse, IsPositiveExactDecimal;
    assert !IsSpace("i"[0]) && !IsSpace("1m"[0]) && !IsSpace(NEL_PATH[0]);
    assert IsUnescapedBreak(NEL_PATH[1]);
  }

  /** A valid state with U+0085 in one of its strings: after saving it the log cannot be replayed. */
  lemma SomeStateCannotBeReplayed()
    ensures ValidAggregate(NEL_STATE) && Replay(EncodeLine(NEL_STATE) + "\n") == Failure(ReplayError)
  {
    hide ValidAggregate, CleanState, EncodeLine, Replay;
    NelStateIsValid();
    EmptyIsHealthy();
    SaveSurvivesIffClean("", NEL_STATE);
    assert "" + EncodeLine(NEL_STATE) + "\n" == EncodeLine(NEL_STATE) + "\n";
  }

  lemma EmptyIsHealthy()
    ensures Healthy("")
  {
  }

  /** An apply planned on the bar at 60000 and reported filled at 1: the attempt fails, and the marker stays. */
  lemma SomeFillDoesNotFit() returns (s: Aggregate, entry: DesiredEntry, a: Resolver.Answers)
    ensures Coherent(s) && s.pendingEntry == Some("a") && ValidEntry(entry) && Resolver.Typed(a)
    ensures RecoveryLaws.TrueOf(Some(Discipline.Filled), "a", s.instance, a)
    ensures !RecoveryLaws.FillFits(1, s.snapshot.timeframe, entry)
    ensures Resolver.AttemptPlan(EmaAnchor, s, a, NoEffect).end.Failure?
  {
    hide ValidEntry, DecodeEntry, ValidWire, IsExactDecimal;
    var plain := SomeQuietInstanceExists();
    entry := SomeEntryExists(60_000);
    OneIsPositive();
    EncodingAlwaysAccepted(entry);
    RecoveryLaws.SentDecodes(entry);
    s := plain.(pendingEntry := Some("a"));
    assert Coherent(s) by { hide IsPositiveExactDecimal, ValidSnapshot, IsBlank; }
    a := Resolver.Answers(RecoveredOpen(RecoveryLaws.PackageOf(entry, "1"), 1), EntryFailed, CloseFailed);
    assert TimeframeMs("1m") == Some(60_000);
    assert AlignToBar(1, "1m") == Some(0);
    hide Coherent, Freeze, RecoveryLaws.Clears;
    RecoveryLaws.UnfittingFillIsStuck(EmaAnchor, s, entry, 1, a, NoEffect);
  }
}
