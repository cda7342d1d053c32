/** Envelopes of versions 1 to 3: what their writers wrote, and that it reads back as the same state. */
module OldVersions {
  import opened Wrappers
  import opened DecimalText
  import opened Recipes
  import opened Json
  import opened JsonText
  import opened State
  import opened Codec
  import opened StateLines

  // ---------------------------------------------------------------- what each version wrote

  /** Version 1 has no marker, version 2 the entry marker, version 3 both; none of them knows remainders. */
  predicate Holds(version: nat, s: Aggregate) {
    && (version < 4 && s.cycle.Some? ==> WithoutRemainderFields(s.cycle.value))
    && (version < 3 ==> s.pendingClose.None?) && (version < 2 ==> s.pendingEntry.None?)
  }

  function EncodeFrozenV1(f: FrozenEntry): Dict {
    var d1 := With(NoMember, KDesiredEntry, Obj(EncodeDesiredEntry(f.entry)));
    With(With(d1, KFirstFillAtMs, Int(f.firstFill)), KEntryBarOpenTimeMs, Int(f.entryBar))
  }

  function EncodeCycleV1(c: TradeCycle): Dict {
    var d1 := With(NoMember, KTradeCycleId, Str(c.id));
    var d2 := With(d1, KAppliedEntryPackage, Obj(EncodePackage(c.package)));
    var d3 := With(d2, KFrozenEntryContext, if c.frozen.None? then Null else Obj(EncodeFrozenV1(c.frozen.value)));
    With(d3, KLatestConfirmedManagementProtection, if c.protection.None? then Null else Obj(EncodeProtection(c.protection.value)))
  }

  function EncodeStateV1(version: nat, s: Aggregate): Dict {
    var d1 := With(NoMember, KSchemaVersion, Int(version));
    var d2 := With(d1, KStrategyInstanceId, Str(s.instance));
    var d3 := With(d2, KStrategyId, Str(s.strategy));
    var d4 := With(d3, KRegisteredSpecSnapshot, Obj(EncodeSnapshot(s.snapshot)));
    var d5 := With(d4, KRiskMultiplier, Str(s.riskMultiplier));
    With(d5, KCurrentTradeCycle, if s.cycle.None? then Null else Obj(EncodeCycleV1(s.cycle.value)))
  }

  function EncodeStateAs(version: nat, s: Aggregate): Dict {
    var d1 := EncodeStateV1(version, s);
    var d2 := if version < 2 then d1 else With(d1, KPendingEntryRecovery, EncodeMarker(s.pendingEntry));
    if version < 3 then d2 else With(d2, KPendingCloseRecovery, EncodeMarker(s.pendingClose))
  }

  // ---------------------------------------------------------------- round trips

  lemma FrozenV1RoundTrip(f: FrozenEntry)
    requires ValidFrozen(f) && f.expiresAt.None?
    ensures DecodeFrozen(Some(Obj(EncodeFrozenV1(f))), false) == Some(f)
  {
    hide ValidEntry, With, At, OnlyKeys, Names, EncodeDesiredEntry, DecodeDesiredEntry;
    AtAfterWith();
    WithKeepsKeys();
    EntryRoundTrip(f.entry);
  }

  lemma CycleV1Fields(c: TradeCycle)
    ensures var d := EncodeCycleV1(c);
      && OnlyKeys(d, Names(CYCLE_KEYS_V1))
      && Text(d, KTradeCycleId) == Some(c.id) && At(d, KAppliedEntryPackage) == Some(Obj(EncodePackage(c.package)))
      && At(d, KFrozenEntryContext) == Some(if c.frozen.None? then Null else Obj(EncodeFrozenV1(c.frozen.value)))
      && At(d, KLatestConfirmedManagementProtection) ==
         Some(if c.protection.None? then Null else Obj(EncodeProtection(c.protection.value)))
  {
    hide With, At, OnlyKeys, Names, EncodePackage, EncodeFrozenV1, EncodeProtection;
    AtAfterWith();
    WithKeepsKeys();
  }

  lemma CycleV1RoundTrip(c: TradeCycle)
    requires ValidCycle(c) && WithoutRemainderFields(c)
    ensures DecodeCycle(Some(Obj(EncodeCycleV1(c))), false) == Some(c)
  {
    hide ValidPackage, ValidFrozen, ValidProtection, EncodeCycleV1, Text, At, OnlyKeys, Names,
      EncodePackage, DecodePackage, EncodeFrozenV1, DecodeFrozen, EncodeProtection, DecodeProtection;
    CycleV1Fields(c);
    PackageRoundTrip(c.package);
    if c.frozen.Some? { FrozenV1RoundTrip(c.frozen.value); }
    if c.protection.Some? { ProtectionRoundTrip(c.protection.value); }
  }

  lemma StateV1Fields(version: nat, s: Aggregate)
    ensures var d := EncodeStateV1(version, s);
      && OnlyKeys(d, Names(ENVELOPE_KEYS_V1)) && OnlyKeys(d, Names(ENVELOPE_KEYS_V2)) && OnlyKeys(d, Names(ENVELOPE_KEYS_V3))
      && At(d, KSchemaVersion) == Some(Int(version))
      && At(d, KStrategyInstanceId) == Some(Str(s.instance)) && At(d, KStrategyId) == Some(Str(s.strategy))
      && At(d, KRiskMultiplier) == Some(Str(s.riskMultiplier))
      && At(d, KRegisteredSpecSnapshot) == Some(Obj(EncodeSnapshot(s.snapshot)))
      && At(d, KCurrentTradeCycle) == Some(if s.cycle.None? then Null else Obj(EncodeCycleV1(s.cycle.value)))
  {
    hide With, At, OnlyKeys, Names, EncodeSnapshot, EncodeCycleV1;
    AtAfterWith();
    WithKeepsKeys();
  }

  lemma StateAsKeys(version: nat, s: Aggregate)
    requires 1 <= version <= 3
    ensures OnlyKeys(EncodeStateAs(version, s), Names(EnvelopeKeys(version)))
  {
    hide With, At, OnlyKeys, Names, EncodeStateV1, EncodeSnapshot, EncodeCycleV1, EncodeMarker;
    WithKeepsKeys();
    StateV1Fields(version, s);
  }

  lemma MarkerFields(version: nat, s: Aggregate, k: Key)
    ensures
      At(EncodeStateAs(version, s), k) ==
        if version >= 2 && k == KPendingEntryRecovery then Some(EncodeMarker(s.pendingEntry))
        else if version >= 3 && k == KPendingCloseRecovery then Some(EncodeMarker(s.pendingClose))
        else At(EncodeStateV1(version, s), k)
  {
    hide With, At, EncodeStateV1, EncodeMarker;
    AtAfterWith();
  }

  lemma StateAsTexts(version: nat, s: Aggregate)
    requires 1 <= version <= 3
    ensures var d := EncodeStateAs(version, s);
      && VersionOf(d) == Some(version)
      && Text(d, KStrategyInstanceId) == Some(s.instance) && Text(d, KStrategyId) == Some(s.strategy)
      && Text(d, KRiskMultiplier) == Some(s.riskMultiplier)
  {
    hide At, OnlyKeys, Names, EncodeStateAs, EncodeStateV1, EncodeSnapshot, EncodeCycleV1, EncodeMarker;
    MarkerFields(version, s, KSchemaVersion);
    MarkerFields(version, s, KStrategyInstanceId);
    MarkerFields(version, s, KStrategyId);
    MarkerFields(version, s, KRiskMultiplier);
    StateV1Fields(version, s);
  }

  lemma StateAsFields(version: nat, s: Aggregate)
    requires 1 <= version <= 3
    ensures var d := EncodeStateAs(version, s);
      && At(d, KRegisteredSpecSnapshot) == Some(Obj(EncodeSnapshot(s.snapshot)))
      && At(d, KCurrentTradeCycle) == Some(if s.cycle.None? then Null else Obj(EncodeCycleV1(s.cycle.value)))
      && (version >= 2 ==> At(d, KPendingEntryRecovery) == Some(EncodeMarker(s.pendingEntry)))
      && (version >= 3 ==> At(d, KPendingCloseRecovery) == Some(EncodeMarker(s.pendingClose)))
  {
    hide At, OnlyKeys, Names, EncodeStateAs, EncodeStateV1, EncodeSnapshot, EncodeCycleV1, EncodeMarker;
    MarkerFields(version, s, KRegisteredSpecSnapshot);
    MarkerFields(version, s, KCurrentTradeCycle);
    MarkerFields(version, s, KPendingEntryRecovery);
    MarkerFields(version, s, KPendingCloseRecovery);
    StateV1Fields(version, s);
  }

  /** Every state an old version can hold reads back from that version's envelope, cycle, markers and all. */
  lemma OldStateRoundTrip(version: nat, s: Aggregate)
    requires 1 <= version <= 3 && ValidAggregate(s) && Holds(version, s)
    ensures DecodeEnvelope(Obj(EncodeStateAs(version, s))) == Some(s)
  {
    hide ValidCycle, ValidSnapshot, IsBlank, IsPositiveExactDecimal, EncodeStateAs, Text, At, OnlyKeys, Names, VersionOf,
      EncodeSnapshot, DecodeSnapshot, EncodeCycleV1, DecodeCycle, EncodeMarker, DecodeMarker, WithoutRemainderFields;
    StateAsKeys(version, s);
    StateAsTexts(version, s);
    StateAsFields(version, s);
    MarkersAreNonempty(s);
    SnapshotRoundTrip(s.snapshot);
    MarkerRoundTrip(s.pendingEntry);
    MarkerRoundTrip(s.pendingClose);
    if s.cycle.Some? { CycleV1RoundTrip(s.cycle.value); }
  }

  /** JSON `true` equals the number one, so it declares version 1. */
  lemma TrueReadsAsVersionOne(s: Aggregate)
    requires ValidAggregate(s) && Holds(1, s)
    ensures DecodeEnvelope(Obj(With(EncodeStateAs(1, s), KSchemaVersion, Bool(true)))) == Some(s)
  {
    hide ValidAggregate, EncodeStateAs, With, At, OnlyKeys, Names, Text, DecodeEnvelope, Holds;
    var d := EncodeStateAs(1, s);
    StateAsKeys(1, s);
    OldStateRoundTrip(1, s);
    AtAfterWith();
    WithKeepsKeys();
    assert KSchemaVersion in EnvelopeKeys(1);
    assert VersionOf(d) == Some(1) by { StateAsTexts(1, s); }
    SameFieldsDecodeAlike(d, With(d, KSchemaVersion, Bool(true)));
  }

  lemma SameFieldsDecodeAlike(d: Dict, d': Dict)
    requires VersionOf(d) == VersionOf(d') == Some(1)
    requires OnlyKeys(d, Names(EnvelopeKeys(1))) && OnlyKeys(d', Names(EnvelopeKeys(1)))
    requires forall k | k != KSchemaVersion :: At(d, k) == At(d', k)
    ensures DecodeEnvelope(Obj(d)) == DecodeEnvelope(Obj(d'))
  {
    hide At, OnlyKeys, Names, DecodeSnapshot, DecodeCycle, DecodeMarker, VersionOf, EnvelopeKeys, ConstructorAccepts, Nullable;
    assert Text(d, KStrategyInstanceId) == Text(d', KStrategyInstanceId) && Text(d, KStrategyId) == Text(d', KStrategyId);
    assert Text(d, KRiskMultiplier) == Text(d', KRiskMultiplier);
    assert DecodeMarkers(d, 1) == DecodeMarkers(d', 1);
    hide Text, DecodeMarkers;
  }

  lemma CycleV1Canonical(c: TradeCycle)
    ensures CanonicalDict(EncodeCycleV1(c))
  {
    hide With, Canonical, CanonicalDict;
    WithsCanonical();
  }

  lemma StateAsCanonical(version: nat, s: Aggregate)
    requires ValidAggregate(s)
    ensures CanonicalDict(EncodeStateAs(version, s))
  {
    hide ValidAggregate, With, Canonical, CanonicalDict, EncodeCycleV1;
    RawSpecCanonical(s);
    WithsCanonical();
    if s.cycle.Some? { CycleV1Canonical(s.cycle.value); }
  }

  /** The same for the lines of an old log: they decode to the state, and saving it again writes a line of today. */
  lemma OldLineRoundTrip(version: nat, s: Aggregate)
    requires 1 <= version <= 3 && ValidAggregate(s) && Holds(version, s)
    ensures DecodeLine(Dumps(Obj(EncodeStateAs(version, s)))) == Decoded(s) == DecodeLine(EncodeLine(s))
  {
    hide ValidAggregate, EncodeStateAs, EncodeState, DecodeEnvelope, Dumps, Loads, Canonical, CanonicalDict, Holds;
    StateAsCanonical(version, s);
    LoadsDumpsObject(EncodeStateAs(version, s));
    OldStateRoundTrip(version, s);
    LineRoundTrip(s);
  }

  // ---------------------------------------------------------------- which keys an accepted envelope has

  /** Every key of the set and no other. */
  predicate Exactly(j: Option<Json>, keys: set<Key>) {
    && j.Some? && j.value.Obj? && OnlyKeys(j.value.members, Names(keys))
    && (forall k | k in keys :: At(j.value.members, k).Some?)
  }

  function Under(j: Option<Json>, k: Key): Option<Json> {
    if j.Some? && j.value.Obj? then At(j.value.members, k) else None
  }

  predicate EntryKeyed(j: Option<Json>) {
    Exactly(j, ENTRY_KEYS)
  }

  predicate CycleKeyed(j: Option<Json>, v4: bool) {
    var frozen, protection := Under(j, KFrozenEntryContext), Under(j, KLatestConfirmedManagementProtection);
    && Exactly(j, if v4 then CYCLE_KEYS_V4 else CYCLE_KEYS_V1)
    && Exactly(Under(j, KAppliedEntryPackage), PACKAGE_KEYS)
    && EntryKeyed(Under(Under(j, KAppliedEntryPackage), KAppliedDesiredEntry))
    && (frozen != Some(Null) ==>
          Exactly(frozen, if v4 then FROZEN_KEYS_V4 else FROZEN_KEYS_V1) && EntryKeyed(Under(frozen, KDesiredEntry)))
    && (protection != Some(Null) ==> Exactly(protection, PROTECTION_KEYS))
  }

  /** The keys of one version, at every level; only the cycle, its parts and the markers may be null. */
  predicate WellKeyed(j: Json, version: nat) {
    var whole := Some(j);
    && Exactly(whole, EnvelopeKeys(version)) && Exactly(Under(whole, KRegisteredSpecSnapshot), SNAPSHOT_KEYS)
    && (Under(whole, KCurrentTradeCycle) != Some(Null) ==> CycleKeyed(Under(whole, KCurrentTradeCycle), version == 4))
    && (version >= 2 ==> Under(whole, KPendingEntryRecovery) == Some(Null) || Exactly(Under(whole, KPendingEntryRecovery), MARKER_KEYS))
    && (version >= 3 ==> Under(whole, KPendingCloseRecovery) == Some(Null) || Exactly(Under(whole, KPendingCloseRecovery), MARKER_KEYS))
  }

  lemma EntryIsKeyed(j: Option<Json>)
    ensures DecodeDesiredEntry(j).Some? ==> EntryKeyed(j)
  {
    hide MakeDesiredEntry, OnlyKeys, Names, At;
  }

  lemma FrozenIsKeyed(j: Option<Json>, v4: bool)
    ensures DecodeFrozen(j, v4).Some? ==>
      Exactly(j, if v4 then FROZEN_KEYS_V4 else FROZEN_KEYS_V1) && EntryKeyed(Under(j, KDesiredEntry))
  {
    hide DecodeDesiredEntry, OnlyKeys, Names, At, EntryKeyed;
    EntryIsKeyed(Under(j, KDesiredEntry));
    EntryIsPresent(Under(j, KDesiredEntry));
  }

  lemma EntryIsPresent(j: Option<Json>)
    ensures DecodeDesiredEntry(j).Some? ==> j.Some?
  {
    hide MakeDesiredEntry, OnlyKeys, Names, At;
  }

  lemma PackageIsKeyed(j: Option<Json>)
    ensures DecodePackage(j).Some? ==> Exactly(j, PACKAGE_KEYS) && EntryKeyed(Under(j, KAppliedDesiredEntry))
  {
    hide DecodeDesiredEntry, OnlyKeys, Names, At, EntryKeyed, IsExactDecimal;
    EntryIsKeyed(Under(j, KAppliedDesiredEntry));
    EntryIsPresent(Under(j, KAppliedDesiredEntry));
  }

  lemma ProtectionIsKeyed(j: Option<Json>)
    ensures DecodeProtection(j).Some? ==> Exactly(j, PROTECTION_KEYS)
  {
    hide MakeProtection, OnlyKeys, Names, At;
  }

  lemma CycleIsKeyed(j: Option<Json>, v4: bool)
    ensures DecodeCycle(j, v4).Some? ==> CycleKeyed(j, v4)
  {
    hide DecodePackage, DecodeFrozen, DecodeProtection, OnlyKeys, Names, At, EntryKeyed, Exactly;
    if DecodeCycle(j, v4).Some? {
      CycleHasItsKeys(j, v4);
      PackageIsKeyed(Under(j, KAppliedEntryPackage));
      FrozenIsKeyed(Under(j, KFrozenEntryContext), v4);
      ProtectionIsKeyed(Under(j, KLatestConfirmedManagementProtection));
    }
  }

  lemma CycleHasItsKeys(j: Option<Json>, v4: bool)
    ensures DecodeCycle(j, v4).Some? ==> Exactly(j, if v4 then CYCLE_KEYS_V4 else CYCLE_KEYS_V1)
  {
    hide DecodeDesiredEntry, DecodeFrozen, DecodeProtection, OnlyKeys, Names, At, IsExactDecimal;
  }

  lemma SnapshotIsKeyed(j: Option<Json>)
    ensures DecodeSnapshot(j).Some? ==> Exactly(j, SNAPSHOT_KEYS)
  {
    hide IsBlank, OnlyKeys, Names, At;
  }

  lemma MarkerIsKeyed(j: Option<Json>)
    ensures DecodeMarker(j).Some? ==> Exactly(j, MARKER_KEYS)
  {
    hide OnlyKeys, Names, At;
  }

  /** Nothing is accepted with a key its version does not have, or without one it has, at any level. */
  lemma AcceptedIsWellKeyed(j: Json)
    requires DecodeEnvelope(j).Some?
    ensures j.Obj? && VersionOf(j.members).Some? && WellKeyed(j, VersionOf(j.members).value)
  {
    hide DecodeCycle, DecodeSnapshot, DecodeMarker, OnlyKeys, Names, At, CycleKeyed, ConstructorAccepts;
    CycleIsKeyed(Under(Some(j), KCurrentTradeCycle), VersionOf(j.members).value == 4);
    SnapshotIsKeyed(Under(Some(j), KRegisteredSpecSnapshot));
    MarkerIsKeyed(Under(Some(j), KPendingEntryRecovery));
    MarkerIsKeyed(Under(Some(j), KPendingCloseRecovery));
  }
}
