/** The versioned envelope of one durable aggregate, as a JSON value. */
module Codec {
  import opened Wrappers
  import opened DecimalText
  import opened DecimalNormalize
  import opened Recipes
  import opened Json
  import opened State

  datatype Key =
    | KSide
    | KSourcePlanBarOpenTimeMs
    | KPlannedEntryPrice
    | KInitialStopPrice
    | KInitialTakePrice
    | KLockedExitProfile
    | KAppliedDesiredEntry
    | KCalculatedQuantity
    | KDesiredEntry
    | KFirstFillAtMs
    | KEntryBarOpenTimeMs
    | KEntryOrderExpiresAtBar
    | KStopPrice
    | KTakePrice
    | KTradeCycleId
    | KAppliedEntryPackage
    | KFrozenEntryContext
    | KLatestConfirmedManagementProtection
    | KEntryRemainderCancelled
    | KInstrument
    | KBaseTimeframe
    | KRawSpec
    | KSourcePath
    | KSchemaVersion
    | KStrategyInstanceId
    | KStrategyId
    | KRegisteredSpecSnapshot
    | KRiskMultiplier
    | KCurrentTradeCycle
    | KPendingEntryRecovery
    | KPendingCloseRecovery

  function EntryName(k: Key): string {
    match k
    case KSide => "side"
    case KSourcePlanBarOpenTimeMs => "source_plan_bar_open_time_ms"
    case KPlannedEntryPrice => "planned_entry_price"
    case KInitialStopPrice => "initial_stop_price"
    case KInitialTakePrice => "initial_take_price"
    case KLockedExitProfile => "locked_exit_profile"
    case KAppliedDesiredEntry => "applied_desired_entry"
    case KCalculatedQuantity => "calculated_quantity"
    case _ => ""
  }

  function FrozenName(k: Key): string {
    match k
    case KDesiredEntry => "desired_entry"
    case KFirstFillAtMs => "first_fill_at_ms"
    case KEntryBarOpenTimeMs => "entry_bar_open_time_ms"
    case KEntryOrderExpiresAtBar => "entry_order_expires_at_bar"
    case KStopPrice => "stop_price"
    case KTakePrice => "take_price"
    case _ => ""
  }

  function CycleName(k: Key): string {
    match k
    case KTradeCycleId => "trade_cycle_id"
    case KAppliedEntryPackage => "applied_entry_package"
    case KFrozenEntryContext => "frozen_entry_context"
    case KLatestConfirmedManagementProtection => "latest_confirmed_management_protection"
    case KEntryRemainderCancelled => "entry_remainder_cancelled"
    case _ => ""
  }

  function SnapshotName(k: Key): string {
    match k
    case KInstrument => "instrument"
    case KBaseTimeframe => "base_timeframe"
    case KRawSpec => "raw_spec"
    case KSourcePath => "source_path"
    case _ => ""
  }

  function EnvelopeName(k: Key): string {
    match k
    case KSchemaVersion => "schema_version"
    case KStrategyInstanceId => "strategy_instance_id"
    case KStrategyId => "strategy_id"
    case KRegisteredSpecSnapshot => "registered_spec_snapshot"
    case KRiskMultiplier => "risk_multiplier"
    case KCurrentTradeCycle => "current_trade_cycle"
    case KPendingEntryRecovery => "pending_entry_recovery"
    case KPendingCloseRecovery => "pending_close_recovery"
    case _ => ""
  }

  /** The field names on disk. */
  function Name(k: Key): string {
    match k
    case KSide | KSourcePlanBarOpenTimeMs | KPlannedEntryPrice | KInitialStopPrice | KInitialTakePrice | KLockedExitProfile | KAppliedDesiredEntry | KCalculatedQuantity => EntryName(k)
    case KDesiredEntry | KFirstFillAtMs | KEntryBarOpenTimeMs | KEntryOrderExpiresAtBar | KStopPrice | KTakePrice => FrozenName(k)
    case KTradeCycleId | KAppliedEntryPackage | KFrozenEntryContext | KLatestConfirmedManagementProtection | KEntryRemainderCancelled => CycleName(k)
    case KInstrument | KBaseTimeframe | KRawSpec | KSourcePath => SnapshotName(k)
    case KSchemaVersion | KStrategyInstanceId | KStrategyId | KRegisteredSpecSnapshot | KRiskMultiplier | KCurrentTradeCycle | KPendingEntryRecovery | KPendingCloseRecovery => EnvelopeName(k)
  }

  function Names(keys: set<Key>): set<string> {
    set k | k in keys :: Name(k)
  }

  function At(d: Dict, k: Key): Option<Json> {
    Get(d, Name(k))
  }

  function With(d: Dict, k: Key, v: Json): Dict {
    Put(d, Name(k), v)
  }

  const ENTRY_KEYS := {KSide, KSourcePlanBarOpenTimeMs, KPlannedEntryPrice, KInitialStopPrice,
                       KInitialTakePrice, KLockedExitProfile}
  const PACKAGE_KEYS := {KAppliedDesiredEntry, KCalculatedQuantity}
  const FROZEN_KEYS_V1 := {KDesiredEntry, KFirstFillAtMs, KEntryBarOpenTimeMs}
  const FROZEN_KEYS_V4 := FROZEN_KEYS_V1 + {KEntryOrderExpiresAtBar}
  const PROTECTION_KEYS := {KStopPrice, KTakePrice}
  const CYCLE_KEYS_V1 := {KTradeCycleId, KAppliedEntryPackage, KFrozenEntryContext,
                          KLatestConfirmedManagementProtection}
  const CYCLE_KEYS_V4 := CYCLE_KEYS_V1 + {KEntryRemainderCancelled}
  const SNAPSHOT_KEYS := {KInstrument, KBaseTimeframe, KRawSpec, KSourcePath}
  const MARKER_KEYS := {KTradeCycleId}
  const ENVELOPE_KEYS_V1 := {KSchemaVersion, KStrategyInstanceId, KStrategyId, KRegisteredSpecSnapshot,
                             KRiskMultiplier, KCurrentTradeCycle}
  const ENVELOPE_KEYS_V2 := ENVELOPE_KEYS_V1 + {KPendingEntryRecovery}
  const ENVELOPE_KEYS_V3 := ENVELOPE_KEYS_V2 + {KPendingCloseRecovery}

  // ---------------------------------------------------------------- encoding

  function EncodeDesiredEntry(e: DesiredEntry): Dict {
    var d1 := With(NoMember, KSide, Str(e.side));
    var d2 := With(d1, KSourcePlanBarOpenTimeMs, Int(e.sourceBar));
    var d3 := With(d2, KPlannedEntryPrice, Str(e.plannedPrice));
    var d4 := With(d3, KInitialStopPrice, Str(e.stopPrice));
    var d5 := With(d4, KInitialTakePrice, Str(e.takePrice));
    With(d5, KLockedExitProfile, Str(e.profile))
  }

  function EncodePackage(p: EntryPackage): Dict {
    With(With(NoMember, KAppliedDesiredEntry, Obj(EncodeDesiredEntry(p.entry))), KCalculatedQuantity, Str(p.quantity))
  }

  function EncodeFrozen(f: FrozenEntry): Dict {
    var d1 := With(NoMember, KDesiredEntry, Obj(EncodeDesiredEntry(f.entry)));
    var d2 := With(d1, KFirstFillAtMs, Int(f.firstFill));
    var d3 := With(d2, KEntryBarOpenTimeMs, Int(f.entryBar));
    With(d3, KEntryOrderExpiresAtBar, if f.expiresAt.None? then Null else Int(f.expiresAt.value))
  }

  function EncodeProtection(p: DesiredProtection): Dict {
    With(With(NoMember, KStopPrice, Str(p.stopPrice)), KTakePrice, if p.takePrice.None? then Null else Str(p.takePrice.value))
  }

  function EncodeCycle(c: TradeCycle): Dict {
    var d1 := With(NoMember, KTradeCycleId, Str(c.id));
    var d2 := With(d1, KAppliedEntryPackage, Obj(EncodePackage(c.package)));
    var d3 := With(d2, KFrozenEntryContext, if c.frozen.None? then Null else Obj(EncodeFrozen(c.frozen.value)));
    var d4 := With(d3, KLatestConfirmedManagementProtection,
                  if c.protection.None? then Null else Obj(EncodeProtection(c.protection.value)));
    With(d4, KEntryRemainderCancelled, Bool(c.remainderCancelled))
  }

  function EncodeSnapshot(s: SpecSnapshot): Dict {
    var d1 := With(NoMember, KInstrument, Str(s.instrument));
    var d2 := With(d1, KBaseTimeframe, Str(s.timeframe));
    With(With(d2, KRawSpec, Obj(s.rawSpec)), KSourcePath, Str(s.sourcePath))
  }

  function EncodeMarker(id: Option<string>): Json {
    if id.None? then Null else Obj(With(NoMember, KTradeCycleId, Str(id.value)))
  }

  /** Always the newest version. */
  function EncodeState(s: Aggregate): Dict {
    var d1 := With(NoMember, KSchemaVersion, Int(4));
    var d2 := With(d1, KStrategyInstanceId, Str(s.instance));
    var d3 := With(d2, KStrategyId, Str(s.strategy));
    var d4 := With(d3, KRegisteredSpecSnapshot, Obj(EncodeSnapshot(s.snapshot)));
    var d5 := With(d4, KRiskMultiplier, Str(s.riskMultiplier));
    var d6 := With(d5, KCurrentTradeCycle, if s.cycle.None? then Null else Obj(EncodeCycle(s.cycle.value)));
    var d7 := With(d6, KPendingEntryRecovery, EncodeMarker(s.pendingEntry));
    With(d7, KPendingCloseRecovery, EncodeMarker(s.pendingClose))
  }

  // ---------------------------------------------------------------- decoding: None stands for every refusal

  function Text(d: Dict, k: Key): Option<string> {
    match At(d, k)
    case Some(Str(s)) => Some(s)
    case _ => None
  }

  function Number(d: Dict, k: Key): Option<int> {
    match At(d, k)
    case Some(Int(n)) => Some(n)
    case _ => None
  }

  /** The object under a key, with no key outside `allowed`. */
  function Section(j: Option<Json>, allowed: set<Key>): Option<Dict> {
    match j
    case Some(Obj(d)) => if OnlyKeys(d, Names(allowed)) then Some(d) else None
    case _ => None
  }

  /** A key that must be there, null or decoded as `t`: None is a refusal, Some(None) the null. */
  function Nullable<T>(j: Option<Json>, t: Option<T>): Option<Option<T>> {
    if j == Some(Null) then Some(None) else if j.None? || t.None? then None else Some(t)
  }

  function DecodeDesiredEntry(j: Option<Json>): Option<DesiredEntry> {
    match Section(j, ENTRY_KEYS)
    case None => None
    case Some(d) =>
      var side, bar, planned := Text(d, KSide), Number(d, KSourcePlanBarOpenTimeMs), Text(d, KPlannedEntryPrice);
      var stop, take, profile := Text(d, KInitialStopPrice), Text(d, KInitialTakePrice), Text(d, KLockedExitProfile);
      if side.None? || bar.None? || planned.None? || stop.None? || take.None? || profile.None? then None
      else MakeDesiredEntry(side.value, bar.value, planned.value, stop.value, take.value, profile.value)
  }

  function DecodePackage(j: Option<Json>): Option<EntryPackage> {
    match Section(j, PACKAGE_KEYS)
    case None => None
    case Some(d) =>
      var entry, quantity := DecodeDesiredEntry(At(d, KAppliedDesiredEntry)), Text(d, KCalculatedQuantity);
      if entry.None? || quantity.None? || !IsExactDecimal(quantity.value) then None
      else Some(EntryPackage(entry.value, quantity.value))
  }

  function DecodeExpiry(d: Dict, v4: bool): Option<Option<int>> {
    if !v4 then Some(None)
    else
      var n := Number(d, KEntryOrderExpiresAtBar);
      Nullable(At(d, KEntryOrderExpiresAtBar), if n.Some? && n.value > 0 then n else None)
  }

  function DecodeFrozen(j: Option<Json>, v4: bool): Option<FrozenEntry> {
    match Section(j, if v4 then FROZEN_KEYS_V4 else FROZEN_KEYS_V1)
    case None => None
    case Some(d) =>
      var entry, fill := DecodeDesiredEntry(At(d, KDesiredEntry)), Number(d, KFirstFillAtMs);
      var bar, expires := Number(d, KEntryBarOpenTimeMs), DecodeExpiry(d, v4);
      if entry.None? || fill.None? || bar.None? || expires.None? then None
      else if fill.value <= 0 || bar.value < 0 || bar.value > fill.value then None
      else Some(FrozenEntry(entry.value, fill.value, bar.value, expires.value))
  }

  function DecodeProtection(j: Option<Json>): Option<DesiredProtection> {
    match Section(j, PROTECTION_KEYS)
    case None => None
    case Some(d) =>
      var stop := Text(d, KStopPrice);
      var take := Nullable(At(d, KTakePrice), Text(d, KTakePrice));
      if stop.None? || take.None? then None else MakeProtection(stop.value, take.value)
  }

  function DecodeRemainder(d: Dict, v4: bool): Option<bool> {
    if !v4 then Some(false)
    else
      match At(d, KEntryRemainderCancelled)
      case Some(Bool(b)) => Some(b)
      case _ => None
  }

  function DecodeCycle(j: Option<Json>, v4: bool): Option<TradeCycle> {
    match Section(j, if v4 then CYCLE_KEYS_V4 else CYCLE_KEYS_V1)
    case None => None
    case Some(d) =>
      var id, package := Text(d, KTradeCycleId), DecodePackage(At(d, KAppliedEntryPackage));
      var frozen := Nullable(At(d, KFrozenEntryContext), DecodeFrozen(At(d, KFrozenEntryContext), v4));
      var held := At(d, KLatestConfirmedManagementProtection);
      var protection := Nullable(held, DecodeProtection(held));
      var remainder := DecodeRemainder(d, v4);
      if id.None? || id.value == "" || package.None? || frozen.None? || protection.None? || remainder.None? then None
      else Some(TradeCycle(id.value, package.value, frozen.value, protection.value, remainder.value))
  }

  function DecodeMarker(j: Option<Json>): Option<string> {
    match Section(j, MARKER_KEYS)
    case None => None
    case Some(d) =>
      var id := Text(d, KTradeCycleId);
      if id.None? || id.value == "" then None else id
  }

  function DecodeSnapshot(j: Option<Json>): Option<SpecSnapshot> {
    match Section(j, SNAPSHOT_KEYS)
    case None => None
    case Some(d) =>
      var instrument, timeframe, path := Text(d, KInstrument), Text(d, KBaseTimeframe), Text(d, KSourcePath);
      match At(d, KRawSpec)
      case Some(Obj(raw)) =>
        if instrument.None? || timeframe.None? || path.None? then None
        else if IsBlank(instrument.value) || IsBlank(timeframe.value) || IsBlank(path.value) then None
        else Some(SpecSnapshot(instrument.value, timeframe.value, raw, path.value))
      case _ => None
  }

  /** The version an envelope declares; the text `true` equals 1 there. */
  function VersionOf(d: Dict): Option<nat> {
    match At(d, KSchemaVersion)
    case Some(Int(n)) => if 1 <= n <= 4 then Some(n) else None
    case Some(Bool(true)) => Some(1)
    case _ => None
  }

  function EnvelopeKeys(version: nat): set<Key> {
    if version == 1 then ENVELOPE_KEYS_V1 else if version == 2 then ENVELOPE_KEYS_V2 else ENVELOPE_KEYS_V3
  }

  function DecodeMarkers(d: Dict, version: nat): Option<(Option<string>, Option<string>)> {
    var (e, c) := (At(d, KPendingEntryRecovery), At(d, KPendingCloseRecovery));
    var entry := if version >= 2 then Nullable(e, DecodeMarker(e)) else Some(None);
    var close := if version >= 3 then Nullable(c, DecodeMarker(c)) else Some(None);
    if entry.None? || close.None? then None else Some((entry.value, close.value))
  }

  function DecodeEnvelope(j: Json): Option<Aggregate> {
    if !j.Obj? || VersionOf(j.members).None? then None
    else
      var d, version := j.members, VersionOf(j.members).value;
      var markers := DecodeMarkers(d, version);
      if !OnlyKeys(d, Names(EnvelopeKeys(version))) || markers.None? then None
      else
        var instance, strategy, risk := Text(d, KStrategyInstanceId), Text(d, KStrategyId), Text(d, KRiskMultiplier);
        var snapshot := DecodeSnapshot(At(d, KRegisteredSpecSnapshot));
        var current := At(d, KCurrentTradeCycle);
        var cycle := Nullable(current, DecodeCycle(current, version == 4));
        if instance.None? || strategy.None? || risk.None? || snapshot.None? || cycle.None? then None
        else
          var s := Aggregate(instance.value, strategy.value, snapshot.value, risk.value, cycle.value, markers.value.0, markers.value.1);
          if ConstructorAccepts(s) then Some(s) else None
  }

  /** The aggregate constructor's own checks; its parts were checked when they were built. */
  predicate ConstructorAccepts(s: Aggregate) {
    && !IsBlank(s.instance) && !IsBlank(s.strategy) && IsPositiveExactDecimal(s.riskMultiplier)
    && (s.pendingEntry.Some? && s.cycle.Some? ==> s.pendingEntry.value == s.cycle.value.id)
    && (s.pendingClose.Some? ==> s.cycle.Some? && s.pendingClose.value == s.cycle.value.id)
    && !(s.pendingEntry.Some? && s.pendingClose.Some?)
  }

  // ---------------------------------------------------------------- names differ, so fields do not mix

  /** Length of a name and one letter in it: together they tell all names apart. */
  function Print(k: Key): (nat, char) {
    match k
    case KSide => (4, 's')
    case KSourcePlanBarOpenTimeMs => (28, 't')
    case KPlannedEntryPrice => (19, 'y')
    case KInitialStopPrice => (18, 'p')
    case KInitialTakePrice => (18, 'e')
    case KLockedExitProfile => (19, 'p')
    case KAppliedDesiredEntry => (21, 'd')
    case KCalculatedQuantity => (19, 'u')
    case KDesiredEntry => (13, 'd')
    case KFirstFillAtMs => (16, 'l')
    case KEntryBarOpenTimeMs => (22, 'r')
    case KEntryOrderExpiresAtBar => (26, '_')
    case KStopPrice => (10, 'p')
    case KTakePrice => (10, 'e')
    case KTradeCycleId => (14, 'y')
    case KAppliedEntryPackage => (21, 'p')
    case KFrozenEntryContext => (20, 'c')
    case KLatestConfirmedManagementProtection => (38, 't')
    case KEntryRemainderCancelled => (25, 'n')
    case KInstrument => (10, 't')
    case KBaseTimeframe => (14, 'm')
    case KRawSpec => (8, 'a')
    case KSourcePath => (11, 'c')
    case KSchemaVersion => (14, 'v')
    case KStrategyInstanceId => (20, 'a')
    case KStrategyId => (11, 't')
    case KRegisteredSpecSnapshot => (24, 'n')
    case KRiskMultiplier => (15, 't')
    case KCurrentTradeCycle => (19, 'e')
    case KPendingEntryRecovery => (22, 'e')
    case KPendingCloseRecovery => (22, 'c')
  }

  function Spot(n: nat): nat {
    if n == 22 then 8 else if n >= 7 then n - 7 else 0
  }

  predicate Fits(k: Key, name: string) {
    |name| == Print(k).0 > Spot(Print(k).0) && name[Spot(Print(k).0)] == Print(k).1
  }

  lemma FitsEntry(k: Key)
    requires k in {KSide, KSourcePlanBarOpenTimeMs, KPlannedEntryPrice, KInitialStopPrice, KInitialTakePrice, KLockedExitProfile, KAppliedDesiredEntry, KCalculatedQuantity}
    ensures Fits(k, EntryName(k))
  {
  }

  lemma FitsFrozen(k: Key)
    requires k in {KDesiredEntry, KFirstFillAtMs, KEntryBarOpenTimeMs, KEntryOrderExpiresAtBar, KStopPrice, KTakePrice}
    ensures Fits(k, FrozenName(k))
  {
  }

  lemma FitsCycle(k: Key)
    requires k in {KTradeCycleId, KAppliedEntryPackage, KFrozenEntryContext, KLatestConfirmedManagementProtection, KEntryRemainderCancelled}
    ensures Fits(k, CycleName(k))
  {
  }

  lemma FitsSnapshot(k: Key)
    requires k in {KInstrument, KBaseTimeframe, KRawSpec, KSourcePath}
    ensures Fits(k, SnapshotName(k))
  {
  }

  lemma FitsEnvelope(k: Key)
    requires k in {KSchemaVersion, KStrategyInstanceId, KStrategyId, KRegisteredSpecSnapshot, KRiskMultiplier, KCurrentTradeCycle, KPendingEntryRecovery, KPendingCloseRecovery}
    ensures Fits(k, EnvelopeName(k))
  {
  }

  lemma NamePrint(k: Key)
    ensures Fits(k, Name(k))
  {
    hide Fits, EntryName, FrozenName, CycleName, SnapshotName, EnvelopeName;
    match k
    case KSide | KSourcePlanBarOpenTimeMs | KPlannedEntryPrice | KInitialStopPrice | KInitialTakePrice | KLockedExitProfile | KAppliedDesiredEntry | KCalculatedQuantity => FitsEntry(k);
    case KDesiredEntry | KFirstFillAtMs | KEntryBarOpenTimeMs | KEntryOrderExpiresAtBar | KStopPrice | KTakePrice => FitsFrozen(k);
    case KTradeCycleId | KAppliedEntryPackage | KFrozenEntryContext | KLatestConfirmedManagementProtection | KEntryRemainderCancelled => FitsCycle(k);
    case KInstrument | KBaseTimeframe | KRawSpec | KSourcePath => FitsSnapshot(k);
    case KSchemaVersion | KStrategyInstanceId | KStrategyId | KRegisteredSpecSnapshot | KRiskMultiplier | KCurrentTradeCycle | KPendingEntryRecovery | KPendingCloseRecovery => FitsEnvelope(k);
  }

  lemma NamesDiffer(a: Key, b: Key)
    ensures Name(a) == Name(b) ==> a == b
  {
    hide Name;
    NamePrint(a);
    NamePrint(b);
  }

  /** A field reads back what was last put there. */
  lemma AtAfterWith()
    ensures forall d: Dict, k: Key, v, k': Key :: At(With(d, k, v), k') == if k' == k then Some(v) else At(d, k')
  {
    hide Name;
    forall d: Dict, k: Key, v, k': Key ensures At(With(d, k, v), k') == if k' == k then Some(v) else At(d, k') {
      GetAfterPut(d, Name(k), v, Name(k'));
      NamesDiffer(k, k');
    }
  }

  lemma OnlyKeysPut(d: Dict, k: string, v: Json, allowed: set<string>)
    requires OnlyKeys(d, allowed) && k in allowed
    ensures OnlyKeys(Put(d, k, v), allowed)
  {
  }

  lemma WithKeepsKeys()
    ensures forall keys: set<Key> :: OnlyKeys(NoMember, Names(keys))
    ensures forall d: Dict, k: Key, v, keys: set<Key> | OnlyKeys(d, Names(keys)) && k in keys :: OnlyKeys(With(d, k, v), Names(keys))
  {
    hide Name;
    forall d: Dict, k: Key, v, keys: set<Key> | OnlyKeys(d, Names(keys)) && k in keys ensures OnlyKeys(With(d, k, v), Names(keys)) {
      OnlyKeysPut(d, Name(k), v, Names(keys));
    }
  }

  // ---------------------------------------------------------------- round trip, part by part

  lemma EntryFields(e: DesiredEntry)
    ensures var d := EncodeDesiredEntry(e);
      && OnlyKeys(d, Names(ENTRY_KEYS))
      && Text(d, KSide) == Some(e.side) && Number(d, KSourcePlanBarOpenTimeMs) == Some(e.sourceBar)
      && Text(d, KPlannedEntryPrice) == Some(e.plannedPrice) && Text(d, KInitialStopPrice) == Some(e.stopPrice)
      && Text(d, KInitialTakePrice) == Some(e.takePrice) && Text(d, KLockedExitProfile) == Some(e.profile)
  {
    hide With, At, OnlyKeys, Names;
    AtAfterWith();
    WithKeepsKeys();
  }

  lemma EntryConstructsItself(e: DesiredEntry)
    requires ValidEntry(e)
    ensures MakeDesiredEntry(e.side, e.sourceBar, e.plannedPrice, e.stopPrice, e.takePrice, e.profile) == Some(e)
  {
    hide Normalize, IsPositiveExactDecimal, IsBlank;
  }

  lemma EntryRoundTrip(e: DesiredEntry)
    requires ValidEntry(e)
    ensures DecodeDesiredEntry(Some(Obj(EncodeDesiredEntry(e)))) == Some(e)
  {
    hide MakeDesiredEntry, ValidEntry, EncodeDesiredEntry, Text, Number, OnlyKeys, Names;
    EntryConstructsItself(e);
    EntryFields(e);
  }

  lemma PackageRoundTrip(p: EntryPackage)
    requires ValidPackage(p)
    ensures DecodePackage(Some(Obj(EncodePackage(p)))) == Some(p)
  {
    hide ValidEntry, IsExactDecimal, With, At, OnlyKeys, Names, EncodeDesiredEntry, DecodeDesiredEntry;
    AtAfterWith();
    WithKeepsKeys();
    EntryRoundTrip(p.entry);
  }

  lemma FrozenRoundTrip(f: FrozenEntry)
    requires ValidFrozen(f)
    ensures DecodeFrozen(Some(Obj(EncodeFrozen(f))), true) == Some(f)
  {
    hide ValidEntry, With, At, OnlyKeys, Names, EncodeDesiredEntry, DecodeDesiredEntry;
    AtAfterWith();
    WithKeepsKeys();
    EntryRoundTrip(f.entry);
  }

  lemma ProtectionConstructsItself(p: DesiredProtection)
    requires ValidProtection(p)
    ensures MakeProtection(p.stopPrice, p.takePrice) == Some(p)
  {
    hide Normalize;
  }

  lemma ProtectionRoundTrip(p: DesiredProtection)
    requires ValidProtection(p)
    ensures DecodeProtection(Some(Obj(EncodeProtection(p)))) == Some(p)
  {
    hide MakeProtection, ValidProtection, With, At, OnlyKeys, Names;
    ProtectionConstructsItself(p);
    AtAfterWith();
    WithKeepsKeys();
  }

  lemma CycleFields(c: TradeCycle)
    ensures var d := EncodeCycle(c);
      && OnlyKeys(d, Names(CYCLE_KEYS_V4))
      && Text(d, KTradeCycleId) == Some(c.id) && At(d, KAppliedEntryPackage) == Some(Obj(EncodePackage(c.package)))
      && At(d, KFrozenEntryContext) == Some(if c.frozen.None? then Null else Obj(EncodeFrozen(c.frozen.value)))
      && At(d, KLatestConfirmedManagementProtection) ==
         Some(if c.protection.None? then Null else Obj(EncodeProtection(c.protection.value)))
      && At(d, KEntryRemainderCancelled) == Some(Bool(c.remainderCancelled))
  {
    hide With, At, OnlyKeys, Names, EncodePackage, EncodeFrozen, EncodeProtection;
    AtAfterWith();
    WithKeepsKeys();
  }

  lemma CycleRoundTrip(c: TradeCycle)
    requires ValidCycle(c)
    ensures DecodeCycle(Some(Obj(EncodeCycle(c))), true) == Some(c)
  {
    hide ValidPackage, ValidFrozen, ValidProtection, EncodeCycle, Text, At, OnlyKeys, Names,
      EncodePackage, DecodePackage, EncodeFrozen, DecodeFrozen, EncodeProtection, DecodeProtection;
    CycleFields(c);
    PackageRoundTrip(c.package);
    if c.frozen.Some? { FrozenRoundTrip(c.frozen.value); }
    if c.protection.Some? { ProtectionRoundTrip(c.protection.value); }
  }

  lemma SnapshotRoundTrip(s: SpecSnapshot)
    requires ValidSnapshot(s)
    ensures DecodeSnapshot(Some(Obj(EncodeSnapshot(s)))) == Some(s)
  {
    hide IsBlank, With, At, OnlyKeys, Names, CanonicalDict;
    AtAfterWith();
    WithKeepsKeys();
  }

  lemma MarkerRoundTrip(id: Option<string>)
    requires id.Some? ==> id.value != ""
    ensures Nullable(Some(EncodeMarker(id)), DecodeMarker(Some(EncodeMarker(id)))) == Some(id)
  {
    hide With, At, OnlyKeys, Names;
    AtAfterWith();
    WithKeepsKeys();
  }

  lemma StateKeys(s: Aggregate)
    ensures OnlyKeys(EncodeState(s), Names(ENVELOPE_KEYS_V3))
  {
    hide With, OnlyKeys, Names, EncodeSnapshot, EncodeCycle, EncodeMarker;
    WithKeepsKeys();
  }

  lemma StateFields(s: Aggregate)
    ensures var d := EncodeState(s);
      && At(d, KSchemaVersion) == Some(Int(4))
      && Text(d, KStrategyInstanceId) == Some(s.instance) && Text(d, KStrategyId) == Some(s.strategy)
      && Text(d, KRiskMultiplier) == Some(s.riskMultiplier)
      && At(d, KRegisteredSpecSnapshot) == Some(Obj(EncodeSnapshot(s.snapshot)))
      && At(d, KCurrentTradeCycle) == Some(if s.cycle.None? then Null else Obj(EncodeCycle(s.cycle.value)))
      && At(d, KPendingEntryRecovery) == Some(EncodeMarker(s.pendingEntry))
      && At(d, KPendingCloseRecovery) == Some(EncodeMarker(s.pendingClose))
  {
    hide With, At, EncodeSnapshot, EncodeCycle, EncodeMarker;
    AtAfterWith();
  }

  lemma MarkersAreNonempty(s: Aggregate)
    requires ValidAggregate(s)
    ensures s.pendingEntry.Some? ==> s.pendingEntry.value != ""
    ensures s.pendingClose.Some? ==> s.pendingClose.value != ""
  {
    hide ValidPackage, ValidFrozen, ValidProtection, ValidSnapshot, IsBlank, IsPositiveExactDecimal;
  }

  /** Decoding an encoded aggregate gives it back. */
  lemma StateRoundTrip(s: Aggregate)
    requires ValidAggregate(s)
    ensures DecodeEnvelope(Obj(EncodeState(s))) == Some(s)
  {
    hide ValidCycle, ValidSnapshot, IsBlank, IsPositiveExactDecimal, EncodeState, Text, At, OnlyKeys, Names,
      EncodeSnapshot, DecodeSnapshot, EncodeCycle, DecodeCycle, EncodeMarker, DecodeMarker;
    StateKeys(s);
    StateFields(s);
    MarkersAreNonempty(s);
    SnapshotRoundTrip(s.snapshot);
    MarkerRoundTrip(s.pendingEntry);
    MarkerRoundTrip(s.pendingClose);
    if s.cycle.Some? { CycleRoundTrip(s.cycle.value); }
  }

  // ---------------------------------------------------------------- what decoding accepts

  lemma GetCanonical(d: Dict, k: string)
    requires CanonicalDict(d)
    ensures Get(d, k).Some? ==> Canonical(Get(d, k).value)
  {
    hide IsFloatLiteral, Before;
  }

  lemma AtCanonical(j: Option<Json>, k: Key)
    requires j.Some? ==> Canonical(j.value)
    ensures j.Some? && j.value.Obj? && At(j.value.members, k).Some? ==> Canonical(At(j.value.members, k).value)
  {
    if j.Some? && j.value.Obj? { GetCanonical(j.value.members, Name(k)); }
  }

  lemma DecodedEntryIsValid(j: Option<Json>)
    ensures DecodeDesiredEntry(j).Some? ==> ValidEntry(DecodeDesiredEntry(j).value)
  {
    hide MakeDesiredEntry, ValidEntry, OnlyKeys, Names;
    if DecodeDesiredEntry(j).Some? {
      var d := j.value.members;
      EntryConstructorFixpoint(Text(d, KSide).value, Number(d, KSourcePlanBarOpenTimeMs).value, Text(d, KPlannedEntryPrice).value,
        Text(d, KInitialStopPrice).value, Text(d, KInitialTakePrice).value, Text(d, KLockedExitProfile).value);
    }
  }

  lemma DecodedFrozenIsValid(j: Option<Json>, v4: bool)
    ensures var f := DecodeFrozen(j, v4);
      f.Some? ==> ValidFrozen(f.value) && (!v4 ==> f.value.expiresAt.None?)
  {
    hide DecodeDesiredEntry, ValidEntry, OnlyKeys, Names;
    if DecodeFrozen(j, v4).Some? { DecodedEntryIsValid(At(j.value.members, KDesiredEntry)); }
  }

  lemma DecodedProtectionIsValid(j: Option<Json>)
    ensures DecodeProtection(j).Some? ==> ValidProtection(DecodeProtection(j).value)
  {
    hide MakeProtection, ValidProtection, OnlyKeys, Names;
    if DecodeProtection(j).Some? {
      var d := j.value.members;
      ProtectionConstructorFixpoint(Text(d, KStopPrice).value, Nullable(At(d, KTakePrice), Text(d, KTakePrice)).value);
    }
  }

  /** The fields versions 1 to 3 do not have read as never cancelled and never bounded. */
  predicate WithoutRemainderFields(c: TradeCycle) {
    !c.remainderCancelled && (c.frozen.Some? ==> c.frozen.value.expiresAt.None?)
  }

  lemma DecodedCycleIsValid(j: Option<Json>, v4: bool)
    ensures var c := DecodeCycle(j, v4);
      c.Some? ==> ValidCycle(c.value) && (!v4 ==> WithoutRemainderFields(c.value))
  {
    hide DecodeDesiredEntry, DecodeFrozen, DecodeProtection, ValidEntry, ValidFrozen, ValidProtection, IsExactDecimal, OnlyKeys, Names;
    if DecodeCycle(j, v4).Some? {
      var d := j.value.members;
      DecodedEntryIsValid(At(At(d, KAppliedEntryPackage).value.members, KAppliedDesiredEntry));
      DecodedFrozenIsValid(At(d, KFrozenEntryContext), v4);
      DecodedProtectionIsValid(At(d, KLatestConfirmedManagementProtection));
    }
  }

  lemma DecodedSnapshotIsValid(j: Option<Json>)
    requires j.Some? ==> Canonical(j.value)
    ensures DecodeSnapshot(j).Some? ==> ValidSnapshot(DecodeSnapshot(j).value)
  {
    AtCanonical(j, KRawSpec);
    hide IsBlank, OnlyKeys, Names, At, IsFloatLiteral;
  }

  /** Whatever version is accepted, the aggregate is valid; old versions give the defaults of the fields they lack. */
  lemma AcceptedIsValid(j: Json)
    requires Canonical(j) && DecodeEnvelope(j).Some?
    ensures var s, version := DecodeEnvelope(j).value, VersionOf(j.members);
      && ValidAggregate(s) && version.Some?
      && (version.value < 4 && s.cycle.Some? ==> WithoutRemainderFields(s.cycle.value))
      && (version.value < 3 ==> s.pendingClose.None?) && (version.value < 2 ==> s.pendingEntry.None?)
  {
    hide DecodeCycle, DecodeSnapshot, DecodeMarkers, ValidCycle, ValidSnapshot, IsBlank, IsPositiveExactDecimal, OnlyKeys, Names,
      At, Canonical, WithoutRemainderFields, Text, VersionOf;
    var d, version := j.members, VersionOf(j.members).value;
    AtCanonical(Some(j), KRegisteredSpecSnapshot);
    DecodedSnapshotIsValid(At(d, KRegisteredSpecSnapshot));
    DecodedCycleIsValid(At(d, KCurrentTradeCycle), version == 4);
    DecodedMarkersAreValid(d, version);
  }

  lemma DecodedMarkersAreValid(d: Dict, version: nat)
    requires DecodeMarkers(d, version).Some?
    ensures var (entry, close) := DecodeMarkers(d, version).value;
      && (entry.Some? ==> entry.value != "") && (close.Some? ==> close.value != "")
      && (version < 3 ==> close.None?) && (version < 2 ==> entry.None?)
  {
    hide OnlyKeys, Names, At;
  }
}
