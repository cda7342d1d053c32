/** Which characters of a durable line a reader that splits at every Unicode line break would cut at. */
module LineBreaks {
  import opened Wrappers
  import opened DecimalText
  import opened DecimalNormalize
  import opened Recipes
  import opened Json
  import opened JsonText
  import opened JsonCut
  import opened State
  import opened Codec
  import opened StateLines

  /** The characters `str.splitlines` splits at. */
  predicate IsLineBreak(c: char) {
    var n := c as int;
    0x0a <= n <= 0x0d || 0x1c <= n <= 0x1e || n == 0x85 || n == 0x2028 || n == 0x2029
  }

  predicate Unbroken(t: string) {
    forall i | 0 <= i < |t| :: !IsLineBreak(t[i])
  }

  /** NEL, LS and PS: the line breaks that the writer leaves unescaped. */
  predicate IsUnescapedBreak(c: char) {
    var n := c as int;
    n == 0x85 || n == 0x2028 || n == 0x2029
  }

  predicate CleanText(t: string) {
    forall i | 0 <= i < |t| :: !IsUnescapedBreak(t[i])
  }

  predicate Clean(j: Json) {
    match j
    case Str(s) => CleanText(s)
    case Arr(items) => CleanItems(items)
    case Obj(d) => CleanDict(d)
    case Null | Bool(_) | Int(_) | Flt(_) => true
  }

  predicate CleanItems(items: Items) {
    items.NoItem? || (Clean(items.head) && CleanItems(items.tail))
  }

  predicate CleanDict(d: Dict) {
    d.NoMember? || (CleanText(d.key) && Clean(d.value) && CleanDict(d.rest))
  }

  // ---------------------------------------------------------------- written text

  lemma UnbrokenConcat(a: string, b: string)
    ensures Unbroken(a + b) <==> Unbroken(a) && Unbroken(b)
  {
    if Unbroken(a + b) {
      forall i | 0 <= i < |a| ensures !IsLineBreak(a[i]) { assert (a + b)[i] == a[i]; }
      forall i | 0 <= i < |b| ensures !IsLineBreak(b[i]) { assert (a + b)[|a| + i] == b[i]; }
    }
  }

  lemma EscapeUnbroken(c: char)
    ensures Unbroken(Escape(c)) <==> !IsUnescapedBreak(c)
  {
    var n := c as int;
    assert |Escape(c)| == 1 ==> Escape(c)[0] == c;
  }

  lemma CleanCons(s: string)
    requires s != ""
    ensures CleanText(s) <==> !IsUnescapedBreak(s[0]) && CleanText(s[1..])
  {
    if !IsUnescapedBreak(s[0]) && CleanText(s[1..]) {
      forall i | 0 <= i < |s| ensures !IsUnescapedBreak(s[i]) { assert i > 0 ==> s[i] == s[1..][i - 1]; }
    }
  }

  lemma {:induction false} CharsUnbroken(s: string)
    ensures Unbroken(WriteChars(s, "")) <==> CleanText(s)
  {
    if s != "" {
      hide Escape, Unbroken, CleanText;
      CharsUnbroken(s[1..]);
      EscapeUnbroken(s[0]);
      UnbrokenConcat(Escape(s[0]), WriteChars(s[1..], ""));
      CleanCons(s);
    }
  }

  lemma NumberTextUnbroken(t: string)
    requires forall i | 0 <= i < |t| :: IsNumberChar(t[i])
    ensures Unbroken(t)
  {
  }

  /** A written value is one line exactly when no string in it holds NEL, LS or PS. */
  lemma {:induction false} WrittenUnbroken(j: Json)
    requires Canonical(j)
    ensures Unbroken(Write(j, "")) <==> Clean(j)
    decreases j
  {
    hide IsFloatLiteral, IntText, WriteItems, WriteDict, WriteChars;
    match j
    case Null => assert Write(j, "") == "null";
    case Bool(b) => assert Write(j, "") == if b then "true" else "false";
    case Int(n) =>
      assert Write(j, "") == IntText(n);
      IntIsNumberChars(n);
      NumberTextUnbroken(IntText(n));
    case Flt(t) =>
      assert Write(j, "") == t;
      FloatIsNumberChars(t);
      NumberTextUnbroken(t);
    case Str(s) =>
      CharsUnbroken(s);
      UnbrokenConcat("\"", WriteChars(s, ""));
    case Arr(items) =>
      WriteArray(items, "");
      ItemsUnbroken(items);
      UnbrokenBetween("[", WriteItems(items, ""), "]");
      assert Write(j, "") == "[" + WriteItems(items, "") + "]";
    case Obj(d) =>
      WriteObject(d, "");
      DictUnbroken(d);
      UnbrokenBetween("{", WriteDict(d, ""), "}");
      assert Write(j, "") == "{" + WriteDict(d, "") + "}";
  }

  // ---------------------------------------------------------------- no carriage return

  predicate NoReturn(t: string) {
    '\r' !in t
  }

  lemma NoReturnConcat(a: string, b: string)
    requires NoReturn(a) && NoReturn(b)
    ensures NoReturn(a + b)
  {
  }

  lemma {:induction false} NoReturnInChars(s: string)
    ensures NoReturn(WriteChars(s, ""))
  {
    if s != "" {
      NoReturnInChars(s[1..]);
      EscapeHasNoReturn(s[0]);
      NoReturnConcat(Escape(s[0]), WriteChars(s[1..], ""));
    }
  }

  lemma EscapeHasNoReturn(c: char)
    ensures NoReturn(Escape(c))
  {
  }

  lemma NoReturnInNumber(t: string)
    requires forall i | 0 <= i < |t| :: IsNumberChar(t[i])
    ensures NoReturn(t)
  {
  }

  lemma {:induction false} NoReturnWritten(j: Json)
    requires Canonical(j)
    ensures NoReturn(Write(j, ""))
    decreases j
  {
    hide IsFloatLiteral, IntText, WriteItems, WriteDict, WriteChars, NoReturn;
    match j
    case Null =>
      assert Write(j, "") == "null";
      NoReturnInWords();
    case Bool(b) =>
      assert Write(j, "") == if b then "true" else "false";
      NoReturnInWords();
    case Int(n) =>
      assert Write(j, "") == IntText(n);
      IntIsNumberChars(n);
      NoReturnInNumber(IntText(n));
    case Flt(t) =>
      assert Write(j, "") == t;
      FloatIsNumberChars(t);
      NoReturnInNumber(t);
    case Str(s) =>
      NoReturnInWords();
      NoReturnInChars(s);
      NoReturnConcat("\"", WriteChars(s, ""));
    case Arr(items) =>
      NoReturnInWords();
      WriteArray(items, "");
      NoReturnItems(items);
      NoReturnConcat("[", WriteItems(items, ""));
      NoReturnConcat("[" + WriteItems(items, ""), "]");
      assert Write(j, "") == "[" + WriteItems(items, "") + "]";
    case Obj(d) =>
      NoReturnInWords();
      WriteObject(d, "");
      NoReturnDict(d);
      NoReturnConcat("{", WriteDict(d, ""));
      NoReturnConcat("{" + WriteDict(d, ""), "}");
      assert Write(j, "") == "{" + WriteDict(d, "") + "}";
  }

  lemma NoReturnInWords()
    ensures NoReturn("null") && NoReturn("true") && NoReturn("false") && NoReturn("\"") && NoReturn("")
    ensures NoReturn("[") && NoReturn("]") && NoReturn("{") && NoReturn("}") && NoReturn(",") && NoReturn(":")
  {
  }

  lemma {:induction false} NoReturnItems(items: Items)
    requires CanonicalItems(items)
    ensures NoReturn(WriteItems(items, ""))
    decreases items
  {
    hide Write, WriteItems, Canonical, NoReturn;
    WriteItemsAppends(items, "");
    NoReturnInWords();
    if items.Item? {
      NoReturnWritten(items.head);
      NoReturnItems(items.tail);
      NoReturnConcat(",", WriteItems(items.tail, ""));
      NoReturnConcat(Write(items.head, ""), if items.tail.NoItem? then "" else "," + WriteItems(items.tail, ""));
    }
  }

  lemma {:induction false} NoReturnDict(d: Dict)
    requires CanonicalDict(d)
    ensures NoReturn(WriteDict(d, ""))
    decreases d
  {
    hide Write, WriteDict, WriteChars, Canonical, Before, NoReturn;
    WriteDictAppends(d, "");
    NoReturnInWords();
    if d.Member? {
      NoReturnWritten(d.value);
      NoReturnInChars(d.key);
      NoReturnConcat("\"", WriteChars(d.key, ""));
      NoReturnConcat("\"" + WriteChars(d.key, ""), ":");
      NoReturnConcat("\"" + WriteChars(d.key, "") + ":", Write(d.value, ""));
      NoReturnDict(d.rest);
      NoReturnConcat(",", WriteDict(d.rest, ""));
      NoReturnConcat(MemberText(d.key, d.value), if d.rest.NoMember? then "" else "," + WriteDict(d.rest, ""));
    }
  }

  lemma UnbrokenBetween(a: string, t: string, b: string)
    requires Unbroken(a) && Unbroken(b)
    ensures Unbroken(a + t + b) <==> Unbroken(t)
  {
    hide Unbroken;
    UnbrokenConcat(a + t, b);
    UnbrokenConcat(a, t);
  }

  lemma {:induction false} ItemsUnbroken(items: Items)
    requires CanonicalItems(items)
    ensures Unbroken(WriteItems(items, "")) <==> CleanItems(items)
    decreases items
  {
    hide Write, WriteItems, Canonical, Clean;
    WriteItemsAppends(items, "");
    if items.Item? {
      WrittenUnbroken(items.head);
      var p := Write(items.head, "");
      if items.tail.NoItem? {
        assert WriteItems(items, "") == p;
      } else {
        ItemsUnbroken(items.tail);
        var q := WriteItems(items.tail, "");
        UnbrokenBetween(",", q, "");
        UnbrokenConcat(p, "," + q);
        assert "," + q + "" == "," + q;
        hide Unbroken;
      }
    }
  }

  lemma {:induction false} DictUnbroken(d: Dict)
    requires CanonicalDict(d)
    ensures Unbroken(WriteDict(d, "")) <==> CleanDict(d)
    decreases d
  {
    hide Write, WriteDict, WriteChars, Canonical, Clean, CleanText, MemberText, Before;
    WriteDictAppends(d, "");
    if d.Member? {
      WrittenUnbroken(d.value);
      MemberUnbroken(d.key, d.value);
      var p := MemberText(d.key, d.value);
      if d.rest.NoMember? {
        assert WriteDict(d, "") == p;
      } else {
        DictUnbroken(d.rest);
        var q := WriteDict(d.rest, "");
        UnbrokenBetween(",", q, "");
        UnbrokenConcat(p, "," + q);
        assert "," + q + "" == "," + q;
        hide Unbroken;
      }
    }
  }

  lemma MemberUnbroken(key: string, value: Json)
    requires Unbroken(Write(value, "")) <==> Clean(value)
    ensures Unbroken(MemberText(key, value)) <==> CleanText(key) && Clean(value)
  {
    hide Write, WriteChars, Clean, CleanText;
    var k, v := WriteChars(key, ""), Write(value, "");
    CharsUnbroken(key);
    UnbrokenBetween("\"", k, ":");
    UnbrokenConcat("\"" + k + ":", v);
    hide Unbroken;
  }

  // ---------------------------------------------------------------- the aggregate's own strings

  predicate CleanEntry(e: DesiredEntry) {
    CleanText(e.profile)
  }

  predicate CleanCycle(c: TradeCycle) {
    CleanText(c.id) && CleanEntry(c.package.entry) && (c.frozen.Some? ==> CleanEntry(c.frozen.value.entry))
  }

  predicate CleanSnapshot(s: SpecSnapshot) {
    CleanText(s.instrument) && CleanText(s.timeframe) && CleanText(s.sourcePath) && CleanDict(s.rawSpec)
  }

  /** No string a user, the Engine or the executor chose holds NEL, LS or PS. */
  predicate CleanState(s: Aggregate) {
    && CleanText(s.instance) && CleanText(s.strategy) && CleanSnapshot(s.snapshot)
    && (s.cycle.Some? ==> CleanCycle(s.cycle.value))
    && (s.pendingEntry.Some? ==> CleanText(s.pendingEntry.value))
  }

  lemma CleanPut(d: Dict, k: string, v: Json)
    requires Get(d, k).None?
    ensures CleanDict(Put(d, k, v)) <==> CleanDict(d) && CleanText(k) && Clean(v)
  {
    hide CleanText, Clean, Before;
  }

  lemma EntryWordsClean()
    ensures CleanText("side")
    ensures CleanText("source_plan_bar_open_time_ms")
    ensures CleanText("planned_entry_price")
    ensures CleanText("initial_stop_price")
  {
  }

  lemma MoreEntryWordsClean()
    ensures CleanText("initial_take_price")
    ensures CleanText("locked_exit_profile")
    ensures CleanText("applied_desired_entry")
    ensures CleanText("calculated_quantity")
  {
  }

  lemma EntryNamesClean(k: Key)
    requires k in {KSide, KSourcePlanBarOpenTimeMs, KPlannedEntryPrice, KInitialStopPrice, KInitialTakePrice, KLockedExitProfile, KAppliedDesiredEntry, KCalculatedQuantity}
    ensures CleanText(EntryName(k))
  {
    hide CleanText;
    EntryWordsClean();
    MoreEntryWordsClean();
  }

  lemma FrozenWordsClean()
    ensures CleanText("desired_entry")
    ensures CleanText("first_fill_at_ms")
    ensures CleanText("entry_bar_open_time_ms")
    ensures CleanText("entry_order_expires_at_bar")
    ensures CleanText("stop_price")
    ensures CleanText("take_price")
  {
  }

  lemma FrozenNamesClean(k: Key)
    requires k in {KDesiredEntry, KFirstFillAtMs, KEntryBarOpenTimeMs, KEntryOrderExpiresAtBar, KStopPrice, KTakePrice}
    ensures CleanText(FrozenName(k))
  {
    hide CleanText;
    FrozenWordsClean();
  }

  lemma CycleWordsClean()
    ensures CleanText("trade_cycle_id")
    ensures CleanText("applied_entry_package")
    ensures CleanText("frozen_entry_context")
  {
  }

  lemma MoreCycleWordsClean()
    ensures CleanText("latest_confirmed_management_protection")
    ensures CleanText("entry_remainder_cancelled")
  {
  }

  lemma CycleNamesClean(k: Key)
    requires k in {KTradeCycleId, KAppliedEntryPackage, KFrozenEntryContext, KLatestConfirmedManagementProtection, KEntryRemainderCancelled}
    ensures CleanText(CycleName(k))
  {
    hide CleanText;
    CycleWordsClean();
    MoreCycleWordsClean();
  }

  lemma SnapshotWordsClean()
    ensures CleanText("instrument")
    ensures CleanText("base_timeframe")
    ensures CleanText("raw_spec")
    ensures CleanText("source_path")
  {
  }

  lemma SnapshotNamesClean(k: Key)
    requires k in {KInstrument, KBaseTimeframe, KRawSpec, KSourcePath}
    ensures CleanText(SnapshotName(k))
  {
    hide CleanText;
    SnapshotWordsClean();
  }

  lemma EnvelopeWordsClean()
    ensures CleanText("schema_version")
    ensures CleanText("strategy_instance_id")
    ensures CleanText("strategy_id")
    ensures CleanText("registered_spec_snapshot")
  {
  }

  lemma MoreEnvelopeWordsClean()
    ensures CleanText("risk_multiplier")
    ensures CleanText("current_trade_cycle")
    ensures CleanText("pending_entry_recovery")
    ensures CleanText("pending_close_recovery")
  {
  }

  lemma EnvelopeNamesClean(k: Key)
    requires k in {KSchemaVersion, KStrategyInstanceId, KStrategyId, KRegisteredSpecSnapshot, KRiskMultiplier, KCurrentTradeCycle, KPendingEntryRecovery, KPendingCloseRecovery}
    ensures CleanText(EnvelopeName(k))
  {
    hide CleanText;
    EnvelopeWordsClean();
    MoreEnvelopeWordsClean();
  }

  lemma NamesClean(k: Key)
    ensures CleanText(Name(k))
  {
    hide CleanText, EntryName, FrozenName, CycleName, SnapshotName, EnvelopeName;
    match k
    case KSide | KSourcePlanBarOpenTimeMs | KPlannedEntryPrice | KInitialStopPrice | KInitialTakePrice | KLockedExitProfile | KAppliedDesiredEntry | KCalculatedQuantity => EntryNamesClean(k);
    case KDesiredEntry | KFirstFillAtMs | KEntryBarOpenTimeMs | KEntryOrderExpiresAtBar | KStopPrice | KTakePrice => FrozenNamesClean(k);
    case KTradeCycleId | KAppliedEntryPackage | KFrozenEntryContext | KLatestConfirmedManagementProtection | KEntryRemainderCancelled => CycleNamesClean(k);
    case KInstrument | KBaseTimeframe | KRawSpec | KSourcePath => SnapshotNamesClean(k);
    case KSchemaVersion | KStrategyInstanceId | KStrategyId | KRegisteredSpecSnapshot | KRiskMultiplier | KCurrentTradeCycle | KPendingEntryRecovery | KPendingCloseRecovery => EnvelopeNamesClean(k);
  }

  lemma WithsClean()
    ensures forall d: Dict, k: Key, v: Json | At(d, k).None? :: CleanDict(With(d, k, v)) <==> CleanDict(d) && Clean(v)
    ensures forall k: Key :: At(NoMember, k).None?
    ensures CleanDict(NoMember)
  {
    hide Name;
    forall d: Dict, k: Key, v: Json | At(d, k).None? ensures CleanDict(With(d, k, v)) <==> CleanDict(d) && Clean(v) {
      CleanPut(d, Name(k), v);
      NamesClean(k);
    }
  }

  lemma DecimalClean(t: string)
    requires IsExactDecimal(t)
    ensures CleanText(t)
  {
    var p := ParseOnlyGrammar(t);
    PiecesClean(p);
  }

  lemma CleanConcat(a: string, b: string)
    requires CleanText(a) && CleanText(b)
    ensures CleanText(a + b)
  {
  }

  lemma PiecesClean(p: Pieces)
    requires p.WellFormed()
    ensures CleanText(p.Text())
  {
    CleanConcat(".", p.frac);
    CleanConcat(p.whole, if p.point then "." + p.frac else "");
    CleanConcat(p.sign, p.Mantissa());
    CleanConcat(p.expSign, p.expDigits);
    CleanConcat(p.mark, p.expSign + p.expDigits);
    CleanConcat(p.sign + p.Mantissa(), p.Tail());
  }

  lemma PriceClean(t: string)
    requires IsNormal(t)
    ensures CleanText(t)
  {
    NormalizeIsNormal(t);
    DecimalClean(t);
  }

  lemma EntryClean(e: DesiredEntry)
    requires ValidEntry(e)
    ensures CleanDict(EncodeDesiredEntry(e)) <==> CleanEntry(e)
  {
    hide With, At, CleanText, Normalize, IsPositiveExactDecimal, IsBlank, CleanDict;
    WithsClean();
    AtAfterWith();
    SideClean(e.side);
    PriceClean(e.plannedPrice);
    PriceClean(e.stopPrice);
    PriceClean(e.takePrice);
  }

  lemma SideClean(side: string)
    requires IsSide(side)
    ensures CleanText(side)
  {
  }

  lemma PackageClean(p: EntryPackage)
    requires ValidPackage(p)
    ensures CleanDict(EncodePackage(p)) <==> CleanEntry(p.entry)
  {
    hide With, At, CleanText, ValidEntry, IsExactDecimal, CleanEntry, EncodeDesiredEntry, CleanDict;
    WithsClean();
    AtAfterWith();
    EntryClean(p.entry);
    DecimalClean(p.quantity);
  }

  lemma FrozenClean(f: FrozenEntry)
    requires ValidFrozen(f)
    ensures CleanDict(EncodeFrozen(f)) <==> CleanEntry(f.entry)
  {
    hide With, At, CleanText, ValidEntry, CleanEntry, EncodeDesiredEntry, CleanDict;
    WithsClean();
    AtAfterWith();
    EntryClean(f.entry);
  }

  lemma ProtectionClean(p: DesiredProtection)
    requires ValidProtection(p)
    ensures CleanDict(EncodeProtection(p))
  {
    hide With, At, CleanText, Normalize, CleanDict;
    WithsClean();
    AtAfterWith();
    PriceClean(p.stopPrice);
    if p.takePrice.Some? { PriceClean(p.takePrice.value); }
  }

  lemma CycleClean(c: TradeCycle)
    requires ValidCycle(c)
    ensures CleanDict(EncodeCycle(c)) <==> CleanCycle(c)
  {
    hide With, At, CleanText, ValidPackage, ValidFrozen, ValidProtection, CleanEntry, CleanDict,
      EncodePackage, EncodeFrozen, EncodeProtection;
    WithsClean();
    AtAfterWith();
    PackageClean(c.package);
    if c.frozen.Some? { FrozenClean(c.frozen.value); }
    if c.protection.Some? { ProtectionClean(c.protection.value); }
  }

  lemma SnapshotClean(s: SpecSnapshot)
    ensures CleanDict(EncodeSnapshot(s)) <==> CleanSnapshot(s)
  {
    hide With, At, CleanText, CleanDict;
    WithsClean();
    AtAfterWith();
  }

  lemma MarkerClean(id: Option<string>)
    ensures Clean(EncodeMarker(id)) <==> (id.Some? ==> CleanText(id.value))
  {
    hide With, At, CleanText, CleanDict;
    WithsClean();
    AtAfterWith();
  }

  lemma FieldsClean(s: Aggregate)
    requires CleanText(s.riskMultiplier)
    ensures CleanDict(EncodeState(s)) <==>
      && CleanText(s.instance) && CleanText(s.strategy) && CleanDict(EncodeSnapshot(s.snapshot))
      && (s.cycle.Some? ==> CleanDict(EncodeCycle(s.cycle.value)))
      && Clean(EncodeMarker(s.pendingEntry)) && Clean(EncodeMarker(s.pendingClose))
  {
    hide With, At, CleanText, CleanDict, EncodeSnapshot, EncodeCycle, EncodeMarker;
    WithsClean();
    AtAfterWith();
  }

  /** The line of a valid aggregate is one line exactly when its own strings are clean. */
  lemma LineUnbrokenIffClean(s: Aggregate)
    requires ValidAggregate(s)
    ensures Unbroken(EncodeLine(s)) <==> CleanState(s)
  {
    hide Unbroken, CleanText, CleanDict, CleanCycle, CleanSnapshot, EncodeState, EncodeSnapshot, EncodeCycle, EncodeMarker,
      ValidCycle, ValidSnapshot, IsBlank, IsPositiveExactDecimal, Canonical, Dumps;
    StateCanonical(s);
    ObjectUnbroken(EncodeState(s));
    PositiveMeansExact(s.riskMultiplier);
    DecimalClean(s.riskMultiplier);
    FieldsClean(s);
    SnapshotClean(s.snapshot);
    if s.cycle.Some? { CycleClean(s.cycle.value); CycleIdClean(s.cycle.value); }
    MarkerClean(s.pendingEntry);
    MarkerClean(s.pendingClose);
  }

  lemma ObjectUnbroken(d: Dict)
    requires CanonicalDict(d)
    ensures Unbroken(Dumps(Obj(d))) <==> CleanDict(d)
  {
    WrittenUnbroken(Obj(d));
  }

  lemma CycleIdClean(c: TradeCycle)
    ensures CleanCycle(c) ==> CleanText(c.id)
  {
  }
}
