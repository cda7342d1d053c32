/** The protocol allows the whole life of a trade: nothing proved about its runs is proved of no run. */
module Lifecycle {
  import opened Wrappers
  import opened DecimalText
  import opened DecimalNormalize
  import opened Recipes
  import opened Json
  import opened State
  import opened Lifetime
  import opened EntryReconciliation
  import opened FirstFill
  import opened Discipline
  import opened Safety
  import opened Saves

  /** One more legal step. */
  lemma Advance(r: Run, l: Label) returns (r': Run)
    requires Legal(r) && Enabled(After(r), l)
    ensures r' == Then(r, l) && Legal(r') && After(r') == Next(After(r), l) && Inv(After(r'))
  {
    hide Enabled, Next, Inv;
    r' := Then(r, l);
    RunKeepsInv(r');
  }

  /** Registering and applying: the marker first, then the request, then the confirmed cycle. */
  lemma EntryIsPossible(s: Aggregate, id: string, entry: DesiredEntry, quantity: string) returns (r: Run)
    requires Coherent(s) && s.cycle.None? && !Marked(s) && id != "" && ValidEntry(entry) && IsExactDecimal(quantity)
    ensures Legal(r) && Inv(After(r)) && !After(r).poisoned && After(r).used == {id}
    ensures After(r).stored == Some(s.(cycle := Some(ConfirmedCycle(id, entry, quantity))))
    ensures After(r).exchange == map[id := Working] && After(r).journal == [] && After(r).openDue == {} == After(r).endDue
  {
    hide Legal, After, Coherent, Permitted, ValidEntry, IsExactDecimal, Inv;
    r := Start;
    StartIsFirst();
    r := Advance(r, Register(s));
    MayMarkEntry(After(r), s.(pendingEntry := Some(id)), id);
    r := Advance(r, Save(s.(pendingEntry := Some(id))));
    r := Advance(r, SendApply(id));
    r := Advance(r, Evolve(id, Working));
    MayBuildCycle(After(r), s.(cycle := Some(ConfirmedCycle(id, entry, quantity))), id, entry, quantity);
    r := Advance(r, Save(s.(cycle := Some(ConfirmedCycle(id, entry, quantity)))));
    assert map[id := InFlight][id := Working] == map[id := Working];
  }

  lemma StartIsFirst()
    ensures Legal(Start) && After(Start) == FIRST
  {
  }

  /** From the fill to the close and back to a quiet state, with one opened and one closed record. */
  lemma WholeTradeIsPossible(mode: Mode, s: Aggregate, id: string, entry: DesiredEntry, quantity: string, firstFill: int)
      returns (r: Run)
    requires Coherent(s) && s.cycle.None? && !Marked(s) && id != "" && ValidEntry(entry) && IsExactDecimal(quantity)
    requires Freeze(mode, s.(cycle := Some(ConfirmedCycle(id, entry, quantity))), id, firstFill).Success?
    ensures Legal(r) && After(r).stored == Some(s) && After(r).exchange == map[id := Gone] && id in After(r).settled
    ensures After(r).journal == [Opened(id), Closed(id)]
  {
    hide Legal, After, Coherent, Permitted, ValidEntry, IsExactDecimal, Inv, Freeze;
    r := EntryIsPossible(s, id, entry, quantity);
    var held := s.(cycle := Some(ConfirmedCycle(id, entry, quantity)));
    StoredIsCoherent(After(r));
    FreezeKeepsCoherent(mode, held, id, firstFill);
    var frozen := Freeze(mode, held, id, firstFill).value;
    r := Advance(r, Evolve(id, Filled));
    MayFreeze(After(r), mode, frozen, id, firstFill);
    r := Advance(r, Save(frozen));
    r := Advance(r, Journal(Opened(id)));
    MayMarkClose(After(r), frozen.(pendingClose := Some(id)));
    r := Advance(r, Save(frozen.(pendingClose := Some(id))));
    r := CloseIsPossible(r, s, frozen, id);
  }

  lemma CloseIsPossible(before: Run, s: Aggregate, frozen: Aggregate, id: string) returns (r: Run)
    requires Legal(before) && Inv(After(before)) && !After(before).poisoned && IsFrozen(frozen) && frozen.cycle.value.id == id
    requires After(before).stored == Some(frozen.(pendingClose := Some(id))) && s == frozen.(cycle := None) && !Marked(s)
    requires After(before).exchange == map[id := Filled] && After(before).journal == [Opened(id)] && id in After(before).used
    ensures Legal(r) && After(r).stored == Some(s) && After(r).exchange == map[id := Gone] && id in After(r).settled
    ensures After(r).journal == [Opened(id), Closed(id)]
  {
    hide Legal, After, Coherent, Permitted, Inv;
    r := Advance(before, Evolve(id, Gone));
    r := Advance(r, Evidence(id));
    MayDrop(After(r), s);
    r := Advance(r, Save(s));
    r := Advance(r, Journal(Closed(id)));
    assert map[id := Filled][id := Gone] == map[id := Gone];
    assert [Opened(id)] + [Closed(id)] == [Opened(id), Closed(id)];
  }

  // ---------------------------------------------------------------- and its starting points exist

  lemma OneIsPositive()
    ensures Parse("1") == Some(Decimal(false, 1, 0)) && IsPositiveExactDecimal("1") && IsExactDecimal("1")
  {
    var p := Pieces("", "1", false, "", "", "", "");
    assert p.whole + p.frac == "1" == Digits(1);
    assert p.Text() == "1";
    ParseAcceptsGrammar(p);
  }

  lemma SomeEntryExists(sourceBar: nat) returns (e: DesiredEntry)
    ensures ValidEntry(e) && e.sourceBar == sourceBar
  {
    OneIsPositive();
    hide Parse, Normalize;
    ExactDecimalNormalizes("1");
    NormalizeIsNormal("1");
    CanonicalParses(Decimal(false, 1, 0));
    var one := Normalize("1").value;
    assert !IsBlank("x") by { assert !IsSpace("x"[0]); }
    e := DesiredEntry("long", sourceBar, one, one, one, "x");
  }

  const PLAIN_INSTANCE := Aggregate("i", "i", SpecSnapshot("i", "1m", NoMember, "i"), "1", None, None, None)

  lemma SomeQuietInstanceExists() returns (s: Aggregate)
    ensures s == PLAIN_INSTANCE && Coherent(s) && s.cycle.None? && !Marked(s)
  {
    OneIsPositive();
    hide Parse, IsPositiveExactDecimal;
    assert !IsSpace("i"[0]) && !IsSpace("1m"[0]);
    s := PLAIN_INSTANCE;
  }
}
