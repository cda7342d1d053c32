/** Safety of every run of the protocol, at every instant of it. */
module Safety {
  import opened Wrappers
  import opened State
  import opened FirstFill
  import opened Discipline
  import opened LogTail
  import LineBreaks

  // ---------------------------------------------------------------- one step, whatever became of the log

  lemma AppendChoices(v: View<Option<Aggregate>>, saved: Option<Aggregate>, cut: Cut)
    ensures var v' := AfterAppend(v, saved, cut);
      && (v'.disk == v.disk || v'.disk == v.kept || v'.disk == saved)
      && (v'.kept == v.kept || v'.kept == saved)
  {
  }

  lemma ProperMore(s: Option<Aggregate>, used: set<string>, more: set<string>)
    requires Proper(s, used)
    ensures Proper(s, used + more)
  {
    hide Coherent;
  }

  /** What `AfterSave` and `AfterTorn` have in common. */
  predicate Offered(w: World, w': World, s': Aggregate, cut: Cut) {
    && w'.file == AfterAppend(w.file, Some(s'), cut) && w'.tailKept == (w.tailKept && Harmless(w.file, cut))
    && w'.used == w.used + Names(s') && w'.exchange == w.exchange && w'.settled == w.settled && w'.journal == w.journal
    && (w'.stored == w.stored || w'.stored == Some(s'))
  }

  lemma SaveOffers(w: World, s': Aggregate)
    ensures Offered(w, AfterSave(w, s'), s', WholeCut(s')) && AfterSave(w, s').stored == Some(s')
  {
    hide OpenOwed, EndOwed, WholeCut, AfterAppend, Harmless, Names;
  }

  lemma TornOffers(w: World, s': Aggregate, cut: Cut)
    ensures Offered(w, AfterTorn(w, s', cut), s', cut) && AfterTorn(w, s', cut).stored == w.stored
  {
    hide OpenOwed, EndOwed, AfterAppend, Harmless, Names, Lands;
  }

  lemma OfferKeepsKnown(w: World, w': World, s': Aggregate, cut: Cut)
    requires IdsKnown(w) && MayStore(w, s') && Offered(w, w', s', cut)
    ensures IdsKnown(w')
  {
    StoredIsProper(w, s');
    hide Coherent, MayStore, AfterAppend, Harmless, Names;
    AppendChoices(w.file, Some(s'), cut);
    ProperMore(w.stored, w.used, Names(s'));
    ProperMore(w.file.disk, w.used, Names(s'));
    ProperMore(w.file.kept, w.used, Names(s'));
    SameLive(w, w');
    hide Proper;
  }

  lemma StoredIsProper(w: World, s': Aggregate)
    requires MayStore(w, s')
    ensures Proper(Some(s'), w.used + Names(s'))
  {
    hide Coherent, SameRegistration, Extends;
  }

  lemma SameLive(w: World, w': World)
    requires w'.exchange == w.exchange
    ensures forall id :: MayBeLive(w', id) == MayBeLive(w, id)
  {
  }

  lemma ForeignKeepsKnown(w: World, cut: Cut, failed: bool)
    requires IdsKnown(w)
    ensures IdsKnown(AfterForeign(w, cut, failed))
  {
    hide Proper, AfterAppend, Harmless;
    AppendChoices(w.file, w.file.disk, cut);
    SameLive(w, AfterForeign(w, cut, failed));
  }

  lemma RestartKeepsKnown(w: World)
    requires IdsKnown(w)
    ensures IdsKnown(AfterRestart(w)) && IdsKnown(w.(file := Mended(w.file)))
  {
    hide Proper;
    SameLive(w, AfterRestart(w));
    SameLive(w, w.(file := Mended(w.file)));
  }

  lemma EvolveKeepsKnown(w: World, id: string, to: Exchange)
    requires IdsKnown(w) && Enabled(w, Evolve(id, to))
    ensures IdsKnown(Next(w, Evolve(id, to)))
  {
    hide Proper;
    assert forall i :: MayBeLive(Next(w, Evolve(id, to)), i) ==> MayBeLive(w, i);
  }

  lemma SendApplyKeepsKnown(w: World, id: string)
    requires IdsKnown(w) && Enabled(w, SendApply(id))
    ensures IdsKnown(Next(w, SendApply(id)))
  {
    hide Coherent;
    var w' := Next(w, SendApply(id));
    assert forall i :: MayBeLive(w', i) == (i == id || MayBeLive(w, i));
    hide Proper;
  }

  lemma EvidenceKeepsKnown(w: World, id: string)
    requires IdsKnown(w) && Enabled(w, Evidence(id))
    ensures IdsKnown(Next(w, Evidence(id)))
  {
    hide Proper;
    SameLive(w, Next(w, Evidence(id)));
  }

  /** Records and file changes. */
  lemma FlagsKeepKnown(w: World, w': World)
    requires IdsKnown(w) && w'.stored == w.stored && w'.file == w.file && w'.used == w.used
    requires w'.exchange == w.exchange && w'.settled == w.settled
    ensures IdsKnown(w')
  {
    hide Proper;
    SameLive(w, w');
  }

  lemma StepKeepsKnown(w: World, l: Label)
    requires IdsKnown(w) && Enabled(w, l)
    ensures IdsKnown(Next(w, l))
  {
    hide IdsKnown, Permitted, Coherent, AfterSave, AfterTorn, AfterForeign, AfterRestart, Offered;
    match l
    case Register(s) => SaveOffers(w, s); OfferKeepsKnown(w, Next(w, l), s, WholeCut(s));
    case Save(s) => SaveOffers(w, s); OfferKeepsKnown(w, Next(w, l), s, WholeCut(s));
    case TornSave(s, cut) => TornOffers(w, s, cut); OfferKeepsKnown(w, Next(w, l), s, cut);
    case Foreign(cut, failed) => ForeignKeepsKnown(w, cut, failed);
    case Restart => RestartKeepsKnown(w);
    case Mend => RestartKeepsKnown(w);
    case Evolve(id, to) => EvolveKeepsKnown(w, id, to);
    case SendApply(id) => SendApplyKeepsKnown(w, id);
    case Evidence(id) => EvidenceKeepsKnown(w, id);
    case Journal(_) | WriteEnabled(_) | MoveToTrash => FlagsKeepKnown(w, Next(w, l));
  }

  // ---------------------------------------------------------------- one step while the tail is kept

  lemma RecordCounts(journal: seq<Record>, r: Record, id: string)
    ensures OpenedRecords(journal + [r], id) == OpenedRecords(journal, id) + (if r.Opened? && r.id == id then 1 else 0)
    ensures TerminalRecords(journal + [r], id) == TerminalRecords(journal, id) + (if !r.Opened? && r.id == id then 1 else 0)
  {
    assert (journal + [r])[..|journal|] == journal;
  }

  /** Steps that leave the durable state and the exchange alone leave both id tests alone. */
  lemma SameIdTests(w: World, w': World)
    requires w'.file.disk == w.file.disk && w'.exchange == w.exchange
    ensures forall id :: NamesNow(w', id) == NamesNow(w, id) && MayBeLive(w', id) == MayBeLive(w, id)
  {
  }

  /** Nothing that counts for records and orphans changed, except that more ids may be used up. */
  lemma SameDiskKeeps(w: World, w': World)
    requires NoOrphan(w) && OpenedOnce(w) && EndedOnce(w)
    requires w'.file.disk == w.file.disk && w'.exchange == w.exchange && w.used <= w'.used
    requires w'.openDue == w.openDue && w'.endDue == w.endDue && w'.journal == w.journal
    ensures NoOrphan(w') && OpenedOnce(w') && EndedOnce(w')
  {
    hide OpenedRecords, TerminalRecords;
    SameIdTests(w, w');
  }

  lemma JournalKeeps(w: World, r: Record)
    requires NoOrphan(w) && OpenedOnce(w) && EndedOnce(w) && Enabled(w, Journal(r))
    ensures var w' := Next(w, Journal(r)); NoOrphan(w') && OpenedOnce(w') && EndedOnce(w')
  {
    hide OpenedRecords, TerminalRecords;
    var w' := Next(w, Journal(r));
    SameIdTests(w, w');
    forall id
      ensures OpenedRecords(w'.journal, id) == OpenedRecords(w.journal, id) + (if r.Opened? && r.id == id then 1 else 0)
      ensures TerminalRecords(w'.journal, id) == TerminalRecords(w.journal, id) + (if !r.Opened? && r.id == id then 1 else 0)
    {
      RecordCounts(w.journal, r, id);
    }
  }

  /** A change from `s` to `s'` that is durable, with the records it owes. */
  predicate Landed(w: World, w': World, s': Aggregate) {
    && w.stored.Some? && w.stored == w.file.disk && Permitted(w, s')
    && w'.file.disk == Some(s') && w'.used == w.used + Names(s') && w'.exchange == w.exchange
    && w'.openDue == w.openDue + NewlyFrozen(w.stored.value, s') && w'.endDue == w.endDue + Dropped(w.stored.value, s')
    && w'.journal == w.journal
  }

  lemma LandedKeepsNoOrphan(w: World, w': World, s': Aggregate)
    requires IdsKnown(w) && NoOrphan(w) && Landed(w, w', s')
    ensures NoOrphan(w')
  {
    hide Coherent, SameRegistration, Extends;
    forall id | MayBeLive(w', id) ensures NamesNow(w', id) {
      assert MayBeLive(w, id) && NamesNow(w, id);
      assert id !in w.settled;
    }
  }

  lemma LandedKeepsOpened(w: World, w': World, s': Aggregate)
    requires IdsKnown(w) && OpenedOnce(w) && Landed(w, w', s')
    ensures OpenedOnce(w')
  {
    hide OpenedRecords, Coherent, SameRegistration;
    var s := w.stored.value;
    forall id ensures NamesNow(w', id) == (NamedId(s') == Some(id)) {}
    forall id ensures NamesNow(w, id) == (NamedId(s) == Some(id)) {}
    forall id | id in NewlyFrozen(s, s')
      ensures id !in w.openDue && OpenedRecords(w.journal, id) == 0
    {
      assert NamedId(s') == Some(id);
      if NamedId(s) == NamedId(s') {
        assert NamesNow(w, id) && !IsFrozen(s);
      }
    }
  }

  lemma LandedKeepsEnded(w: World, w': World, s': Aggregate)
    requires IdsKnown(w) && EndedOnce(w) && Landed(w, w', s')
    ensures EndedOnce(w')
  {
    hide TerminalRecords, Coherent, SameRegistration;
    var s := w.stored.value;
    forall id ensures NamesNow(w', id) == (NamedId(s') == Some(id)) {}
    forall id ensures NamesNow(w, id) == (NamedId(s) == Some(id)) {}
    forall id | id in Dropped(s, s')
      ensures id !in w.endDue && TerminalRecords(w.journal, id) == 0
    {
      assert NamesNow(w, id);
    }
  }

  /** The first line of this instance: nothing was used, so nothing is live and nothing is recorded. */
  lemma FirstLineKeeps(w: World, w': World, s': Aggregate)
    requires IdsKnown(w) && NoOrphan(w) && OpenedOnce(w) && EndedOnce(w) && w.used == {} && NamedId(s').None?
    requires w'.file.disk in {w.file.disk, Some(s')} && w'.exchange == w.exchange && w'.used == {}
    requires w'.openDue == w.openDue && w'.endDue == w.endDue && w'.journal == w.journal && w.file.disk.None?
    ensures NoOrphan(w') && OpenedOnce(w') && EndedOnce(w')
  {
    hide OpenedRecords, TerminalRecords, Coherent;
    forall i ensures NamesNow(w', i) == NamesNow(w, i) && MayBeLive(w', i) == MayBeLive(w, i) {}
  }

  lemma AppendKeepsKept(w: World, s': Aggregate, cut: Cut, w': World)
    requires Inv(w) && !w.poisoned && MayStore(w, s') && w.tailKept && Harmless(w.file, cut)
    requires w'.file == AfterAppend(w.file, Some(s'), cut) && w'.used == w.used + Names(s') && w'.exchange == w.exchange
    requires w'.journal == w.journal
    requires w'.openDue == w.openDue + (if Lands(w.file, cut) then OpenOwed(w, s') else {})
    requires w'.endDue == w.endDue + (if Lands(w.file, cut) then EndOwed(w, s') else {})
    ensures NoOrphan(w') && OpenedOnce(w') && EndedOnce(w')
  {
    hide Coherent, Permitted, OpenedOnce, EndedOnce, NoOrphan, OpenedRecords, TerminalRecords, NewlyFrozen, Dropped;
    if w.stored.None? {
      FirstLineKeeps(w, w', s');
    } else if Lands(w.file, cut) {
      LandedKeepsNoOrphan(w, w', s');
      LandedKeepsOpened(w, w', s');
      LandedKeepsEnded(w, w', s');
    } else {
      SameDiskKeeps(w, w');
    }
  }

  lemma SaveKeepsKept(w: World, s': Aggregate)
    requires Inv(w) && !w.poisoned && MayStore(w, s') && AfterSave(w, s').tailKept
    ensures Kept(AfterSave(w, s'))
  {
    hide Coherent, Permitted, OpenedOnce, EndedOnce, NoOrphan, NewlyFrozen, Dropped, LineBreaks.CleanState;
    AppendKeepsKept(w, s', WholeCut(s'), AfterSave(w, s'));
  }

  lemma TornKeepsKept(w: World, s': Aggregate, cut: Cut)
    requires Inv(w) && !w.poisoned && MayStore(w, s') && AfterTorn(w, s', cut).tailKept
    ensures Kept(AfterTorn(w, s', cut))
  {
    hide Coherent, Permitted, OpenedOnce, EndedOnce, NoOrphan, NewlyFrozen, Dropped, Extends, SameRegistration;
    AppendKeepsKept(w, s', cut, AfterTorn(w, s', cut));
  }

  lemma EvolveKeepsKept(w: World, id: string, to: Exchange)
    requires Kept(w) && Enabled(w, Evolve(id, to))
    ensures Kept(Next(w, Evolve(id, to)))
  {
    hide OpenedRecords, TerminalRecords, Coherent;
    var w' := Next(w, Evolve(id, to));
    forall i ensures NamesNow(w', i) == NamesNow(w, i) && (MayBeLive(w', i) ==> MayBeLive(w, i)) {}
  }

  lemma SendApplyKeepsKept(w: World, id: string)
    requires Kept(w) && Enabled(w, SendApply(id))
    ensures Kept(Next(w, SendApply(id)))
  {
    hide OpenedRecords, TerminalRecords, Coherent;
    var w' := Next(w, SendApply(id));
    forall i ensures NamesNow(w', i) == NamesNow(w, i) && MayBeLive(w', i) == (i == id || MayBeLive(w, i)) {}
    assert NamesNow(w, id);
  }

  /** Another instance's append, mending, flags and restarts leave the durable state alone while the tail is kept. */
  lemma QuietStepKeepsKept(w: World, w': World)
    requires Kept(w) && (w'.file.tail.Clean? || w'.file.tail.Torn?) && (w'.poisoned || w'.stored == w'.file.disk)
    requires w'.file.disk == w.file.disk && w'.exchange == w.exchange && w'.used == w.used
    requires w'.openDue == w.openDue && w'.endDue == w.endDue && w'.journal == w.journal
    ensures Kept(w')
  {
    hide OpenedOnce, EndedOnce, NoOrphan;
    SameDiskKeeps(w, w');
  }

  lemma StepKeepsKept(w: World, l: Label)
    requires Inv(w) && Enabled(w, l) && Next(w, l).tailKept
    ensures w.tailKept && Kept(Next(w, l))
  {
    hide Coherent, SameRegistration, Extends, Permitted, OpenedOnce, EndedOnce, NoOrphan, IdsKnown, NewlyFrozen, Dropped,
      LineBreaks.CleanState;
    match l
    case Evolve(id, to) => EvolveKeepsKept(w, id, to);
    case Register(s) => SaveKeepsKept(w, s);
    case Save(s) => SaveKeepsKept(w, s);
    case TornSave(s, cut) => TornKeepsKept(w, s, cut);
    case SendApply(id) => SendApplyKeepsKept(w, id);
    case Journal(r) => JournalKeeps(w, r);
    case Evidence(_) | Foreign(_, _) | Mend | WriteEnabled(_) | MoveToTrash | Restart => QuietStepKeepsKept(w, Next(w, l));
  }

  lemma StepKeepsInv(w: World, l: Label)
    requires Inv(w) && Enabled(w, l)
    ensures Inv(Next(w, l))
  {
    hide Kept, IdsKnown, Enabled, Next;
    StepKeepsKnown(w, l);
    if Next(w, l).tailKept {
      StepKeepsKept(w, l);
    }
  }

  // ---------------------------------------------------------------- every run

  lemma {:induction false} RunKeepsInv(r: Run)
    requires Legal(r)
    ensures Inv(After(r))
  {
    hide Enabled, Next;
    match r
    case Start => FirstIsKept();
    case Then(prev, last) =>
      RunKeepsInv(prev);
      StepKeepsInv(After(prev), last);
  }

  lemma FirstIsKept()
    ensures Inv(FIRST)
  {
  }

  /** What one label appends to the log, if anything. */
  function CutOfLabel(l: Label): Cut {
    match l
    case Register(s) => WholeCut(s)
    case Save(s) => WholeCut(s)
    case TornSave(_, cut) => cut
    case Foreign(cut, _) => cut
    case _ => Nothing
  }

  /** No append followed a torn tail, and none held a line break inside. */
  predicate AppendsStartLines(r: Run)
    requires Legal(r)
  {
    r.Start? || (AppendsStartLines(r.prev) && Harmless(After(r.prev).file, CutOfLabel(r.last)))
  }

  lemma NothingIsHarmless(v: View<Option<Aggregate>>)
    ensures Harmless(v, Nothing)
  {
  }

  lemma StepTail(w: World, l: Label)
    requires Enabled(w, l)
    ensures Next(w, l).tailKept == (w.tailKept && Harmless(w.file, CutOfLabel(l)))
  {
    hide Permitted, MayStore, AfterAppend, WholeCut, AfterSave, AfterTorn, Harmless, CutPossible;
    NothingIsHarmless(w.file);
    if l.Register? || l.Save? {
      SaveOffers(w, l.s);
    } else if l.TornSave? {
      TornOffers(w, l.s, l.cut);
    }
  }

  /** The flag says exactly that. */
  lemma {:induction false} TailKeptIffAppendsStartLines(r: Run)
    requires Legal(r)
    ensures After(r).tailKept <==> AppendsStartLines(r)
  {
    hide Enabled, Next, Harmless, CutOfLabel;
    if r.Then? {
      TailKeptIffAppendsStartLines(r.prev);
      StepTail(After(r.prev), r.last);
    }
  }

  /**
   * Any cycle that may have a live order, position or in-flight request is named by the durable state, in every run
   * in which no append follows a torn tail and no appended string holds one of the three line breaks.
   */
  lemma NoOrphanEver(r: Run, id: string)
    requires Legal(r) && AppendsStartLines(r) && MayBeLive(After(r), id)
    ensures After(r).file.disk.Some?
    ensures var s := After(r).file.disk.value; (s.cycle.Some? && s.cycle.value.id == id) || s.pendingEntry == Some(id)
    ensures !After(r).poisoned ==> After(r).stored == After(r).file.disk
  {
    RunKeepsInv(r);
    TailKeptIffAppendsStartLines(r);
  }

  /** At most one cycle id is ever possibly live. */
  lemma AtMostOneLive(r: Run, a: string, b: string)
    requires Legal(r) && AppendsStartLines(r) && MayBeLive(After(r), a) && MayBeLive(After(r), b)
    ensures a == b
  {
    RunKeepsInv(r);
    TailKeptIffAppendsStartLines(r);
  }

  /** An entry request leaves only when every earlier id is settled for good. */
  lemma ApplyOnlyAfterEverythingSettled(r: Run, id: string, other: string)
    requires Legal(r) && AppendsStartLines(r) && r.Then? && r.last == SendApply(id) && other in After(r.prev).exchange
    ensures other != id && After(r.prev).exchange[other] == Gone
  {
    RunKeepsInv(r.prev);
    TailKeptIffAppendsStartLines(r.prev);
    OnlyNamedIsLive(After(r.prev), id, other);
  }

  lemma OnlyNamedIsLive(w: World, id: string, other: string)
    requires Inv(w) && w.tailKept && Enabled(w, SendApply(id)) && other in w.exchange
    ensures other != id && w.exchange[other] == Gone
  {
    hide OpenedRecords, TerminalRecords, Coherent, OpenedOnce, EndedOnce;
    assert NamesNow(w, id);
    assert MayBeLive(w, other) ==> NamesNow(w, other);
  }

  // ---------------------------------------------------------------- what one step never undoes

  lemma StepGrows(w: World, l: Label)
    requires Enabled(w, l)
    ensures w.used <= Next(w, l).used && w.settled <= Next(w, l).settled
    ensures Next(w, l).tailKept ==> w.tailKept
  {
    hide Permitted, MayStore, AfterAppend, WholeCut, AfterSave, AfterTorn, Harmless, CutPossible;
    if l.Register? || l.Save? {
      SaveOffers(w, l.s);
    } else if l.TornSave? {
      TornOffers(w, l.s, l.cut);
    }
  }

  /** The durable state after a step that keeps the tail: the one before, or one that a permitted save from it stored. */
  lemma StepOnDisk(w: World, l: Label)
    requires Inv(w) && Enabled(w, l) && Next(w, l).tailKept
    ensures var (d, d') := (w.file.disk, Next(w, l).file.disk);
      || d' == d
      || (d'.Some? && w.stored == d && (d.None? ==> NamedId(d'.value).None?) && (d.Some? ==> Permitted(w, d'.value)))
  {
    hide Permitted, Coherent, OpenedOnce, EndedOnce, NoOrphan, WholeCut, IdsKnown, AfterSave, AfterTorn, CutPossible;
    if l.Register? || l.Save? {
      SaveOffers(w, l.s);
    } else if l.TornSave? {
      TornOffers(w, l.s, l.cut);
    }
  }

  lemma StepNeverReturns(w: World, l: Label, id: string)
    requires Inv(w) && Enabled(w, l) && Next(w, l).tailKept && id in w.used && !NamesNow(w, id)
    ensures !NamesNow(Next(w, l), id)
  {
    hide Enabled, Next, Coherent, SameRegistration, Kept, IdsKnown, Extends;
    StepOnDisk(w, l);
  }

  lemma StepKeepsCycle(w: World, l: Label, id: string)
    requires Inv(w) && Enabled(w, l) && Next(w, l).tailKept && CycleIs(w, id)
    ensures NamesNow(Next(w, l), id) ==>
      CycleIs(Next(w, l), id) && Extends(w.file.disk.value.cycle.value, Next(w, l).file.disk.value.cycle.value)
  {
    hide Enabled, Next, Coherent, SameRegistration, Kept, IdsKnown;
    StepOnDisk(w, l);
  }

  lemma StepKeepsTerminal(w: World, l: Label, id: string)
    requires Enabled(w, l)
    ensures TerminalRecords(Next(w, l).journal, id) >= TerminalRecords(w.journal, id)
  {
    hide Permitted, MayStore, AfterAppend, WholeCut, AfterSave, AfterTorn, CutPossible, TerminalRecords;
    if l.Register? || l.Save? {
      SaveOffers(w, l.s);
    } else if l.TornSave? {
      TornOffers(w, l.s, l.cut);
    }
    if l.Journal? {
      RecordCounts(w.journal, l.record, id);
    }
  }

  /** A settled id is never live again, whatever became of the log. */
  lemma {:induction false} SettledForever(early: Run, late: Run, id: string)
    requires Legal(late) && Prefix(early, late)
    ensures Legal(early)
    ensures id in After(early).settled ==> id in After(late).settled && !MayBeLive(After(late), id)
  {
    hide Enabled, Next, Kept;
    RunKeepsInv(late);
    if early != late {
      SettledForever(early, late.prev, id);
      StepGrows(After(late.prev), late.last);
    }
  }

  /** Each id gets at most one opened and at most one terminal record. */
  lemma JournaledAtMostOnce(r: Run, id: string)
    requires Legal(r) && AppendsStartLines(r)
    ensures OpenedRecords(After(r).journal, id) <= 1
    ensures TerminalRecords(After(r).journal, id) <= 1
  {
    RunKeepsInv(r);
    TailKeptIffAppendsStartLines(r);
  }

  /** A tail that is kept now was kept at every earlier moment. */
  lemma {:induction false} TailWasKept(early: Run, late: Run)
    requires Legal(late) && Prefix(early, late)
    ensures Legal(early) && (After(late).tailKept ==> After(early).tailKept)
  {
    hide Enabled, Next;
    if early != late {
      TailWasKept(early, late.prev);
      StepGrows(After(late.prev), late.last);
    }
  }

  /** Once an id has a terminal record the durable state never names it again. */
  lemma {:induction false} TerminalRecordIsFinal(early: Run, late: Run, id: string)
    requires Legal(late) && Prefix(early, late) && After(late).tailKept
    ensures Legal(early)
    ensures TerminalRecords(After(early).journal, id) > 0 ==>
      TerminalRecords(After(late).journal, id) == 1 && !NamesNow(After(late), id) && !MayBeLive(After(late), id)
  {
    hide Enabled, Next, TerminalRecords;
    RunKeepsInv(late);
    if early != late {
      StepGrows(After(late.prev), late.last);
      TerminalRecordIsFinal(early, late.prev, id);
      StepKeepsTerminal(After(late.prev), late.last, id);
    }
  }

  lemma {:induction false} UsedForever(early: Run, late: Run, id: string)
    requires Legal(late) && Prefix(early, late)
    ensures Legal(early)
    ensures id in After(early).used ==> id in After(late).used
  {
    hide Enabled, Next;
    if early != late {
      UsedForever(early, late.prev, id);
      StepGrows(After(late.prev), late.last);
    }
  }

  /** An id that was offered once and is not named any more is never named again. */
  lemma {:induction false} IdsNeverReturn(early: Run, late: Run, id: string)
    requires Legal(late) && Prefix(early, late) && After(late).tailKept
    ensures Legal(early)
    ensures id in After(early).used && !NamesNow(After(early), id) ==> !NamesNow(After(late), id)
  {
    hide Enabled, Next, Inv;
    if early != late {
      StepGrows(After(late.prev), late.last);
      IdsNeverReturn(early, late.prev, id);
      if id in After(early).used && !NamesNow(After(early), id) {
        UsedForever(early, late.prev, id);
        RunKeepsInv(late.prev);
        StepNeverReturns(After(late.prev), late.last, id);
      }
    }
  }

  /**
   * A current cycle stays current until it is gone for good; all that time its applied package never
   * changes, and a frozen context or a remainder mark, once set, stays.
   */
  lemma {:induction false} FrozenForever(early: Run, late: Run, id: string)
    requires Legal(late) && Prefix(early, late) && After(late).tailKept
    ensures Legal(early)
    ensures CycleIs(After(early), id) && NamesNow(After(late), id) ==>
      CycleIs(After(late), id) && Extends(After(early).file.disk.value.cycle.value, After(late).file.disk.value.cycle.value)
  {
    hide Enabled, Next, Inv;
    if early != late {
      StepGrows(After(late.prev), late.last);
      FrozenForever(early, late.prev, id);
      if CycleIs(After(early), id) && NamesNow(After(late), id) {
        RunKeepsInv(late.prev);
        RunKeepsInv(early);
        CycleIdIsUsed(After(early), id);
        UsedForever(early, late.prev, id);
        if !NamesNow(After(late.prev), id) {
          StepNeverReturns(After(late.prev), late.last, id);
        } else {
          StepKeepsCycle(After(late.prev), late.last, id);
        }
      }
    }
  }

  lemma CycleIdIsUsed(w: World, id: string)
    requires Inv(w) && CycleIs(w, id)
    ensures id in w.used
  {
    hide Coherent, Kept;
  }

  /** The durable state holds this cycle. */
  predicate CycleIs(w: World, id: string) {
    w.file.disk.Some? && w.file.disk.value.cycle.Some? && w.file.disk.value.cycle.value.id == id
  }

  /** Every reachable aggregate, served or durable, satisfies its constructors and the cross-field rules, whatever became of the log. */
  lemma ReachableIsCoherent(r: Run)
    requires Legal(r)
    ensures After(r).stored.Some? ==> Coherent(After(r).stored.value)
    ensures After(r).file.disk.Some? ==> Coherent(After(r).file.disk.value)
  {
    hide Coherent, Kept;
    RunKeepsInv(r);
  }

  /** The process may stop after any step: a restart is always possible, and serves what the log replays to if it replays. */
  lemma {:induction false} CrashAnywhere(r: Run, cut: Run)
    requires Legal(r) && Prefix(cut, r)
    ensures Legal(Then(cut, Restart))
    ensures var w, w' := After(cut), After(Then(cut, Restart));
      if w.file.tail.Unreadable? then w'.poisoned else w'.stored == w.file.disk && !w'.poisoned
  {
    if cut != r { CrashAnywhere(r.prev, cut); }
  }
}
