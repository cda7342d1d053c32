/** The protocol's log is the log on disk, and what a torn tail does to the safety of a run. */
module TornTail {
  import opened Wrappers
  import opened DecimalText
  import opened Json
  import opened State
  import opened FirstFill
  import opened StateLines
  import opened LineBreaks
  import opened LogReplay
  import opened LogTail
  import opened LogView
  import opened Discipline
  import opened Safety
  import opened Saves
  import opened Lifecycle

  // ---------------------------------------------------------------- the machine's cuts are the file's cuts

  lemma BreakIffUnclean(s: Aggregate)
    requires ValidAggregate(s)
    ensures 0 < FirstBreak(EncodeLine(s)) <= |EncodeLine(s)| && (FirstBreak(EncodeLine(s)) == |EncodeLine(s)| <==> CleanState(s))
    ensures |EncodeLine(s)| >= 3
  {
    hide ValidAggregate, CleanState, EncodeLine;
    LineEnds(s);
    LineUnbrokenIffClean(s);
    FirstIsNoBreak(EncodeLine(s));
    if CleanState(s) {
      UnbrokenHasNoBreak(EncodeLine(s));
    } else {
      assert EncodeLine(s)[..|EncodeLine(s)|] == EncodeLine(s);
    }
  }

  /** Wherever an append stops, the machine has that step. */
  lemma EveryStopIsPossible(s: Aggregate, n: nat)
    requires ValidAggregate(s) && n <= |EncodeLine(s)| + 1
    ensures CutPossible(s, CutOf(s, n))
    ensures n == |EncodeLine(s)| + 1 ==> CutOf(s, n) == WholeCut(s)
  {
    hide ValidAggregate, CleanState, EncodeLine, FirstBreak;
    BreakIffUnclean(s);
    BreakBeforeBrace(s);
  }

  /** A break is never the line's last character. */
  lemma BreakBeforeBrace(s: Aggregate)
    requires ValidAggregate(s)
    ensures !CleanState(s) ==> FirstBreak(EncodeLine(s)) + 1 < |EncodeLine(s)|
  {
    hide ValidAggregate, CleanState, EncodeLine;
    BreakIffUnclean(s);
    LineEnds(s);
    assert !IsLineBreak('}');
  }

  /** Every step of the machine is some stop of the append. */
  lemma EveryCutHappens(s: Aggregate, cut: Cut) returns (n: nat)
    requires ValidAggregate(s) && CutPossible(s, cut)
    ensures n <= |EncodeLine(s)| + 1 && CutOf(s, n) == cut
  {
    hide ValidAggregate, CleanState, EncodeLine, FirstBreak;
    BreakIffUnclean(s);
    BreakBeforeBrace(s);
    var line, k := EncodeLine(s), FirstBreak(EncodeLine(s));
    match cut
    case Nothing => n := 0;
    case Part => n := 1;
    case WholeLine => n := |line|;
    case Complete => n := |line| + 1;
    case AtBreak => n := k + 1;
    case PastBreak => n := k + 2;
  }

  // ---------------------------------------------------------------- a torn tail orphans orders

  /**
   * From every run whose process serves a quiet instance on a log that does not end a line, or ends a bad one, one bar
   * and a crash orphan an order: it is live, and neither the log nor the restarted process names it.
   */
  lemma TornTailCanOrphan(r: Run, id: string) returns (r': Run)
    requires Legal(r) && !After(r).poisoned && After(r).stored.Some? && Quiet(After(r).stored)
    requires !After(r).file.tail.Clean? && id != "" && id !in After(r).used
    ensures Legal(r') && Prefix(r, r') && MayBeLive(After(r'), id) && !NamesNow(After(r'), id)
    ensures !After(r').poisoned ==> After(r').stored == After(r').file.disk
  {
    hide Legal, After, Permitted, Coherent, Inv, WholeCut, CleanState, Prefix;
    RunKeepsInv(r);
    var s := After(r).stored.value;
    var marked := s.(pendingEntry := Some(id));
    FreshIsUnknown(After(r), id);
    KeptNamesOther(After(r), id);
    MayMarkEntry(After(r), marked, id);
    var r1 := Advance(r, Save(marked));
    GluedSaveIsLost(After(r), marked, id);
    var r2 := Advance(r1, SendApply(id));
    var r3 := Advance(r2, Evolve(id, Working));
    r' := Advance(r3, Restart);
    FourLater(r, Save(marked), SendApply(id), Evolve(id, Working), Restart);
  }

  lemma FourLater(r: Run, a: Label, b: Label, c: Label, d: Label)
    ensures Prefix(r, Then(Then(Then(Then(r, a), b), c), d))
  {
    assert Prefix(r, Then(r, a));
    assert Prefix(r, Then(Then(r, a), b));
    assert Prefix(r, Then(Then(Then(r, a), b), c));
  }

  lemma KeptNamesOther(w: World, id: string)
    requires Inv(w) && id !in w.used
    ensures w.file.kept.Some? ==> NamedId(w.file.kept.value) != Some(id)
    ensures w.file.disk.Some? ==> NamedId(w.file.disk.value) != Some(id)
  {
    hide Coherent, Kept;
  }

  /** Whatever its strings hold, the log does not come to name what is appended to a tail that is not clean. */
  lemma GluedSaveIsLost(w: World, s: Aggregate, id: string)
    requires !w.file.tail.Clean? && (w.file.kept.Some? ==> NamedId(w.file.kept.value) != Some(id))
    requires w.file.disk.Some? ==> NamedId(w.file.disk.value) != Some(id)
    ensures !NamesNow(AfterSave(w, s), id) && !AfterSave(w, s).file.tail.Clean?
  {
    hide CleanState, Names, OpenOwed, EndOwed;
  }

  /** Such a run exists: an instance is registered, its next save is cut off, the process restarts on the torn log. */
  lemma SomeRunOrphans() returns (r: Run, id: string)
    ensures Legal(r) && MayBeLive(After(r), id) && !NamesNow(After(r), id) && !AppendsStartLines(r)
  {
    hide Legal, After, Permitted, Coherent, Inv, WholeCut, CleanState, Prefix, AppendsStartLines, NamesNow, MayBeLive;
    var s := SomeQuietInstanceExists();
    StartIsFirst();
    QuietIsClean(s);
    r := Advance(Start, Register(s));
    var marked := s.(pendingEntry := Some("a"));
    MayMarkEntry(After(r), marked, "a");
    r := Advance(r, TornSave(marked, Part));
    r := Advance(r, Restart);
    NamesOf(s, "a");
    id := "b";
    r := TornTailCanOrphan(r, id);
    OrphanMeansGlued(r, id);
  }

  lemma NamesOf(s: Aggregate, id: string)
    requires s.cycle.None? && !Marked(s)
    ensures Names(s) == {} && Names(s.(pendingEntry := Some(id))) == {id}
  {
  }

  /** Only an append after a torn tail, or one with a line break inside, can do this. */
  lemma OrphanMeansGlued(r: Run, id: string)
    requires Legal(r) && MayBeLive(After(r), id) && !NamesNow(After(r), id)
    ensures !AppendsStartLines(r)
  {
    hide Legal, After, Coherent;
    RunKeepsInv(r);
    TailKeptIffAppendsStartLines(r);
  }

  lemma QuietIsClean(s: Aggregate)
    requires s == PLAIN_INSTANCE
    ensures WholeCut(s) == Complete
  {
    assert CleanText("i") && CleanText("1m");
  }
}
