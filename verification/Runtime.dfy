/**
 * One strategy instance with its store, its exchange and its journal. Every port call is a step of
 * the protocol, possibly preceded by steps of the exchange; a crash may cut any call.
 */
module Runtime {
  import opened Wrappers
  import opened State
  import opened FirstFill
  import opened EntryReconciliation
  import opened Discipline
  import opened LogTail
  import LineBreaks
  import opened Effects
  import opened Safety

  /** Between two worlds only the exchange moved, other instances wrote to the log, and the runtime learned which ids are settled. */
  predicate Observed(w: World, w': World) {
    && w' == w.(exchange := w'.exchange, settled := w'.settled, file := w'.file, tailKept := w'.tailKept)
    && w'.exchange.Keys == w.exchange.Keys && w.settled <= w'.settled
  }

  predicate IsCall(e: Effect) {
    !e.Saved? && !e.Registered? && !e.Restarted?
  }

  /** The log entry of a protocol step; steps of the exchange leave none. */
  function Noted(log: Log, w': World, l: Label): Log {
    match l
    case Save(s) => Add(log, Saved(s))
    case TornSave(s, _) => Add(log, SaveLost(s))
    case Register(s) => Add(log, Registered(s))
    case Journal(r) => Add(log, Wrote(r))
    case WriteEnabled(e) => Add(log, WroteEnabled(e))
    case MoveToTrash => Add(log, Trashed)
    case Restart => Add(log, Restarted(w'.stored))
    case _ => log
  }

  /** Served, durable or kept, the state is this instance's. */
  predicate Belongs(w: World, id: string) {
    Owned(w.stored, id) && Owned(w.file.disk, id) && Owned(w.file.kept, id)
  }

  predicate Owned(s: Option<Aggregate>, id: string) {
    s.Some? ==> s.value.instance == id
  }

  /** Every remembered run is an earlier moment of this one. */
  predicate Remembers(past: set<Run>, run: Run) {
    forall r | r in past :: Prefix(r, run)
  }

  lemma RemembersMore(past: set<Run>, run: Run, l: Label)
    requires Remembers(past, run)
    ensures Remembers(past + {Then(run, l)}, Then(run, l))
  {
  }

  class Instance {
    const mode: Mode
    const id: string
    var w: World
    var cutOff: bool
    ghost var run: Run
    ghost var past: set<Run>
    ghost var log: Log

    ghost predicate Valid()
      reads this
    {
      && Legal(run) && w == After(run) && Inv(w) && run in past && Remembers(past, run)
      && Belongs(w, id) && w.stored == LastSaved(log)
    }

    /** A writer may go on: none of its port calls was cut off by a crash or a failed append. */
    ghost predicate Running()
      reads this
    {
      Valid() && !cutOff
    }

    constructor (mode: Mode, id: string)
      ensures Running() && w == FIRST && log == NoEffect && this.mode == mode && this.id == id
    {
      this.mode := mode;
      this.id := id;
      w := FIRST;
      cutOff := false;
      run := Start;
      past := {Start};
      log := NoEffect;
      new;
      RunKeepsInv(Start);
    }

    /** Takes one step of the protocol. */
    method Step(l: Label)
      requires Valid() && Enabled(w, l)
      requires l.Register? || l.TornSave? ==> l.s.instance == id
      modifies this
      ensures Valid() && w == Next(old(w), l) && run == Then(old(run), l)
      ensures old(past) <= past && cutOff == old(cutOff)
      ensures log == Noted(old(log), Next(old(w), l), l)
    {
      hide Inv, Enabled, Next, Remembers, Belongs, Legal, After, LastSaved, Noted;
      StepKeepsInv(w, l);
      StepKeepsBelonging(w, l, id);
      StepKeepsLastSaved(w, l, log);
      RemembersMore(past, run, l);
      NextRun(run, l);
      w := Next(w, l);
      run := Then(run, l);
      past := past + {run};
      log := Noted(log, w, l);
    }

    /** The exchange does whatever it does on its own, and other instances write to the same log. */
    method Interfere()
      requires Valid()
      modifies this
      ensures Valid() && Observed(old(w), w) && log == old(log)
      ensures old(past) <= past && cutOff == old(cutOff)
    {
      hide Inv, Coherent, Legal, After, Remembers, Belongs;
      var n: nat := *;
      while n > 0
        invariant Valid() && Observed(old(w), w) && log == old(log) && old(past) <= past && cutOff == old(cutOff)
      {
        var i: string := *;
        var to: Exchange := *;
        var clean: bool := *;
        if i in w.exchange && Evolves(w.exchange[i], to) {
          Step(Evolve(i, to));
        } else if !w.poisoned {
          Step(Foreign(if clean then Complete else PastBreak, false));
        }
        n := n - 1;
      }
    }

    /** Another instance's append may fail: the shared store is poisoned, and this writer's next store call raises. */
    method MayBePoisoned()
      requires Valid()
      modifies this
      ensures Valid()
      ensures old(past) <= past && cutOff == old(cutOff)
    {
      hide Inv, Coherent, Legal, After, Remembers, Belongs;
      var reached: Cut := *;
      var failed: bool := *;
      if failed && !w.poisoned {
        Step(Foreign(reached, true));
      }
    }

    /** An append of this instance fails after some of its characters reached the file. */
    method Tear(s: Aggregate)
      requires Valid() && !w.poisoned && MayStore(w, s) && s.instance == id
      modifies this
      ensures Valid()
      ensures old(past) <= past && cutOff == old(cutOff)
      ensures w.poisoned && w.stored == old(w.stored) && log == Add(old(log), SaveLost(s))
    {
      hide Inv, Legal, After, Remembers, Belongs, MayStore, LineBreaks.CleanState;
      var reached: Cut := *;
      if CutPossible(s, reached) {
        Step(TornSave(s, reached));
      } else {
        Step(TornSave(s, Nothing));
      }
    }

    /**
     * One call to the executor or the Engine. `evidence` is the id the answer proves settled; an
     * answer that would not be true of the exchange is never given: the call is cut off instead.
     */
    method Call(evidence: Option<string>, ghost effect: Effect) returns (r: Outcome<Stop>)
      requires Running() && IsCall(effect)
      modifies this
      ensures Valid()
      ensures old(past) <= past && (cutOff <==> r == Fail(Interrupted))
      ensures r.Pass? ==> Observed(old(w), w) && log == Add(old(log), effect)
      ensures r.Pass? && evidence.Some? && evidence.value in w.used ==> evidence.value in w.settled
      ensures r.Fail? ==> r.error == Interrupted
    {
      hide Inv, Coherent, Legal, After, Remembers, Belongs;
      Interfere();
      var cut: bool := *;
      if cut {
        MayBePoisoned();
        cutOff := true;
        return Fail(Interrupted);
      }
      if evidence.Some? && evidence.value in w.used {
        if evidence.value in w.exchange && w.exchange[evidence.value] != Gone {
          cutOff := true;
          return Fail(Interrupted);
        }
        Step(Evidence(evidence.value));
      }
      log := Add(log, effect);
      return Pass;
    }

    /** A durable save: appended and synced, or cut off with the line possibly on disk. */
    method SaveState(s: Aggregate) returns (r: Outcome<Stop>)
      requires Running() && (!w.poisoned ==> Permitted(w, s))
      modifies this
      ensures Valid()
      ensures old(past) <= past && (cutOff <==> r == Fail(Interrupted))
      ensures old(w.poisoned) ==> r == Fail(Raised(StoreFailed)) && w == old(w) && log == old(log)
      ensures r.Pass? ==>
        && Permitted(old(w), s) && w == AfterSave(old(w), s) && log == Add(old(log), Saved(s))
      ensures !old(w.poisoned) && r.Fail? ==> r.error == Interrupted
    {
      hide Inv, Coherent, Legal, After, Remembers, Belongs, Permitted;
      if w.poisoned {
        return Fail(Raised(StoreFailed));
      }
      PermittedFacts(w, s, id);
      var cut: bool := *;
      if cut {
        Tear(s);
        cutOff := true;
        return Fail(Interrupted);
      }
      Step(Save(s));
      return Pass;
    }

    /** A save whose failure the caller survives: the store is poisoned, the line possibly on disk. */
    method SaveOrPoison(s: Aggregate, durable: bool) returns (r: Outcome<Stop>)
      requires Running() && !w.poisoned && Permitted(w, s)
      modifies this
      ensures Valid()
      ensures old(past) <= past && (cutOff <==> r == Fail(Interrupted))
      ensures r.Pass? ==> durable && w == AfterSave(old(w), s) && log == Add(old(log), Saved(s))
      ensures r == Fail(Raised(StoreFailed)) ==>
        !durable && w.poisoned && w.stored.Some? && log == Add(old(log), SaveLost(s))
      ensures r.Fail? ==> r.error == Interrupted || r.error == Raised(StoreFailed)
    {
      hide Inv, Coherent, Legal, After, Remembers, Belongs, Permitted;
      if durable {
        r := SaveState(s);
      } else {
        PermittedFacts(w, s, id);
        Tear(s);
        r := Fail(Raised(StoreFailed));
      }
    }

    /** The creation path of `get_or_create`. */
    method RegisterState(s: Aggregate) returns (r: Outcome<Stop>)
      requires Running() && !w.poisoned && w.stored.None? && Coherent(s) && NamedId(s).None? && s.instance == id
      modifies this
      ensures Valid()
      ensures old(past) <= past && (cutOff <==> r == Fail(Interrupted))
      ensures r.Pass? ==> w == AfterSave(old(w), s) && log == Add(old(log), Registered(s))
      ensures r.Fail? ==> r.error == Interrupted
    {
      hide Inv, Coherent, Legal, After, Remembers, Belongs, LineBreaks.CleanState;
      var cut: bool := *;
      if cut {
        Tear(s);
        cutOff := true;
        return Fail(Interrupted);
      }
      Step(Register(s));
      return Pass;
    }

    /** One record of the processing journal; best effort, so it never raises, but a crash may skip it. */
    method WriteRecord(record: Record) returns (r: Outcome<Stop>)
      requires Running() && (if record.Opened? then record.id in w.openDue else record.id in w.endDue)
      modifies this
      ensures Valid()
      ensures old(past) <= past && (cutOff <==> r == Fail(Interrupted))
      ensures r.Pass? ==> w == Next(old(w), Journal(record)) && log == Add(old(log), Wrote(record))
      ensures r.Fail? ==> r.error == Interrupted
    {
      hide Inv, Coherent, Legal, After, Remembers, Belongs;
      var cut: bool := *;
      if cut {
        cutOff := true;
        return Fail(Interrupted);
      }
      Step(Journal(record));
      return Pass;
    }

    /** Handing an apply to the executor: from here on it may land at any time. */
    method HandOverApply(cycleId: string)
      requires Valid() && Enabled(w, SendApply(cycleId))
      modifies this
      ensures Valid() && w == old(w).(exchange := old(w).exchange[cycleId := InFlight]) && log == old(log)
      ensures old(past) <= past && cutOff == old(cutOff)
    {
      hide Inv, Coherent, Legal, After, Remembers, Belongs;
      Step(SendApply(cycleId));
    }

    /** The deployment file's `enabled` flag; `written` is false when the file refuses the change. */
    method WriteEnabledFlag(enabled: bool, written: bool) returns (r: Outcome<Stop>)
      requires Running()
      modifies this
      ensures Valid()
      ensures old(past) <= past && (cutOff <==> r == Fail(Interrupted))
      ensures r.Pass? ==> written && w == old(w).(enabled := enabled) && log == Add(old(log), WroteEnabled(enabled))
      ensures r.Fail? ==> r.error == Interrupted || (r.error == Raised(FileFailed) && !written)
      ensures r == Fail(Raised(FileFailed)) ==> w == old(w) && log == old(log)
    {
      hide Inv, Coherent, Legal, After, Remembers, Belongs;
      var cut: bool := *;
      if cut {
        cutOff := true;
        return Fail(Interrupted);
      }
      if !written {
        return Fail(Raised(FileFailed));
      }
      Step(WriteEnabled(enabled));
      return Pass;
    }

    method MoveDeployment(moved: bool) returns (r: Outcome<Stop>)
      requires Running()
      modifies this
      ensures Valid()
      ensures old(past) <= past && (cutOff <==> r == Fail(Interrupted))
      ensures r.Pass? ==> moved && w == old(w).(present := false) && log == Add(old(log), Trashed)
      ensures r.Fail? ==> r.error == Interrupted || (r.error == Raised(FileFailed) && !moved)
      ensures r == Fail(Raised(FileFailed)) ==> w == old(w) && log == old(log)
    {
      hide Inv, Coherent, Legal, After, Remembers, Belongs;
      var cut: bool := *;
      if cut {
        cutOff := true;
        return Fail(Interrupted);
      }
      if !moved {
        return Fail(Raised(FileFailed));
      }
      Step(MoveToTrash);
      return Pass;
    }

    /** A fresh process opens the log, after somebody may have ended a torn last line by hand. */
    method RestartProcess(mended: bool)
      requires Valid()
      modifies this
      ensures Running()
      ensures old(past) <= past
      ensures w.tailKept == old(w.tailKept) && (!w.poisoned ==> w.stored == w.file.disk == old(w.file.disk))
    {
      hide Inv, Coherent, Legal, After, Remembers, Belongs;
      if mended && w.file.tail.Torn? {
        Step(Mend);
      }
      Step(Restart);
      cutOff := false;
    }

    /** The append of a writer failed and the process lives on, with a store that refuses every call. */
    method GoOnPoisoned()
      requires Valid() && w.poisoned
      modifies this`cutOff
      ensures Running() && past == old(past) && w == old(w) && log == old(log)
    {
      hide Inv, Coherent, Legal, After, Remembers, Belongs;
      cutOff := false;
    }
  }

  lemma PermittedFacts(w: World, s: Aggregate, id: string)
    requires Permitted(w, s) && Belongs(w, id)
    ensures w.stored.Some? && MayStore(w, s) && s.instance == id
  {
    hide Coherent, Extends;
  }

  lemma NextRun(r: Run, l: Label)
    requires Legal(r) && Enabled(After(r), l)
    ensures Legal(Then(r, l)) && After(Then(r, l)) == Next(After(r), l)
  {
    hide Enabled, Next;
  }

  lemma AppendKeepsOwned(v: View<Option<Aggregate>>, saved: Option<Aggregate>, cut: Cut, id: string)
    requires Owned(v.disk, id) && Owned(v.kept, id) && Owned(saved, id)
    ensures var v' := AfterAppend(v, saved, cut); Owned(v'.disk, id) && Owned(v'.kept, id)
  {
    hide Owned;
  }

  lemma OfferKeepsBelonging(w: World, w': World, s: Aggregate, cut: Cut, id: string)
    requires Belongs(w, id) && s.instance == id && Offered(w, w', s, cut)
    ensures Belongs(w', id)
  {
    assert Owned(Some(s), id);
    hide Owned, AfterAppend, Harmless, Names;
    AppendKeepsOwned(w.file, Some(s), cut, id);
  }

  lemma ForeignKeepsBelonging(w: World, cut: Cut, failed: bool, id: string)
    requires Belongs(w, id)
    ensures Belongs(AfterForeign(w, cut, failed), id)
  {
    hide Owned, AfterAppend, Harmless;
    AppendKeepsOwned(w.file, w.file.disk, cut, id);
  }

  lemma RestartKeepsBelonging(w: World, id: string)
    requires Belongs(w, id)
    ensures Belongs(AfterRestart(w), id)
  {
    hide Owned;
  }

  lemma StepKeepsBelonging(w: World, l: Label, id: string)
    requires Enabled(w, l) && Belongs(w, id) && (l.Register? || l.TornSave? ==> l.s.instance == id)
    ensures Belongs(Next(w, l), id)
  {
    hide AfterSave, AfterTorn, AfterForeign, AfterRestart, Permitted, MayStore, CutPossible, Belongs, Offered;
    match l
    case Register(s) => SaveOffers(w, s); OfferKeepsBelonging(w, Next(w, l), s, WholeCut(s), id);
    case Save(s) => PermittedFacts(w, s, id); SaveOffers(w, s); OfferKeepsBelonging(w, Next(w, l), s, WholeCut(s), id);
    case TornSave(s, cut) => TornOffers(w, s, cut); OfferKeepsBelonging(w, Next(w, l), s, cut, id);
    case Foreign(cut, failed) => ForeignKeepsBelonging(w, cut, failed, id);
    case Restart => RestartKeepsBelonging(w, id);
    case Evolve(_, _) | Mend | SendApply(_) | Evidence(_) | Journal(_) | WriteEnabled(_) | MoveToTrash => SameBelongs(w, Next(w, l), id);
  }

  lemma SameBelongs(w: World, w': World, id: string)
    requires Belongs(w, id) && w'.stored == w.stored && w'.file.disk == w.file.disk
    requires w'.file.kept == w.file.kept || w'.file.kept == w.file.disk
    ensures Belongs(w', id)
  {
    hide Owned;
  }

  lemma StepKeepsLastSaved(w: World, l: Label, log: Log)
    requires Enabled(w, l) && w.stored == LastSaved(log)
    ensures Next(w, l).stored == LastSaved(Noted(log, Next(w, l), l))
  {
    hide Coherent, NewlyFrozen, Dropped, LineBreaks.CleanState, Permitted, AfterAppend, Harmless, Lands, Names;
  }
}
