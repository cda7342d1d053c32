/** Any schedule of the writers of one instance, with exchange moves, lost replies, failed writes and crashes in between. */
module Schedule {
  import opened Wrappers
  import opened State
  import opened FirstFill
  import opened EntryReconciliation
  import opened Discipline
  import opened Safety
  import opened Runtime
  import opened BarPlans
  import Effects
  import Resolver
  import BarProcessing
  import Operator

  /** One writer that got the instance's mutex, the exchange on its own, or a crash. */
  datatype Turn =
    | BarTurn(d: Deployment, b: Bar)
    | FillTurn(id: string, firstFill: int)
    | ResolveTurn(a: Resolver.Answers)
    | EnableTurn(enabled: bool, c: Operator.Control)
    | CancelOrdersTurn(c: Operator.Control)
    | DeleteTurn(c: Operator.Control)
    | CloseTurn(c: Operator.Control)
    | ExchangeTurn
    | CrashTurn

  predicate Typed(instance: string, t: Turn) {
    match t
    case BarTurn(d, b) => TypedBar(b) && d.instance == instance
    case ResolveTurn(a) => Resolver.Typed(a)
    case EnableTurn(_, c) => Operator.Typed(c)
    case CancelOrdersTurn(c) => Operator.Typed(c)
    case DeleteTurn(c) => Operator.Typed(c)
    case CloseTurn(c) => Operator.Typed(c)
    case FillTurn(_, _) | ExchangeTurn | CrashTurn => true
  }

  /** What holds at every instant, while the log's tail was kept. */
  ghost predicate Safe(w: World) {
    && (forall id | MayBeLive(w, id) :: NamesNow(w, id))
    && (forall a, b | MayBeLive(w, a) && MayBeLive(w, b) :: a == b)
    && (!w.poisoned ==> w.stored == w.file.disk)
    && (forall id :: OpenedRecords(w.journal, id) <= 1 && TerminalRecords(w.journal, id) <= 1)
  }

  /** What holds between an instant and any later one, while the log's tail was kept. */
  ghost predicate Keeps(w: World, w': World) {
    && (forall id | id in w.used && !NamesNow(w, id) :: !NamesNow(w', id))
    && (forall id | CycleIs(w, id) && NamesNow(w', id) ::
          CycleIs(w', id) && Extends(w.file.disk.value.cycle.value, w'.file.disk.value.cycle.value))
    && (forall id | TerminalRecords(w.journal, id) > 0 :: TerminalRecords(w'.journal, id) == 1 && !NamesNow(w', id))
  }

  /** What holds whatever became of the log: served and durable states obey every rule, settled ids stay dead. */
  ghost predicate Sound(w: World, w': World) {
    && (w'.stored.Some? ==> Coherent(w'.stored.value))
    && (w'.file.disk.Some? ==> Coherent(w'.file.disk.value))
    && (forall id | id in w.settled :: !MayBeLive(w', id))
  }

  lemma LegalIsSafe(r: Run)
    requires Legal(r) && AppendsStartLines(r)
    ensures Safe(After(r))
  {
    hide Legal, After, Coherent;
    TailKeptIffAppendsStartLines(r);
    RunKeepsInv(r);
    hide OpenedRecords, TerminalRecords, AppendsStartLines;
  }

  lemma LaterKeeps(early: Run, late: Run)
    requires Legal(late) && AppendsStartLines(late) && Prefix(early, late)
    ensures Legal(early) && Keeps(After(early), After(late))
  {
    hide After, Prefix, Extends, OpenedRecords, TerminalRecords;
    TailKeptIffAppendsStartLines(late);
    UsedForever(early, late, "");
    forall id
      ensures id in After(early).used && !NamesNow(After(early), id) ==> !NamesNow(After(late), id)
      ensures CycleIs(After(early), id) && NamesNow(After(late), id) ==>
        CycleIs(After(late), id) && Extends(After(early).file.disk.value.cycle.value, After(late).file.disk.value.cycle.value)
      ensures TerminalRecords(After(early).journal, id) > 0 ==>
        TerminalRecords(After(late).journal, id) == 1 && !NamesNow(After(late), id)
    {
      IdsNeverReturn(early, late, id);
      FrozenForever(early, late, id);
      TerminalRecordIsFinal(early, late, id);
    }
  }

  lemma LaterIsSound(early: Run, late: Run)
    requires Legal(late) && Prefix(early, late)
    ensures Legal(early) && Sound(After(early), After(late))
  {
    hide After, Prefix, Coherent;
    UsedForever(early, late, "");
    ReachableIsCoherent(late);
    forall id ensures id in After(early).settled ==> !MayBeLive(After(late), id) {
      SettledForever(early, late, id);
    }
  }

  /** What a turn that was not cut off adds to the log: exactly its writer's plan. */
  function TurnLog(mode: Mode, w: World, t: Turn, log: Effects.Log): Effects.Log {
    match t
    case BarTurn(d, b) => if w.poisoned then log else BarPlan(mode, w.stored, d, b, log).log
    case FillTurn(id, firstFill) => Operator.WebhookPlan(mode, w, id, firstFill, log).log
    case ResolveTurn(a) =>
      if w.poisoned || w.stored.None? then log else Resolver.AttemptPlan(mode, w.stored.value, a, log).log
    case EnableTurn(enabled, c) => Operator.SetEnabledPlan(w, enabled, c, log).log
    case CancelOrdersTurn(c) => Operator.CancelEntryOrdersPlan(w, c, log).log
    case DeleteTurn(c) => Operator.DeletePlan(w, c, log).log
    case CloseTurn(c) => Operator.ClosePositionPlan(mode, w, c, log).log
    case ExchangeTurn | CrashTurn => log
  }

  /** Trade-cycle ids are fresh: a bar offering a used one does not occur. */
  predicate Occurs(w: World, t: Turn) {
    t.BarTurn? ==> t.b.newId !in w.used
  }

  /** One writer by itself. */
  method RunWriter(rt: Instance, t: Turn)
    requires rt.Running() && Typed(rt.id, t) && Occurs(rt.w, t)
    modifies rt
    ensures rt.Valid() && old(rt.past) <= rt.past
    ensures !rt.cutOff ==> rt.log == TurnLog(rt.mode, old(rt.w), t, old(rt.log))
  {
    hide Inv, Coherent, Permitted, Legal, After, Remembers, Belongs, BarPlan, Resolver.AttemptPlan, TypedBar,
      Operator.WebhookPlan, Operator.SetEnabledPlan, Operator.CancelEntryOrdersPlan, Operator.DeletePlan, Operator.ClosePositionPlan;
    match t {
      case BarTurn(d, b) => var _ := BarProcessing.Process(rt, d, b);
      case FillTurn(id, firstFill) => var _ := Operator.OnFirstFill(rt, id, firstFill);
      case ResolveTurn(a) => var _ := Resolver.Attempt(rt, a);
      case EnableTurn(enabled, c) => var _ := Operator.SetEnabled(rt, enabled, c);
      case CancelOrdersTurn(c) => var _ := Operator.CancelEntryOrders(rt, c);
      case DeleteTurn(c) => var _ := Operator.Delete(rt, c);
      case CloseTurn(c) => var _ := Operator.ClosePosition(rt, c);
      case ExchangeTurn => rt.Interfere();
      case CrashTurn =>
    }
  }

  /**
   * A writer that was cut off died with its process, and the next one starts from what the log replays to; or its
   * append failed, and the process goes on with a store that refuses every call. `done`: it was not cut off.
   */
  method TakeTurn(rt: Instance, t: Turn) returns (done: bool)
    requires rt.Running() && Typed(rt.id, t)
    modifies rt
    ensures rt.Running() && old(rt.past) <= rt.past
    ensures done ==> rt.log == TurnLog(rt.mode, old(rt.w), t, old(rt.log))
    ensures t.CrashTurn? || !Occurs(old(rt.w), t) ==> !done
  {
    hide Inv, Coherent, Permitted, Legal, After, Remembers, Belongs, TurnLog, TypedBar;
    if !Occurs(rt.w, t) {
      return false;
    }
    RunWriter(rt, t);
    done := !rt.cutOff && !t.CrashTurn?;
    if !done {
      var goesOn: bool := *;
      var mended: bool := *;
      if goesOn && rt.w.poisoned {
        rt.GoOnPoisoned();
      } else {
        rt.RestartProcess(mended);
      }
    }
  }

  /**
   * Whatever the schedule and the answers: every instant is safe, and nothing safe is ever undone, as long as no
   * append followed a torn tail and none held a line break; and some things hold even then.
   */
  method Play(rt: Instance, turns: seq<Turn>)
    requires rt.Running() && forall i | 0 <= i < |turns| :: Typed(rt.id, turns[i])
    modifies rt
    ensures rt.Running() && old(rt.past) <= rt.past
    ensures Legal(rt.run) && rt.w == After(rt.run)
    ensures AppendsStartLines(rt.run) ==> Safe(rt.w) && Keeps(old(rt.w), rt.w)
    ensures Sound(old(rt.w), rt.w)
  {
    hide Inv, Coherent, Permitted, Legal, After, Safe, Keeps, Sound, Typed, Prefix, Belongs, AppendsStartLines, TurnLog;
    ghost var start := rt.run;
    for i := 0 to |turns|
      invariant rt.Running() && old(rt.past) <= rt.past
    {
      var _ := TakeTurn(rt, turns[i]);
    }
    LaterIsSound(start, rt.run);
    if AppendsStartLines(rt.run) {
      LegalIsSafe(rt.run);
      LaterKeeps(start, rt.run);
    }
  }
}
