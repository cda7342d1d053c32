/**
 * The protocol every writer of one strategy instance keeps, as a labelled machine over
 * the aggregate in memory, the log on disk and the exchange. Environment assumptions are the
 * guards of `Evolve` and `Evidence`; everything else is what the runtime's own code may do. What an
 * append does to the log is `LogTail.AfterAppend`, which module LogView proves of the text itself.
 */
module Discipline {
  import opened Wrappers
  import opened State
  import opened FirstFill
  import opened LogTail
  import LineBreaks

  /** What the exchange may hold for one trade-cycle id. Only `Gone` is final. */
  datatype Exchange = InFlight | Working | Filled | Gone

  predicate Evolves(a: Exchange, b: Exchange) {
    match a
    case InFlight => b != InFlight
    case Working => b == Filled || b == Gone
    case Filled => b == Gone
    case Gone => false
  }

  datatype Record = Opened(id: string) | Ended(id: string, reason: Reason) | Closed(id: string)

  datatype Reason = Cancelled | Disabled | TerminalWithoutFill | ExactAbsent

  /**
   * `stored` is the state the running process serves, `file` what the log holds for this instance. `tailKept`
   * says that every append so far was harmless: it started its own line and held no line break inside. `used` holds
   * every id ever offered to the log; `settled` the ids the executor has proved to have no live order, position or
   * in-flight request. `openDue` and `endDue` hold ids whose freeze or disappearance was saved and not yet journaled.
   * `poisoned`: the process serves no store call, after a failed append or because the log cannot be replayed.
   */
  datatype World = World(
    stored: Option<Aggregate>, file: View<Option<Aggregate>>, tailKept: bool, exchange: map<string, Exchange>,
    used: set<string>, settled: set<string>, openDue: set<string>, endDue: set<string>, journal: seq<Record>,
    enabled: bool, present: bool, poisoned: bool)

  /**
   * `TornSave` is a registration or a save whose append failed; `Foreign` an append of another instance to the same
   * log, failed or complete; `Mend` somebody ending the torn last line by hand.
   */
  datatype Label =
    | Evolve(id: string, to: Exchange)
    | Register(s: Aggregate)
    | Save(s: Aggregate)
    | TornSave(s: Aggregate, cut: Cut)
    | Foreign(cut: Cut, failed: bool)
    | Mend
    | SendApply(id: string)
    | Evidence(id: string)
    | Journal(record: Record)
    | WriteEnabled(enabled: bool)
    | MoveToTrash
    | Restart

  /** One run: the labels taken so far. */
  datatype Run = Start | Then(prev: Run, last: Label)

  // ---------------------------------------------------------------- which saves are allowed

  /** The current cycle may only gain a frozen context, a protection or the remainder mark. */
  predicate Extends(c: TradeCycle, c': TradeCycle) {
    && c'.id == c.id && c'.package == c.package
    && (c.frozen.Some? ==> c'.frozen == c.frozen)
    && (c.remainderCancelled ==> c'.remainderCancelled)
  }

  /** The rule for what one save may do to the id the aggregate names. */
  predicate Permitted(w: World, s': Aggregate) {
    && w.stored.Some? && SameRegistration(w.stored.value, s') && Coherent(s')
    && var s := w.stored.value;
    if NamedId(s) == NamedId(s') then
      s.cycle.Some? ==> s'.cycle.Some? && Extends(s.cycle.value, s'.cycle.value)
    else
      && (NamedId(s).Some? ==> NamedId(s).value in w.settled)
      && (NamedId(s').Some? ==> s'.cycle.None? && NamedId(s').value !in w.used)
  }

  function Dropped(s: Aggregate, s': Aggregate): set<string> {
    if NamedId(s).Some? && NamedId(s) != NamedId(s') then {NamedId(s).value} else {}
  }

  function NewlyFrozen(s: Aggregate, s': Aggregate): set<string> {
    if IsFrozen(s') && !(IsFrozen(s) && s.cycle.value.id == s'.cycle.value.id) then {s'.cycle.value.id} else {}
  }

  function Names(s: Aggregate): set<string> {
    if NamedId(s).Some? then {NamedId(s).value} else {}
  }

  /** A registration names nothing; every later save is permitted by the one before. */
  predicate MayStore(w: World, s': Aggregate) {
    if w.stored.None? then Coherent(s') && NamedId(s').None? else Permitted(w, s')
  }

  // ---------------------------------------------------------------- what an append does

  /** A complete append, seen by a reader that splits at every line break. */
  function WholeCut(s: Aggregate): Cut {
    if LineBreaks.CleanState(s) then Complete else PastBreak
  }

  predicate CutPossible(s: Aggregate, cut: Cut) {
    match cut
    case Nothing | Part => true
    case WholeLine | Complete => LineBreaks.CleanState(s)
    case AtBreak | PastBreak => !LineBreaks.CleanState(s)
  }

  /** The records that a change from the stored state to `s'` will need. */
  function OpenOwed(w: World, s': Aggregate): set<string> {
    if w.stored.None? then {} else NewlyFrozen(w.stored.value, s')
  }

  function EndOwed(w: World, s': Aggregate): set<string> {
    if w.stored.None? then {} else Dropped(w.stored.value, s')
  }

  function AfterSave(w: World, s': Aggregate): World {
    w.(stored := Some(s'), file := AfterAppend(w.file, Some(s'), WholeCut(s')),
       tailKept := w.tailKept && Harmless(w.file, WholeCut(s')), used := w.used + Names(s'),
       openDue := w.openDue + OpenOwed(w, s'), endDue := w.endDue + EndOwed(w, s'))
  }

  function AfterTorn(w: World, s': Aggregate, cut: Cut): World {
    w.(file := AfterAppend(w.file, Some(s'), cut), tailKept := w.tailKept && Harmless(w.file, cut),
       used := w.used + Names(s'), poisoned := true,
       openDue := w.openDue + (if Lands(w.file, cut) then OpenOwed(w, s') else {}),
       endDue := w.endDue + (if Lands(w.file, cut) then EndOwed(w, s') else {}))
  }

  function AfterForeign(w: World, cut: Cut, failed: bool): World {
    w.(file := AfterAppend(w.file, w.file.disk, cut), tailKept := w.tailKept && Harmless(w.file, cut), poisoned := failed)
  }

  /** A fresh process serves what the log replays to, or nothing when it cannot be replayed. */
  function AfterRestart(w: World): World {
    if w.file.tail.Unreadable? then w.(poisoned := true) else w.(stored := w.file.disk, poisoned := false)
  }

  // ---------------------------------------------------------------- steps

  predicate Enabled(w: World, l: Label) {
    match l
    case Evolve(id, to) => id in w.exchange && Evolves(w.exchange[id], to)
    case Register(s) => w.stored.None? && !w.poisoned && MayStore(w, s)
    case Save(s) => !w.poisoned && w.stored.Some? && Permitted(w, s)
    case TornSave(s, cut) => !w.poisoned && MayStore(w, s) && CutPossible(s, cut)
    case Foreign(cut, failed) => !w.poisoned && (!failed ==> cut.Complete? || cut.PastBreak?)
    case Mend => w.file.tail.Torn?
    case SendApply(id) =>
      && !w.poisoned && w.stored.Some? && w.stored.value.cycle.None? && w.stored.value.pendingEntry == Some(id)
      && id !in w.exchange && id !in w.settled
    case Evidence(id) => id in w.used && (id in w.exchange ==> w.exchange[id] == Gone)
    case Journal(r) => if r.Opened? then r.id in w.openDue else r.id in w.endDue
    case WriteEnabled(_) => true
    case MoveToTrash => true
    case Restart => true
  }

  function Next(w: World, l: Label): World
    requires Enabled(w, l)
  {
    match l
    case Evolve(id, to) => w.(exchange := w.exchange[id := to])
    case Register(s) => AfterSave(w, s)
    case Save(s) => AfterSave(w, s)
    case TornSave(s, cut) => AfterTorn(w, s, cut)
    case Foreign(cut, failed) => AfterForeign(w, cut, failed)
    case Mend => w.(file := Mended(w.file))
    case SendApply(id) => w.(exchange := w.exchange[id := InFlight])
    case Evidence(id) => w.(settled := w.settled + {id})
    case Journal(r) =>
      if r.Opened? then w.(journal := w.journal + [r], openDue := w.openDue - {r.id})
      else w.(journal := w.journal + [r], endDue := w.endDue - {r.id})
    case WriteEnabled(e) => w.(enabled := e)
    case MoveToTrash => w.(present := false)
    case Restart => AfterRestart(w)
  }

  /** Before anything is registered: an empty log. */
  const FIRST := World(None, View(Clean, None, None), true, map[], {}, {}, {}, {}, [], true, true, false)

  predicate Legal(r: Run)
    decreases r, 0
  {
    r.Start? || (Legal(r.prev) && Enabled(After(r.prev), r.last))
  }

  function After(r: Run): World
    requires Legal(r)
    decreases r, 1
  {
    match r
    case Start => FIRST
    case Then(prev, last) => Next(After(prev), last)
  }

  predicate Prefix(early: Run, late: Run) {
    early == late || (late.Then? && Prefix(early, late.prev))
  }

  // ---------------------------------------------------------------- the invariant

  predicate MayBeLive(w: World, id: string) {
    id in w.exchange && w.exchange[id] != Gone
  }

  /** The durable state: what a restart would serve. */
  predicate NamesNow(w: World, id: string) {
    w.file.disk.Some? && NamedId(w.file.disk.value) == Some(id)
  }

  function OpenedRecords(journal: seq<Record>, id: string): nat {
    if journal == [] then 0
    else
      var last := journal[|journal| - 1];
      OpenedRecords(journal[..|journal| - 1], id) + if last.Opened? && last.id == id then 1 else 0
  }

  function TerminalRecords(journal: seq<Record>, id: string): nat {
    if journal == [] then 0
    else
      var last := journal[|journal| - 1];
      TerminalRecords(journal[..|journal| - 1], id) + if !last.Opened? && last.id == id then 1 else 0
  }

  predicate Proper(s: Option<Aggregate>, used: set<string>) {
    s.Some? ==> Coherent(s.value) && Names(s.value) <= used
  }

  /** Holds in every run, whatever became of the log. */
  ghost predicate IdsKnown(w: World) {
    && Proper(w.stored, w.used) && Proper(w.file.disk, w.used) && Proper(w.file.kept, w.used)
    && w.exchange.Keys <= w.used && w.settled <= w.used
    && (forall id | id in w.settled :: !MayBeLive(w, id))
  }

  /** A running process serves exactly what a restart would replay. */
  predicate DiskAgrees(w: World) {
    && (w.file.tail.Clean? || w.file.tail.Torn?)
    && (!w.poisoned ==> w.stored == w.file.disk)
    && (w.file.disk.None? ==> w.used == {})
  }

  ghost predicate NoOrphan(w: World) {
    forall id | MayBeLive(w, id) :: NamesNow(w, id)
  }

  /** One opened record or debt needs a frozen cycle that is still current or already gone. */
  ghost predicate OpenedOnce(w: World) {
    && (forall id | id in w.openDue || OpenedRecords(w.journal, id) > 0 ::
          id in w.used && (NamesNow(w, id) ==> IsFrozen(w.file.disk.value)))
    && (forall id :: OpenedRecords(w.journal, id) + (if id in w.openDue then 1 else 0) <= 1)
  }

  /** One terminal record or debt needs an id that is gone from the durable state. */
  ghost predicate EndedOnce(w: World) {
    && (forall id | id in w.endDue || TerminalRecords(w.journal, id) > 0 :: id in w.used && !NamesNow(w, id))
    && (forall id :: TerminalRecords(w.journal, id) + (if id in w.endDue then 1 else 0) <= 1)
  }

  /** Holds as long as the tail was kept. */
  ghost predicate Kept(w: World) {
    DiskAgrees(w) && NoOrphan(w) && OpenedOnce(w) && EndedOnce(w)
  }

  ghost predicate Inv(w: World) {
    IdsKnown(w) && (w.tailKept ==> Kept(w))
  }
}
