/** What a writer does to the world outside its own store: the calls it makes, the files it changes, the records it writes. */
module Traffic {
  import opened Wrappers
  import opened Recipes
  import opened State
  import opened EntryReconciliation
  import opened PositionManagement
  import opened Discipline
  import opened Effects

  /** One call that leaves the process, with its arguments, or one file change. */
  datatype Deed =
    | AskPosition(id: string)
    | AskEntry
    | AskRecipe
    | AskRecovery(id: string)
    | SendEntry(command: Command)
    | SendCancel(id: string)
    | SendClose(id: string)
    | SendProtection(id: string, wanted: DesiredProtection)
    | SendRemainderCancel(id: string)
    | SetEnabledFile(enabled: bool)
    | MoveToTrashFolder

  function DeedOf(e: Effect): seq<Deed> {
    match e
    case AskedPosition(id, _) => [AskPosition(id)]
    case AskedLiveEntry(_) => [AskEntry]
    case AskedOpenTrade(_) => [AskRecipe]
    case AskedRecovery(id, _) => [AskRecovery(id)]
    case SentEntry(command, _) => [SendEntry(command)]
    case SentCancel(id, _) => [SendCancel(id)]
    case SentClose(id, _) => [SendClose(id)]
    case SentProtection(id, wanted, _) => [SendProtection(id, wanted)]
    case SentRemainderCancel(id, _) => [SendRemainderCancel(id)]
    case WroteEnabled(value) => [SetEnabledFile(value)]
    case Trashed => [MoveToTrashFolder]
    case _ => []
  }

  function RecordOf(e: Effect): seq<Record> {
    match e
    case Wrote(record) => [record]
    case _ => []
  }

  /** Every call and file change of a log, in order. */
  function Deeds(log: Log): seq<Deed> {
    match log
    case NoEffect => []
    case Add(prev, e) => Deeds(prev) + DeedOf(e)
  }

  /** Every record of a log, in order. */
  function Records(log: Log): seq<Record> {
    match log
    case NoEffect => []
    case Add(prev, e) => Records(prev) + RecordOf(e)
  }

  /** Between the two logs exactly these calls and file changes were made and these records written. */
  predicate Did(before: Log, after: Log, deeds: seq<Deed>, records: seq<Record>) {
    Deeds(after) == Deeds(before) + deeds && Records(after) == Records(before) + records
  }

  lemma DidNothing(log: Log)
    ensures Did(log, log, [], [])
  {
  }

  lemma DidStep()
    ensures forall log: Log, e: Effect :: Did(log, Add(log, e), DeedOf(e), RecordOf(e))
  {
  }

  lemma DidThen(a: Log, b: Log, c: Log, deeds: seq<Deed>, records: seq<Record>, deeds': seq<Deed>, records': seq<Record>)
    requires Did(a, b, deeds, records) && Did(b, c, deeds', records')
    ensures Did(a, c, deeds + deeds', records + records')
  {
  }

  /** One more effect: a save adds nothing, a call its deed, a record itself. */
  lemma DidSteps(a: Log, deeds: seq<Deed>, records: seq<Record>)
    ensures forall b: Log, e: Effect | Did(a, b, deeds, records) ::
      && (DeedOf(e) == [] && RecordOf(e) == [] ==> Did(a, Add(b, e), deeds, records))
      && (DeedOf(e) == [] ==> Did(a, Add(b, e), deeds, records + RecordOf(e)))
      && (RecordOf(e) == [] ==> Did(a, Add(b, e), deeds + DeedOf(e), records))
  {
    forall b: Log, e: Effect | Did(a, b, deeds, records)
      ensures DeedOf(e) == [] && RecordOf(e) == [] ==> Did(a, Add(b, e), deeds, records)
      ensures DeedOf(e) == [] ==> Did(a, Add(b, e), deeds, records + RecordOf(e))
      ensures RecordOf(e) == [] ==> Did(a, Add(b, e), deeds + DeedOf(e), records)
    {
      DidMore(a, b, e, deeds, records);
      assert deeds + [] == deeds && records + [] == records;
    }
  }

  /** One more effect, whichever its kind. */
  lemma DidMore(a: Log, b: Log, e: Effect, deeds: seq<Deed>, records: seq<Record>)
    requires Did(a, b, deeds, records)
    ensures Did(a, Add(b, e), deeds + DeedOf(e), records + RecordOf(e))
  {
    hide DeedOf, RecordOf;
    assert Deeds(Add(b, e)) == Deeds(b) + DeedOf(e) && Records(Add(b, e)) == Records(b) + RecordOf(e);
  }
}
