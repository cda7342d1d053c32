/** The two repositories: the plain in-memory one, and the durable log that behaves like it. */
module Store {
  import opened Wrappers
  import opened State
  import opened StateLines
  import opened LineBreaks
  import opened LogReplay

  datatype Registration = Registration(instance: string, strategy: string, snapshot: SpecSnapshot)

  function NewState(q: Registration): Aggregate {
    Aggregate(q.instance, q.strategy, q.snapshot, "1", None, None, None)
  }

  // ---------------------------------------------------------------- what both must answer

  function CreateAnswer(states: map<string, Aggregate>, q: Registration): Result<Aggregate, StoreError> {
    if q.instance in states then
      if states[q.instance].strategy != q.strategy then Failure(IdentityConflict) else Success(states[q.instance])
    else if ValidAggregate(NewState(q)) then Success(NewState(q))
    else Failure(InvalidState)
  }

  function SaveAnswer(states: map<string, Aggregate>, s: Aggregate): Result<Aggregate, StoreError> {
    if s.instance !in states then Failure(StateNotFound)
    else if states[s.instance].strategy != s.strategy then Failure(IdentityConflict)
    else if states[s.instance].snapshot != s.snapshot then Failure(RegistrationConflict)
    else Success(s)
  }

  function GetAnswer(states: map<string, Aggregate>, id: string): Result<Option<Aggregate>, StoreError> {
    if id == "" then Failure(InvalidId) else Success(if id in states then Some(states[id]) else None)
  }

  function PendingEntry(states: map<string, Aggregate>): set<string> {
    set id | id in states && states[id].pendingEntry.Some?
  }

  function PendingClose(states: map<string, Aggregate>): set<string> {
    set id | id in states && states[id].pendingClose.Some?
  }

  /** The map after an answer: the answered state is stored under its id, a refusal stores nothing. */
  function StatesAfter(states: map<string, Aggregate>, answer: Result<Aggregate, StoreError>): map<string, Aggregate> {
    if answer.Success? then Updated(states, answer.value) else states
  }

  // ---------------------------------------------------------------- the simple repository

  class InMemoryRepository {
    var states: map<string, Aggregate>

    ghost predicate Valid()
      reads this
    {
      forall id | id in states :: states[id].instance == id
    }

    constructor ()
      ensures Valid() && states == map[]
    {
      states := map[];
    }

    method GetOrCreate(q: Registration) returns (r: Result<Aggregate, StoreError>)
      requires Valid()
      modifies this
      ensures Valid() && r == CreateAnswer(old(states), q) && states == StatesAfter(old(states), r)
    {
      hide ValidAggregate;
      if q.instance in states {
        if states[q.instance].strategy != q.strategy {
          return Failure(IdentityConflict);
        }
        return Success(states[q.instance]);
      }
      if !ValidAggregate(NewState(q)) {
        return Failure(InvalidState);
      }
      states := states[q.instance := NewState(q)];
      return Success(NewState(q));
    }

    method Get(id: string) returns (r: Result<Option<Aggregate>, StoreError>)
      ensures r == GetAnswer(states, id)
    {
      if id == "" {
        return Failure(InvalidId);
      }
      return Success(if id in states then Some(states[id]) else None);
    }

    method Save(s: Aggregate) returns (r: Result<Aggregate, StoreError>)
      requires Valid()
      modifies this
      ensures Valid() && r == SaveAnswer(old(states), s) && states == StatesAfter(old(states), r)
    {
      if s.instance !in states {
        return Failure(StateNotFound);
      }
      if states[s.instance].strategy != s.strategy {
        return Failure(IdentityConflict);
      }
      if states[s.instance].snapshot != s.snapshot {
        return Failure(RegistrationConflict);
      }
      states := states[s.instance := s];
      return Success(s);
    }
  }

  // ---------------------------------------------------------------- replay as the loop it is

  method ReplayFile(text: string) returns (r: Result<map<string, Aggregate>, StoreError>)
    ensures r == Replay(text)
  {
    hide DecodeLine, SplitLines;
    var lines := SplitLines(text);
    var states: map<string, Aggregate> := map[];
    var index := 0;
    while index < |lines|
      invariant 0 <= index <= |lines|
      invariant Replay(text) == ReplayLines(lines[index..], states)
    {
      match DecodeLine(lines[index])
      case NotJson =>
        if index == |lines| - 1 {
          return Success(states);
        }
        return Failure(ReplayError);
      case Refused =>
        return Failure(ReplayError);
      case Decoded(s) =>
        assert lines[index..][1..] == lines[index + 1..];
        states := states[s.instance := s];
        index := index + 1;
    }
    return Success(states);
  }

  // ---------------------------------------------------------------- the durable repository

  /** How a physical append can go: completed and synced, or failed after some of its characters reached the file. */
  datatype Disk = Synced | Broken(reached: nat)

  /** The characters of a failed append that are in the file. */
  function Torn(line: string, disk: Disk): string
    requires disk.Broken?
  {
    if disk.reached <= |line| + 1 then (line + "\n")[..disk.reached] else line + "\n"
  }

  class JsonlRepository {
    var file: string
    var states: map<string, Aggregate>
    var poisoned: bool

    /** While it serves calls, its log has a clean tail and its index is what a restart would replay. */
    ghost predicate Valid()
      reads this
    {
      poisoned || (Healthy(file) && Replay(file) == Success(states) && forall id | id in states :: states[id].instance == id)
    }

    constructor (text: string, replayed: map<string, Aggregate>)
      requires Replay(text) == Success(replayed)
      ensures file == text && states == replayed && !poisoned
    {
      file := text;
      states := replayed;
      poisoned := false;
    }

    /** Opening replays the file; a clean tail is what makes the opened repository sound. */
    static method Open(text: string) returns (r: Result<JsonlRepository, StoreError>)
      ensures r.Failure? <==> Replay(text).Failure?
      ensures r.Success? ==> fresh(r.value) && r.value.file == text && !r.value.poisoned && Success(r.value.states) == Replay(text)
      ensures r.Success? && Healthy(text) ==> r.value.Valid()
    {
      hide SplitLines, ReplayLines;
      var states :- ReplayFile(text);
      KeysAreIds(SplitLines(text), map[]);
      var repository := new JsonlRepository(text, states);
      return Success(repository);
    }

    /** Writes one line, or poisons the repository. */
    method Append(s: Aggregate, disk: Disk) returns (ok: bool)
      requires Valid() && !poisoned && ValidAggregate(s)
      modifies this
      ensures states == old(states) && ok == (disk.Synced? && !poisoned) && poisoned == !disk.Synced?
      ensures ok ==> file == old(file) + EncodeLine(s) + "\n"
      ensures !ok ==> file == old(file) + Torn(EncodeLine(s), disk)
      ensures ok && CleanState(s) ==> Healthy(file) && Replay(file) == Success(Updated(states, s))
      ensures !ok && CleanState(s) ==> Replay(file) == Success(states) || Replay(file) == Success(Updated(states, s))
    {
      hide Healthy, Replay, EncodeLine, ValidAggregate, CleanState;
      var line := EncodeLine(s);
      ghost var before := file;
      ReplayAfter(before, "");
      if disk.Broken? {
        file := file + Torn(line, disk);
        poisoned := true;
        if CleanState(s) {
          var n := if disk.reached <= |line| + 1 then disk.reached else |line| + 1;
          assert Torn(line, disk) == (line + "\n")[..n];
          CrashCutIsAtomic(before, s, n);
        }
        return false;
      }
      file := file + line + "\n";
      if CleanState(s) {
        AppendReplays(before, s);
        ReplayAfter(file, "");
      }
      return true;
    }

    /** As the in-memory repository answers, unless the disk fails or it is poisoned. */
    method GetOrCreate(q: Registration, disk: Disk) returns (r: Result<Aggregate, StoreError>)
      requires Valid()
      modifies this
      ensures old(poisoned) ==> r == Failure(Poisoned) && file == old(file) && states == old(states) && poisoned
      ensures !old(poisoned) && !poisoned ==> r == CreateAnswer(old(states), q) && states == StatesAfter(old(states), r)
      ensures !old(poisoned) && !poisoned && (r.Success? && file != old(file) ==> CleanState(r.value)) ==> Valid()
      ensures !old(poisoned) && poisoned ==>
        && r == Failure(WriteFailed) && states == old(states) && disk.Broken? && CreateAnswer(old(states), q) == Success(NewState(q))
        && (CleanState(NewState(q)) ==> Replay(file) == Success(states) || Replay(file) == Success(Updated(states, NewState(q))))
    {
      hide ValidAggregate, CleanState, Healthy, Replay, EncodeLine;
      if poisoned {
        return Failure(Poisoned);
      }
      if q.instance in states {
        if states[q.instance].strategy != q.strategy {
          return Failure(IdentityConflict);
        }
        return Success(states[q.instance]);
      }
      if !ValidAggregate(NewState(q)) {
        return Failure(InvalidState);
      }
      var ok := Append(NewState(q), disk);
      if !ok {
        return Failure(WriteFailed);
      }
      states := states[q.instance := NewState(q)];
      return Success(NewState(q));
    }

    method Get(id: string) returns (r: Result<Option<Aggregate>, StoreError>)
      ensures id != "" && poisoned ==> r == Failure(Poisoned)
      ensures !poisoned ==> r == GetAnswer(states, id)
    {
      if id == "" {
        return Failure(InvalidId);
      }
      if poisoned {
        return Failure(Poisoned);
      }
      return Success(if id in states then Some(states[id]) else None);
    }

    method Save(s: Aggregate, disk: Disk) returns (r: Result<Aggregate, StoreError>)
      requires Valid() && ValidAggregate(s)
      modifies this
      ensures old(poisoned) ==> r == Failure(Poisoned) && file == old(file) && states == old(states) && poisoned
      ensures !old(poisoned) && !poisoned ==> r == SaveAnswer(old(states), s) && states == StatesAfter(old(states), r)
      ensures !old(poisoned) && !poisoned && (r.Success? ==> CleanState(s)) ==> Valid()
      ensures !old(poisoned) && poisoned ==>
        && r == Failure(WriteFailed) && states == old(states) && disk.Broken? && SaveAnswer(old(states), s) == Success(s)
        && (CleanState(s) ==> Replay(file) == Success(states) || Replay(file) == Success(Updated(states, s)))
    {
      hide ValidAggregate, CleanState, Healthy, Replay, EncodeLine;
      if poisoned {
        return Failure(Poisoned);
      }
      if s.instance !in states {
        return Failure(StateNotFound);
      }
      if states[s.instance].strategy != s.strategy {
        return Failure(IdentityConflict);
      }
      if states[s.instance].snapshot != s.snapshot {
        return Failure(RegistrationConflict);
      }
      var ok := Append(s, disk);
      if !ok {
        return Failure(WriteFailed);
      }
      states := states[s.instance := s];
      return Success(s);
    }

    method ListPendingEntry() returns (r: Result<set<string>, StoreError>)
      ensures r == if poisoned then Failure(Poisoned) else Success(PendingEntry(states))
    {
      if poisoned {
        return Failure(Poisoned);
      }
      return Success(PendingEntry(states));
    }

    method ListPendingClose() returns (r: Result<set<string>, StoreError>)
      ensures r == if poisoned then Failure(Poisoned) else Success(PendingClose(states))
    {
      if poisoned {
        return Failure(Poisoned);
      }
      return Success(PendingClose(states));
    }
  }

  lemma {:induction false} KeysAreIds(lines: seq<string>, states: map<string, Aggregate>)
    requires forall id | id in states :: states[id].instance == id
    ensures var r := ReplayLines(lines, states); r.Success? ==> forall id | id in r.value :: r.value[id].instance == id
    decreases |lines|
  {
    hide DecodeLine;
    if lines != [] && DecodeLine(lines[0]).Decoded? {
      KeysAreIds(lines[1..], Updated(states, DecodeLine(lines[0]).state));
    }
  }

  // ---------------------------------------------------------------- whole histories

  /** One call that reached the repository. */
  datatype Request = Create(q: Registration) | Store(s: Aggregate)

  function Answer(states: map<string, Aggregate>, q: Request): Result<Aggregate, StoreError> {
    match q
    case Create(r) => CreateAnswer(states, r)
    case Store(s) => SaveAnswer(states, s)
  }

  /** Whether the call appends a line: every granted save does, a creation only for a new id. */
  predicate Appends(states: map<string, Aggregate>, q: Request) {
    Answer(states, q).Success? && (q.Store? || q.q.instance !in states)
  }

  predicate Sound(q: Request) {
    q.Store? ==> ValidAggregate(q.s) && CleanState(q.s)
  }

  predicate CleanAnswers(states: map<string, Aggregate>, q: Request) {
    Appends(states, q) ==> CleanState(Answer(states, q).value)
  }

  /** The in-memory map after a history of calls. */
  function MemoryAfter(states: map<string, Aggregate>, history: seq<Request>): map<string, Aggregate>
    decreases |history|
  {
    if history == [] then states else MemoryAfter(StatesAfter(states, Answer(states, history[0])), history[1..])
  }

  /** The file after the same history. */
  function FileAfter(text: string, states: map<string, Aggregate>, history: seq<Request>): string
    decreases |history|
  {
    if history == [] then text
    else
      var next := if Appends(states, history[0]) then text + EncodeLine(Answer(states, history[0]).value) + "\n" else text;
      FileAfter(next, StatesAfter(states, Answer(states, history[0])), history[1..])
  }

  predicate CleanHistory(states: map<string, Aggregate>, history: seq<Request>)
    decreases |history|
  {
    history == [] || (
      && Sound(history[0]) && CleanAnswers(states, history[0])
      && CleanHistory(StatesAfter(states, Answer(states, history[0])), history[1..]))
  }

  /** From a clean-tailed log, after any history the file replays to exactly the in-memory repository's map. */
  lemma {:induction false} LogRefinesMemory(text: string, history: seq<Request>)
    requires Healthy(text) && CleanHistory(Index(text), history)
    ensures var file := FileAfter(text, Index(text), history);
      Healthy(file) && Replay(file) == Success(MemoryAfter(Index(text), history))
    decreases |history|
  {
    hide ValidAggregate, CleanState, Healthy, Replay, EncodeLine, Index, CreateAnswer, SaveAnswer;
    ReplayAfter(text, "");
    if history != [] {
      var states, q := Index(text), history[0];
      AnswerIsValid(states, q);
      if Appends(states, q) {
        AppendReplays(text, Answer(states, q).value);
        LogRefinesMemory(text + EncodeLine(Answer(states, q).value) + "\n", history[1..]);
      } else {
        IndexKeys(text);
        UnchangedAnswer(states, q);
        LogRefinesMemory(text, history[1..]);
      }
    }
  }

  lemma AnswerIsValid(states: map<string, Aggregate>, q: Request)
    requires Sound(q)
    ensures Appends(states, q) ==> ValidAggregate(Answer(states, q).value)
  {
    hide ValidAggregate, CleanState;
  }

  lemma IndexKeys(text: string)
    requires Healthy(text)
    ensures forall id | id in Index(text) :: Index(text)[id].instance == id
  {
    hide SplitLines, ReplayLines;
    ReplayAfter(text, "");
    KeysAreIds(SplitLines(text), map[]);
  }

  lemma UnchangedAnswer(states: map<string, Aggregate>, q: Request)
    requires !Appends(states, q) && forall id | id in states :: states[id].instance == id
    ensures StatesAfter(states, Answer(states, q)) == states
  {
    hide ValidAggregate;
  }

  // ---------------------------------------------------------------- what a caller can rely on

  predicate KeyedById(states: map<string, Aggregate>) {
    forall id | id in states :: states[id].instance == id
  }

  function InstanceOf(q: Request): string {
    match q
    case Create(r) => r.instance
    case Store(s) => s.instance
  }

  lemma AnswerKeepsRegistration(states: map<string, Aggregate>, q: Request, id: string)
    requires KeyedById(states) && id in states
    ensures var after := StatesAfter(states, Answer(states, q));
      && KeyedById(after) && id in after && after[id].strategy == states[id].strategy && after[id].snapshot == states[id].snapshot
      && (InstanceOf(q) != id ==> after[id] == states[id])
  {
    hide ValidAggregate;
  }

  /**
   * Over any history of calls an instance, once registered, stays registered under the strategy and the snapshot it was
   * registered with, and a history that never names it leaves its state alone.
   */
  lemma {:induction false} RegistrationIsForever(states: map<string, Aggregate>, history: seq<Request>, id: string)
    requires KeyedById(states) && id in states
    ensures var after := MemoryAfter(states, history);
      && id in after && after[id].strategy == states[id].strategy && after[id].snapshot == states[id].snapshot
      && ((forall i | 0 <= i < |history| :: InstanceOf(history[i]) != id) ==> after[id] == states[id])
    decreases |history|
  {
    hide Answer, StatesAfter, KeyedById, InstanceOf;
    if history != [] {
      AnswerKeepsRegistration(states, history[0], id);
      RegistrationIsForever(StatesAfter(states, Answer(states, history[0])), history[1..], id);
      assert forall i | 0 <= i < |history[1..]| :: history[1..][i] == history[i + 1];
    }
  }

  /** Asking for an instance again gives the same state and changes nothing; saving it and reading it gives what was saved. */
  lemma AnswersAreStable(states: map<string, Aggregate>, q: Registration, s: Aggregate)
    requires KeyedById(states) && s.instance != ""
    ensures var r := CreateAnswer(states, q);
      r.Success? ==> CreateAnswer(StatesAfter(states, r), q) == r && StatesAfter(StatesAfter(states, r), r) == StatesAfter(states, r)
    ensures var r := SaveAnswer(states, s);
      r.Success? ==> GetAnswer(StatesAfter(states, r), s.instance) == Success(Some(s))
  {
    hide ValidAggregate;
  }

  /** A save is granted exactly for a known instance under its own strategy and snapshot; a refused one changes nothing. */
  lemma SaveGrantedIffRegistered(states: map<string, Aggregate>, s: Aggregate)
    requires KeyedById(states)
    ensures
      var r, own := SaveAnswer(states, s), s.instance in states && states[s.instance].strategy == s.strategy;
      && (r == Success(s) <==> own && states[s.instance].snapshot == s.snapshot)
      && (r == Failure(StateNotFound) <==> s.instance !in states)
      && (r == Failure(RegistrationConflict) <==> own && states[s.instance].snapshot != s.snapshot)
      && (r == Failure(IdentityConflict) <==> s.instance in states && !own)
      && (r != Success(s) ==> StatesAfter(states, r) == states)
      && (r == Success(s) ==> StatesAfter(states, r) == states[s.instance := s])
    ensures s.instance in states && SameRegistration(states[s.instance], s) ==> SaveAnswer(states, s) == Success(s)
  {
  }

  /** Asking for an instance: the stored state under the same strategy, else a quiet new one if the constructors accept it. */
  lemma CreateGrantedIffAcceptable(states: map<string, Aggregate>, q: Registration)
    requires KeyedById(states)
    ensures
      var r := CreateAnswer(states, q);
      && (q.instance in states ==>
            StatesAfter(states, r) == states &&
            r == if states[q.instance].strategy == q.strategy then Success(states[q.instance]) else Failure(IdentityConflict))
      && (q.instance !in states ==>
            (r.Success? <==> ValidAggregate(NewState(q))) && (r.Failure? ==> r.error == InvalidState && StatesAfter(states, r) == states))
      && (q.instance !in states && r.Success? ==>
            && Quiet(Some(r.value)) && r.value.instance == q.instance && r.value.strategy == q.strategy && r.value.snapshot == q.snapshot
            && StatesAfter(states, r) == states[q.instance := r.value])
  {
    hide ValidAggregate;
  }

  /**
   * Once an instance is registered, then after any history of calls, every state under its registration, marked or not,
   * is granted and served next; a state under another strategy or snapshot is refused and changes nothing.
   */
  lemma RegisteredSaveIsGranted(states: map<string, Aggregate>, q: Registration, history: seq<Request>, s: Aggregate)
    requires KeyedById(states) && CreateAnswer(states, q).Success? && s.instance == q.instance != ""
    ensures
      var registered := CreateAnswer(states, q);
      var now := MemoryAfter(StatesAfter(states, registered), history);
      var granted := s.strategy == q.strategy && s.snapshot == registered.value.snapshot;
      && (granted ==> SaveAnswer(now, s) == Success(s) && GetAnswer(StatesAfter(now, SaveAnswer(now, s)), q.instance) == Success(Some(s)))
      && (!granted ==> SaveAnswer(now, s).Failure? && StatesAfter(now, SaveAnswer(now, s)) == now)
  {
    hide ValidAggregate;
    var registered := CreateAnswer(states, q);
    RegistrationIsForever(StatesAfter(states, registered), history, q.instance);
  }
}
