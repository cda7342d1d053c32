/** The keyed mutex registry, and every interleaving of writers that go through it. */
module KeyedMutex {
  import opened Wrappers
  import opened State

  // ---------------------------------------------------------------- the registry

  /** One lock per key, never replaced; a new key gets a lock no other key has. */
  function SetDefault(locks: map<string, nat>, next: nat, key: string): map<string, nat> {
    if key in locks then locks else locks[key := next]
  }

  predicate Separate(locks: map<string, nat>, next: nat) {
    && (forall k | k in locks :: locks[k] < next)
    && (forall a, b | a in locks && b in locks :: locks[a] == locks[b] ==> a == b)
  }

  /** The registry's dictionary and which of its locks are taken; `next` stands for a lock object not made yet. */
  class KeyedMutexRegistry {
    var locks: map<string, nat>
    var next: nat
    var held: set<nat>

    ghost predicate Valid()
      reads this
    {
      Separate(locks, next) && forall l | l in held :: exists k :: k in locks && locks[k] == l
    }

    constructor ()
      ensures Valid() && locks == map[] && held == {}
    {
      locks := map[];
      next := 0;
      held := {};
    }

    /** The lock of a key, made on first use, under the registry guard. */
    method LockFor(key: string) returns (r: Option<nat>)
      requires Valid()
      modifies this
      ensures Valid() && held == old(held)
      ensures r.None? <==> key == ""
      ensures if key == "" then locks == old(locks) else locks == SetDefault(old(locks), old(next), key) && r == Some(locks[key])
    {
      if key == "" {
        return None;
      }
      if key !in locks {
        ghost var before := locks;
        locks := locks[key := next];
        next := next + 1;
        forall l | l in held ensures exists k :: k in locks && locks[k] == l {
          var k :| k in before && before[k] == l;
          assert locks[k] == l;
        }
      }
      return Some(locks[key]);
    }

    /** One attempt: taken exactly when it was free. */
    method TryAcquire(l: nat) returns (ok: bool)
      requires Valid() && exists k :: k in locks && locks[k] == l
      modifies this
      ensures Valid() && locks == old(locks)
      ensures ok == (l !in old(held)) && held == old(held) + {l}
    {
      ok := l !in held;
      held := held + {l};
    }

    method Release(l: nat)
      requires Valid() && l in held
      modifies this
      ensures Valid() && locks == old(locks) && held == old(held) - {l}
    {
      held := held - {l};
    }
  }

  // ---------------------------------------------------------------- threads

  /** Where one thread stands. `seen` is the state it works from: what it loaded, or last saved itself. */
  datatype Phase =
    | Idle
    | Waiting(key: string, lock: nat, timed: bool)
    | Inside(key: string, lock: nat)
    | Working(key: string, lock: nat, seen: Option<Aggregate>)

  predicate InSection(p: Phase) {
    p.Inside? || p.Working?
  }

  /** One save: whose key, what the writer worked from, what it wrote. */
  datatype Commit = Commit(key: string, seen: Option<Aggregate>, wrote: Aggregate)

  datatype System = System(
    locks: map<string, nat>, next: nat, owner: map<nat, nat>, threads: map<nat, Phase>,
    store: map<string, Aggregate>, commits: seq<Commit>)

  datatype Move =
    | Ask(thread: nat, key: string, timed: bool)
    | Enter(thread: nat)
    | TimeOut(thread: nat)
    | Load(thread: nat)
    | Save(thread: nat, value: Aggregate)
    | Leave(thread: nat)

  function PhaseOf(y: System, t: nat): Phase {
    if t in y.threads then y.threads[t] else Idle
  }

  function Stored(y: System, key: string): Option<Aggregate> {
    if key in y.store then Some(y.store[key]) else None
  }

  predicate Can(y: System, m: Move) {
    var p := PhaseOf(y, m.thread);
    match m
    case Ask(_, key, _) => p.Idle? && key != ""
    case Enter(_) => p.Waiting? && p.lock !in y.owner
    case TimeOut(_) => p.Waiting? && p.timed
    case Load(_) => p.Inside?
    case Save(_, _) => p.Working?
    case Leave(_) => InSection(p)
  }

  function Do(y: System, m: Move): System
    requires Can(y, m)
  {
    var t, p := m.thread, PhaseOf(y, m.thread);
    match m
    case Ask(_, key, timed) =>
      var locks := SetDefault(y.locks, y.next, key);
      y.(locks := locks, next := y.next + 1, threads := y.threads[t := Waiting(key, locks[key], timed)])
    case Enter(_) => y.(owner := y.owner[p.lock := t], threads := y.threads[t := Inside(p.key, p.lock)])
    case TimeOut(_) => y.(threads := y.threads[t := Idle])
    case Load(_) => y.(threads := y.threads[t := Working(p.key, p.lock, Stored(y, p.key))])
    case Save(_, value) =>
      y.(store := y.store[p.key := value], threads := y.threads[t := Working(p.key, p.lock, Some(value))],
         commits := y.commits + [Commit(p.key, p.seen, value)])
    case Leave(_) => y.(owner := y.owner - {p.lock}, threads := y.threads[t := Idle])
  }

  datatype Moves = NoMove | More(prev: Moves, last: Move)

  /** No thread, no lock; `store` is whatever the process replayed. */
  function Fresh(store: map<string, Aggregate>): System {
    System(map[], 0, map[], map[], store, [])
  }

  predicate Possible(store: map<string, Aggregate>, ms: Moves)
    decreases ms, 0
  {
    ms.NoMove? || (Possible(store, ms.prev) && Can(At(store, ms.prev), ms.last))
  }

  function At(store: map<string, Aggregate>, ms: Moves): System
    requires Possible(store, ms)
    decreases ms, 1
  {
    if ms.NoMove? then Fresh(store) else Do(At(store, ms.prev), ms.last)
  }

  // ---------------------------------------------------------------- the invariant

  /** What a thread's phase promises. */
  predicate Honest(y: System, t: nat) {
    var p := PhaseOf(y, t);
    && (!p.Idle? ==> p.key in y.locks && y.locks[p.key] == p.lock)
    && (InSection(p) ==> p.lock in y.owner && y.owner[p.lock] == t)
    && (p.Working? ==> p.seen == Stored(y, p.key))
  }

  ghost predicate Inv(y: System) {
    && Separate(y.locks, y.next)
    && (forall t :: Honest(y, t))
    && (forall l | l in y.owner :: var p := PhaseOf(y, y.owner[l]); InSection(p) && p.lock == l)
  }

  lemma MoveKeepsOthers(y: System, m: Move, t: nat)
    requires Inv(y) && Can(y, m) && t != m.thread
    ensures Honest(Do(y, m), t)
  {
    var p, q := PhaseOf(y, t), PhaseOf(y, m.thread);
    var y' := Do(y, m);
    assert PhaseOf(y', t) == p && Honest(y, t) && Honest(y, m.thread);
  }

  lemma MoveKeepsOwn(y: System, m: Move)
    requires Inv(y) && Can(y, m)
    ensures Honest(Do(y, m), m.thread)
  {
    assert Honest(y, m.thread);
  }

  lemma MoveKeepsOwners(y: System, m: Move, l: nat)
    requires Inv(y) && Can(y, m) && l in Do(y, m).owner
    ensures var y' := Do(y, m); var p := PhaseOf(y', y'.owner[l]); InSection(p) && p.lock == l
  {
    assert Honest(y, m.thread);
    if l in y.owner { assert Honest(y, y.owner[l]); }
  }

  lemma MoveKeepsInv(y: System, m: Move)
    requires Inv(y) && Can(y, m)
    ensures Inv(Do(y, m))
  {
    var y' := Do(y, m);
    forall t ensures Honest(y', t) {
      if t == m.thread { MoveKeepsOwn(y, m); } else { MoveKeepsOthers(y, m, t); }
    }
    forall l | l in y'.owner ensures var p := PhaseOf(y', y'.owner[l]); InSection(p) && p.lock == l {
      MoveKeepsOwners(y, m, l);
    }
    hide Honest;
  }

  lemma {:induction false} ReachableKeepsInv(store: map<string, Aggregate>, ms: Moves)
    requires Possible(store, ms)
    ensures Inv(At(store, ms))
  {
    hide Do, Can;
    if ms.More? {
      ReachableKeepsInv(store, ms.prev);
      MoveKeepsInv(At(store, ms.prev), ms.last);
    }
  }

  // ---------------------------------------------------------------- the theorems

  /** Under every interleaving at most one thread is inside a key's section. */
  lemma MutualExclusion(store: map<string, Aggregate>, ms: Moves, t: nat, u: nat)
    requires Possible(store, ms)
    requires var y := At(store, ms); InSection(PhaseOf(y, t)) && InSection(PhaseOf(y, u)) && PhaseOf(y, t).key == PhaseOf(y, u).key
    ensures t == u
  {
    ReachableKeepsInv(store, ms);
    var y := At(store, ms);
    hide At, Possible;
    assert Honest(y, t) && Honest(y, u);
  }

  /** A waiter gets in as soon as nobody is inside its key's section, and keeps everybody else out. */
  lemma WaiterEntersIffFree(store: map<string, Aggregate>, ms: Moves, t: nat)
    requires Possible(store, ms) && PhaseOf(At(store, ms), t).Waiting?
    ensures var y := At(store, ms);
      && (Can(y, Enter(t)) <==> forall u :: InSection(PhaseOf(y, u)) ==> PhaseOf(y, u).key != PhaseOf(y, t).key)
      && (Can(y, Enter(t)) ==> InSection(PhaseOf(Do(y, Enter(t)), t)) && PhaseOf(Do(y, Enter(t)), t).key == PhaseOf(y, t).key)
  {
    ReachableKeepsInv(store, ms);
    var y := At(store, ms);
    hide At, Possible;
    assert Honest(y, t);
    if Can(y, Enter(t)) {
      forall u | InSection(PhaseOf(y, u)) ensures PhaseOf(y, u).key != PhaseOf(y, t).key { assert Honest(y, u); }
    } else {
      var u := y.owner[PhaseOf(y, t).lock];
      assert Honest(y, u);
    }
  }

  /** A waiter that times out was never inside, owns no lock and changes nothing but its own waiting. */
  lemma TimedOutChangesNothing(store: map<string, Aggregate>, ms: Moves)
    requires Possible(store, ms) && ms.More? && ms.last.TimeOut?
    ensures var y, y' := At(store, ms.prev), At(store, ms);
      && y' == y.(threads := y.threads[ms.last.thread := Idle])
      && (forall l | l in y.owner :: y.owner[l] != ms.last.thread)
      && !Can(y', Leave(ms.last.thread))
  {
    ReachableKeepsInv(store, ms.prev);
  }

  /** Every save works from exactly what is stored at that moment. */
  lemma SaveDerivesFromStored(store: map<string, Aggregate>, ms: Moves)
    requires Possible(store, ms) && ms.More? && ms.last.Save?
    ensures var y := At(store, ms.prev); var p := PhaseOf(y, ms.last.thread); p.Working? && p.seen == Stored(y, p.key)
  {
    ReachableKeepsInv(store, ms.prev);
    assert Honest(At(store, ms.prev), ms.last.thread);
  }

  /** What the commits alone make of a key: each one found the result of the one before, so none was lost. */
  function ChainEnd(start: Option<Aggregate>, commits: seq<Commit>, key: string): Option<Option<Aggregate>> {
    if commits == [] then Some(start)
    else
      var last := commits[|commits| - 1];
      var before := ChainEnd(start, commits[..|commits| - 1], key);
      if last.key != key then before
      else if before == Some(last.seen) then Some(Some(last.wrote))
      else None
  }

  lemma MoveKeepsChain(y: System, m: Move, start: Option<Aggregate>, key: string)
    requires Inv(y) && Can(y, m) && ChainEnd(start, y.commits, key) == Some(Stored(y, key))
    ensures ChainEnd(start, Do(y, m).commits, key) == Some(Stored(Do(y, m), key))
  {
    if m.Save? {
      assert Honest(y, m.thread);
      var y' := Do(y, m);
      assert y'.commits[..|y'.commits| - 1] == y.commits;
    } else {
      assert Do(y, m).commits == y.commits && Do(y, m).store == y.store;
    }
  }

  /** No update is lost: per key the commits form one chain from the replayed state to the stored one. */
  lemma {:induction false} NoLostUpdate(store: map<string, Aggregate>, ms: Moves, key: string)
    requires Possible(store, ms)
    ensures var start := if key in store then Some(store[key]) else None;
      ChainEnd(start, At(store, ms).commits, key) == Some(Stored(At(store, ms), key))
  {
    hide Do, Can, Inv;
    if ms.More? {
      NoLostUpdate(store, ms.prev, key);
      ReachableKeepsInv(store, ms.prev);
      MoveKeepsChain(At(store, ms.prev), ms.last, if key in store then Some(store[key]) else None, key);
    }
  }

  // ---------------------------------------------------------------- sections are turns

  datatype Event = Entered(thread: nat) | Accessed(thread: nat) | Left(thread: nat)

  /** What one move does inside the section of `key`, if anything. */
  function EventsOf(y: System, m: Move, key: string): seq<Event> {
    var p := PhaseOf(y, m.thread);
    if p.Idle? || p.key != key then []
    else
      match m
      case Enter(t) => [Entered(t)]
      case Load(t) => [Accessed(t)]
      case Save(t, _) => [Accessed(t)]
      case Leave(t) => [Left(t)]
      case Ask(_, _, _) | TimeOut(_) => []
  }

  /** Everything that happened inside the section of `key`, in order. */
  function Trace(store: map<string, Aggregate>, ms: Moves, key: string): seq<Event>
    requires Possible(store, ms)
  {
    if ms.NoMove? then [] else Trace(store, ms.prev, key) + EventsOf(At(store, ms.prev), ms.last, key)
  }

  /** One whole turn after another: a thread enters, only it reads and writes, it leaves; the last may still be inside. */
  datatype Turns = Free | Held(thread: nat) | Mixed

  function AfterEvent(turns: Turns, e: Event): Turns {
    match e
    case Entered(t) => if turns.Free? then Held(t) else Mixed
    case Accessed(t) => if turns == Held(t) then turns else Mixed
    case Left(t) => if turns == Held(t) then Free else Mixed
  }

  function TurnsOf(trace: seq<Event>): Turns {
    if trace == [] then Free else AfterEvent(TurnsOf(trace[..|trace| - 1]), trace[|trace| - 1])
  }

  /** Who is inside the section of `key` now. */
  predicate HolderIs(y: System, key: string, turns: Turns) {
    match turns
    case Free => key in y.locks ==> y.locks[key] !in y.owner
    case Held(t) => InSection(PhaseOf(y, t)) && PhaseOf(y, t).key == key
    case Mixed => false
  }

  lemma NextIsFree(y: System)
    requires Inv(y)
    ensures y.next !in y.owner
  {
    forall l | l in y.owner ensures l < y.next {
      assert Honest(y, y.owner[l]);
    }
  }

  lemma MoveKeepsTurns(y: System, m: Move, key: string, turns: Turns)
    requires Inv(y) && Can(y, m) && HolderIs(y, key, turns)
    ensures var events := EventsOf(y, m, key);
      |events| <= 1 && HolderIs(Do(y, m), key, if events == [] then turns else AfterEvent(turns, events[0]))
  {
    MoveKeepsInv(y, m);
    NextIsFree(y);
    assert Honest(y, m.thread) && Honest(Do(y, m), m.thread);
    if turns.Held? {
      assert Honest(y, turns.thread) && Honest(Do(y, m), turns.thread);
    }
  }

  /**
   * Under every interleaving what happens inside one key's section is one whole turn after another: the writers of an
   * instance, however their threads interleave, run as some sequence of turns.
   */
  lemma {:induction false} SectionsAreTurns(store: map<string, Aggregate>, ms: Moves, key: string)
    requires Possible(store, ms)
    ensures HolderIs(At(store, ms), key, TurnsOf(Trace(store, ms, key)))
  {
    hide Do, Can, Inv, HolderIs, EventsOf, AfterEvent;
    if ms.NoMove? {
      NobodyInside(store, key);
    } else {
      SectionsAreTurns(store, ms.prev, key);
      ReachableKeepsInv(store, ms.prev);
      var y, before := At(store, ms.prev), Trace(store, ms.prev, key);
      MoveKeepsTurns(y, ms.last, key, TurnsOf(before));
      var events := EventsOf(y, ms.last, key);
      if events != [] {
        assert (before + events)[..|before + events| - 1] == before;
      } else {
        assert before + events == before;
      }
    }
  }

  lemma NobodyInside(store: map<string, Aggregate>, key: string)
    ensures HolderIs(Fresh(store), key, Free)
  {
  }
}
