/** The in-process half of the intent guard: a reference-counted map of lock objects shared by the
    threads of one store instance. */
module IntentGuard {
  import opened Types

  type Thread = nat
  type Lock = nat

  datatype Entry = Entry(lock: Lock, refs: nat)

  /** Where a thread stands on one intent; a thread not on it has no place. A thread inside enters the
      same guard again without touching the map. */
  datatype Place = Waiting(lock: Lock) | Inside(lock: Lock) | Leaving

  /** The map, who holds which lock object, the threads, and the next unused lock object. */
  datatype Guard = Guard(
    entries: map<IntentId, Entry>,
    holders: map<Lock, Thread>,
    places: map<(Thread, IntentId), Place>,
    unused: Lock)

  datatype Step =
    | Register(t: Thread, i: IntentId)
    | Acquire(t: Thread, i: IntentId)
    | TimeOut(t: Thread, i: IntentId)
    | Unlock(t: Thread, i: IntentId)
    | Drop(t: Thread, i: IntentId)

  // ---- the two sections that hold the map's own lock ----

  /** Takes or creates the entry of an intent. */
  function Referenced(entries: map<IntentId, Entry>, i: IntentId, unused: Lock): map<IntentId, Entry> {
    if i in entries then entries[i := Entry(entries[i].lock, entries[i].refs + 1)] else entries[i := Entry(unused, 1)]
  }

  /** Gives the entry back, and forgets it with its last user. */
  function Dereferenced(entries: map<IntentId, Entry>, i: IntentId): map<IntentId, Entry>
    requires i in entries
  {
    if entries[i].refs <= 1 then entries - {i} else entries[i := Entry(entries[i].lock, entries[i].refs - 1)]
  }

  class LockMap {
    var entries: map<IntentId, Entry>
    var unused: Lock

    method Acquire(i: IntentId) returns (lock: Lock)
      modifies this
      ensures entries == Referenced(old(entries), i, old(unused))
      ensures i in entries && lock == entries[i].lock
      ensures unused == if i in old(entries) then old(unused) else old(unused) + 1
    {
      var refs := 0;
      if i in entries {
        lock, refs := entries[i].lock, entries[i].refs;
      } else {
        lock := unused;
        unused := unused + 1;
      }
      entries := entries[i := Entry(lock, refs + 1)];
    }

    method Release(i: IntentId)
      requires i in entries
      modifies this`entries
      ensures entries == Dereferenced(old(entries), i)
    {
      var entry := entries[i];
      if entry.refs <= 1 {
        entries := entries - {i};
      } else {
        entries := entries[i := Entry(entry.lock, entry.refs - 1)];
      }
    }
  }

  // ---- any interleaving of threads ----

  predicate Enabled(g: Guard, st: Step) {
    var k := (st.t, st.i);
    match st
    case Register(_, _) => k !in g.places
    case Acquire(t, _) => k in g.places && g.places[k].Waiting?
      && (g.places[k].lock in g.holders ==> g.holders[g.places[k].lock] == t)
    case TimeOut(_, _) => k in g.places && g.places[k].Waiting?
    case Unlock(_, _) => k in g.places && g.places[k].Inside?
    case Drop(_, i) => k in g.places && g.places[k].Leaving? && i in g.entries
  }

  function Next(g: Guard, st: Step): Guard
    requires Enabled(g, st)
  {
    var k := (st.t, st.i);
    match st
    case Register(_, i) =>
      var entries := Referenced(g.entries, i, g.unused);
      g.(entries := entries, places := g.places[k := Waiting(entries[i].lock)],
         unused := if i in g.entries then g.unused else g.unused + 1)
    case Acquire(t, _) =>
      var lock := g.places[k].lock;
      g.(holders := g.holders[lock := t], places := g.places[k := Inside(lock)])
    case TimeOut(_, _) => g.(places := g.places[k := Leaving])
    case Unlock(_, _) => g.(holders := g.holders - {g.places[k].lock}, places := g.places[k := Leaving])
    case Drop(_, i) => g.(entries := Dereferenced(g.entries, i), places := g.places - {k})
  }

  /** Threads that hold, wait for or are about to give up the intent. */
  function Users(places: map<(Thread, IntentId), Place>, i: IntentId): set<Thread> {
    set k | k in places && k.1 == i :: k.0
  }

  ghost predicate EntryInv(g: Guard, i: IntentId) {
    && (i in g.entries <==> Users(g.places, i) != {})
    && (i in g.entries ==> g.entries[i].refs == |Users(g.places, i)| && g.entries[i].lock < g.unused)
  }

  ghost predicate PlaceInv(g: Guard, t: Thread, i: IntentId) {
    (t, i) in g.places ==>
      && i in g.entries
      && (!g.places[(t, i)].Leaving? ==> g.places[(t, i)].lock == g.entries[i].lock)
      && (g.places[(t, i)].Inside? ==> g.entries[i].lock in g.holders && g.holders[g.entries[i].lock] == t)
  }

  ghost predicate DistinctLocks(entries: map<IntentId, Entry>) {
    forall i, j :: i in entries && j in entries && i != j ==> entries[i].lock != entries[j].lock
  }

  ghost predicate Inv(g: Guard) {
    && (forall i :: EntryInv(g, i))
    && (forall t, i :: PlaceInv(g, t, i))
    && DistinctLocks(g.entries)
  }

  lemma UsersMember(places: map<(Thread, IntentId), Place>, t: Thread, i: IntentId)
    ensures t in Users(places, i) <==> (t, i) in places
  {
  }

  lemma UsersGrow(g: Guard, st: Step, i: IntentId)
    requires Enabled(g, st) && st.Register?
    ensures Users(Next(g, st).places, i) == if i == st.i then Users(g.places, i) + {st.t} else Users(g.places, i)
    ensures i == st.i ==> st.t !in Users(g.places, i)
  {
    forall t ensures t in Users(Next(g, st).places, i) <==> (t in Users(g.places, i) || (i == st.i && t == st.t)) {
      UsersMember(g.places, t, i);
      UsersMember(Next(g, st).places, t, i);
    }
    UsersMember(g.places, st.t, i);
  }

  lemma UsersShrink(g: Guard, st: Step, i: IntentId)
    requires Enabled(g, st) && st.Drop?
    ensures Users(Next(g, st).places, i) == if i == st.i then Users(g.places, i) - {st.t} else Users(g.places, i)
    ensures i == st.i ==> st.t in Users(g.places, i)
  {
    forall t ensures t in Users(Next(g, st).places, i) <==> (t in Users(g.places, i) && !(i == st.i && t == st.t)) {
      UsersMember(g.places, t, i);
      UsersMember(Next(g, st).places, t, i);
    }
    UsersMember(g.places, st.t, i);
  }

  lemma UsersStay(g: Guard, st: Step, i: IntentId)
    requires Enabled(g, st) && !st.Register? && !st.Drop?
    ensures Users(Next(g, st).places, i) == Users(g.places, i)
  {
    forall t ensures t in Users(Next(g, st).places, i) <==> t in Users(g.places, i) {
      UsersMember(g.places, t, i);
      UsersMember(Next(g, st).places, t, i);
    }
  }

  lemma EntryStep(g: Guard, st: Step, i: IntentId)
    requires Inv(g) && Enabled(g, st)
    ensures EntryInv(Next(g, st), i)
  {
    assert EntryInv(g, i) && EntryInv(g, st.i);
    if st.Register? {
      UsersGrow(g, st, i);
    } else if st.Drop? {
      UsersShrink(g, st, i);
      if i == st.i && g.entries[i].refs <= 1 {
        assert |Users(g.places, i) - {st.t}| == 0;
      }
    } else {
      UsersStay(g, st, i);
    }
  }

  lemma PlaceStep(g: Guard, st: Step, t: Thread, i: IntentId)
    requires Inv(g) && Enabled(g, st)
    ensures PlaceInv(Next(g, st), t, i)
  {
    assert PlaceInv(g, t, i) && PlaceInv(g, st.t, st.i);
    EntryStep(g, st, i);
    UsersMember(Next(g, st).places, t, i);
    if st.Unlock? && (t, i) in g.places && i != st.i {
      assert g.entries[i].lock != g.entries[st.i].lock;
    }
  }

  lemma StepKeepsInv(g: Guard, st: Step)
    requires Inv(g) && Enabled(g, st)
    ensures Inv(Next(g, st)) && g.unused <= Next(g, st).unused
  {
    forall i ensures EntryInv(Next(g, st), i) {
      EntryStep(g, st, i);
    }
    forall t, i ensures PlaceInv(Next(g, st), t, i) {
      PlaceStep(g, st, t, i);
    }
    LocksStayDistinct(g, st);
  }

  lemma LocksStayDistinct(g: Guard, st: Step)
    requires Inv(g) && Enabled(g, st)
    ensures DistinctLocks(Next(g, st).entries)
  {
    forall i | i in g.entries ensures g.entries[i].lock < g.unused {
      assert EntryInv(g, i);
    }
  }

  function Run(g: Guard, steps: seq<Step>): Guard
    requires Possible(g, steps)
    decreases |steps|
  {
    if steps == [] then g else Run(Next(g, steps[0]), steps[1..])
  }

  predicate Possible(g: Guard, steps: seq<Step>)
    decreases |steps|
  {
    steps == [] || (Enabled(g, steps[0]) && Possible(Next(g, steps[0]), steps[1..]))
  }

  /** Lock objects are never handed out twice. */
  lemma {:induction false} RunKeepsInv(g: Guard, steps: seq<Step>)
    requires Inv(g) && Possible(g, steps)
    ensures Inv(Run(g, steps)) && g.unused <= Run(g, steps).unused
    decreases |steps|
  {
    if steps != [] {
      StepKeepsInv(g, steps[0]);
      RunKeepsInv(Next(g, steps[0]), steps[1..]);
    }
  }

  const OPENED := Guard(map[], map[], map[], 0)

  /** At most one thread is inside an intent's guarded section, at any point of any interleaving. */
  lemma MutualExclusion(steps: seq<Step>, s: Thread, t: Thread, i: IntentId)
    requires Possible(OPENED, steps)
    requires var g := Run(OPENED, steps);
      (s, i) in g.places && (t, i) in g.places && g.places[(s, i)].Inside? && g.places[(t, i)].Inside?
    ensures s == t
  {
    RunKeepsInv(OPENED, steps);
    assert PlaceInv(Run(OPENED, steps), s, i) && PlaceInv(Run(OPENED, steps), t, i);
  }

  /** Two lock objects are never in use for one intent, and an entry exists exactly while some thread
      holds it, waits for it or is giving it up. */
  lemma OneLockPerIntent(steps: seq<Step>, s: Thread, t: Thread, i: IntentId)
    requires Possible(OPENED, steps)
    ensures var g := Run(OPENED, steps);
      && (i in g.entries <==> exists u :: (u, i) in g.places)
      && ((s, i) in g.places && (t, i) in g.places && !g.places[(s, i)].Leaving? && !g.places[(t, i)].Leaving? ==>
            g.places[(s, i)].lock == g.places[(t, i)].lock)
  {
    RunKeepsInv(OPENED, steps);
    var g := Run(OPENED, steps);
    assert EntryInv(g, i) && PlaceInv(g, s, i) && PlaceInv(g, t, i);
    if i in g.entries {
      var u :| u in Users(g.places, i);
      UsersMember(g.places, u, i);
    }
    if u :| (u, i) in g.places {
      UsersMember(g.places, u, i);
    }
  }
}
