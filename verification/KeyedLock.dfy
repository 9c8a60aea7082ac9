/** The refcounted per-key lock: a map of entries that are created on demand and deleted by the last
    thread that leaves. Its four atomic steps, the invariant every interleaving of them keeps, and the
    class whose methods are those steps. */
module KeyedLocks {
  type Tid = nat

  datatype Stage = Waiting | Holding | Releasing

  /** A thread's stay at the lock: it keeps the entry it registered with until it deregisters. */
  datatype Ticket<K, E> = Ticket(key: K, entry: E, stage: Stage)

  /** `entries` is the map behind the lock's own mutex, `refs` and `owner` are the fields of the entries
      (a mutex without owner is free), `used` are the entries ever created. */
  datatype Locks<!K(==), !E(==)> = Locks(
    entries: map<K, E>,
    refs: map<E, nat>,
    owner: map<E, Tid>,
    used: set<E>,
    tickets: map<Tid, Ticket<K, E>>)

  function NoLocks<K, E>(): Locks<K, E> {
    Locks(map[], map[], map[], {}, map[])
  }

  /** Look the key's entry up or create it, and count the thread in. */
  function Register<K, E>(l: Locks<K, E>, t: Tid, key: K, unused: E): Locks<K, E>
    requires key in l.entries ==> l.entries[key] in l.refs
  {
    if key in l.entries then
      var e := l.entries[key];
      l.(refs := l.refs[e := l.refs[e] + 1], tickets := l.tickets[t := Ticket(key, e, Waiting)])
    else
      l.(entries := l.entries[key := unused], refs := l.refs[unused := 1], used := l.used + {unused},
         tickets := l.tickets[t := Ticket(key, unused, Waiting)])
  }

  predicate At<K, E>(l: Locks<K, E>, t: Tid, stage: Stage) {
    t in l.tickets && l.tickets[t].stage == stage
  }

  predicate HoldsKey<K, E>(l: Locks<K, E>, t: Tid, key: K) {
    At(l, t, Holding) && l.tickets[t].key == key
  }

  predicate CanAcquire<K, E>(l: Locks<K, E>, t: Tid) {
    At(l, t, Waiting) && l.tickets[t].entry !in l.owner
  }

  function Acquire<K, E>(l: Locks<K, E>, t: Tid): Locks<K, E>
    requires CanAcquire(l, t)
  {
    l.(owner := l.owner[l.tickets[t].entry := t], tickets := l.tickets[t := l.tickets[t].(stage := Holding)])
  }

  function Unlock<K, E>(l: Locks<K, E>, t: Tid): Locks<K, E>
    requires At(l, t, Holding)
  {
    l.(owner := l.owner - {l.tickets[t].entry}, tickets := l.tickets[t := l.tickets[t].(stage := Releasing)])
  }

  /** Count the thread out of its entry, and delete whatever the map holds under the key if it was the last. */
  function Deregister<K, E>(l: Locks<K, E>, t: Tid): Locks<K, E>
    requires At(l, t, Releasing) && l.tickets[t].entry in l.refs && l.refs[l.tickets[t].entry] > 0
  {
    var ticket := l.tickets[t];
    var left := l.refs[ticket.entry] - 1;
    l.(refs := l.refs[ticket.entry := left],
       entries := if left == 0 then l.entries - {ticket.key} else l.entries,
       tickets := l.tickets - {t})
  }

  /** The threads whose ticket is for entry `e`. */
  function Users<K, E>(l: Locks<K, E>, e: E): set<Tid> {
    set t | t in l.tickets && l.tickets[t].entry == e
  }

  /** Every registered, holding or releasing thread refers to the entry now in the map. */
  ghost predicate TicketsCurrent<K, E>(l: Locks<K, E>) {
    forall t | t in l.tickets :: l.tickets[t].key in l.entries && l.entries[l.tickets[t].key] == l.tickets[t].entry
  }

  /** Mapped entries count exactly their users and always have one. */
  ghost predicate CountsExact<K, E>(l: Locks<K, E>) {
    forall k | k in l.entries :: l.entries[k] in l.refs && l.refs[l.entries[k]] == |Users(l, l.entries[k])| > 0
  }

  ghost predicate EntriesDistinct<K, E>(l: Locks<K, E>) {
    && (forall k | k in l.entries :: l.entries[k] in l.used)
    && (forall k, k' | k in l.entries && k' in l.entries && l.entries[k] == l.entries[k'] :: k == k')
  }

  /** A mutex is owned by exactly the thread whose ticket holds it. */
  ghost predicate OwnersHold<K, E>(l: Locks<K, E>) {
    && (forall e | e in l.owner ::
          e in l.used && l.owner[e] in l.tickets && l.tickets[l.owner[e]].stage == Holding && l.tickets[l.owner[e]].entry == e)
    && (forall t | t in l.tickets && l.tickets[t].stage == Holding ::
          l.tickets[t].entry in l.owner && l.owner[l.tickets[t].entry] == t)
  }

  ghost predicate LocksOk<K, E>(l: Locks<K, E>) {
    TicketsCurrent(l) && CountsExact(l) && EntriesDistinct(l) && OwnersHold(l)
  }

  lemma UsersAdd<K, E>(l: Locks<K, E>, l': Locks<K, E>, t: Tid, ticket: Ticket<K, E>, e: E)
    requires t !in l.tickets && l'.tickets == l.tickets[t := ticket]
    ensures |Users(l', e)| == |Users(l, e)| + (if ticket.entry == e then 1 else 0)
  {
    assert Users(l', e) == if ticket.entry == e then Users(l, e) + {t} else Users(l, e);
  }

  lemma UsersSame<K, E>(l: Locks<K, E>, l': Locks<K, E>, e: E)
    requires l'.tickets.Keys == l.tickets.Keys
    requires forall t | t in l.tickets :: l'.tickets[t].entry == l.tickets[t].entry
    ensures Users(l', e) == Users(l, e)
  {
  }

  lemma RegisterCounts<K, E>(l: Locks<K, E>, t: Tid, key: K, unused: E)
    requires LocksOk(l) && t !in l.tickets && (key !in l.entries ==> unused !in l.used)
    ensures CountsExact(Register(l, t, key, unused))
  {
    hide OwnersHold;
    var l' := Register(l, t, key, unused);
    var ticket := l'.tickets[t];
    forall k | k in l'.entries
      ensures l'.entries[k] in l'.refs && l'.refs[l'.entries[k]] == |Users(l', l'.entries[k])| > 0
    {
      hide Users;
      var e := l'.entries[k];
      UsersAdd(l, l', t, ticket, e);
      if k !in l.entries {
        NoUsers(l, unused);
      }
    }
  }

  lemma NoUsers<K, E>(l: Locks<K, E>, e: E)
    requires TicketsCurrent(l) && EntriesDistinct(l) && e !in l.used
    ensures |Users(l, e)| == 0
  {
    assert Users(l, e) == {};
  }

  lemma RegisterOwners<K, E>(l: Locks<K, E>, t: Tid, key: K, unused: E)
    requires LocksOk(l) && t !in l.tickets
    ensures OwnersHold(Register(l, t, key, unused))
  {
    hide TicketsCurrent, EntriesDistinct;
  }

  lemma RegisterTickets<K, E>(l: Locks<K, E>, t: Tid, key: K, unused: E)
    requires TicketsCurrent(l) && (key in l.entries ==> l.entries[key] in l.refs)
    ensures TicketsCurrent(Register(l, t, key, unused))
  {
  }

  lemma RegisterEntries<K, E>(l: Locks<K, E>, t: Tid, key: K, unused: E)
    requires EntriesDistinct(l) && (key in l.entries ==> l.entries[key] in l.refs) && (key !in l.entries ==> unused !in l.used)
    ensures EntriesDistinct(Register(l, t, key, unused))
  {
  }

  lemma MappedCounts<K, E>(l: Locks<K, E>, key: K)
    requires CountsExact(l) && key in l.entries
    ensures l.entries[key] in l.refs
  {
  }

  lemma RegisterKeeps<K, E>(l: Locks<K, E>, t: Tid, key: K, unused: E)
    requires LocksOk(l) && t !in l.tickets && (key !in l.entries ==> unused !in l.used)
    ensures LocksOk(Register(l, t, key, unused))
  {
    RegisterCounts(l, t, key, unused);
    RegisterOwners(l, t, key, unused);
    hide CountsExact, OwnersHold, TicketsCurrent, EntriesDistinct, Register;
    if key in l.entries {
      MappedCounts(l, key);
    }
    RegisterTickets(l, t, key, unused);
    RegisterEntries(l, t, key, unused);
  }

  lemma SameCounts<K, E>(l: Locks<K, E>, l': Locks<K, E>)
    requires CountsExact(l) && l'.entries == l.entries && l'.refs == l.refs
    requires l'.tickets.Keys == l.tickets.Keys
    requires forall t | t in l.tickets :: l'.tickets[t].entry == l.tickets[t].entry
    ensures CountsExact(l')
  {
    forall k | k in l.entries ensures Users(l', l.entries[k]) == Users(l, l.entries[k]) {
      UsersSame(l, l', l.entries[k]);
    }
  }

  lemma AcquireOwners<K, E>(l: Locks<K, E>, t: Tid)
    requires LocksOk(l) && CanAcquire(l, t)
    ensures OwnersHold(Acquire(l, t))
  {
    hide CountsExact;
  }

  lemma SameTickets<K, E>(l: Locks<K, E>, l': Locks<K, E>)
    requires TicketsCurrent(l) && EntriesDistinct(l) && l'.entries == l.entries && l'.used == l.used
    requires l'.tickets.Keys == l.tickets.Keys
    requires forall t | t in l.tickets :: l'.tickets[t].entry == l.tickets[t].entry && l'.tickets[t].key == l.tickets[t].key
    ensures TicketsCurrent(l') && EntriesDistinct(l')
  {
  }

  lemma AcquireKeeps<K, E>(l: Locks<K, E>, t: Tid)
    requires LocksOk(l) && CanAcquire(l, t)
    ensures LocksOk(Acquire(l, t))
  {
    AcquireOwners(l, t);
    hide CountsExact, OwnersHold, TicketsCurrent, EntriesDistinct;
    SameCounts(l, Acquire(l, t));
    SameTickets(l, Acquire(l, t));
  }

  lemma UnlockOwners<K, E>(l: Locks<K, E>, t: Tid)
    requires OwnersHold(l) && At(l, t, Holding)
    ensures OwnersHold(Unlock(l, t))
  {
  }

  lemma UnlockKeeps<K, E>(l: Locks<K, E>, t: Tid)
    requires LocksOk(l) && At(l, t, Holding)
    ensures LocksOk(Unlock(l, t))
  {
    UnlockOwners(l, t);
    hide CountsExact, OwnersHold, TicketsCurrent, EntriesDistinct;
    SameCounts(l, Unlock(l, t));
    SameTickets(l, Unlock(l, t));
  }

  lemma RegisteredIsCounted<K, E>(l: Locks<K, E>, t: Tid)
    requires LocksOk(l) && t in l.tickets
    ensures l.tickets[t].entry in l.refs && l.refs[l.tickets[t].entry] > 0
  {
  }

  lemma DeregisterCounts<K, E>(l: Locks<K, E>, t: Tid)
    requires LocksOk(l) && At(l, t, Releasing)
    ensures l.tickets[t].entry in l.refs && l.refs[l.tickets[t].entry] > 0
    ensures CountsExact(Deregister(l, t)) && TicketsCurrent(Deregister(l, t))
  {
    hide OwnersHold;
    RegisteredIsCounted(l, t);
    var l' := Deregister(l, t);
    var mine := l.tickets[t];
    assert l.tickets == l'.tickets[t := mine];
    forall e ensures |Users(l, e)| == |Users(l', e)| + (if mine.entry == e then 1 else 0) {
      UsersAdd(l', l, t, mine, e);
    }
    forall u | u in l'.tickets ensures l'.tickets[u].key in l'.entries {
      if l'.tickets[u].key == mine.key {
        assert u in Users(l', mine.entry);
      }
    }
  }

  lemma DeregisterOwners<K, E>(l: Locks<K, E>, t: Tid)
    requires OwnersHold(l) && At(l, t, Releasing) && l.tickets[t].entry in l.refs && l.refs[l.tickets[t].entry] > 0
    ensures OwnersHold(Deregister(l, t))
  {
  }

  lemma DeregisterEntries<K, E>(l: Locks<K, E>, t: Tid)
    requires EntriesDistinct(l) && At(l, t, Releasing) && l.tickets[t].entry in l.refs && l.refs[l.tickets[t].entry] > 0
    ensures EntriesDistinct(Deregister(l, t))
  {
  }

  lemma DeregisterKeeps<K, E>(l: Locks<K, E>, t: Tid)
    requires LocksOk(l) && At(l, t, Releasing)
    ensures l.tickets[t].entry in l.refs && l.refs[l.tickets[t].entry] > 0 && LocksOk(Deregister(l, t))
  {
    hide CountsExact, OwnersHold, TicketsCurrent, EntriesDistinct;
    DeregisterCounts(l, t);
    DeregisterOwners(l, t);
    DeregisterEntries(l, t);
  }

  /** A waiting thread's entry is the one in the map. */
  lemma WaitsForMapped<K, E>(l: Locks<K, E>, t: Tid)
    requires LocksOk(l) && t in l.tickets
    ensures var mine := l.tickets[t]; mine.key in l.entries && l.entries[mine.key] == mine.entry
  {
    hide CountsExact, EntriesDistinct, OwnersHold;
  }

  /** What acquiring leaves of the maps: one more owner, and nothing else. */
  lemma AcquireFields<K, E>(l: Locks<K, E>, t: Tid)
    requires CanAcquire(l, t)
    ensures var l' := Acquire(l, t);
            && l'.entries == l.entries && l'.refs == l.refs
            && forall e :: e in l'.owner <==> e in l.owner || e == l.tickets[t].entry
  {
  }

  /** What counting out leaves under each key: the last user takes its entry along, otherwise only its count falls. */
  lemma DeregisterFields<K, E>(l: Locks<K, E>, t: Tid)
    requires LocksOk(l) && At(l, t, Releasing)
    ensures var mine := l.tickets[t];
            && mine.key in l.entries && l.entries[mine.key] == mine.entry
            && mine.entry in l.refs && l.refs[mine.entry] > 0
            && var l' := Deregister(l, t);
               && l'.owner == l.owner
               && l'.entries == (if l.refs[mine.entry] == 1 then l.entries - {mine.key} else l.entries)
               && (forall k | k in l'.entries && k != mine.key ::
                     l.entries[k] != mine.entry && l.entries[k] in l.refs && l'.refs[l.entries[k]] == l.refs[l.entries[k]])
               && l'.refs[mine.entry] == l.refs[mine.entry] - 1
  {
    hide OwnersHold, Users;
  }

  lemma OtherKeysOtherEntries<K, E>(l: Locks<K, E>, key: K, e: E)
    requires LocksOk(l) && (if key in l.entries then l.entries[key] == e else e !in l.used)
    ensures forall k | k in l.entries && k != key :: l.entries[k] != e
    ensures e !in l.used ==> e !in l.owner
    ensures key in l.entries ==> e in l.refs
  {
  }

  /** At most one thread holds a key, even though entries are deleted and created again. */
  lemma MutualExclusion<K, E>(l: Locks<K, E>, t: Tid, u: Tid, key: K)
    requires LocksOk(l) && HoldsKey(l, t, key) && HoldsKey(l, u, key)
    ensures t == u
  {
  }

  /** With no thread registered, waiting, holding or releasing, no entry is left behind. */
  lemma NothingLeftBehind<K, E>(l: Locks<K, E>)
    requires LocksOk(l) && l.tickets == map[]
    ensures l.entries == map[]
  {
    assert forall k | k in l.entries :: Users(l, l.entries[k]) == {};
  }

  /** A waiting thread that cannot acquire waits for a thread that holds the same key. */
  lemma BlockedByHolder<K, E>(l: Locks<K, E>, t: Tid)
    requires LocksOk(l) && At(l, t, Waiting) && !CanAcquire(l, t)
    ensures exists u :: u != t && HoldsKey(l, u, l.tickets[t].key)
  {
    var u := l.owner[l.tickets[t].entry];
    assert HoldsKey(l, u, l.tickets[t].key);
  }

  // ----- every interleaving

  datatype LockLabel<K, E> = DoRegister(t: Tid, key: K, unused: E) | DoAcquire(t: Tid) | DoUnlock(t: Tid) | DoDeregister(t: Tid)

  /** One atomic step; a step that is not enabled changes nothing. */
  function LockStep<K, E>(l: Locks<K, E>, s: LockLabel<K, E>): Locks<K, E> {
    match s
    case DoRegister(t, key, unused) =>
      if t in l.tickets || unused in l.used || (key in l.entries && l.entries[key] !in l.refs) then l
      else Register(l, t, key, unused)
    case DoAcquire(t) => if CanAcquire(l, t) then Acquire(l, t) else l
    case DoUnlock(t) => if At(l, t, Holding) then Unlock(l, t) else l
    case DoDeregister(t) =>
      if At(l, t, Releasing) && l.tickets[t].entry in l.refs && l.refs[l.tickets[t].entry] > 0 then Deregister(l, t) else l
  }

  function RunLocks<K, E>(steps: seq<LockLabel<K, E>>): Locks<K, E> {
    if steps == [] then NoLocks() else LockStep(RunLocks(steps[..|steps| - 1]), steps[|steps| - 1])
  }

  lemma {:induction false} RunLocksKeeps<K, E>(steps: seq<LockLabel<K, E>>)
    ensures LocksOk(RunLocks(steps))
  {
    if steps != [] {
      var l := RunLocks(steps[..|steps| - 1]);
      RunLocksKeeps(steps[..|steps| - 1]);
      match steps[|steps| - 1]
      case DoRegister(t, key, unused) =>
        if t !in l.tickets && unused !in l.used { RegisterKeeps(l, t, key, unused); }
      case DoAcquire(t) => if CanAcquire(l, t) { AcquireKeeps(l, t); }
      case DoUnlock(t) => if At(l, t, Holding) { UnlockKeeps(l, t); }
      case DoDeregister(t) => if At(l, t, Releasing) { DeregisterKeeps(l, t); }
    }
  }

  /** In every interleaving: mutual exclusion per key, a ticket always names the entry now in the map,
      counts are exact, and the map is empty whenever no thread is active. */
  lemma LockIsSafe<K, E>(steps: seq<LockLabel<K, E>>)
    ensures var l := RunLocks(steps);
            && (forall t, u, key | HoldsKey(l, t, key) && HoldsKey(l, u, key) :: t == u)
            && (forall t | t in l.tickets :: l.tickets[t].key in l.entries && l.entries[l.tickets[t].key] == l.tickets[t].entry)
            && (forall k | k in l.entries :: l.entries[k] in l.refs && l.refs[l.entries[k]] == |Users(l, l.entries[k])| > 0)
            && (l.tickets == map[] ==> l.entries == map[])
  {
    RunLocksKeeps(steps);
    var l := RunLocks(steps);
    forall t, u, key | HoldsKey(l, t, key) && HoldsKey(l, u, key) ensures t == u {
      MutualExclusion(l, t, u, key);
    }
    if l.tickets == map[] {
      NothingLeftBehind(l);
    }
  }

  predicate KeyFree<K, E>(l: Locks<K, E>, key: K) {
    forall u | u in l.tickets && l.tickets[u].stage == Holding :: l.tickets[u].key != key
  }

  /** No thread is ever stuck inside the lock but for a holder of its key: after any interleaving, a thread that
      is not there can come to wait, one that waits gets its key exactly if no thread holds it, one that holds
      it can free it, and one that freed it can leave. */
  lemma StepsGoThrough<K, E>(steps: seq<LockLabel<K, E>>, t: Tid, key: K, unused: E)
    ensures var l := RunLocks(steps);
            && (t !in l.tickets && unused !in l.used ==>
                  var l' := LockStep(l, DoRegister(t, key, unused));
                  At(l', t, Waiting) && l'.tickets[t].key == key && l'.tickets - {t} == l.tickets)
            && (At(l, t, Waiting) ==>
                  var l' := LockStep(l, DoAcquire(t));
                  HoldsKey(l', t, l.tickets[t].key) <==> KeyFree(l, l.tickets[t].key))
            && (HoldsKey(l, t, key) ==>
                  var l' := LockStep(l, DoUnlock(t));
                  At(l', t, Releasing) && KeyFree(l', key))
            && (At(l, t, Releasing) ==> t !in LockStep<K, E>(l, DoDeregister(t)).tickets)
  {
    hide RunLocks;
    RunLocksKeeps(steps);
    var l := RunLocks(steps);
    if t !in l.tickets && unused !in l.used {
      RegisterGoesThrough(l, t, key, unused);
    }
    if At(l, t, Waiting) {
      AcquiredExactly(l, t);
    }
    if At(l, t, Releasing) {
      RegisteredIsCounted(l, t);
    }
  }

  lemma RegisterGoesThrough<K, E>(l: Locks<K, E>, t: Tid, key: K, unused: E)
    requires LocksOk(l) && t !in l.tickets && unused !in l.used
    ensures var l' := LockStep(l, DoRegister(t, key, unused));
            At(l', t, Waiting) && l'.tickets[t].key == key && l'.tickets - {t} == l.tickets
  {
    hide TicketsCurrent, EntriesDistinct, OwnersHold;
    if key in l.entries {
      MappedCounts(l, key);
    }
  }

  lemma AcquiredExactly<K, E>(l: Locks<K, E>, t: Tid)
    requires LocksOk(l) && At(l, t, Waiting)
    ensures HoldsKey(LockStep<K, E>(l, DoAcquire(t)), t, l.tickets[t].key) <==> KeyFree(l, l.tickets[t].key)
  {
    hide CountsExact;
    if CanAcquire(l, t) {
      assert KeyFree(l, l.tickets[t].key);
    } else {
      BlockedByHolder(l, t);
    }
  }
}

/** The lock as an object: the real map, counters and mutexes, each method one of the atomic steps. */
module KeyedLockObject {
  import opened KeyedLocks

  class Entry {
    var locked: bool
    var refs: nat

    constructor ()
      ensures !locked && refs == 0
    {
      locked, refs := false, 0;
    }
  }

  class KeyedLock {
    var entries: map<string, Entry>
    ghost var model: Locks<string, Entry>

    /** The real fields are the model's: the map itself, each mapped entry's count and its mutex. */
    ghost predicate Valid()
      reads this, entries.Values
    {
      && LocksOk(model) && model.entries == entries
      && forall k | k in entries ::
           entries[k].refs == model.refs[entries[k]] && (entries[k].locked <==> entries[k] in model.owner)
    }

    constructor ()
      ensures Valid() && model == NoLocks()
    {
      entries, model := map[], NoLocks();
    }

    /** The section under the lock's own mutex before the entry's mutex is taken. */
    method Register(ghost t: Tid, key: string) returns (e: Entry)
      requires Valid() && t !in model.tickets
      modifies this, entries.Values
      ensures Valid()
      ensures model == KeyedLocks.Register(old(model), t, key, e) && (key !in old(entries) ==> e !in old(model).used)
      ensures e == entries[key] == model.tickets[t].entry
      ensures entries == old(entries)[key := e] && (key in old(entries) ==> e == old(entries)[key])
      ensures key !in old(entries) ==> fresh(e)
    {
      hide LocksOk;
      if key in entries {
        e := entries[key];
      } else {
        e := new Entry();
        entries := entries[key := e];
      }
      OtherKeysOtherEntries(model, key, e);
      RegisterKeeps(model, t, key, e);
      e.refs := e.refs + 1;
      model := KeyedLocks.Register(model, t, key, e);
    }

    /** Taking the entry's mutex; the caller is only let through while it is free. */
    method Acquire(ghost t: Tid, e: Entry)
      requires Valid() && At(model, t, Waiting) && model.tickets[t].entry == e && !e.locked
      modifies this`model, e`locked
      ensures Valid() && entries == old(entries)
      ensures CanAcquire(old(model), t) && model == KeyedLocks.Acquire(old(model), t)
    {
      hide LocksOk;
      WaitsForMapped(model, t);
      assert CanAcquire(model, t);
      hide KeyedLocks.Acquire, CanAcquire, At;
      AcquireFields(model, t);
      AcquireKeeps(model, t);
      e.locked := true;
      model := KeyedLocks.Acquire(model, t);
    }

    method Unlock(ghost t: Tid, e: Entry)
      requires Valid() && At(model, t, Holding) && model.tickets[t].entry == e
      modifies this`model, e`locked
      ensures Valid() && entries == old(entries)
      ensures model == KeyedLocks.Unlock(old(model), t)
    {
      hide LocksOk;
      UnlockKeeps(model, t);
      e.locked := false;
      model := KeyedLocks.Unlock(model, t);
    }

    /** Counts down and, at zero, deletes whatever the map holds under the key. */
    method CountOut(key: string, e: Entry)
      requires e.refs > 0
      modifies this`entries, e`refs
      ensures e.refs == old(e.refs) - 1
      ensures entries == if old(e.refs) == 1 then old(entries) - {key} else old(entries)
    {
      e.refs := e.refs - 1;
      if e.refs == 0 {
        entries := entries - {key};
      }
    }

    /** The last section of the release function, again under the lock's own mutex. */
    method Deregister(ghost t: Tid, key: string, e: Entry)
      requires Valid() && At(model, t, Releasing) && model.tickets[t].entry == e && model.tickets[t].key == key
      modifies this, e`refs
      ensures Valid()
      ensures e in old(model).refs && old(model).refs[e] > 0 && model == KeyedLocks.Deregister(old(model), t)
      ensures entries == if old(e.refs) == 1 then old(entries) - {key} else old(entries)
    {
      hide LocksOk, KeyedLocks.Deregister, At;
      DeregisterKeeps(model, t);
      DeregisterFields(model, t);
      CountOut(key, e);
      model := KeyedLocks.Deregister(model, t);
    }
  }
}
