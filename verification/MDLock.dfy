/**
 `MDLockManager` as a step system: a map mutex guards a table of lazily created
 key mutexes; `Lock` and `Unlock` look their mutex up under the map mutex and
 acquire or release it after letting the map mutex go.
 */
module MDLock {
  import opened Common

  type Thread = nat
  type Mutex = nat

  datatype Pc =
    | Outside
    | LockCalled(key: string)                // waits for the map mutex
    | LockInMap(key: string)                 // holds it, about to look up
    | LockFound(key: string, mutex: Mutex)   // holds it, about to let go
    | LockWaits(key: string, mutex: Mutex)   // waits for the key mutex
    | Holding(key: string)
    | UnlockCalled(key: string)
    | UnlockInMap(key: string)
    | UnlockFound(key: string, mutex: Mutex)
    | UnlockReleases(key: string, mutex: Mutex)

  datatype State = State(
    mapHolder: Option<Thread>,
    locks: map<string, Mutex>,
    mutexes: map<Mutex, Option<Thread>>,     // every mutex ever made, and its holder
    threads: map<Thread, Pc>)

  datatype Action =
    | CallLock(t: Thread, k: string)
    | TakeMap(t: Thread)
    | LookUp(t: Thread, m: Mutex)            // m: the mutex made if the key has none
    | LeaveMap(t: Thread)
    | TakeKey(t: Thread)
    | CallUnlock(t: Thread)
    | ReleaseKey(t: Thread)

  predicate InMap(pc: Pc) { pc.LockInMap? || pc.LockFound? || pc.UnlockInMap? || pc.UnlockFound? }

  /** From acquiring the key mutex to releasing it. */
  predicate Owns(pc: Pc) {
    pc.Holding? || pc.UnlockCalled? || pc.UnlockInMap? || pc.UnlockFound? || pc.UnlockReleases?
  }

  predicate Enabled(s: State, a: Action) {
    a.t in s.threads && var pc := s.threads[a.t];
    match a
    case CallLock(t, k) => pc.Outside?
    case TakeMap(t) => (pc.LockCalled? || pc.UnlockCalled?) && s.mapHolder.None?
    case LookUp(t, m) => (pc.LockInMap? && m !in s.mutexes) || (pc.UnlockInMap? && pc.key in s.locks)
    case LeaveMap(t) => pc.LockFound? || pc.UnlockFound?
    case TakeKey(t) => pc.LockWaits? && pc.mutex in s.mutexes && s.mutexes[pc.mutex].None?
    case CallUnlock(t) => pc.Holding?
    case ReleaseKey(t) => pc.UnlockReleases? && pc.mutex in s.mutexes && s.mutexes[pc.mutex].Some?
  }

  function Move(s: State, t: Thread, pc: Pc): State { s.(threads := s.threads[t := pc]) }

  function Do(s: State, a: Action): State
    requires Enabled(s, a)
  {
    var pc := s.threads[a.t];
    match a
    case CallLock(t, k) => Move(s, t, LockCalled(k))
    case TakeMap(t) =>
      Move(s, t, if pc.LockCalled? then LockInMap(pc.key) else UnlockInMap(pc.key)).(mapHolder := Some(t))
    case LookUp(t, m) =>
      if pc.UnlockInMap? then Move(s, t, UnlockFound(pc.key, s.locks[pc.key]))
      else if pc.key in s.locks then Move(s, t, LockFound(pc.key, s.locks[pc.key]))
      else Move(s, t, LockFound(pc.key, m)).(locks := s.locks[pc.key := m], mutexes := s.mutexes[m := None])
    case LeaveMap(t) =>
      var next := if pc.LockFound? then LockWaits(pc.key, pc.mutex) else UnlockReleases(pc.key, pc.mutex);
      Move(s, t, next).(mapHolder := None)
    case TakeKey(t) => Move(s, t, Holding(pc.key)).(mutexes := s.mutexes[pc.mutex := Some(t)])
    case CallUnlock(t) => Move(s, t, UnlockCalled(pc.key))
    case ReleaseKey(t) => Move(s, t, Outside).(mutexes := s.mutexes[pc.mutex := None])
  }

  predicate Init(s: State) {
    s.mapHolder.None? && s.locks == map[] && s.mutexes == map[] && forall t | t in s.threads :: s.threads[t].Outside?
  }

  ghost predicate Legal(s: State, run: seq<Action>)
    decreases |run|, 0
  {
    run == [] || (Legal(s, run[..|run| - 1]) && Enabled(End(s, run[..|run| - 1]), run[|run| - 1]))
  }

  ghost function End(s: State, run: seq<Action>): State
    requires Legal(s, run)
    decreases |run|, 1
  {
    if run == [] then s else Do(End(s, run[..|run| - 1]), run[|run| - 1])
  }

  // ----- what every step keeps

  /** The map mutex is held by exactly the thread that is in the map. */
  predicate MapExclusive(s: State) {
    && (s.mapHolder.Some? ==> s.mapHolder.value in s.threads)
    && forall t | t in s.threads :: InMap(s.threads[t]) <==> s.mapHolder == Some(t)
  }

  /** Distinct keys have distinct mutexes. */
  predicate Table(s: State) {
    && (forall k | k in s.locks :: s.locks[k] in s.mutexes)
    && (forall k, l | k in s.locks && l in s.locks && k != l :: s.locks[k] != s.locks[l])
  }

  /** What a thread remembers agrees with the table and with the mutex. */
  predicate Remembers(s: State, t: Thread)
    requires t in s.threads
  {
    var pc := s.threads[t];
    && (pc.LockFound? || pc.LockWaits? || pc.UnlockFound? || pc.UnlockReleases? ==>
          pc.key in s.locks && s.locks[pc.key] == pc.mutex)
    && (Owns(pc) ==> pc.key in s.locks && s.locks[pc.key] in s.mutexes && s.mutexes[s.locks[pc.key]] == Some(t))
  }

  predicate HoldersOwn(s: State) {
    forall m | m in s.mutexes && s.mutexes[m].Some? ::
      var t := s.mutexes[m].value;
      && t in s.threads && Owns(s.threads[t])
      && s.threads[t].key in s.locks && s.locks[s.threads[t].key] == m
  }

  predicate Inv(s: State) {
    MapExclusive(s) && Table(s) && (forall t | t in s.threads :: Remembers(s, t)) && HoldersOwn(s)
  }

  lemma MapExclusiveKept(s: State, a: Action)
    requires Enabled(s, a) && MapExclusive(s)
    ensures MapExclusive(Do(s, a))
  {
  }

  lemma TableKept(s: State, a: Action)
    requires Enabled(s, a) && Table(s)
    ensures Table(Do(s, a))
  {
  }

  lemma RemembersKept(s: State, a: Action, t: Thread)
    requires Enabled(s, a) && Table(s) && t in s.threads && Remembers(s, t) && Remembers(s, a.t)
    ensures Remembers(Do(s, a), t)
  {
  }

  lemma HoldersOwnKept(s: State, a: Action)
    requires Enabled(s, a) && Table(s) && Remembers(s, a.t) && HoldersOwn(s)
    ensures HoldersOwn(Do(s, a))
  {
  }

  lemma Kept(s: State, a: Action)
    requires Enabled(s, a) && Inv(s)
    ensures Inv(Do(s, a))
  {
    MapExclusiveKept(s, a);
    TableKept(s, a);
    forall t | t in s.threads
      ensures Remembers(Do(s, a), t)
    {
      RemembersKept(s, a, t);
    }
    HoldersOwnKept(s, a);
  }

  lemma {:induction false} InvHolds(s: State, run: seq<Action>)
    requires Init(s) && Legal(s, run)
    ensures Inv(End(s, run))
    decreases |run|
  {
    if run != [] {
      InvHolds(s, run[..|run| - 1]);
      Kept(End(s, run[..|run| - 1]), run[|run| - 1]);
    }
  }

  // ----- refinement of one lock per key

  /** The abstract view: who owns each key. */
  ghost predicate OwnedBy(s: State, k: string, t: Thread) {
    t in s.threads && Owns(s.threads[t]) && s.threads[t].key == k
  }

  /**
   Main result: one thread per key owns it; a mutex, once made for a key, is that
   key's for good and no other key's; nobody waits for a key mutex while holding
   the map mutex; and the mutex an Unlock is about to release is held, by itself.
   */
  lemma MutualExclusion(s: State, run: seq<Action>)
    requires Init(s) && Legal(s, run)
    ensures var e := End(s, run);
      && (forall k, t: Thread, u: Thread | OwnedBy(e, k, t) && OwnedBy(e, k, u) :: t == u)
      && (forall k, l | k in e.locks && l in e.locks && e.locks[k] == e.locks[l] :: k == l)
      && (forall t | t in e.threads && e.threads[t].LockWaits? :: e.mapHolder != Some(t))
      && (forall t | t in e.threads && e.threads[t].UnlockReleases? ::
            e.threads[t].mutex in e.mutexes && e.mutexes[e.threads[t].mutex] == Some(t))
  {
    InvHolds(s, run);
    var e := End(s, run);
    assert forall t | t in e.threads :: Remembers(e, t);
  }

  lemma {:induction false} MutexForGood(s: State, run: seq<Action>, n: nat, k: string)
    requires Legal(s, run) && n <= |run| && Legal(s, run[..n]) && k in End(s, run[..n]).locks
    ensures k in End(s, run).locks && End(s, run).locks[k] == End(s, run[..n]).locks[k]
    decreases |run|
  {
    if n == |run| {
      assert run[..n] == run;
    } else {
      var front := run[..|run| - 1];
      assert front[..n] == run[..n];
      MutexForGood(s, front, n, k);
    }
  }

  /** Each step is a step of a plain lock per key: ownership changes only by taking
      a key nobody owns or by giving up one's own. */
  lemma RefinesLockPerKey(s: State, run: seq<Action>, a: Action, k: string, t: Thread)
    requires Init(s) && Legal(s, run) && Enabled(End(s, run), a)
    ensures var e := End(s, run); var f := Do(e, a);
      && (OwnedBy(f, k, t) && !OwnedBy(e, k, t) ==> a == TakeKey(t) && forall u: Thread :: !OwnedBy(e, k, u))
      && (OwnedBy(e, k, t) && !OwnedBy(f, k, t) ==> a == ReleaseKey(t))
  {
    InvHolds(s, run);
    var e := End(s, run);
    assert Remembers(e, a.t);
    forall u: Thread | OwnedBy(e, k, u)
      ensures e.mutexes[e.locks[k]] == Some(u)
    {
      assert Remembers(e, u);
    }
  }

  /** Nobody is stuck: while some thread is inside Lock or Unlock, some thread that
      is not merely keeping its lock can move, or a waited-for key is being kept. */
  lemma NoDeadlock(s: State, run: seq<Action>, t: Thread) returns (a: Action)
    requires Init(s) && Legal(s, run) && t in End(s, run).threads
    requires !End(s, run).threads[t].Outside? && !End(s, run).threads[t].Holding?
    ensures Enabled(End(s, run), a)
    ensures !a.CallLock?
    ensures a.CallUnlock? ==>
      && End(s, run).threads[t].LockWaits?
      && OwnedBy(End(s, run), End(s, run).threads[t].key, a.t)
  {
    InvHolds(s, run);
    var e := End(s, run);
    if e.mapHolder.Some? {
      a := MapHolderMoves(e);
    } else {
      assert Remembers(e, t);
      var pc := e.threads[t];
      if pc.LockCalled? || pc.UnlockCalled? {
        a := TakeMap(t);
      } else if pc.UnlockReleases? {
        a := ReleaseKey(t);
      } else if e.mutexes[pc.mutex].None? {
        a := TakeKey(t);
      } else {
        var u := e.mutexes[pc.mutex].value;
        a := OwnerMoves(e, u);
      }
    }
  }

  lemma MapHolderMoves(e: State) returns (a: Action)
    requires Inv(e) && e.mapHolder.Some?
    ensures Enabled(e, a) && !a.CallLock? && !a.CallUnlock?
  {
    var t := e.mapHolder.value;
    assert Remembers(e, t);
    if e.threads[t].LockFound? || e.threads[t].UnlockFound? {
      a := LeaveMap(t);
    } else {
      var m := AboveAll(e.mutexes.Keys);
      a := LookUp(t, m);
    }
  }

  lemma OwnerMoves(e: State, u: Thread) returns (a: Action)
    requires Inv(e) && e.mapHolder.None? && u in e.threads && Owns(e.threads[u])
    ensures Enabled(e, a) && !a.CallLock? && (a.CallUnlock? ==> a.t == u && e.threads[u].Holding?)
  {
    assert Remembers(e, u);
    var pc := e.threads[u];
    if pc.Holding? {
      a := CallUnlock(u);
    } else if pc.UnlockCalled? {
      a := TakeMap(u);
    } else {
      a := ReleaseKey(u);
    }
  }
}
