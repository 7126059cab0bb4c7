/**
 No replica update is lost: whatever the interleaving, `spec.replicas` is the
 sequential fold of the critical sections in the order the lock was taken.
 This needs no assumption about the callers, only sizes that fit int32.
 */
module FleetOrder {
  import opened Common
  import opened Replicas
  import opened Fleet

  /** At most one batch is inside its critical section, and it holds the lock. */
  predicate Exclusive(s: State) {
    && (s.holder.Some? ==> s.holder.value in s.batches)
    && (forall b | b in s.batches :: InSection(s.batches[b].phase) <==> s.holder == Some(b))
    && (forall b | b in s.batches && s.batches[b].phase.Counted? :: s.batches[b].create)
  }

  predicate WantsToLower(b: Batch) { !b.create && (b.phase.Ready? || b.phase.Locked? || b.phase.Read?) }

  /** The decrement a delete batch carries is the number of marks it placed. */
  predicate Amounts(s: State) {
    forall b | b in s.batches && WantsToLower(s.batches[b]) ::
      s.batches[b].phase.amount == |PlacedBy(s.requests, b)|
  }

  predicate Recorded(s: State) {
    && |s.order| == |s.log| + (if s.holder.Some? then 1 else 0)
    && (forall i | 0 <= i < |s.log| :: s.log[i].batch == s.order[i].batch)
    && (s.holder.Some? ==> s.order[|s.log|].batch == s.holder.value)
  }

  /** What the replicas are worth to the rest of the world at this moment. */
  function Settled(s: State): int {
    var r := Fold(s.log, s.initial);
    if s.holder.Some? && s.holder.value in s.batches && s.batches[s.holder.value].phase.Leaving?
    then Apply(s.batches[s.holder.value].phase.effect, r) else r
  }

  function Coming(s: State): nat {
    if s.holder.Some? && s.holder.value in s.batches && s.batches[s.holder.value].create then
      match s.batches[s.holder.value].phase
      case Locked(n) => n
      case Read(n, _) => n
      case Counted(n, _, _) => n
      case _ => 0
    else 0
  }

  predicate Current(s: State) {
    && s.replicas == Settled(s)
    && 0 <= s.initial && 0 <= s.replicas
    && s.replicas + Coming(s) <= s.initial + Asked(s.order)
    && (forall b | b in s.batches :: match s.batches[b].phase
          case Read(_, copy) => copy == s.replicas
          case Counted(_, copy, u) => copy == s.replicas && u <= |s.machines|
          case _ => true)
  }

  predicate Inv(s: State) { Exclusive(s) && Amounts(s) && Recorded(s) && Current(s) }

  lemma InitInv(s: State)
    requires Init(s)
    ensures Inv(s)
  {
  }

  lemma ExclusiveKept(s: State, a: Action)
    requires Enabled(s, a) && Exclusive(s)
    ensures Exclusive(Do(s, a))
  {
  }

  lemma AmountsKept(s: State, a: Action)
    requires Enabled(s, a) && Amounts(s)
    ensures Amounts(Do(s, a))
  {
    var t := Do(s, a);
    forall b | b in t.batches && WantsToLower(t.batches[b])
      ensures t.batches[b].phase.amount == |PlacedBy(t.requests, b)|
    {
      assert PlacedBy(t.requests, b) == PlacedBy(s.requests, b);
    }
  }

  lemma RecordedKept(s: State, a: Action)
    requires Enabled(s, a) && Exclusive(s) && Recorded(s)
    ensures Recorded(Do(s, a))
  {
  }

  lemma AskedGrows(order: seq<Entry>, e: Entry)
    ensures Asked(order + [e]) == Asked(order) + e.n
  {
  }

  predicate TouchesLock(a: Action) {
    a.Acquire? || a.ReadReplicas? || a.ReadFails? || a.Count? || a.Store? || a.StoreFails? || a.Release?
  }

  /** Nothing that concerns the lock or the replicas differs. */
  predicate SameLock(s: State, t: State) {
    && t.log == s.log && t.order == s.order && t.holder == s.holder
    && t.initial == s.initial && t.replicas == s.replicas
    && s.batches.Keys <= t.batches.Keys && s.machines.Keys <= t.machines.Keys
    && (forall b | b in s.batches && InSection(s.batches[b].phase) :: t.batches[b] == s.batches[b])
    && (forall b | b in t.batches && InSection(t.batches[b].phase) :: b in s.batches && t.batches[b] == s.batches[b])
  }

  lemma OutsideTheLock(s: State, a: Action)
    requires Enabled(s, a) && !TouchesLock(a)
    ensures SameLock(s, Do(s, a))
  {
  }

  lemma CurrentKeptOutside(s: State, t: State)
    requires Inv(s) && SameLock(s, t)
    ensures Current(t)
  {
    CardSubset(s.machines.Keys, t.machines.Keys);
    if s.holder.Some? {
      assert t.batches[s.holder.value] == s.batches[s.holder.value];
    }
    assert Coming(t) == Coming(s);
    assert Settled(t) == Settled(s);
  }

  lemma CurrentAfterAcquire(s: State, b: nat)
    requires Enabled(s, Acquire(b)) && Inv(s)
    ensures Current(Do(s, Acquire(b)))
  {
  }

  lemma CurrentAfterRelease(s: State, b: nat)
    requires Enabled(s, Release(b)) && Inv(s)
    ensures Current(Do(s, Release(b)))
  {
  }

  lemma CurrentAfterStore(s: State, b: nat)
    requires Enabled(s, Store(b)) && Inv(s) && InRange(s)
    ensures Current(Do(s, Store(b)))
  {
    StoreIsExact(s, b);
  }

  lemma CurrentAfterRead(s: State, a: Action)
    requires Enabled(s, a) && Inv(s) && (a.ReadReplicas? || a.ReadFails? || a.Count? || a.StoreFails?)
    ensures Current(Do(s, a))
  {
    CardSubset(Unclaimed(s.machines), s.machines.Keys);
  }

  lemma {:induction false} CurrentKept(s: State, a: Action)
    requires Enabled(s, a) && Inv(s) && InRange(s)
    ensures Current(Do(s, a))
  {
    if a.Acquire? {
      CurrentAfterAcquire(s, a.b);
    } else if a.Release? {
      CurrentAfterRelease(s, a.b);
    } else if a.Store? {
      CurrentAfterStore(s, a.b);
    } else if TouchesLock(a) {
      CurrentAfterRead(s, a);
    } else {
      OutsideTheLock(s, a);
      CurrentKeptOutside(s, Do(s, a));
    }
  }

  /** With the lock held, the copy is current, so the write is the section's effect. */
  lemma StoreIsExact(s: State, b: nat)
    requires Enabled(s, Store(b)) && Inv(s) && InRange(s)
    ensures Do(s, Store(b)).replicas == Apply(Do(s, Store(b)).batches[b].phase.effect, s.replicas)
  {
    var p := s.batches[b].phase;
    if s.batches[b].create {
      RaisedExactIff(s.replicas, p.amount, p.unclaimed);
    } else {
      CardSubset(PlacedBy(s.requests, b), s.requests.Keys);
      LoweredExact(s.replicas, p.amount);
    }
  }

  lemma {:induction false} InvHolds(s: State, run: seq<Action>)
    requires Init(s) && Legal(s, run) && InRange(End(s, run))
    ensures Inv(End(s, run))
    decreases |run|
  {
    if run == [] {
      InitInv(s);
    } else {
      var front, a := run[..|run| - 1], run[|run| - 1];
      var t := End(s, front);
      RangeShrinksBackwards(t, a);
      InvHolds(s, front);
      ExclusiveKept(t, a);
      AmountsKept(t, a);
      RecordedKept(t, a);
      CurrentKept(t, a);
    }
  }

  /**
   Main result: at every point of every run no two batches are in their critical
   sections; whenever the lock is free, each acquisition has produced exactly one
   section, in order, and the replicas are the fold of those sections; and they
   stay between zero and the initial value plus the creates asked for.
   */
  lemma {:induction false} NoLostUpdate(s: State, run: seq<Action>)
    requires Init(s) && Legal(s, run) && InRange(End(s, run))
    ensures var t := End(s, run);
      && (forall b, c | b in t.batches && c in t.batches ::
            InSection(t.batches[b].phase) && InSection(t.batches[c].phase) ==> b == c)
      && (t.holder.None? ==>
            && t.replicas == Fold(t.log, s.initial)
            && |t.log| == |t.order|
            && forall i | 0 <= i < |t.log| :: t.log[i].batch == t.order[i].batch)
      && 0 <= t.replicas <= s.initial + Asked(t.order) <= MAX_INT32
  {
    InvHolds(s, run);
    InitialConstant(s, run);
  }

  lemma InitialKept(s: State, a: Action)
    requires Enabled(s, a)
    ensures Do(s, a).initial == s.initial
  {
  }

  lemma {:induction false} InitialConstant(s: State, run: seq<Action>)
    requires Legal(s, run)
    ensures End(s, run).initial == s.initial
    decreases |run|
  {
    if run != [] {
      InitialConstant(s, run[..|run| - 1]);
      InitialKept(End(s, run[..|run| - 1]), run[|run| - 1]);
    }
  }
}
