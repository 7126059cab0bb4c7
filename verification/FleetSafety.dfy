/**
 Scale-down safety: as long as `Disciplined` holds, no interleaving of create
 batches, delete batches and MachineSet steps makes the MachineSet delete a
 Machine that carries no mark, and no decrement is ever cut off at zero.
 `Honest` is asked of the callers, `Careful` of the store. `FleetLimits` has a
 run that goes wrong without each of them.
 */
module FleetSafety {
  import opened Common
  import opened Machines
  import opened Fleet
  import FleetOrder

  /** Delete requests name distinct Machines, not yet marked or deleting, that no
      active request names. `CloudProvider.Delete` only checks the deletion. */
  predicate Honest(s: State, a: Action) {
    a.SubmitDelete? ==>
      && (forall q, p | q in a.asks && p in a.asks && q != p :: a.asks[q] != a.asks[p])
      && (forall q | q in a.asks :: a.asks[q] in s.machines ==> s.machines[a.asks[q]].Usable())
      && (forall q, p | q in a.asks && p in s.requests && s.requests[p].Active() :: s.requests[p].machine != a.asks[q])
  }

  predicate Stale(s: State, i: nat)
    requires i in s.bindings
  {
    var c := s.bindings[i];
    || c.machine !in s.machines
    || c.copy.Marked() != s.machines[c.machine].Marked()
    || c.copy.deleting != s.machines[c.machine].deleting
  }

  /** An assumption on the store: it does not accept a bind's copy that is older than a mark
      or a deletion. A store that overwrites does; one that compares resource versions
      (`Versioned`) does not. */
  predicate Careful(s: State, a: Action) {
    a.WriteLabel? && a.i in s.bindings ==> !Stale(s, a.i)
  }

  predicate Disciplined(s: State, a: Action) { Honest(s, a) && Careful(s, a) }

  ghost predicate AllAlong(s: State, run: seq<Action>, p: (State, Action) -> bool)
    requires Legal(s, run)
    decreases |run|
  {
    run == [] || (AllAlong(s, run[..|run| - 1], p) && p(End(s, run[..|run| - 1]), run[|run| - 1]))
  }

  predicate Balance(s: State) {
    && |Usable(s.machines)| + |InFlight(s.requests)| <= s.replicas
    && |InFlight(s.requests)| <= |Doomed(s.machines)|
  }

  /** No two active requests name the same Machine. */
  predicate Distinct(qs: map<nat, Request>) {
    forall q, p | q in qs && p in qs && q != p && qs[q].Active() && qs[p].Active() :: qs[q].machine != qs[p].machine
  }

  /** A Machine about to be marked is still as its request found it. */
  predicate Untouched(ms: map<Key, Machine>, r: Request) {
    && (r.Early() && r.machine in ms ==> ms[r.machine].Usable())
    && (r.stage.Fetched? ==> r.machine in ms && r.stage.copy.Usable())
    && (r.stage.Undoing? ==> r.machine in ms)
  }

  predicate AllUntouched(ms: map<Key, Machine>, qs: map<nat, Request>) {
    forall q | q in qs :: Untouched(ms, qs[q])
  }

  predicate Safe(s: State) { Balance(s) && Distinct(s.requests) && AllUntouched(s.machines, s.requests) }

  // ----- counting

  lemma MachineSetUpdate(ms: map<Key, Machine>, k: Key, m: Machine)
    ensures Usable(ms[k := m]) == if m.Usable() then Usable(ms) + {k} else Usable(ms) - {k}
    ensures Doomed(ms[k := m]) == if m.Marked() && !m.deleting then Doomed(ms) + {k} else Doomed(ms) - {k}
  {
  }

  lemma RequestUpdate(qs: map<nat, Request>, q: nat, r: Request)
    ensures InFlight(qs[q := r]) == if r.InFlight() then InFlight(qs) + {q} else InFlight(qs) - {q}
  {
  }

  /** Every Machine that stands is either usable or doomed. */
  lemma StandingSplits(ms: map<Key, Machine>)
    ensures |Standing(ms)| == |Usable(ms)| + |Doomed(ms)|
  {
    assert Standing(ms) == Usable(ms) + Doomed(ms);
    assert Usable(ms) !! Doomed(ms);
  }

  /** One request moves on, keeping its Machine. */
  lemma RequestsMove(ms: map<Key, Machine>, qs: map<nat, Request>, q: nat, r: Request)
    requires q in qs && Distinct(qs) && AllUntouched(ms, qs)
    requires r.machine == qs[q].machine && (r.Active() ==> qs[q].Active()) && Untouched(ms, r)
    ensures Distinct(qs[q := r]) && AllUntouched(ms, qs[q := r])
  {
  }

  /** One Machine changes that no early request names, other than `q`'s. */
  lemma MachinesMove(ms: map<Key, Machine>, qs: map<nat, Request>, q: nat, m: Machine)
    requires q in qs && qs[q].Active() && Distinct(qs) && AllUntouched(ms, qs)
    ensures forall p | p in qs && p != q :: Untouched(ms[qs[q].machine := m], qs[p])
  {
  }

  // ----- the invariant, action by action

  lemma SafeAfterSubmit(s: State, b: nat, asks: map<nat, Key>)
    requires Enabled(s, SubmitDelete(b, asks)) && Disciplined(s, SubmitDelete(b, asks)) && Safe(s)
    ensures Safe(Do(s, SubmitDelete(b, asks)))
  {
    assert InFlight(Do(s, SubmitDelete(b, asks)).requests) == InFlight(s.requests);
  }

  lemma SafeAfterMark(s: State, q: nat, stamp: string)
    requires Enabled(s, MarkMachine(q, stamp)) && Safe(s)
    ensures Safe(Do(s, MarkMachine(q, stamp)))
  {
    var r := s.requests[q];
    var m := r.stage.copy.WithMark(stamp);
    var placed := r.(stage := Placed);
    assert Untouched(s.machines, r);
    MachineSetUpdate(s.machines, r.machine, m);
    RequestUpdate(s.requests, q, placed);
    RequestsMove(s.machines, s.requests, q, placed);
    MachinesMove(s.machines, s.requests[q := placed], q, m);
  }

  lemma SafeAfterRemove(s: State, q: nat)
    requires Enabled(s, RemoveMark(q)) && Safe(s)
    ensures Safe(Do(s, RemoveMark(q)))
  {
    var r := s.requests[q];
    var m := r.stage.copy.WithoutMark();
    var settled := r.(stage := Fleet.Settled);
    MachineSetUpdate(s.machines, r.machine, m);
    RequestUpdate(s.requests, q, settled);
    RequestsMove(s.machines, s.requests, q, settled);
    MachinesMove(s.machines, s.requests, q, m);
    assert AllUntouched(s.machines[r.machine := m], s.requests[q := settled]);
  }

  lemma SafeAfterStage(s: State, q: nat, stage: Stage)
    requires q in s.requests && Safe(s)
    requires var r := s.requests[q].(stage := stage);
      Untouched(s.machines, r) && (r.Active() ==> s.requests[q].Active()) && (r.InFlight() ==> s.requests[q].InFlight())
    ensures Safe(WithStage(s, q, stage))
  {
    var r := s.requests[q].(stage := stage);
    RequestUpdate(s.requests, q, r);
    RequestsMove(s.machines, s.requests, q, r);
  }

  /** Settling the decremented requests takes exactly their marks out of flight. */
  lemma SettleRequests(ms: map<Key, Machine>, qs: map<nat, Request>, b: nat)
    ensures InFlight(Settle(qs, b)) == InFlight(qs) - PlacedBy(qs, b)
    ensures PlacedBy(qs, b) <= InFlight(qs)
    ensures Distinct(qs) ==> Distinct(Settle(qs, b))
    ensures AllUntouched(ms, qs) ==> AllUntouched(ms, Settle(qs, b))
  {
  }

  lemma SafeAfterStore(s: State, b: nat)
    requires Enabled(s, Store(b)) && Safe(s) && FleetOrder.Inv(s) && InRange(s)
    ensures Safe(Do(s, Store(b)))
  {
    FleetOrder.StoreIsExact(s, b);
    SettleRequests(s.machines, s.requests, b);
    var t := Do(s, Store(b));
    if s.batches[b].create {
      assert t.requests == s.requests && t.replicas >= s.replicas;
    } else {
      assert t.requests == Settle(s.requests, b);
      assert |InFlight(t.requests)| == |InFlight(s.requests)| - |PlacedBy(s.requests, b)|;
    }
  }

  /** A write that keeps mark and deletion changes nothing that counts here. */
  lemma SameStanding(ms: map<Key, Machine>, qs: map<nat, Request>, k: Key, m: Machine)
    requires k in ms && m.Marked() == ms[k].Marked() && m.deleting == ms[k].deleting && AllUntouched(ms, qs)
    ensures Usable(ms[k := m]) == Usable(ms) && Doomed(ms[k := m]) == Doomed(ms) && AllUntouched(ms[k := m], qs)
  {
  }

  lemma SafeAfterWriteLabel(s: State, i: nat, claim: bool)
    requires Enabled(s, WriteLabel(i, claim)) && Disciplined(s, WriteLabel(i, claim)) && Safe(s)
    ensures Safe(Do(s, WriteLabel(i, claim)))
  {
    var c := s.bindings[i];
    SameStanding(s.machines, s.requests, c.machine, if claim then c.copy.Labelled() else c.copy.Unlabelled());
  }

  /** The heart of the matter: with the balance kept, a MachineSet that prefers
      marked Machines finds one whenever it has too many. */
  lemma OnlyMarkedGo(s: State, k: Key)
    requires Enabled(s, StartDelete(k)) && Balance(s)
    ensures s.machines[k].Marked()
  {
    StandingSplits(s.machines);
    assert Doomed(s.machines) != {};
  }

  lemma SafeAfterAdd(s: State, k: Key, m: Machine)
    requires Enabled(s, AddMachine(k, m)) && Safe(s)
    ensures Safe(Do(s, AddMachine(k, m)))
  {
    StandingSplits(s.machines);
    MachineSetUpdate(s.machines, k, m);
    assert forall q | q in s.requests ::
      Untouched(s.machines, s.requests[q]) ==> Untouched(s.machines[k := m], s.requests[q]);
  }

  lemma SafeAfterStartDelete(s: State, k: Key)
    requires Enabled(s, StartDelete(k)) && Safe(s)
    ensures Safe(Do(s, StartDelete(k)))
  {
    StandingSplits(s.machines);
    OnlyMarkedGo(s, k);
    var m := s.machines[k].(deleting := true);
    MachineSetUpdate(s.machines, k, m);
    assert forall q | q in s.requests ::
      Untouched(s.machines, s.requests[q]) ==> Untouched(s.machines[k := m], s.requests[q]);
  }

  /** Steps that leave Machines, delete requests and replicas alone. */
  predicate Bystander(a: Action) {
    a.SubmitCreate? || a.EndMarking? || a.Acquire? || a.ReadReplicas? || a.ReadFails? || a.Count? || a.StoreFails? ||
    a.Release? || a.ReadForBind? || a.AbandonBind?
  }

  lemma BystanderKeeps(s: State, a: Action)
    requires Enabled(s, a) && Bystander(a)
    ensures Do(s, a).machines == s.machines && Do(s, a).requests == s.requests && Do(s, a).replicas == s.replicas
  {
  }

  /** Steps in which one delete request moves on. */
  predicate OfRequest(a: Action) {
    a.ReadMachine? || a.RefuseMachine? || a.MarkMachine? || a.ReadMark? || a.RemoveMark? || a.AbandonMark?
  }

  lemma {:induction false} SafeAfterRequest(s: State, a: Action)
    requires Enabled(s, a) && OfRequest(a) && Safe(s)
    ensures Safe(Do(s, a))
  {
    match a
    case ReadMachine(q) =>
      assert Untouched(s.machines, s.requests[q]);
      SafeAfterStage(s, q, Fetched(s.machines[s.requests[q].machine]));
    case RefuseMachine(q) => SafeAfterStage(s, q, Refused);
    case ReadMark(q) => SafeAfterStage(s, q, Undoing(s.machines[s.requests[q].machine]));
    case AbandonMark(q) => SafeAfterStage(s, q, Fleet.Settled);
    case MarkMachine(q, stamp) => SafeAfterMark(s, q, stamp);
    case RemoveMark(q) => SafeAfterRemove(s, q);
  }

  lemma {:induction false} SafeKept(s: State, a: Action)
    requires Enabled(s, a) && Disciplined(s, a) && Safe(s) && FleetOrder.Inv(s) && InRange(s)
    ensures Safe(Do(s, a))
  {
    if Bystander(a) {
      BystanderKeeps(s, a);
    } else if OfRequest(a) {
      SafeAfterRequest(s, a);
    } else {
      match a
      case SubmitDelete(b, asks) => SafeAfterSubmit(s, b, asks);
      case Store(b) => SafeAfterStore(s, b);
      case WriteLabel(i, claim) => SafeAfterWriteLabel(s, i, claim);
      case AddMachine(k, m) => SafeAfterAdd(s, k, m);
      case StartDelete(k) => SafeAfterStartDelete(s, k);
    }
  }

  lemma {:induction false} SafeAlways(s: State, run: seq<Action>)
    requires Init(s) && |Usable(s.machines)| <= s.replicas
    requires Legal(s, run) && AllAlong(s, run, Disciplined) && InRange(End(s, run))
    ensures Safe(End(s, run)) && FleetOrder.Inv(End(s, run))
    decreases |run|
  {
    FleetOrder.InvHolds(s, run);
    if run == [] {
      assert InFlight(s.requests) == {};
    } else {
      var front, a := run[..|run| - 1], run[|run| - 1];
      RangeShrinksBackwards(End(s, front), a);
      SafeAlways(s, front);
      SafeKept(End(s, front), a);
    }
  }

  /** A delete batch subtracts exactly the marks it placed. */
  lemma NeverCutOff(t: State, b: nat)
    requires Enabled(t, Store(b)) && !t.batches[b].create && Balance(t) && FleetOrder.Inv(t) && InRange(t)
    ensures Do(t, Store(b)).replicas == t.replicas - |PlacedBy(t.requests, b)| >= 0
  {
    FleetOrder.StoreIsExact(t, b);
    CardSubset(PlacedBy(t.requests, b), InFlight(t.requests));
  }

  /**
   Main result. From any state whose replicas cover its unmarked Machines, after
   any disciplined run: the replicas still cover the unmarked Machines and the
   marks in flight, and there is a marked Machine for each mark in flight.
   */
  lemma {:induction false} BalanceAlways(s: State, run: seq<Action>)
    requires Init(s) && |Usable(s.machines)| <= s.replicas
    requires Legal(s, run) && AllAlong(s, run, Disciplined) && InRange(End(s, run))
    ensures |Usable(End(s, run).machines)| + |InFlight(End(s, run).requests)| <= End(s, run).replicas
    ensures |InFlight(End(s, run).requests)| <= |Doomed(End(s, run).machines)|
  {
    SafeAlways(s, run);
  }

  /** Main result: whatever Machine the MachineSet may start deleting at any point of such a run is marked. */
  lemma {:induction false} ScaleDownSafety(s: State, run: seq<Action>, k: Key)
    requires Init(s) && |Usable(s.machines)| <= s.replicas
    requires Legal(s, run) && AllAlong(s, run, Disciplined) && InRange(End(s, run))
    requires Enabled(End(s, run), StartDelete(k))
    ensures End(s, run).machines[k].Marked()
  {
    SafeAlways(s, run);
    OnlyMarkedGo(End(s, run), k);
  }

  /** What a store that compares resource versions lets through: a bind writes the copy
      it read only while that is still what is stored. */
  predicate Versioned(s: State, a: Action) {
    a.WriteLabel? && a.i in s.bindings ==>
      s.bindings[a.i].machine in s.machines && s.machines[s.bindings[a.i].machine] == s.bindings[a.i].copy
  }

  lemma {:induction false} VersionedIsCareful(s: State, run: seq<Action>)
    requires Legal(s, run) && AllAlong(s, run, Honest) && AllAlong(s, run, Versioned)
    ensures AllAlong(s, run, Disciplined)
    decreases |run|
  {
    if run != [] { VersionedIsCareful(s, run[..|run| - 1]); }
  }

  /** Main result: on such a store honest deletions are all it takes. */
  lemma {:induction false} VersionedStoreIsSafe(s: State, run: seq<Action>, k: Key)
    requires Init(s) && |Usable(s.machines)| <= s.replicas
    requires Legal(s, run) && AllAlong(s, run, Honest) && AllAlong(s, run, Versioned) && InRange(End(s, run))
    requires Enabled(End(s, run), StartDelete(k))
    ensures End(s, run).machines[k].Marked()
  {
    VersionedIsCareful(s, run);
    ScaleDownSafety(s, run, k);
  }

  /** Main result: at any point of such a run, a delete batch about to write subtracts
      exactly the marks it placed; the clamp at zero is never reached. */
  lemma {:induction false} DecrementsAreExact(s: State, run: seq<Action>, b: nat)
    requires Init(s) && |Usable(s.machines)| <= s.replicas
    requires Legal(s, run) && AllAlong(s, run, Disciplined) && InRange(End(s, run))
    requires Enabled(End(s, run), Store(b)) && !End(s, run).batches[b].create
    ensures var t := End(s, run);
      Do(t, Store(b)).replicas == t.replicas - |PlacedBy(t.requests, b)| >= 0
  {
    SafeAlways(s, run);
    NeverCutOff(End(s, run), b);
  }
}
