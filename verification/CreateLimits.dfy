/** Concrete batches and runs in which the create side does what its comments say it does not. */
module CreateLimits {
  import opened Common
  import opened Machines
  import opened Providers
  import opened Replicas
  import opened ApiServer
  import opened CreateSpec
  import opened CreateBatch
  import opened CreateRuns
  import opened CreateBound

  // ----- a batch of one request

  /** Something a List can return, as far as the Machines in `ks` go. */
  lemma ListKeys(ms: map<Key, Machine>, d: Key, ks: set<Key>) returns (listing: seq<Listed>)
    requires ks <= ms.Keys
    ensures forall i, j | 0 <= i < j < |listing| :: listing[i].key != listing[j].key
    ensures forall x | x in listing :: x.key in ks && ms[x.key] == x.machine && Selected(x.key, x.machine, d)
    ensures forall k | k in ks && Selected(k, ms[k], d) :: Listed(k, ms[k]) in listing
  {
    if ks == {} {
      listing := [];
    } else {
      var k :| k in ks;
      listing := ListKeys(ms, d, ks - {k});
      if Selected(k, ms[k], d) { listing := listing + [Listed(k, ms[k])]; }
    }
  }

  /** A List may show any selected Machine first. */
  lemma ListingFrom(ms: map<Key, Machine>, d: Key, k: Key) returns (listing: seq<Listed>)
    requires k in ms && Selected(k, ms[k], d)
    ensures IsListing(listing, ms, d) && listing != [] && listing[0] == Listed(k, ms[k])
  {
    var rest := ListKeys(ms, d, ms.Keys - {k});
    listing := [Listed(k, ms[k])] + rest;
  }

  /** The first Machine listed is picked for a single request. */
  lemma {:induction false} FirstIsPicked(listing: seq<Listed>)
    requires listing != [] && listing[0].machine.Usable()
    ensures AddAll([], listing) != [] && AddAll([], listing)[0] == listing[0]
  {
    if |listing| == 1 {
      assert AddAll([], listing[..0]) == [];
    } else {
      FirstIsPicked(listing[..|listing| - 1]);
    }
  }

  predicate Ready(w: World, d: Key, k: Key, claim: string) {
    && d in w.deployments && claim in w.claims
    && k in w.machines && Selected(k, w.machines[k], d) && w.machines[k].Usable()
  }

  function Bound1(w: World, d: Key, k: Key, claim: string, listed: bool): World
    requires Ready(w, d, k, claim)
  {
    World(w.machines[k := w.machines[k].Labelled()],
          RaisedIn(w.deployments, w.machines, d, 1, listed),
          w.claims[claim := w.claims[claim][MACHINE_ANNOTATION := Print(k)]])
  }

  function Success1(w: World, d: Key, k: Key): Result<CreateOutput>
    requires k in w.machines
  {
    Succeed(CreateOutput(d, k, w.machines[k].Labelled()))
  }

  /** A trail with the calls under the lock of a batch of one request. */
  function SectionOf(ms: map<Key, Machine>, d: Key, listed: bool): Trail {
    var u := if listed then |UnclaimedOf(ms, d)| else 0;
    NO_TRAIL.(section := RaiseCalls(d, Deficit(1, u)), listed := listed)
  }

  lemma PickedOne(w: World, d: Key, k: Key, claim: string, listed: bool) returns (t: Trail)
    requires Ready(w, d, k, claim)
    ensures t.listed == listed && t.found == [Listed(k, w.machines[k])] && t.stuck == {}
    ensures t.bound == map[k := w.machines[k].Labelled()]
    ensures Picked(t, d, 1, w.machines) && Sought(t, d, 1, w.machines)
  {
    var listing := ListingFrom(w.machines, d, k);
    t := SectionOf(w.machines, d, listed).(
      listings := [listing], views := [w.machines], found := [Listed(k, w.machines[k])],
      bound := map[k := w.machines[k].Labelled()]);
    SoughtAtOnce(t, d, w.machines, listed);
    PickedFirst(t, d, w.machines, k, listing);
  }

  lemma SoughtAtOnce(t: Trail, d: Key, ms: map<Key, Machine>, listed: bool)
    requires t.section == SectionOf(ms, d, listed).section && t.listed == listed
    requires t.ticks == 0 && t.polling == [] && |t.listings| == 1 && t.views == [ms]
    ensures Sought(t, d, 1, ms)
  {
  }

  lemma PickedFirst(t: Trail, d: Key, ms: map<Key, Machine>, k: Key, listing: seq<Listed>)
    requires IsListing(listing, ms, d) && k in ms && listing != [] && listing[0] == Listed(k, ms[k])
    requires ms[k].Usable() && !ms[k].Member()
    requires t.listings == [listing] && t.views == [ms] && t.found == [Listed(k, ms[k])]
    ensures Picked(t, d, 1, ms)
  {
    FirstIsPicked(listing);
    CollectedOnce(listing);
    assert t.found == Collected([listing])[..1];
    assert Drift(ms, ms);
  }

  lemma CollectedOnce(listing: seq<Listed>)
    ensures Collected([listing]) == AddAll([], listing)
  {
    assert [listing][..0] == [];
  }

  lemma OneRelabelled(ms: map<Key, Machine>, k: Key)
    requires k in ms
    ensures Relabelled(ms, ms[k := ms[k].Labelled()], {k}) && Relabelled(ms, ms, {})
    ensures MEMBER_LABEL in ms[k].Labelled().labels
  {
  }

  lemma OneAnnotated(claims: map<string, map<string, string>>, input: CreateInput, r: Result<CreateOutput>)
    requires input.claim in claims
    ensures r.Failure() ==> Annotated(claims, claims, [input], [r])
    ensures r.Success() ==>
      var after := claims[input.claim][MACHINE_ANNOTATION := Print(r.output.value.key)];
      Annotated(claims, claims[input.claim := after], [input], [r])
  {
    assert [input][0] == input && [r][0] == r;
  }

  lemma OneMatched(t: Trail, d: Key, k: Key, r: Result<CreateOutput>)
    requires t.stuck == {} && Keys(t.found) == [k] && r.Success()
    requires r.output.value.deployment == d && r.output.value.key == k
    ensures Matched(t, d, [r]) && Won([r]) == {k}
  {
    assert [r][0] in [r];
    assert t.found[0].key == Keys(t.found)[0];
  }

  lemma OneHandedOver(t: Trail, d: Key, k: Key, ms: map<Key, Machine>)
    requires k in ms && t.found == [Listed(k, ms[k])] && t.bound == map[k := ms[k].Labelled()]
    ensures HandedOver(t, [Succeed(CreateOutput(d, k, ms[k].Labelled()))], ms[k := ms[k].Labelled()])
  {
    assert MEMBER_LABEL in ms[k].Labelled().labels;
  }

  lemma OneAllOf(ms: map<Key, Machine>, d: Key, k: Key, found: seq<Listed>)
    requires k in ms && Of(k, ms[k], d) && found == [Listed(k, ms[k])]
    ensures AllOf(found, ms[k := ms[k].Labelled()], d)
  {
    LabelledKeepsOwner(ms[k], d.name);
  }

  /** What `Served` says besides what was picked. */
  ghost predicate Rest(w: World, input: CreateInput, r: Result<CreateOutput>, t: Trail, v: World) {
    var d := input.deployment;
    && d in w.deployments && v.deployments == RaisedIn(w.deployments, w.machines, d, 1, t.listed)
    && |t.found| <= 1 && Matched(t, d, [r]) && HandedOver(t, [r], v.machines)
    && Relabelled(w.machines, v.machines, Won([r]) + t.stuck)
    && Annotated(w.claims, v.claims, [input], [r]) && AllOf(t.found, v.machines, d)
  }

  lemma ServedIs(w: World, input: CreateInput, r: Result<CreateOutput>, t: Trail, v: World)
    requires Rest(w, input, r, t, v) && Picked(t, input.deployment, 1, w.machines)
    requires Sought(t, input.deployment, 1, w.machines)
    ensures Served(w, [input], [r], t, v)
  {
    assert [input][0] == input;
  }

  lemma OneBound(w: World, d: Key, k: Key, claim: string, t: Trail)
    requires Ready(w, d, k, claim) && t.found == [Listed(k, w.machines[k])] && t.stuck == {}
    requires t.bound == map[k := w.machines[k].Labelled()]
    ensures Rest(w, CreateInput(claim, d), Success1(w, d, k), t, Bound1(w, d, k, claim, t.listed))
  {
    var input, r := CreateInput(claim, d), Success1(w, d, k);
    assert Keys(t.found) == [k];
    OneMatched(t, d, k, r);
    OneHandedOver(t, d, k, w.machines);
    OneRelabelled(w.machines, k);
    OneAnnotated(w.claims, input, r);
    OneAllOf(w.machines, d, k, t.found);
    assert Won([r]) + t.stuck == {k};
  }

  /** The executor can bind `k` to `claim`, whether or not its count's List works. */
  lemma OneBind(w: World, d: Key, k: Key, claim: string, listed: bool) returns (t: Trail)
    requires Ready(w, d, k, claim)
    ensures t.listed == listed
    ensures Served(w, [CreateInput(claim, d)], [Success1(w, d, k)], t, Bound1(w, d, k, claim, listed))
  {
    t := PickedOne(w, d, k, claim, listed);
    OneBound(w, d, k, claim, t);
    ServedIs(w, CreateInput(claim, d), Success1(w, d, k), t, Bound1(w, d, k, claim, listed));
  }

  // ----- ordering too much

  /** An unclaimed Machine waits, the List fails, and one request orders another one. */
  lemma ListFailureOverOrders(w: World, d: Key, k: Key, claim: string) returns (t: Trail, v: World)
    requires Ready(w, d, k, claim) && 0 <= ReplicasOf(w, d) < MAX_INT32
    ensures Served(w, [CreateInput(claim, d)], [Success1(w, d, k)], t, v) && !t.listed
    ensures Max(0, 1 - |UnclaimedOf(w.machines, d)|) == 0 && ReplicasOf(v, d) == ReplicasOf(w, d) + 1
  {
    t := OneBind(w, d, k, claim, false);
    v := Bound1(w, d, k, claim, false);
    assert k in UnclaimedOf(w.machines, d);
    CardSubset({k}, UnclaimedOf(w.machines, d));
    RaisedUnlisted(w.deployments, w.machines, d);
  }

  lemma RaisedUnlisted(ds: map<Key, Deployment>, ms: map<Key, Machine>, d: Key)
    requires d in ds && 0 <= Deref(ds[d].replicas) < MAX_INT32
    ensures Deref(RaisedIn(ds, ms, d, 1, false)[d].replicas) == Deref(ds[d].replicas) + 1
  {
    RaisedExactIff(Deref(ds[d].replicas), 1, 0);
  }

  lemma {:induction false} NothingUsable(listing: seq<Listed>)
    requires forall x | x in listing :: !x.machine.Usable()
    ensures AddAll([], listing) == []
  {
    if listing != [] { NothingUsable(listing[..|listing| - 1]); }
  }

  lemma NothingPicked(d: Key, ms: map<Key, Machine>) returns (t: Trail)
    requires UnclaimedOf(ms, d) == {}
    ensures t.listed && t.found == [] && t.stuck == {}
    ensures Picked(t, d, 1, ms) && Sought(t, d, 1, ms)
  {
    var listing := ListKeys(ms, d, ms.Keys);
    forall x | x in listing
      ensures !x.machine.Usable()
    {
      assert x.machine.Usable() ==> x.key in UnclaimedOf(ms, d);
    }
    NothingUsable(listing);
    CollectedOnce(listing);
    t := SectionOf(ms, d, true).(listings := [listing], views := [ms]);
    SoughtAtOnce(t, d, ms, true);
    PickedNone(t, d, ms, listing);
  }

  lemma PickedNone(t: Trail, d: Key, ms: map<Key, Machine>, listing: seq<Listed>)
    requires IsListing(listing, ms, d) && Collected([listing]) == []
    requires t.listings == [listing] && t.views == [ms] && t.found == []
    ensures Picked(t, d, 1, ms)
  {
    assert Drift(ms, ms);
  }

  lemma NothingMatched(t: Trail, d: Key, ms: map<Key, Machine>, r: Result<CreateOutput>)
    requires t.found == [] && t.stuck == {} && r == Fail(NoMachineError)
    ensures Matched(t, d, [r]) && HandedOver(t, [r], ms) && Won([r]) == {} && AllOf(t.found, ms, d)
  {
  }

  lemma NothingChanged(ms: map<Key, Machine>, claims: map<string, map<string, string>>, input: CreateInput,
                       r: Result<CreateOutput>)
    requires r.Failure()
    ensures Relabelled(ms, ms, {}) && Annotated(claims, claims, [input], [r])
  {
    assert [r][0] == r;
  }

  /** The executor can find nothing for a single request. */
  lemma NothingFound(w: World, d: Key, claim: string) returns (t: Trail)
    requires d in w.deployments && UnclaimedOf(w.machines, d) == {}
    ensures t.listed
    ensures var v := w.(deployments := RaisedIn(w.deployments, w.machines, d, 1, true));
      Served(w, [CreateInput(claim, d)], [Fail(NoMachineError)], t, v)
  {
    t := NothingPicked(d, w.machines);
    var v := w.(deployments := RaisedIn(w.deployments, w.machines, d, 1, true));
    var input, r: Result<CreateOutput> := CreateInput(claim, d), Fail(NoMachineError);
    NothingMatched(t, d, w.machines, r);
    NothingChanged(w.machines, w.claims, input, r);
    assert Won([r]) + t.stuck == {};
    assert Rest(w, input, r, t, v);
    ServedIs(w, input, r, t, v);
  }

  /** The MachineSet has not made the Machines ordered before: a request orders again. */
  lemma LagOverOrders(w: World, d: Key, claim: string) returns (t: Trail, v: World)
    requires d in w.deployments && UnclaimedOf(w.machines, d) == {}
    requires |UsableOf(w.machines, d)| < ReplicasOf(w, d) < MAX_INT32
    ensures Served(w, [CreateInput(claim, d)], [Fail(NoMachineError)], t, v) && t.listed
    ensures ReplicasOf(v, d) == ReplicasOf(w, d) + 1 > |ClaimedOf(w.machines, d)| + 1
  {
    t := NothingFound(w, d, claim);
    v := w.(deployments := RaisedIn(w.deployments, w.machines, d, 1, true));
    RaisedByOne(w, d);
    UsableSplits(w.machines, d);
  }

  lemma RaisedByOne(w: World, d: Key)
    requires d in w.deployments && UnclaimedOf(w.machines, d) == {} && 0 <= ReplicasOf(w, d) < MAX_INT32
    ensures ReplicasOf(w.(deployments := RaisedIn(w.deployments, w.machines, d, 1, true)), d) == ReplicasOf(w, d) + 1
  {
    RaisedExactIff(ReplicasOf(w, d), 1, 0);
  }

  /** What the executor returns for a refused batch fits the bound on retries: nothing is asked of it. */
  lemma RefusedIsSteady(w: World, inputs: seq<CreateInput>, results: seq<Result<CreateOutput>>, d: Key, e: Error,
                        calls: seq<Call>)
    requires inputs != [] && inputs[0].deployment == d && DistinctClaims(inputs)
    requires e in {GetMachineDeploymentError, UpdateMachineDeploymentError} && results == seq(|inputs|, _ => Fail(e))
    ensures var refused := Event.Batch(inputs, results, NO_TRAIL.(section := calls), w);
      Step(w, refused, d) && SteadyStep(w, refused, d)
  {
    assert results[0] == Fail(e);
  }

  // ----- binding twice

  /** A NodeClaim asked for again from a copy without its reference wins a second Machine;
      its reference to the first, which stays claimed, is gone. */
  lemma {:induction false} StaleRequestRebinds(w: World, d: Key, a: Key, b: Key, claim: string)
    returns (run: seq<Event>)
    requires Ready(w, d, a, claim) && Ready(w, d, b, claim) && a != b && a.ns == b.ns
    ensures Run(w, run, d) && Wins(run) == [Win(claim, a), Win(claim, b)]
    ensures Claimed(Now(w, run), Win(claim, a)) && !Refers(Now(w, run), Win(claim, a))
    ensures Claimed(Now(w, run), Win(claim, b)) && Refers(Now(w, run), Win(claim, b))
  {
    run := TwoBinds(w, d, a, b, claim);
    StillReady(w, d, a, b, claim);
    SecondOverwrites(w, d, a, b, claim);
  }

  lemma {:induction false} TwoBinds(w: World, d: Key, a: Key, b: Key, claim: string) returns (run: seq<Event>)
    requires Ready(w, d, a, claim) && Ready(w, d, b, claim) && a != b
    ensures Ready(Bound1(w, d, a, claim, true), d, b, claim)
    ensures Now(w, run) == Bound1(Bound1(w, d, a, claim, true), d, b, claim, true)
    ensures Run(w, run, d) && Wins(run) == [Win(claim, a), Win(claim, b)]
  {
    StillReady(w, d, a, b, claim);
    var e1 := OneBindStep(w, d, a, claim);
    var e2 := OneBindStep(e1.after, d, b, claim);
    RunOfTwo(w, e1, e2, d);
    run := [e1, e2];
  }

  lemma StillReady(w: World, d: Key, a: Key, b: Key, claim: string)
    requires Ready(w, d, a, claim) && Ready(w, d, b, claim) && a != b
    ensures Ready(Bound1(w, d, a, claim, true), d, b, claim)
  {
  }

  lemma OneBindStep(w: World, d: Key, k: Key, claim: string) returns (e: Event)
    requires Ready(w, d, k, claim)
    ensures e.Batch? && Step(w, e, d) && e.after == Bound1(w, d, k, claim, true)
    ensures WinsOf(e.inputs, e.results) == [Win(claim, k)]
  {
    var t := OneBind(w, d, k, claim, true);
    e := Event.Batch([CreateInput(claim, d)], [Success1(w, d, k)], t, Bound1(w, d, k, claim, true));
    WinsOfOne(CreateInput(claim, d), Success1(w, d, k));
  }

  lemma SecondOverwrites(w: World, d: Key, a: Key, b: Key, claim: string)
    requires Ready(w, d, a, claim) && Ready(Bound1(w, d, a, claim, true), d, b, claim) && a != b && a.ns == b.ns
    ensures var v := Bound1(Bound1(w, d, a, claim, true), d, b, claim, true);
      && Claimed(v, Win(claim, a)) && !Refers(v, Win(claim, a))
      && Claimed(v, Win(claim, b)) && Refers(v, Win(claim, b))
  {
    OneRelabelled(w.machines, a);
    OneRelabelled(w.machines, b);
    if Print(a) == Print(b) { SamePrint(a, b); }
  }

  lemma WinsOfOne(input: CreateInput, r: Result<CreateOutput>)
    requires r.Success()
    ensures WinsOf([input], [r]) == [Win(input.claim, r.output.value.key)]
  {
    assert WinsOf([input][..0], [r][..0]) == [];
  }

  lemma RunOfTwo(w: World, e1: Event, e2: Event, d: Key)
    requires Step(w, e1, d) && Step(e1.after, e2, d) && e1.Batch? && e2.Batch?
    ensures Run(w, [e1, e2], d)
    ensures Wins([e1, e2]) == WinsOf(e1.inputs, e1.results) + WinsOf(e2.inputs, e2.results)
  {
    assert [e1, e2][..1] == [e1] && [e1][..0] == [];
    assert Wins([e1][..0]) == [];
    assert Wins([e1]) == WinsOf(e1.inputs, e1.results);
  }
}
