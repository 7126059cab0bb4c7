/** The create batch: count and raise under the lock, poll, bind with retry and rollback. */
module CreateBatch {
  import opened Common
  import opened Machines
  import opened Providers
  import opened Replicas
  import opened ApiServer
  import opened CreateSpec

  datatype CreateInput = CreateInput(claim: string, deployment: Key)
  datatype CreateOutput = CreateOutput(deployment: Key, key: Key, machine: Machine)

  method CountUnclaimedMachines(c: Cluster, d: Key) returns (n: nat, ghost listed: bool)
    modifies c`failed, c`trace
    ensures c.trace == old(c.trace) + [Called(MachineList)]
    ensures n == if listed then |UnclaimedOf(c.machines, d)| else 0
    ensures c.failed == if listed then old(c.failed) else old(c.failed) + [MachineList]
  {
    var r := c.ListMachines(d);
    n, listed := 0, r.Ok?;
    if r.Failed? { return; }
    ghost var counted: set<Key> := {};
    for i := 0 to |r.value|
      invariant counted == set x | x in r.value[..i] && x.machine.Usable() :: x.key
      invariant n == |counted|
    {
      var x := r.value[i];
      assert r.value[..i + 1] == r.value[..i] + [x];
      if x.machine.deleting { continue; }
      if x.machine.Marked() { continue; }
      assert x.key !in counted;
      counted := counted + {x.key};
      n := n + 1;
    }
    assert r.value[..|r.value|] == r.value;
    assert forall k | k in UnclaimedOf(c.machines, d) :: Listed(k, c.machines[k]) in r.value && k in counted;
    assert counted == UnclaimedOf(c.machines, d);
  }

  /** One round of the poll: adds what a listing offers until `count` are found. */
  method GatherFrom(listing: seq<Listed>, count: nat, already: seq<Listed>, names: set<string>)
    returns (found: seq<Listed>, claimed: set<string>)
    requires names == Names(already) && |already| < Max(count, 1)
    ensures claimed == Names(found)
    ensures found <= AddAll(already, listing)
    ensures |AddAll(already, listing)| < Max(count, 1) ==> found == AddAll(already, listing)
    ensures |AddAll(already, listing)| >= Max(count, 1) ==> |found| == Max(count, 1)
  {
    found, claimed := already, names;
    for j := 0 to |listing|
      invariant found == AddAll(already, listing[..j]) && claimed == Names(found) && |found| < Max(count, 1)
    {
      var x := listing[j];
      assert listing[..j + 1][..j] == listing[..j];
      if x.key.name in claimed { continue; }
      if x.machine.deleting { continue; }
      if x.machine.Marked() { continue; }
      claimed := claimed + {x.key.name};
      found := found + [x];
      if |found| >= count {
        CutShort(already, listing, j + 1);
        return;
      }
    }
    assert listing[..|listing|] == listing;
  }

  /** Each listing showed a store between the start and now. */
  ghost predicate Seen(listings: seq<seq<Listed>>, views: seq<map<Key, Machine>>, d: Key, before: map<Key, Machine>,
                       now: map<Key, Machine>) {
    |views| == |listings| && forall i | 0 <= i < |views| ::
      IsListing(listings[i], views[i], d) && Drift(before, views[i]) && Drift(views[i], now)
  }

  lemma SeenLater(listings: seq<seq<Listed>>, views: seq<map<Key, Machine>>, d: Key,
                  before: map<Key, Machine>, now: map<Key, Machine>, later: map<Key, Machine>)
    requires Seen(listings, views, d, before, now) && Drift(before, now) && Drift(now, later)
    ensures Seen(listings, views, d, before, later) && Drift(before, later)
  {
  }

  lemma SeenNow(listings: seq<seq<Listed>>, views: seq<map<Key, Machine>>, d: Key,
                before: map<Key, Machine>, now: map<Key, Machine>, listing: seq<Listed>)
    requires Seen(listings, views, d, before, now) && Drift(before, now) && IsListing(listing, now, d)
    ensures Seen(listings + [listing], views + [now], d, before, now)
    ensures Collected(listings + [listing]) == AddAll(Collected(listings), listing)
  {
  }

  /** One turn of the poll loop, up to the wait. */
  method PollOnce(c: Cluster, d: Key, count: nat, already: seq<Listed>, names: set<string>,
                  ghost seen: seq<seq<Listed>>, ghost seenIn: seq<map<Key, Machine>>, ghost start: map<Key, Machine>)
    returns (found: seq<Listed>, claimed: set<string>,
             ghost listings: seq<seq<Listed>>, ghost views: seq<map<Key, Machine>>, ghost latest: Option<seq<Listed>>)
    requires already == Collected(seen) && names == Names(already) && |already| < Max(count, 1)
    requires Seen(seen, seenIn, d, start, c.machines) && Drift(start, c.machines)
    modifies c`failed, c`trace
    ensures c.trace == old(c.trace) + [Called(MachineList)]
    ensures c.failed == old(c.failed) + if latest.Some? then [] else [MachineList]
    ensures claimed == Names(found) && Gathered(found, listings, count)
    ensures |found| < Max(count, 1) ==> found == Collected(listings)
    ensures Seen(listings, views, d, start, c.machines)
    ensures listings == seen + if latest.Some? then [latest.value] else []
    ensures views == seenIn + if latest.Some? then [c.machines] else []
    ensures latest.Some? ==> IsListing(latest.value, c.machines, d)
  {
    found, claimed, listings, views, latest := already, names, seen, seenIn, None;
    var r := c.ListMachines(d);
    if r.Ok? {
      SeenNow(listings, views, d, start, c.machines, r.value);
      listings, views, latest := listings + [r.value], views + [c.machines], Some(r.value);
      found, claimed := GatherFrom(r.value, count, found, claimed);
    }
  }

  /** How often the poll listed: at least once; until it had enough, or the deadline came. */
  predicate Rounds(rounds: nat, ticks: nat, enough: bool) {
    1 <= rounds <= ticks + 1 && (!enough ==> rounds == ticks + 1)
  }

  /** Where the poll stands after its Lists: `failed` of them failed, and unless the
      first did, the first view is the store the poll began with. */
  ghost predicate Looked(views: seq<map<Key, Machine>>, failed: seq<Call>, before: map<Key, Machine>) {
    && (forall x | x in failed :: x == MachineList)
    && (failed == [] ==> views != [] && views[0] == before)
  }

  /**
   Gathers the first `count` Machines of what the listings offer, stopping early when
   it has them. `listings` are the successful ones, `views` what the store held then,
   `failed` the Lists that failed. `ticks` is how often the ticker fires before the
   deadline or the cancellation.
   */
  method PollForNUnclaimedMachines(c: Cluster, d: Key, count: nat, ticks: nat)
    returns (found: seq<Listed>,
             ghost listings: seq<seq<Listed>>, ghost views: seq<map<Key, Machine>>, ghost failed: seq<Call>)
    modifies c`machines, c`failed, c`trace
    ensures Gathered(found, listings, count)
    ensures Seen(listings, views, d, old(c.machines), c.machines) && Drift(old(c.machines), c.machines)
    ensures c.failed == old(c.failed) + failed && Looked(views, failed, old(c.machines))
    ensures Rounds(|listings| + |failed|, ticks, |found| >= count)
    ensures c.trace == old(c.trace) + Lists(|listings| + |failed|)
  {
    found, listings, views, failed := [], [], [], [];
    var claimed: set<string> := {};
    var left := ticks;
    while true
      invariant found == Collected(listings) && claimed == Names(found) && |found| < Max(count, 1)
      invariant Polling(listings, views, failed, d, old(c.machines), c.machines)
      invariant c.failed == old(c.failed) + failed && c.trace == old(c.trace) + Lists(|listings| + |failed|)
      invariant |listings| + |failed| + left == ticks
      decreases left
    {
      found, claimed, listings, views, failed :=
        PollRound(c, d, count, found, claimed, listings, views, failed, old(c.machines), old(c.failed), old(c.trace));
      if |found| >= count { return; }
      if left == 0 { return; }
      left := left - 1;
      ghost var now := c.machines;
      c.MachineSetActs();
      PollingLater(listings, views, failed, d, old(c.machines), now, c.machines);
    }
  }

  /** What the poll has seen of a store that was `start` and is `now`. */
  ghost predicate Polling(listings: seq<seq<Listed>>, views: seq<map<Key, Machine>>, failed: seq<Call>, d: Key,
                          start: map<Key, Machine>, now: map<Key, Machine>)
  {
    && Seen(listings, views, d, start, now) && Drift(start, now)
    && if |listings| + |failed| == 0 then now == start else Looked(views, failed, start)
  }

  lemma PollingLater(listings: seq<seq<Listed>>, views: seq<map<Key, Machine>>, failed: seq<Call>, d: Key,
                     start: map<Key, Machine>, now: map<Key, Machine>, later: map<Key, Machine>)
    requires Polling(listings, views, failed, d, start, now) && |listings| + |failed| > 0 && Drift(now, later)
    ensures Polling(listings, views, failed, d, start, later)
  {
    SeenLater(listings, views, d, start, now, later);
  }

  /** One turn of the poll loop and what it adds to the books: `failed0` and `trace0` are
      how they stood when the poll began. */
  method PollRound(c: Cluster, d: Key, count: nat, already: seq<Listed>, names: set<string>,
                   ghost seen: seq<seq<Listed>>, ghost seenIn: seq<map<Key, Machine>>, ghost missed: seq<Call>,
                   ghost start: map<Key, Machine>, ghost failed0: seq<Call>, ghost trace0: seq<Act>)
    returns (found: seq<Listed>, claimed: set<string>,
             ghost listings: seq<seq<Listed>>, ghost views: seq<map<Key, Machine>>, ghost failed: seq<Call>)
    requires already == Collected(seen) && names == Names(already) && |already| < Max(count, 1)
    requires Polling(seen, seenIn, missed, d, start, c.machines)
    requires c.failed == failed0 + missed && c.trace == trace0 + Lists(|seen| + |missed|)
    modifies c`failed, c`trace
    ensures claimed == Names(found) && Gathered(found, listings, count)
    ensures |found| < Max(count, 1) ==> found == Collected(listings)
    ensures Polling(listings, views, failed, d, start, c.machines) && |listings| + |failed| == |seen| + |missed| + 1
    ensures c.failed == failed0 + failed && c.trace == trace0 + Lists(|listings| + |failed|)
  {
    ghost var latest;
    ListsGrow(trace0, |seen| + |missed|);
    found, claimed, listings, views, latest := PollOnce(c, d, count, already, names, seen, seenIn, start);
    ghost var more := if latest.Some? then [] else [MachineList];
    Regroup(failed0, missed, more);
    failed := missed + more;
  }

  lemma ListsGrow(trace: seq<Act>, n: nat)
    ensures trace + Lists(n) + [Called(MachineList)] == trace + Lists(n + 1)
  {
    assert Lists(n + 1) == Lists(n) + [Called(MachineList)];
  }

  /** Stopping inside a listing leaves a prefix of what the whole listing would give. */
  lemma {:induction false} CutShort(found: seq<Listed>, listing: seq<Listed>, j: nat)
    requires j <= |listing|
    ensures AddAll(found, listing[..j]) <= AddAll(found, listing)
    decreases |listing|
  {
    if j == |listing| {
      assert listing[..j] == listing;
    } else {
      var front := listing[..|listing| - 1];
      assert front[..j] == listing[..j];
      CutShort(found, front, j);
    }
  }

  /** `n` label writes in a row that failed. */
  function Retries(k: Key, n: nat): seq<Call> { seq(n, _ => MachineUpdate(k)) }

  /** The calls that fail on the way to each result of a bind. */
  predicate BindFailures(calls: seq<Call>, k: Key, claim: string, r: Result<CreateOutput>, stuck: bool, retries: nat) {
    if r.Success() then retries < 3 && calls == Retries(k, retries)
    else match r.err
      case Some(GetMachineError) => retries < 3 && calls == Retries(k, retries) + [MachineGet(k)]
      case Some(LabelMachineError) => retries == 3 && calls == Retries(k, 3)
      case Some(AnnotateNodeClaimError) =>
        retries < 3 &&
        if stuck then
          exists undo ::
            undo in {MachineGet(k), MachineUpdate(k)} && calls == Retries(k, retries) + [ClaimPatch(claim), undo]
        else calls == Retries(k, retries) + [ClaimPatch(claim)]
      case _ => false
  }

  lemma FailuresExplain(calls: seq<Call>, d: Key, k: Key, claim: string, r: Result<CreateOutput>, stuck: bool,
                        retries: nat)
    requires BindFailures(calls, k, claim, r, stuck, retries) && r.Failure()
    ensures Explains(calls, r.err.value, d, k, claim)
  {
    assert Retries(k, 3)[0] == MachineUpdate(k);
  }

  /** Labels one Machine for one NodeClaim, in up to three attempts, and takes the label
      back when the NodeClaim cannot be annotated; `stuck` when that fails too. */
  method BindMachineToNodeClaim(c: Cluster, d: Key, k: Key, claim: string)
    returns (r: Result<CreateOutput>, ghost stuck: bool, ghost retries: nat)
    modifies c`machines, c`claims, c`failed
    ensures r.Definite() && old(c.failed) <= c.failed
    ensures BindFailures(c.failed[|old(c.failed)|..], k, claim, r, stuck, retries)
    ensures r.Success() ==>
      && k in old(c.machines) && claim in old(c.claims)
      && c.machines == old(c.machines)[k := old(c.machines)[k].Labelled()]
      && c.claims == old(c.claims)[claim := old(c.claims)[claim][MACHINE_ANNOTATION := Print(k)]]
      && r.output.value == CreateOutput(d, k, c.machines[k])
    ensures r.Failure() ==> c.claims == old(c.claims)
    ensures stuck ==> r == Fail(AnnotateNodeClaimError)
    ensures r == Fail(AnnotateNodeClaimError) ==>
      && k in old(c.machines)
      && var m := old(c.machines)[k];
         c.machines == old(c.machines)[k := if stuck then m.Labelled() else m.Unlabelled()]
    ensures r in {Fail(GetMachineError), Fail(LabelMachineError)} ==> c.machines == old(c.machines)
  {
    stuck, retries := false, 0;
    var attempt := 0;
    var copy := Machine(map[], map[], false, None);
    var labelled := false;
    while attempt < 3 && !labelled
      invariant 0 <= attempt <= 3 && attempt == retries && (labelled ==> attempt < 3)
      invariant c.claims == old(c.claims) && !stuck && c.failed == old(c.failed) + Retries(k, attempt)
      invariant labelled ==> k in old(c.machines) && copy == old(c.machines)[k].Labelled()
      invariant c.machines == if labelled then old(c.machines)[k := copy] else old(c.machines)
      decreases 3 - attempt, !labelled
    {
      var got := c.GetMachine(k);
      if got.Failed? {
        assert c.failed == old(c.failed) + (Retries(k, attempt) + [MachineGet(k)]);
        r := Fail(GetMachineError);
        return;
      }
      copy := got.value.Labelled();
      labelled := c.UpdateMachine(k, copy);
      if !labelled {
        assert Retries(k, attempt + 1) == Retries(k, attempt) + [MachineUpdate(k)];
        attempt, retries := attempt + 1, retries + 1;
      }
    }
    if !labelled { r := Fail(LabelMachineError); return; }

    var annotated := c.PatchClaim(claim, Print(k));
    if !annotated {
      UnlabelTwice(old(c.machines)[k]);
      ghost var undo := MachineUpdate(k);
      var again := c.GetMachine(k);
      var undone := false;
      if again.Ok? {
        undone := c.UpdateMachine(k, again.value.Unlabelled());
      } else {
        undo := MachineGet(k);
      }
      stuck := !undone;
      ghost var late := if stuck then [ClaimPatch(claim), undo] else [ClaimPatch(claim)];
      assert c.failed == old(c.failed) + (Retries(k, attempt) + late);
      r := Fail(AnnotateNodeClaimError);
      return;
    }
    r := Succeed(CreateOutput(d, k, copy));
  }

  lemma UnlabelTwice(m: Machine)
    ensures m.Labelled().Unlabelled() == m.Unlabelled()
    ensures !m.Member() ==> m.Unlabelled() == m
  {
  }

  // ----- the whole batch

  /** The calls made under the lock, when all of them work. */
  function RaiseCalls(d: Key, deficit: int): seq<Call> {
    [DeploymentGet(d), MachineList] + if deficit > 0 then [DeploymentUpdate(d)] else []
  }

  /** The critical section: count, and raise the replicas by the deficit. `calls` are
      the calls made between taking and giving back the lock. */
  method RaiseReplicas(c: Cluster, locks: LockManager, d: Key, n: nat)
    returns (err: Option<Error>, ghost listed: bool, ghost calls: seq<Call>)
    requires locks.Free(Print(d))
    modifies c`deployments, c`failed, c`trace, locks
    ensures locks.Free(Print(d)) && c.trace == old(c.trace) + Guarded(Print(d), calls)
    ensures err.Some? ==> err.value in {GetMachineDeploymentError, UpdateMachineDeploymentError}
    ensures err.Some? ==> c.deployments == old(c.deployments)
    ensures err == Some(GetMachineDeploymentError) ==>
      calls == [DeploymentGet(d)] && c.failed == old(c.failed) + [DeploymentGet(d)]
    ensures err != Some(GetMachineDeploymentError) ==>
      && d in old(c.deployments)
      && calls == RaiseCalls(d, Deficit(n, if listed then |UnclaimedOf(c.machines, d)| else 0))
      && c.failed == old(c.failed) + CountFailures(listed) + if err.Some? then [DeploymentUpdate(d)] else []
    ensures err.None? ==> c.deployments == RaisedIn(old(c.deployments), c.machines, d, n, listed)
  {
    locks.Lock(c, Print(d));
    GuardedIs(Print(d), DeploymentGet(d), MachineList, DeploymentUpdate(d));
    listed := false;
    var md := c.GetDeployment(d);
    if md.Failed? {
      locks.Unlock(c, Print(d));
      return Some(GetMachineDeploymentError), listed, [DeploymentGet(d)];
    }
    var unclaimed;
    unclaimed, listed := CountUnclaimedMachines(c, d);
    var deficit := Deficit(n, unclaimed);
    calls := RaiseCalls(d, deficit);
    err := None;
    if deficit > 0 {
      var current := Deref(md.value.replicas);
      var ok := c.UpdateDeployment(d, md.value.(replicas := Some(Wrap(current + deficit))));
      if !ok { err := Some(UpdateMachineDeploymentError); }
    }
    locks.Unlock(c, Print(d));
  }

  /** What the count leaves among the failed calls. */
  function CountFailures(listed: bool): seq<Call> { if listed then [] else [MachineList] }

  function RaisedIn(ds: map<Key, Deployment>, ms: map<Key, Machine>, d: Key, n: nat, listed: bool): map<Key, Deployment>
    requires d in ds
  {
    var u := if listed then |UnclaimedOf(ms, d)| else 0;
    if Deficit(n, u) > 0 then ds[d := ds[d].(replicas := Some(Raised(Deref(ds[d].replicas), n, u)))] else ds
  }

  /** The Machines of the requests that succeeded. */
  ghost function Won(results: seq<Result<CreateOutput>>): set<Key> {
    set r | r in results && r.Success() :: r.output.value.key
  }

  ghost predicate DistinctClaims(inputs: seq<CreateInput>) {
    forall i, j | 0 <= i < j < |inputs| :: inputs[i].claim != inputs[j].claim
  }

  /** Labels move only by the batch's own binds; the rest of the world drifts. */
  ghost predicate Relabelled(before: map<Key, Machine>, after: map<Key, Machine>, labelled: set<Key>) {
    && (forall k | k in before ::
          && k in after && (before[k].deleting ==> after[k].deleting) && SameProvider(before[k], after[k])
          && after[k].labels == if k in labelled then before[k].Labelled().labels else before[k].labels)
    && labelled <= after.Keys
    && (forall k | k in after && k !in before :: after[k].Member() <==> k in labelled)
  }

  /** NodeClaims are annotated by the requests that succeeded, and by nothing else. */
  ghost predicate Annotated(before: map<string, map<string, string>>, after: map<string, map<string, string>>,
                            inputs: seq<CreateInput>, results: seq<Result<CreateOutput>>)
    requires |inputs| == |results|
  {
    && after.Keys == before.Keys
    && (forall name | name in before ::
          (forall i | 0 <= i < |results| && results[i].Success() :: inputs[i].claim != name) ==>
            after[name] == before[name])
    && (DistinctClaims(inputs) ==>
          forall i | 0 <= i < |results| && results[i].Success() ::
            inputs[i].claim in before &&
            after[inputs[i].claim] == before[inputs[i].claim][MACHINE_ANNOTATION := Print(results[i].output.value.key)])
  }

  const UNSET := Result<CreateOutput>.Result(None, None)

  /** What a bind can return. */
  predicate BindResult(r: Result<CreateOutput>) {
    r.Success() || (r.Failure() && r.err.value in {GetMachineError, LabelMachineError, AnnotateNodeClaimError})
  }

  /** Every success hands over the Machine as it was stored right after its bind, `bound`;
      since then its labels and its provider ID have stayed. `ms` is the store before the binds. */
  ghost predicate Handed(found: seq<Key>, results: seq<Result<CreateOutput>>, bound: map<Key, Machine>,
                         ms: map<Key, Machine>, now: map<Key, Machine>)
    requires |found| <= |results|
  {
    forall i: nat | i < |found| && results[i].Success() ::
      && found[i] in bound && results[i].output.value.machine == bound[found[i]]
      && found[i] in ms && SameProvider(ms[found[i]], bound[found[i]]) && bound[found[i]].Member()
      && found[i] in now && now[found[i]].labels == bound[found[i]].labels
      && SameProvider(bound[found[i]], now[found[i]])
  }

  /** Nothing happens to the labels and provider IDs of Machines other than `k`. */
  ghost predicate Apart(before: map<Key, Machine>, after: map<Key, Machine>, k: Key) {
    forall l | l in before && l != k ::
      l in after && after[l].labels == before[l].labels && SameProvider(before[l], after[l])
  }

  lemma HandedGrows(found: seq<Key>, results: seq<Result<CreateOutput>>, bound: map<Key, Machine>,
                    ms: map<Key, Machine>, before: map<Key, Machine>, after: map<Key, Machine>, i: nat,
                    r: Result<CreateOutput>)
    requires |found| <= |results| && i < |found| && DistinctKeys(found)
    requires results[i] == UNSET && Handed(found, results, bound, ms, before) && Apart(before, after, found[i])
    requires found[i] in ms && found[i] in after && SameProvider(ms[found[i]], after[found[i]])
    requires r.Success() ==> r.output.value.machine == after[found[i]] && after[found[i]].Member()
    ensures Handed(found, results[i := r], if r.Success() then bound[found[i] := after[found[i]]] else bound, ms, after)
  {
  }

  lemma HandedDrifts(found: seq<Key>, results: seq<Result<CreateOutput>>, bound: map<Key, Machine>,
                     ms: map<Key, Machine>)
    requires |found| <= |results| && forall i | 0 <= i < |results| :: results[i] == UNSET
    ensures Handed(found, results, bound, ms, ms)
  {
  }

  /** Where the bind goroutines stand when those in `todo` have not run yet. */
  ghost predicate BindingsDone(found: seq<Key>, results: seq<Result<CreateOutput>>, d: Key, todo: set<nat>) {
    && |found| <= |results|
    && (forall i: nat | i < |results| ::
          if i < |found| && i !in todo then BindResult(results[i]) else results[i] == UNSET)
    && (forall i: nat | i < |found| && results[i].Success() ::
          results[i].output.value.deployment == d && results[i].output.value.key == found[i])
  }

  ghost predicate StuckAmong(stuck: set<Key>, found: seq<Key>, results: seq<Result<CreateOutput>>, failed: seq<Call>)
    requires |found| <= |results|
  {
    && (forall k | k in stuck ::
          exists i: nat :: i < |found| && found[i] == k && results[i] == Fail(AnnotateNodeClaimError))
    && (forall k | k in stuck :: MachineGet(k) in failed || MachineUpdate(k) in failed)
  }

  /** Every error is explained by a failed call on the request's own objects. */
  ghost predicate ReasonsGiven(found: seq<Key>, inputs: seq<CreateInput>, results: seq<Result<CreateOutput>>, d: Key,
                               failed: seq<Call>)
    requires |results| == |inputs|
  {
    forall i: nat | i < |results| && results[i].err.Some? ::
      Explains(failed, results[i].err.value, d, if i < |found| then found[i] else d, inputs[i].claim)
  }

  ghost predicate DistinctKeys(found: seq<Key>) { forall i, j | 0 <= i < j < |found| :: found[i] != found[j] }

  lemma WonGrows(results: seq<Result<CreateOutput>>, i: nat, r: Result<CreateOutput>)
    requires i < |results| && results[i] == UNSET
    ensures Won(results[i := r]) == Won(results) + if r.Success() then {r.output.value.key} else {}
  {
    var after := results[i := r];
    forall x | x in results && x.Success()
      ensures x in after
    {
      var j :| 0 <= j < |results| && results[j] == x;
      assert after[j] == x;
    }
    assert after[i] == r;
  }

  /** A Machine whose goroutine has not run yet is neither won nor stuck. */
  lemma NotYet(found: seq<Key>, results: seq<Result<CreateOutput>>, d: Key, todo: set<nat>, stuck: set<Key>,
               failed: seq<Call>, i: nat)
    requires DistinctKeys(found) && BindingsDone(found, results, d, todo) && StuckAmong(stuck, found, results, failed)
    requires i in todo && i < |found|
    ensures found[i] !in Won(results) + stuck
  {
  }

  lemma RelabelledDrifts(before: map<Key, Machine>, m: map<Key, Machine>, after: map<Key, Machine>, labelled: set<Key>)
    requires Relabelled(before, m, labelled) && Drift(m, after)
    ensures Relabelled(before, after, labelled)
  {
  }

  lemma RelabelledGrows(before: map<Key, Machine>, m: map<Key, Machine>, labelled: set<Key>, k: Key)
    requires Relabelled(before, m, labelled) && k in before && k !in labelled
    ensures Relabelled(before, m[k := m[k].Labelled()], labelled + {k})
    ensures !before[k].Member() ==> Relabelled(before, m[k := m[k].Unlabelled()], labelled)
  {
  }

  lemma AnnotatedGrows(before: map<string, map<string, string>>, claims: map<string, map<string, string>>,
                       inputs: seq<CreateInput>, results: seq<Result<CreateOutput>>, i: nat, r: Result<CreateOutput>)
    requires |inputs| == |results| && i < |results| && results[i] == UNSET && Annotated(before, claims, inputs, results)
    requires r.Success() ==> inputs[i].claim in claims
    ensures Annotated(before,
      if r.Success()
      then claims[inputs[i].claim := claims[inputs[i].claim][MACHINE_ANNOTATION := Print(r.output.value.key)]]
      else claims,
      inputs, results[i := r])
  {
  }

  lemma StuckGrows(stuck: set<Key>, found: seq<Key>, results: seq<Result<CreateOutput>>, failed: seq<Call>,
                   more: seq<Call>, i: nat, r: Result<CreateOutput>)
    requires |found| <= |results| && i < |found| && results[i] == UNSET && StuckAmong(stuck, found, results, failed)
    requires failed <= more
    ensures StuckAmong(stuck, found, results[i := r], more)
    ensures r == Fail(AnnotateNodeClaimError) && (MachineGet(found[i]) in more || MachineUpdate(found[i]) in more) ==>
      StuckAmong(stuck + {found[i]}, found, results[i := r], more)
  {
  }

  /** What one bind did to the Machines, as seen by the batch. */
  lemma RelabelledByBind(before: map<Key, Machine>, m: map<Key, Machine>, after: map<Key, Machine>, k: Key,
                         labelled: set<Key>, kept: bool)
    requires Relabelled(before, m, labelled) && k in before && k !in labelled && !before[k].Member()
    requires if kept then after == m[k := m[k].Labelled()] else after == m || after == m[k := m[k].Unlabelled()]
    ensures Relabelled(before, after, if kept then labelled + {k} else labelled)
  {
    RelabelledGrows(before, m, labelled, k);
  }

  /** One goroutine: everybody else acts, then the Machine is bound. `calls` are those that failed. */
  method BindOne(c: Cluster, d: Key, k: Key, claim: string, ghost before: map<Key, Machine>, ghost labelled: set<Key>)
    returns (r: Result<CreateOutput>, ghost stuck: bool, ghost calls: seq<Call>)
    requires k in before && !before[k].Member() && k !in labelled && Relabelled(before, c.machines, labelled)
    modifies c`machines, c`claims, c`failed
    ensures BindResult(r) && c.failed == old(c.failed) + calls && Apart(old(c.machines), c.machines, k)
    ensures k in c.machines && SameProvider(before[k], c.machines[k])
    ensures Relabelled(before, c.machines, if r.Success() || stuck then labelled + {k} else labelled)
    ensures r.Success() ==>
      && !stuck && claim in old(c.claims)
      && r.output.value == CreateOutput(d, k, c.machines[k]) && c.machines[k].Member()
    ensures r.Success() ==> c.claims == old(c.claims)[claim := old(c.claims)[claim][MACHINE_ANNOTATION := Print(k)]]
    ensures r.Failure() ==> c.claims == old(c.claims) && Explains(calls, r.err.value, d, k, claim)
    ensures stuck ==> r == Fail(AnnotateNodeClaimError) && (MachineGet(k) in calls || MachineUpdate(k) in calls)
  {
    c.MachineSetActs();
    RelabelledDrifts(before, old(c.machines), c.machines, labelled);
    ghost var drifted := c.machines;
    ghost var retries;
    r, stuck, retries := BindMachineToNodeClaim(c, d, k, claim);
    calls := c.failed[|old(c.failed)|..];
    RelabelledByBind(before, drifted, c.machines, k, labelled, r.Success() || stuck);
    if r.Failure() { FailuresExplain(calls, d, k, claim, r, stuck, retries); }
  }

  /** Everything the batch knows between two goroutines. */
  datatype Progress = Progress(
    results: seq<Result<CreateOutput>>,
    stuck: set<Key>,
    todo: set<nat>,
    bound: map<Key, Machine>,
    machines: map<Key, Machine>,
    claims: map<string, map<string, string>>,
    failed: seq<Call>)

  /** What it knows is right, for a batch that began with `ms` and `claims`. */
  ghost predicate Sound(p: Progress, found: seq<Key>, inputs: seq<CreateInput>, d: Key,
                        ms: map<Key, Machine>, claims: map<string, map<string, string>>)
  {
    && |p.results| == |inputs|
    && BindingsDone(found, p.results, d, p.todo)
    && StuckAmong(p.stuck, found, p.results, p.failed)
    && Relabelled(ms, p.machines, Won(p.results) + p.stuck)
    && Handed(found, p.results, p.bound, ms, p.machines)
    && Annotated(claims, p.claims, inputs, p.results)
    && ReasonsGiven(found, inputs, p.results, d, p.failed)
  }

  /** Progress after request `i`'s bind returned `r`, with `calls` failing. */
  ghost predicate Advanced(p: Progress, q: Progress, i: nat, k: Key, claim: string, d: Key,
                           r: Result<CreateOutput>, isStuck: bool, calls: seq<Call>)
  {
    && i < |p.results| && i in p.todo && q.todo == p.todo - {i} && q.results == p.results[i := r]
    && BindResult(r) && q.failed == p.failed + calls
    && k in q.machines && q.bound == (if r.Success() then p.bound[k := q.machines[k]] else p.bound)
    && q.stuck == (if isStuck then p.stuck + {k} else p.stuck)
    && (r.Failure() ==> Explains(calls, r.err.value, d, k, claim))
    && (isStuck ==> r == Fail(AnnotateNodeClaimError) && (MachineGet(k) in calls || MachineUpdate(k) in calls))
    && (r.Success() ==>
          r.output.value == CreateOutput(d, k, q.machines[k]) && q.machines[k].Member() && claim in p.claims)
    && q.claims == if r.Success() && claim in p.claims
                   then p.claims[claim := p.claims[claim][MACHINE_ANNOTATION := Print(k)]] else p.claims
  }

  lemma SoundAdvances(p: Progress, q: Progress, found: seq<Key>, inputs: seq<CreateInput>, d: Key,
                      ms: map<Key, Machine>, claims: map<string, map<string, string>>, i: nat,
                      r: Result<CreateOutput>, isStuck: bool, calls: seq<Call>)
    requires |found| <= |inputs| && i < |found| && DistinctKeys(found) && Sound(p, found, inputs, d, ms, claims)
    requires found[i] in ms && Apart(p.machines, q.machines, found[i])
    requires Advanced(p, q, i, found[i], inputs[i].claim, d, r, isStuck, calls)
    requires var labelled := Won(p.results) + p.stuck;
      Relabelled(ms, q.machines, if r.Success() || isStuck then labelled + {found[i]} else labelled)
    ensures Sound(q, found, inputs, d, ms, claims)
  {
    HandedGrows(found, p.results, p.bound, ms, p.machines, q.machines, i, r);
    WonGrows(p.results, i, r);
    AnnotatedGrows(claims, p.claims, inputs, p.results, i, r);
    StuckGrows(p.stuck, found, p.results, p.failed, q.failed, i, r);
    ReasonsGrow(found, inputs, p.results, d, p.failed, q.failed, i, r);
    DoneGrows(found, p.results, d, p.todo, i, r);
    LabelledGrows(Won(p.results), p.stuck, found[i], r.Success(), isStuck);
  }

  /** A Machine becomes one of the batch's if its bind succeeded or got stuck. */
  lemma LabelledGrows(won: set<Key>, stuck: set<Key>, k: Key, success: bool, isStuck: bool)
    ensures (won + if success then {k} else {}) + (if isStuck then stuck + {k} else stuck) ==
      if success || isStuck then won + stuck + {k} else won + stuck
  {
  }

  lemma DoneGrows(found: seq<Key>, results: seq<Result<CreateOutput>>, d: Key, todo: set<nat>, i: nat,
                  r: Result<CreateOutput>)
    requires BindingsDone(found, results, d, todo) && i < |found| && i in todo && BindResult(r)
    requires r.Success() ==> r.output.value.deployment == d && r.output.value.key == found[i]
    ensures BindingsDone(found, results[i := r], d, todo - {i})
  {
  }

  lemma ReasonsGrow(found: seq<Key>, inputs: seq<CreateInput>, results: seq<Result<CreateOutput>>, d: Key,
                    failed: seq<Call>, more: seq<Call>, i: nat, r: Result<CreateOutput>)
    requires |results| == |inputs| && i < |found| <= |inputs| && ReasonsGiven(found, inputs, results, d, failed)
    requires failed <= more
    requires r.err.Some? ==> Explains(more, r.err.value, d, found[i], inputs[i].claim)
    ensures ReasonsGiven(found, inputs, results[i := r], d, more)
  {
  }

  lemma SoundAtFirst(found: seq<Key>, inputs: seq<CreateInput>, d: Key, p: Progress)
    requires |found| <= |inputs|
    requires |p.results| == |inputs| && forall i | 0 <= i < |inputs| :: p.results[i] == UNSET
    requires p.stuck == {} && p.failed == [] && forall i: nat :: i in p.todo <==> i < |found|
    ensures Sound(p, found, inputs, d, p.machines, p.claims)
  {
    UnsetAnnotated(p.claims, inputs, p.results);
    UnsetReasons(found, inputs, p.results, d);
    HandedDrifts(found, p.results, p.bound, p.machines);
    assert Won(p.results) + p.stuck == {};
    assert Relabelled(p.machines, p.machines, {});
  }

  lemma UnsetReasons(found: seq<Key>, inputs: seq<CreateInput>, results: seq<Result<CreateOutput>>, d: Key)
    requires |found| <= |results| == |inputs| && forall i | 0 <= i < |inputs| :: results[i] == UNSET
    ensures ReasonsGiven(found, inputs, results, d, []) && StuckAmong({}, found, results, [])
  {
  }

  lemma UnsetAnnotated(claims: map<string, map<string, string>>, inputs: seq<CreateInput>,
                       results: seq<Result<CreateOutput>>)
    requires |results| == |inputs| && forall i | 0 <= i < |inputs| :: results[i] == UNSET
    ensures Annotated(claims, claims, inputs, results) && Won(results) == {}
  {
  }

  ghost predicate AllFree(found: seq<Key>, ms: map<Key, Machine>) {
    forall i | 0 <= i < |found| :: found[i] in ms && !ms[found[i]].Member()
  }

  /** What a goroutine that has not run yet finds. */
  lemma Unbound(p: Progress, found: seq<Key>, inputs: seq<CreateInput>, d: Key,
                ms: map<Key, Machine>, claims: map<string, map<string, string>>, i: nat)
    requires |found| <= |inputs| && DistinctKeys(found) && Sound(p, found, inputs, d, ms, claims) && i in p.todo
    requires i < |found|
    ensures found[i] !in Won(p.results) + p.stuck && Relabelled(ms, p.machines, Won(p.results) + p.stuck)
    ensures i < |p.results| == |inputs| && p.results[i] == UNSET
  {
    NotYet(found, p.results, d, p.todo, p.stuck, p.failed, i);
  }

  /** One goroutine, as the batch sees it. */
  method BindNext(c: Cluster, d: Key, found: seq<Key>, inputs: seq<CreateInput>, i: nat, ghost p: Progress,
                  ghost ms: map<Key, Machine>, ghost claims: map<string, map<string, string>>, ghost failed: seq<Call>)
    returns (r: Result<CreateOutput>, ghost q: Progress)
    requires |found| <= |inputs| && DistinctKeys(found) && i in p.todo && i < |found| && AllFree(found, ms)
    requires p.machines == c.machines && p.claims == c.claims && Sound(p, found, inputs, d, ms, claims)
    requires c.failed == failed + p.failed
    modifies c`machines, c`claims, c`failed
    ensures i < |p.results| && q.results == p.results[i := r] && q.todo == p.todo - {i}
    ensures q.machines == c.machines && q.claims == c.claims && c.failed == failed + q.failed
    ensures Sound(q, found, inputs, d, ms, claims)
  {
    ghost var isStuck, calls;
    Unbound(p, found, inputs, d, ms, claims, i);
    r, isStuck, calls := BindOne(c, d, found[i], inputs[i].claim, ms, Won(p.results) + p.stuck);
    q := Progress(p.results[i := r], if isStuck then p.stuck + {found[i]} else p.stuck, p.todo - {i},
                  if r.Success() then p.bound[found[i] := c.machines[found[i]]] else p.bound,
                  c.machines, c.claims, p.failed + calls);
    SoundAdvances(p, q, found, inputs, d, ms, claims, i, r, isStuck, calls);
    Regroup(failed, p.failed, calls);
  }

  /** Binds `found[i]` for request `i`, the goroutines running in any order. */
  method BindAll(c: Cluster, d: Key, found: seq<Key>, inputs: seq<CreateInput>)
    returns (results: seq<Result<CreateOutput>>, ghost p: Progress)
    requires |found| <= |inputs| && DistinctKeys(found) && AllFree(found, c.machines)
    modifies c`machines, c`claims, c`failed
    ensures p.results == results && p.todo == {} && p.machines == c.machines && p.claims == c.claims
    ensures c.failed == old(c.failed) + p.failed
    ensures Sound(p, found, inputs, d, old(c.machines), old(c.claims))
  {
    results := seq(|inputs|, _ => UNSET);
    var todo := Upto(|found|);
    UptoMembers(|found|);
    p := Progress(results, {}, todo, map[], c.machines, c.claims, []);
    SoundAtFirst(found, inputs, d, p);
    while todo != {}
      invariant (forall i | i in todo :: i < |found|) && c.failed == old(c.failed) + p.failed
      invariant p.results == results && p.todo == todo && p.machines == c.machines && p.claims == c.claims
      invariant Sound(p, found, inputs, d, old(c.machines), old(c.claims))
    {
      var i :| i in todo;
      var r;
      r, p := BindNext(c, d, found, inputs, i, p, old(c.machines), old(c.claims), old(c.failed));
      results, todo := results[i := r], todo - {i};
    }
  }

  // ----- the executor

  /** What the executor did and saw on its way. */
  datatype Trail = Trail(
    section: seq<Call>,                  // the calls it made under the lock
    listed: bool,                        // whether the count's List worked
    ticks: nat,                          // how often the poll could wait
    polling: seq<Call>,                  // the poll's Lists that failed
    listings: seq<seq<Listed>>,          // what the others returned...
    views: seq<map<Key, Machine>>,       // ...and what the store held then
    found: seq<Listed>,                  // what the poll picked
    bound: map<Key, Machine>,            // each Machine bound, as stored right after
    stuck: set<Key>,                     // the labels a failed rollback left behind
    binding: seq<Call>)                  // the calls that failed while binding

  const NO_TRAIL := Trail([], false, 0, [], [], [], [], map[], {}, [])

  /** Every call that failed in a batch that was served, in order. */
  function Failures(t: Trail): seq<Call> { CountFailures(t.listed) + t.polling + t.binding }

  function Keys(found: seq<Listed>): seq<Key> { seq(|found|, i requires 0 <= i < |found| => found[i].key) }

  /** Requests the poll had no Machine for. */
  function Finished(results: seq<Result<CreateOutput>>): seq<Result<CreateOutput>> {
    seq(|results|, i requires 0 <= i < |results| => if results[i] == UNSET then Fail(NoMachineError) else results[i])
  }

  /** The batch gave up in its critical section: nothing changed, everyone is told why. */
  ghost predicate Refused(w: World, results: seq<Result<CreateOutput>>, v: World) {
    && v == w
    && exists e ::
      && e in {GetMachineDeploymentError, UpdateMachineDeploymentError}
      && forall i | 0 <= i < |results| :: results[i] == Fail(e)
  }

  /** The calls under the lock are those that were needed, and the poll looked often enough. */
  ghost predicate Sought(t: Trail, d: Key, n: nat, before: map<Key, Machine>) {
    && t.section == RaiseCalls(d, Deficit(n, if t.listed then |UnclaimedOf(before, d)| else 0))
    && Looked(t.views, t.polling, before)
    && Rounds(|t.listings| + |t.polling|, t.ticks, |t.found| >= n)
  }

  /** Each success hands over the Machine found for it, claimed, with the provider ID it
      was found with, as it was stored right after the bind and in both still is. */
  ghost predicate HandedOver(t: Trail, results: seq<Result<CreateOutput>>, now: map<Key, Machine>)
    requires |t.found| <= |results|
  {
    forall i: nat | i < |t.found| && results[i].Success() ::
      var k, m := t.found[i].key, results[i].output.value.machine;
      && k in t.bound && m == t.bound[k] && m.Member() && SameProvider(t.found[i].machine, m)
      && k in now && now[k].labels == m.labels && SameProvider(m, now[k])
  }

  /** Distinct Machines, each unclaimed, unmarked and not deleting in the listing it came from. */
  ghost predicate Picked(t: Trail, d: Key, n: nat, before: map<Key, Machine>) {
    && Gathered(t.found, t.listings, n)
    && |t.views| == |t.listings|
    && (forall i | 0 <= i < |t.views| :: IsListing(t.listings[i], t.views[i], d) && Drift(before, t.views[i]))
    && DistinctKeys(Keys(t.found)) && |t.found| <= n
    && (forall x | x in t.found :: x.machine.Usable() && (x.key in before ==> !before[x.key].Member()))
  }

  /** Request `i` gets the `i`th Machine or the reason it did not. */
  ghost predicate Matched(t: Trail, d: Key, results: seq<Result<CreateOutput>>)
    requires |t.found| <= |results|
  {
    && (forall i: nat | i < |results| :: results[i].Definite())
    && (forall i: nat | i < |results| ::
          if i < |t.found| then BindResult(results[i]) else results[i] == Fail(NoMachineError))
    && (forall i: nat | i < |t.found| && results[i].Success() ::
          results[i].output.value.deployment == d && results[i].output.value.key == t.found[i].key)
    && StuckAmong(t.stuck, Keys(t.found), results, t.binding)
  }

  /** The batch ran: replicas raised by the deficit, Machines picked, bound, reported. */
  ghost predicate Served(w: World, inputs: seq<CreateInput>, results: seq<Result<CreateOutput>>, t: Trail, v: World)
    requires inputs != [] && |results| == |inputs|
  {
    var d := inputs[0].deployment;
    && d in w.deployments && v.deployments == RaisedIn(w.deployments, w.machines, d, |inputs|, t.listed)
    && Sought(t, d, |inputs|, w.machines)
    && Picked(t, d, |inputs|, w.machines)
    && Matched(t, d, results)
    && HandedOver(t, results, v.machines)
    && Relabelled(w.machines, v.machines, Won(results) + t.stuck)
    && Annotated(w.claims, v.claims, inputs, results)
    && AllOf(t.found, v.machines, d)
  }

  /** What was found is there and belongs to the deployment. */
  ghost predicate AllOf(found: seq<Listed>, ms: map<Key, Machine>, d: Key) {
    forall x | x in found :: x.key in ms && Of(x.key, ms[x.key], d)
  }

  lemma AllOfLater(found: seq<Listed>, before: map<Key, Machine>, after: map<Key, Machine>, labelled: set<Key>, d: Key)
    requires AllOf(found, before, d) && Relabelled(before, after, labelled)
    ensures AllOf(found, after, d)
  {
  }

  ghost predicate CreateEffect(w: World, inputs: seq<CreateInput>, results: seq<Result<CreateOutput>>, t: Trail,
                               v: World) {
    && |results| == |inputs|
    && if inputs == [] then v == w else Refused(w, results, v) || Served(w, inputs, results, t, v)
  }

  ghost predicate SameProviders(found: seq<Listed>, ms: map<Key, Machine>) {
    forall x | x in found :: x.key in ms && SameProvider(x.machine, ms[x.key])
  }

  lemma HandedAtLast(t: Trail, results: seq<Result<CreateOutput>>, ms: map<Key, Machine>, now: map<Key, Machine>)
    requires |t.found| <= |results| && SameProviders(t.found, ms) && Handed(Keys(t.found), results, t.bound, ms, now)
    ensures HandedOver(t, Finished(results), now)
  {
    forall i: nat | i < |t.found| && Finished(results)[i].Success()
      ensures SameProvider(t.found[i].machine, t.bound[t.found[i].key]) && Keys(t.found)[i] == t.found[i].key
    {
      assert t.found[i] in t.found && Keys(t.found)[i] in ms;
    }
  }

  lemma PickedFacts(t: Trail, d: Key, n: nat, before: map<Key, Machine>, now: map<Key, Machine>)
    requires Gathered(t.found, t.listings, n) && n >= 1
    requires Seen(t.listings, t.views, d, before, now) && Drift(before, now)
    ensures Picked(t, d, n, before)
    ensures forall k | k in Keys(t.found) :: k in now && !now[k].Member()
    ensures AllOf(t.found, now, d) && SameProviders(t.found, now)
  {
    CollectedFacts(t.listings);
    forall x | x in t.found
      ensures x.machine.Usable() && (x.key in before ==> !before[x.key].Member()) && x.key in now
      ensures !now[x.key].Member() && Of(x.key, now[x.key], d) && SameProvider(x.machine, now[x.key])
    {
      assert x in Collected(t.listings);
      var i :| 0 <= i < |t.listings| && x in t.listings[i];
      assert IsListing(t.listings[i], t.views[i], d) && Drift(before, t.views[i]) && Drift(t.views[i], now);
    }
    forall k | k in Keys(t.found)
      ensures k in now && !now[k].Member()
    {
      var i :| 0 <= i < |t.found| && Keys(t.found)[i] == k;
      assert t.found[i] in t.found;
    }
  }

  lemma RelabelledSince(before: map<Key, Machine>, polled: map<Key, Machine>, after: map<Key, Machine>,
                        labelled: set<Key>)
    requires Drift(before, polled) && Relabelled(polled, after, labelled)
    ensures Relabelled(before, after, labelled)
  {
  }

  lemma FinishedFacts(results: seq<Result<CreateOutput>>)
    ensures Won(Finished(results)) == Won(results)
  {
    var f := Finished(results);
    forall r | r in results && r.Success()
      ensures r in f
    {
      var i :| 0 <= i < |results| && results[i] == r;
      assert f[i] == r;
    }
    forall r | r in f && r.Success()
      ensures r in results
    {
      var i :| 0 <= i < |f| && f[i] == r;
      assert results[i] == r;
    }
  }

  lemma MatchedAtLast(t: Trail, d: Key, results: seq<Result<CreateOutput>>)
    requires BindingsDone(Keys(t.found), results, d, {}) && StuckAmong(t.stuck, Keys(t.found), results, t.binding)
    ensures Matched(t, d, Finished(results))
  {
  }

  lemma AnnotatedAtLast(before: map<string, map<string, string>>, after: map<string, map<string, string>>,
                        inputs: seq<CreateInput>, results: seq<Result<CreateOutput>>)
    requires |inputs| == |results| && Annotated(before, after, inputs, results)
    ensures Annotated(before, after, inputs, Finished(results))
  {
  }

  lemma FinishedReasons(found: seq<Key>, inputs: seq<CreateInput>, results: seq<Result<CreateOutput>>, d: Key,
                        failed: seq<Call>)
    requires |results| == |inputs| && ReasonsGiven(found, inputs, results, d, failed)
    ensures ReasonsGiven(found, inputs, Finished(results), d, failed)
  {
  }

  lemma RefusedReasons(inputs: seq<CreateInput>, results: seq<Result<CreateOutput>>, d: Key, e: Error,
                       failed: seq<Call>)
    requires e in {GetMachineDeploymentError, UpdateMachineDeploymentError} && Explains(failed, e, d, d, "")
    requires results == seq(|inputs|, _ => Fail(e))
    ensures ReasonsGiven(Keys([]), inputs, results, d, failed)
    ensures DeploymentGet(d) in failed || DeploymentUpdate(d) in failed
    ensures Fail(NoMachineError) !in results && (inputs != [] ==> IsRefusal(results[0]))
  {
  }

  /** What the binds come to for the batch: `t` is its trail, `p` where they stand at the end. */
  lemma ReportIs(t: Trail, d: Key, inputs: seq<CreateInput>, p: Progress,
                 before: map<Key, Machine>, polled: map<Key, Machine>, claims: map<string, map<string, string>>)
    requires |t.found| <= |inputs| && Sound(p, Keys(t.found), inputs, d, polled, claims) && p.todo == {}
    requires t.bound == p.bound && t.stuck == p.stuck && t.binding == p.failed
    requires Drift(before, polled) && AllOf(t.found, polled, d) && SameProviders(t.found, polled)
    ensures Matched(t, d, Finished(p.results)) && HandedOver(t, Finished(p.results), p.machines)
    ensures Relabelled(before, p.machines, Won(Finished(p.results)) + t.stuck) && AllOf(t.found, p.machines, d)
    ensures Annotated(claims, p.claims, inputs, Finished(p.results))
    ensures ReasonsGiven(Keys(t.found), inputs, Finished(p.results), d, t.binding)
  {
    RelabelledSince(before, polled, p.machines, Won(p.results) + p.stuck);
    AllOfLater(t.found, polled, p.machines, Won(p.results) + p.stuck, d);
    MatchedAtLast(t, d, p.results);
    HandedAtLast(t, p.results, polled, p.machines);
    AnnotatedAtLast(claims, p.claims, inputs, p.results);
    FinishedFacts(p.results);
    FinishedReasons(Keys(t.found), inputs, p.results, d, p.failed);
  }

  lemma RefusedEffect(w: World, inputs: seq<CreateInput>, results: seq<Result<CreateOutput>>, t: Trail, e: Error)
    requires inputs != [] && e in {GetMachineDeploymentError, UpdateMachineDeploymentError}
    requires results == seq(|inputs|, _ => Fail(e))
    ensures CreateEffect(w, inputs, results, t, w)
  {
  }

  /** The unlocked part: poll, bind, and report. */
  method PollAndBind(c: Cluster, d: Key, inputs: seq<CreateInput>, ticks: nat)
    returns (results: seq<Result<CreateOutput>>, ghost t: Trail)
    requires inputs != []
    modifies c`machines, c`claims, c`failed, c`trace
    ensures |results| == |inputs| && t.ticks == ticks && c.failed == old(c.failed) + (t.polling + t.binding)
    ensures c.trace == old(c.trace) + Lists(|t.listings| + |t.polling|)
    ensures Looked(t.views, t.polling, old(c.machines))
    ensures Rounds(|t.listings| + |t.polling|, ticks, |t.found| >= |inputs|)
    ensures Picked(t, d, |inputs|, old(c.machines)) && Matched(t, d, results) && AllOf(t.found, c.machines, d)
    ensures HandedOver(t, results, c.machines)
    ensures Relabelled(old(c.machines), c.machines, Won(results) + t.stuck)
    ensures Annotated(old(c.claims), c.claims, inputs, results)
    ensures ReasonsGiven(Keys(t.found), inputs, results, d, t.binding)
  {
    var found;
    ghost var listings, views, polling;
    found, listings, views, polling := PollForNUnclaimedMachines(c, d, |inputs|, ticks);
    t := NO_TRAIL.(ticks := ticks, polling := polling, listings := listings, views := views, found := found);
    PickedFacts(t, d, |inputs|, old(c.machines), c.machines);
    ghost var polled := c.machines;
    ghost var p;
    results, p := BindAll(c, d, Keys(found), inputs);
    t := t.(bound := p.bound, stuck := p.stuck, binding := p.failed);
    Regroup(old(c.failed), polling, p.failed);
    ReportIs(t, d, inputs, p, old(c.machines), polled, old(c.claims));
    results := Finish(results);
  }

  lemma ReasonsWiden(found: seq<Key>, inputs: seq<CreateInput>, results: seq<Result<CreateOutput>>, d: Key,
                     failed: seq<Call>, more: seq<Call>)
    requires |results| == |inputs| && ReasonsGiven(found, inputs, results, d, failed)
    requires forall x | x in failed :: x in more
    ensures ReasonsGiven(found, inputs, results, d, more)
  {
  }

  /** The error of a batch that gave up in its critical section. */
  predicate IsRefusal(r: Result<CreateOutput>) {
    r.err.Some? && r.err.value in {GetMachineDeploymentError, UpdateMachineDeploymentError}
  }

  /** Only the replicas of `d` differ, raised by exactly the Machines that `n` requests lack. */
  predicate ExactlyRaised(w: World, v: World, d: Key, n: nat) {
    && d in w.deployments && v.deployments.Keys == w.deployments.Keys
    && (forall e | e in w.deployments && e != d :: v.deployments[e] == w.deployments[e])
    && v.deployments[d] == w.deployments[d].(replicas := v.deployments[d].replicas)
    && var r, u := Deref(w.deployments[d].replicas), |UnclaimedOf(w.machines, d)|;
       n <= MAX_INT32 && u <= MAX_INT32 && 0 <= r && r + Max(0, n - u) <= MAX_INT32 ==>
         Deref(v.deployments[d].replicas) == r + Max(0, n - u)
  }

  lemma RaisedExactly(w: World, v: World, d: Key, n: nat)
    requires d in w.deployments && v.deployments == RaisedIn(w.deployments, w.machines, d, n, true)
    ensures ExactlyRaised(w, v, d, n)
  {
    var r, u := Deref(w.deployments[d].replicas), |UnclaimedOf(w.machines, d)|;
    if n <= MAX_INT32 && u <= MAX_INT32 && 0 <= r && r + Max(0, n - u) <= MAX_INT32 {
      RaisedExactIff(r, n, u);
    }
  }

  /** With every List working, a batch finds what was waiting when it began. */
  lemma FoundAtOnce(t: Trail, d: Key, n: nat, before: map<Key, Machine>)
    requires Picked(t, d, n, before) && Looked(t.views, t.polling, before) && t.polling == [] && d.ns != ""
    requires 1 <= n <= |UnclaimedOf(before, d)|
    ensures |t.found| == n
  {
    ListingSuffices(t.listings, 0, before, d);
  }

  lemma ServedRaises(w: World, inputs: seq<CreateInput>, results: seq<Result<CreateOutput>>, t: Trail, v: World)
    requires inputs != [] && |results| == |inputs| && Served(w, inputs, results, t, v)
    ensures MachineList !in Failures(t) ==> ExactlyRaised(w, v, inputs[0].deployment, |inputs|)
  {
    FailedListCounts(t, w.machines);
    if t.listed { RaisedExactly(w, v, inputs[0].deployment, |inputs|); }
  }

  lemma ServedFinds(w: World, inputs: seq<CreateInput>, results: seq<Result<CreateOutput>>, t: Trail, v: World)
    requires inputs != [] && |results| == |inputs| && Served(w, inputs, results, t, v)
    requires MachineList !in Failures(t) && inputs[0].deployment.ns != ""
    requires |UnclaimedOf(w.machines, inputs[0].deployment)| >= |inputs|
    ensures Fail(NoMachineError) !in results
  {
    FailedListCounts(t, w.machines);
    FoundAtOnce(t, inputs[0].deployment, |inputs|, w.machines);
  }

  lemma ServedFacts(w: World, inputs: seq<CreateInput>, results: seq<Result<CreateOutput>>, t: Trail, v: World)
    requires inputs != [] && |results| == |inputs| && Served(w, inputs, results, t, v)
    ensures !IsRefusal(results[0])
    ensures MachineList !in Failures(t) ==> ExactlyRaised(w, v, inputs[0].deployment, |inputs|)
    ensures MachineList !in Failures(t) && inputs[0].deployment.ns != "" ==>
      |UnclaimedOf(w.machines, inputs[0].deployment)| >= |inputs| ==> Fail(NoMachineError) !in results
  {
    var d := inputs[0].deployment;
    ServedRaises(w, inputs, results, t, v);
    if MachineList !in Failures(t) && d.ns != "" && |UnclaimedOf(w.machines, d)| >= |inputs| {
      ServedFinds(w, inputs, results, t, v);
    }
  }

  lemma FailedListCounts(t: Trail, before: map<Key, Machine>)
    requires Looked(t.views, t.polling, before)
    ensures !t.listed || t.polling != [] ==> MachineList in Failures(t)
  {
    if t.polling != [] { assert t.polling[0] in t.polling; }
  }

  /**
   `ticks` bounds how often the poll can wait; `failed` are all the calls that failed.
   The last two clauses do without the trail. When the Lists and the calls on the
   MachineDeployment work, the replicas are raised by exactly what is missing; and when
   the Lists work and enough Machines wait, nobody is told that there was none.
   */
  method ExecCreateBatch(c: Cluster, locks: LockManager, inputs: seq<CreateInput>, ticks: nat)
    returns (results: seq<Result<CreateOutput>>, ghost t: Trail, ghost failed: seq<Call>)
    requires inputs != [] ==> locks.Free(Print(inputs[0].deployment))
    modifies c, locks
    ensures CreateEffect(old(c.State()), inputs, results, t, c.State())
    ensures c.failed == old(c.failed) + failed
    ensures inputs == [] ==> c.trace == old(c.trace) && failed == []
    ensures inputs != [] ==> var d := inputs[0].deployment;
      && locks.Free(Print(d)) && ReasonsGiven(Keys(t.found), inputs, results, d, failed)
      && c.trace == old(c.trace) + Guarded(Print(d), t.section) + Lists(|t.listings| + |t.polling|)
      && (!IsRefusal(results[0]) ==> t.ticks == ticks && failed == Failures(t))
    ensures inputs != [] ==> var d := inputs[0].deployment;
      MachineList !in failed && DeploymentGet(d) !in failed && DeploymentUpdate(d) !in failed ==>
        ExactlyRaised(old(c.State()), c.State(), d, |inputs|)
    ensures inputs != [] ==> var d := inputs[0].deployment;
      MachineList !in failed && d.ns != "" && |UnclaimedOf(old(c.machines), d)| >= |inputs| ==>
        Fail(NoMachineError) !in results
  {
    var n := |inputs|;
    t, failed := NO_TRAIL, [];
    if n == 0 { results := []; return; }
    var d := inputs[0].deployment;
    var err;
    ghost var listed, calls;
    err, listed, calls := RaiseReplicas(c, locks, d, n);
    if err.Some? {
      t, failed := t.(section := calls), RaiseFailures(d, err.value, listed);
      Regroup(old(c.failed), CountFailures(listed), [DeploymentUpdate(d)]);
      results := seq(n, _ => Fail(err.value));
      RefusedReasons(inputs, results, d, err.value, failed);
      RefusedEffect(old(c.State()), inputs, results, t, err.value);
      assert Lists(0) == [];
      return;
    }
    results, t := ServeRaised(c, d, inputs, ticks, old(c.State()), listed, calls, old(c.failed));
    failed := Failures(t);
    ServedFacts(old(c.State()), inputs, results, t, c.State());
  }

  /** After the critical section: `w` is the store before it, `before` what had failed. */
  method ServeRaised(c: Cluster, d: Key, inputs: seq<CreateInput>, ticks: nat,
                     ghost w: World, ghost listed: bool, ghost calls: seq<Call>, ghost before: seq<Call>)
    returns (results: seq<Result<CreateOutput>>, ghost t: Trail)
    requires inputs != [] && d == inputs[0].deployment && d in w.deployments
    requires c.machines == w.machines && c.claims == w.claims
    requires c.deployments == RaisedIn(w.deployments, w.machines, d, |inputs|, listed)
    requires calls == RaiseCalls(d, Deficit(|inputs|, if listed then |UnclaimedOf(w.machines, d)| else 0))
    requires c.failed == before + CountFailures(listed)
    modifies c`machines, c`claims, c`failed, c`trace
    ensures |results| == |inputs| && Served(w, inputs, results, t, c.State())
    ensures t.ticks == ticks && t.section == calls && c.failed == before + Failures(t)
    ensures c.trace == old(c.trace) + Lists(|t.listings| + |t.polling|)
    ensures ReasonsGiven(Keys(t.found), inputs, results, d, Failures(t))
  {
    results, t := PollAndBind(c, d, inputs, ticks);
    t := t.(section := calls, listed := listed);
    Regroup(before, CountFailures(listed), t.polling + t.binding);
    Regroup(CountFailures(listed), t.polling, t.binding);
    ReasonsWiden(Keys(t.found), inputs, results, d, t.binding, Failures(t));
  }

  /** The calls that failed in a section that ends with error `e`. */
  function RaiseFailures(d: Key, e: Error, listed: bool): seq<Call> {
    if e == GetMachineDeploymentError then [DeploymentGet(d)] else CountFailures(listed) + [DeploymentUpdate(d)]
  }

  /** The last loop of the executor. */
  method Finish(results: seq<Result<CreateOutput>>) returns (finished: seq<Result<CreateOutput>>)
    ensures finished == Finished(results)
  {
    finished := results;
    for i := 0 to |results|
      invariant |finished| == |results|
      invariant forall k | 0 <= k < |results| :: finished[k] == if k < i then Finished(results)[k] else results[k]
    {
      if finished[i].err.None? && finished[i].output.None? {
        finished := finished[i := Fail(NoMachineError)];
      }
    }
  }
}
