/** What one create batch comes to for its requests. */
module CreateTheorems {
  import opened Common
  import opened Machines
  import opened Providers
  import opened Replicas
  import opened ApiServer
  import opened CreateSpec
  import opened CreateBatch
  import opened CreateRuns

  /** The poll's promise: at most `count` Machines, no two of one name, each eligible in
      the listing it came from; and when they are fewer, nothing eligible was missed. */
  lemma PollFacts(found: seq<Listed>, listings: seq<seq<Listed>>, count: nat)
    requires Gathered(found, listings, count) && count >= 1
    ensures |found| <= count && DistinctNames(found)
    ensures forall x | x in found :: x.machine.Usable() && exists i :: 0 <= i < |listings| && x in listings[i]
    ensures |found| < count ==>
      forall i, x | 0 <= i < |listings| && x in listings[i] && x.machine.Usable() :: x.key.name in Names(found)
  {
    CollectedFacts(listings);
    assert forall x | x in found :: x in Collected(listings);
    if |found| < count { assert found == Collected(listings); }
  }

  /** A batch orders exactly the Machines it lacks iff its List worked or none was waiting. */
  lemma OrdersExactlyIff(w: World, inputs: seq<CreateInput>, results: seq<Result<CreateOutput>>, t: Trail, v: World,
                         d: Key)
    requires inputs != [] && |results| == |inputs| <= MAX_INT32 && inputs[0].deployment == d
    requires Served(w, inputs, results, t, v)
    requires |UnclaimedOf(w.machines, d)| <= MAX_INT32
    requires 0 <= ReplicasOf(w, d) && ReplicasOf(w, d) + |inputs| <= MAX_INT32
    ensures ReplicasOf(v, d) == ReplicasOf(w, d) + Max(0, |inputs| - |UnclaimedOf(w.machines, d)|)
       <==> t.listed || UnclaimedOf(w.machines, d) == {}
  {
  }

  /**
   No request fails for lack of a Machine once one listing before the deadline shows
   as many as were counted and ordered; if the count's List failed, as were ordered.
   */
  lemma NoShortage(w: World, inputs: seq<CreateInput>, results: seq<Result<CreateOutput>>, t: Trail, v: World, i: nat)
    requires inputs != [] && |results| == |inputs| <= MAX_INT32 && Served(w, inputs, results, t, v)
    requires inputs[0].deployment.ns != "" && i < |t.views|
    requires var d := inputs[0].deployment;
      var counted := if t.listed then |UnclaimedOf(w.machines, d)| else 0;
      counted <= MAX_INT32 && |UnclaimedOf(t.views[i], d)| >= counted + Deficit(|inputs|, counted)
    ensures Fail(NoMachineError) !in results && |t.found| == |inputs|
  {
    var d := inputs[0].deployment;
    var counted := if t.listed then |UnclaimedOf(w.machines, d)| else 0;
    DeficitSuffices(|inputs|, counted, t.listings, i, t.views[i], d);
  }

  lemma WonAt(t: Trail, d: Key, results: seq<Result<CreateOutput>>, i: nat)
    requires |t.found| <= |results| && Matched(t, d, results) && DistinctKeys(Keys(t.found)) && i < |t.found|
    ensures t.found[i].key in Won(results) <==> results[i].Success()
  {
    var k := t.found[i].key;
    assert Keys(t.found)[i] == k;
    if k in Won(results) {
      var r :| r in results && r.Success() && r.output.value.key == k;
      var j :| 0 <= j < |results| && results[j] == r;
      assert results[j] != Fail(NoMachineError);
      assert Keys(t.found)[j] == k;
    }
    if results[i].Success() { assert results[i] in results; }
  }

  lemma StuckAt(t: Trail, d: Key, results: seq<Result<CreateOutput>>, i: nat)
    requires |t.found| <= |results| && Matched(t, d, results) && DistinctKeys(Keys(t.found)) && i < |t.found|
    requires t.found[i].key in t.stuck
    ensures results[i] == Fail(AnnotateNodeClaimError)
    ensures (MachineGet(t.found[i].key) in t.binding || MachineUpdate(t.found[i].key) in t.binding)
  {
  }

  lemma MemberAfter(before: map<Key, Machine>, after: map<Key, Machine>, labelled: set<Key>, k: Key)
    requires Relabelled(before, after, labelled) && (k in before ==> !before[k].Member()) && k in after
    ensures after[k].Member() <==> k in labelled
  {
  }

  /** The NodeClaim of a request that was not served is not touched. */
  lemma ClaimAfter(before: map<string, map<string, string>>, after: map<string, map<string, string>>,
                   inputs: seq<CreateInput>, results: seq<Result<CreateOutput>>, i: nat)
    requires |inputs| == |results| && Annotated(before, after, inputs, results) && DistinctClaims(inputs)
    requires i < |inputs|
    requires inputs[i].claim in before && !results[i].Success()
    ensures after[inputs[i].claim] == before[inputs[i].claim]
  {
  }

  /**
   Binding is atomic up to its own rollback. Request `i` was handed a Machine nobody
   had claimed: it is claimed afterwards iff the request succeeded or the rollback's
   own call failed; and the NodeClaim carries the reference iff the request succeeded.
   */
  lemma {:induction false} BindIsAtomic(w: World, inputs: seq<CreateInput>, results: seq<Result<CreateOutput>>,
                                        t: Trail, v: World, i: nat)
    requires inputs != [] && |results| == |inputs| && Served(w, inputs, results, t, v) && DistinctClaims(inputs)
    requires i < |t.found|
    ensures var k := t.found[i].key;
      k in v.machines && (v.machines[k].Member() <==> results[i].Success() || k in t.stuck)
    ensures var k := t.found[i].key;
      k in t.stuck ==>
        results[i] == Fail(AnnotateNodeClaimError) && (MachineGet(k) in t.binding || MachineUpdate(k) in t.binding)
    ensures var name := inputs[i].claim;
      name in v.claims <==> name in w.claims
    ensures var name := inputs[i].claim;
      if results[i].Success() then
        name in w.claims && v.claims[name] == w.claims[name][MACHINE_ANNOTATION := Print(t.found[i].key)]
      else name in w.claims ==> v.claims[name] == w.claims[name]
  {
    var k, d := t.found[i].key, inputs[0].deployment;
    assert t.found[i] in t.found;
    WonAt(t, d, results, i);
    if k in t.stuck { StuckAt(t, d, results, i); }
    MemberAfter(w.machines, v.machines, Won(results) + t.stuck, k);
    if !results[i].Success() && inputs[i].claim in w.claims { ClaimAfter(w.claims, v.claims, inputs, results, i); }
  }

  /** Missing replicas count as zero: the increment is all there is. */
  lemma MissingReplicasRaised(w: World, inputs: seq<CreateInput>, results: seq<Result<CreateOutput>>, t: Trail,
                              v: World, d: Key)
    requires inputs != [] && |results| == |inputs| <= MAX_INT32 && inputs[0].deployment == d
    requires Served(w, inputs, results, t, v)
    requires w.deployments[d].replicas == None && t.listed && |UnclaimedOf(w.machines, d)| < |inputs|
    ensures v.deployments[d].replicas == Some(|inputs| - |UnclaimedOf(w.machines, d)|)
  {
    RaisedExactIff(0, |inputs|, |UnclaimedOf(w.machines, d)|);
  }

  /** When no call fails, every request for which a Machine was found succeeds. */
  lemma {:induction false} NoFailureNoError(w: World, inputs: seq<CreateInput>, results: seq<Result<CreateOutput>>,
                                            t: Trail, v: World, i: nat)
    requires inputs != [] && CreateEffect(w, inputs, results, t, v) && i < |inputs|
    requires ReasonsGiven(Keys(t.found), inputs, results, inputs[0].deployment, [])
    ensures Served(w, inputs, results, t, v) && (i < |t.found| ==> results[i].Success())
  {
    assert results[0].err.Some? ==> results[0].err.value == NoMachineError;
    assert results[i].err.Some? ==> results[i].err.value == NoMachineError;
  }
}
