/** What a delete batch comes to: all or compensated, and when its count is right. */
module DeleteTheorems {
  import opened Common
  import opened Machines
  import opened Replicas
  import opened ApiServer
  import opened DeleteBatch

  function Successes(results: seq<Result<DeleteOutput>>): nat {
    if results == [] then 0
    else Successes(results[..|results| - 1]) + if results[|results| - 1].Success() then 1 else 0
  }

  lemma {:induction false} SuccessesAre(results: seq<Result<DeleteOutput>>, succeeded: seq<bool>)
    requires |results| == |succeeded| && forall i | 0 <= i < |results| :: results[i].Success() == succeeded[i]
    ensures Successes(results) == Count(succeeded)
  {
    if results != [] {
      var n := |results| - 1;
      SuccessesAre(results[..n], succeeded[..n]);
    }
  }

  lemma {:induction false} NoSuccesses(results: seq<Result<DeleteOutput>>)
    requires forall i | 0 <= i < |results| :: results[i].Failure()
    ensures Successes(results) == 0
  {
    if results != [] { NoSuccesses(results[..|results| - 1]); }
  }

  lemma {:induction false} CountBound(annotated: seq<bool>)
    ensures Count(annotated) <= |annotated|
  {
    if annotated != [] { CountBound(annotated[..|annotated| - 1]); }
  }

  /** What happens to the Machines on either path. */
  lemma MachinesAfter(before: map<Key, Machine>, after: map<Key, Machine>, ks: set<Key>, left: set<Key>)
    requires MarkedAt(before, after, ks) || RolledBack(before, after, ks, left)
    ensures after.Keys == before.Keys
    ensures forall k | k in before :: after[k].WithoutMark() == before[k].WithoutMark()
    ensures forall k | k in before && k !in ks :: after[k] == before[k]
    ensures MarkedAt(before, after, ks) ==> forall k | k in ks :: k in after && after[k].Marked()
    ensures RolledBack(before, after, ks, left) ==> forall k | k in before && k !in left ::
      after[k] == before[k] || (before[k].Marked() && after[k] == before[k].WithoutMark())
  {
  }

  /**
   Main result: whatever fails, the replicas drop by exactly the number of requests
   that are told they succeeded (down to zero); nothing else of a deployment changes;
   every Machine of a success is marked; and a Machine no success names is as before
   unless the rollback's own call on it failed, or it lost a mark it already had.
   */
  lemma {:induction false} AllOrCompensated(w: World, inputs: seq<DeleteInput>, results: seq<Result<DeleteOutput>>,
                                            annotated: seq<bool>, left: set<Key>, v: World, d: Key)
    requires DeleteEffect(w, inputs, results, annotated, left, v) && inputs != [] && inputs[0].deployment == d
    requires |inputs| <= MAX_INT32
    requires d in w.deployments && 0 <= Deref(w.deployments[d].replicas) <= MAX_INT32
    ensures forall i | 0 <= i < |results| :: results[i].Definite()
    ensures v.deployments.Keys == w.deployments.Keys
    ensures Deref(v.deployments[d].replicas) == Max(0, Deref(w.deployments[d].replicas) - Successes(results))
    ensures forall e | e in w.deployments ::
      v.deployments[e] == if e == d then w.deployments[e].(replicas := v.deployments[e].replicas) else w.deployments[e]
    ensures v.machines.Keys == w.machines.Keys
    ensures forall i | 0 <= i < |results| && results[i].Success() ::
      inputs[i].machine in v.machines && v.machines[inputs[i].machine].Marked()
    ensures forall k | k in w.machines :: v.machines[k].WithoutMark() == w.machines[k].WithoutMark()
    ensures forall k | k in w.machines && k !in left ::
      (forall i | 0 <= i < |results| && results[i].Success() :: inputs[i].machine != k) ==>
        v.machines[k] == w.machines[k] || (w.machines[k].Marked() && v.machines[k] == w.machines[k].WithoutMark())
  {
    CountBound(annotated);
    CountPositive(inputs, annotated);
    var ks := Targets(inputs, annotated);
    if Count(annotated) == 0 {
      NoSuccesses(results);
    } else if Done(w, inputs, results, annotated, v) {
      MachinesAfter(w.machines, v.machines, ks, left);
      SuccessesAre(results, annotated);
      LoweredExact(Deref(w.deployments[d].replicas), Count(annotated));
    } else {
      MachinesAfter(w.machines, v.machines, ks, left);
      NoSuccesses(results);
    }
  }

  // ----- is the decrement the number of Machines newly marked?

  /** The annotated requests name different Machines. */
  predicate DistinctTargets(inputs: seq<DeleteInput>, annotated: seq<bool>)
    requires |annotated| == |inputs|
  {
    forall i, j | 0 <= i < j < |inputs| && annotated[i] && annotated[j] :: inputs[i].machine != inputs[j].machine
  }

  lemma {:induction false} CountVersusTargets(inputs: seq<DeleteInput>, annotated: seq<bool>)
    requires |annotated| == |inputs|
    ensures |Targets(inputs, annotated)| <= Count(annotated)
    ensures |Targets(inputs, annotated)| == Count(annotated) <==> DistinctTargets(inputs, annotated)
  {
    if inputs != [] {
      var n := |inputs| - 1;
      var ii, aa := inputs[..n], annotated[..n];
      CountVersusTargets(ii, aa);
      TargetsSnoc(inputs, annotated, n);
      assert inputs[..n + 1] == inputs && annotated[..n + 1] == annotated;
      assert forall i | 0 <= i < n :: ii[i] == inputs[i] && aa[i] == annotated[i];
      assert DistinctTargets(inputs, annotated) <==>
        DistinctTargets(ii, aa) && (annotated[n] ==> inputs[n].machine !in Targets(ii, aa));
    }
  }

  function NewlyMarked(before: map<Key, Machine>, after: map<Key, Machine>): set<Key> {
    set k | k in before && k in after && !before[k].Marked() && after[k].Marked()
  }

  /**
   The batch never lowers the replicas by less than the Machines it newly marked, and
   by exactly that many iff its annotated requests named distinct, unmarked Machines.
   The code checks neither: marking a marked Machine succeeds and counts.
   */
  lemma CountIsNewMarksIff(w: World, inputs: seq<DeleteInput>, results: seq<Result<DeleteOutput>>,
                           annotated: seq<bool>, v: World)
    requires inputs != [] && |results| == |annotated| == |inputs| && Done(w, inputs, results, annotated, v)
    ensures |NewlyMarked(w.machines, v.machines)| <= Count(annotated)
    ensures |NewlyMarked(w.machines, v.machines)| == Count(annotated) <==>
      DistinctTargets(inputs, annotated) && forall k | k in Targets(inputs, annotated) :: !w.machines[k].Marked()
  {
    var news, ks := NewlyMarked(w.machines, v.machines), Targets(inputs, annotated);
    CountVersusTargets(inputs, annotated);
    assert news == set k | k in ks && !w.machines[k].Marked();
    CardSubset(news, ks);
    if |news| == |ks| {
      assert |ks - news| == 0;
    }
    if forall k | k in ks :: !w.machines[k].Marked() {
      assert news == ks;
    }
  }

  /** A compensated batch whose rollback calls worked leaves everything as it was
      exactly when none of its Machines was marked before: marks that somebody else
      had placed are taken off too. */
  lemma CompensationRestoresIff(w: World, inputs: seq<DeleteInput>, results: seq<Result<DeleteOutput>>,
                                annotated: seq<bool>, v: World)
    requires |results| == |annotated| == |inputs| && v.claims == w.claims
    requires Compensated(w, inputs, results, annotated, {}, v)
    ensures v == w <==> forall k | k in Targets(inputs, annotated) :: !w.machines[k].Marked()
  {
    forall k | k in Targets(inputs, annotated)
      ensures v.machines[k] == w.machines[k] <==> !w.machines[k].Marked()
    {
      UndoTwice(w.machines[k]);
      if !w.machines[k].Marked() {
        assert w.machines[k].annotations - {DELETE_ANNOTATION} == w.machines[k].annotations;
      }
    }
    if forall k | k in Targets(inputs, annotated) :: !w.machines[k].Marked() {
      assert v.machines == w.machines;
    }
  }

  /** It happens: a Machine somebody else marked loses its mark to a batch that failed. */
  lemma ForeignMarkIsLost(w: World, d: Key, k: Key) returns (results: seq<Result<DeleteOutput>>, v: World)
    requires d in w.deployments && k in w.machines && w.machines[k].Marked()
    ensures DeleteEffect(w, [DeleteInput(k, d)], results, [true], {}, v)
    ensures ReasonsGiven([DeleteInput(k, d)], results, d, [DeploymentUpdate(d)]) && !results[0].Success()
    ensures k in v.machines && !v.machines[k].Marked() && v != w
  {
    results := [Fail(UpdateMachineDeploymentError)];
    v := w.(machines := w.machines[k := w.machines[k].WithoutMark()]);
    assert [true][..0] == [] && Count([]) == 0 && Count([true]) == 1;
    assert [DeleteInput(k, d)][0].machine == k;
    assert Targets([DeleteInput(k, d)], [true]) == {k};
    UndoTwice(w.machines[k]);
  }

  /** Missing replicas count as zero: a decrement writes zero. */
  lemma MissingReplicasLowered(w: World, inputs: seq<DeleteInput>, results: seq<Result<DeleteOutput>>,
                               annotated: seq<bool>, v: World)
    requires inputs != [] && |results| == |annotated| == |inputs| <= MAX_INT32 && Done(w, inputs, results, annotated, v)
    requires w.deployments[inputs[0].deployment].replicas == None
    ensures v.deployments[inputs[0].deployment].replicas == Some(0)
  {
    CountBound(annotated);
    LoweredExact(0, Count(annotated));
  }

  /** When no call fails, everybody succeeds. */
  lemma NoFailureNoError(w: World, inputs: seq<DeleteInput>, results: seq<Result<DeleteOutput>>, annotated: seq<bool>,
                         left: set<Key>, v: World, i: nat)
    requires inputs != [] && DeleteEffect(w, inputs, results, annotated, left, v) && i < |inputs|
    requires ReasonsGiven(inputs, results, inputs[0].deployment, [])
    ensures results[i] == Succeed(DeleteOutput)
  {
    CountPositive(inputs, annotated);
  }
}
