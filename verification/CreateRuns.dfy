/**
 Runs of create batches on one MachineDeployment that do not overlap, with
 anything else the environment does in between: which Machine goes to which
 NodeClaim, and how far the replicas can go up.
 */
module CreateRuns {
  import opened Common
  import opened Machines
  import opened Providers
  import opened Replicas
  import opened ApiServer
  import opened CreateBatch

  datatype Event =
    | Batch(inputs: seq<CreateInput>, results: seq<Result<CreateOutput>>, trail: Trail, after: World)
    | Other(after: World)

  /** No request names a NodeClaim that carries a reference in the store. `CloudProvider.Create`
      looks for the reference in its caller's copy, which can be older. */
  ghost predicate Unbound(w: World, inputs: seq<CreateInput>) {
    forall i | 0 <= i < |inputs| :: inputs[i].claim in w.claims ==> MACHINE_ANNOTATION !in w.claims[inputs[i].claim]
  }

  /** MachineSets, delete batches, other controllers: labels of existing Machines and
      references on NodeClaims stay, replicas do not go up. */
  ghost predicate Elsewhere(w: World, v: World, d: Key) {
    && Drift(w.machines, v.machines)
    && (forall name | name in w.claims && MACHINE_ANNOTATION in w.claims[name] ::
          && name in v.claims && MACHINE_ANNOTATION in v.claims[name]
          && v.claims[name][MACHINE_ANNOTATION] == w.claims[name][MACHINE_ANNOTATION])
    && (0 <= ReplicasOf(w, d) ==> 0 <= ReplicasOf(v, d) <= ReplicasOf(w, d))
  }

  function ReplicasOf(w: World, d: Key): int { if d in w.deployments then Deref(w.deployments[d].replicas) else 0 }

  ghost predicate Step(w: World, e: Event, d: Key) {
    match e
    case Batch(inputs, results, t, v) =>
      && inputs != [] && inputs[0].deployment == d && DistinctClaims(inputs)
      && CreateEffect(w, inputs, results, t, v)
    case Other(v) => Elsewhere(w, v, d)
  }

  function Now(w: World, run: seq<Event>): World { if run == [] then w else run[|run| - 1].after }

  ghost predicate Run(w: World, run: seq<Event>, d: Key) {
    run == [] || (Run(w, run[..|run| - 1], d) && Step(Now(w, run[..|run| - 1]), run[|run| - 1], d))
  }

  /** Every request of the run was up to date. */
  ghost predicate AllUnbound(w: World, run: seq<Event>) {
    run == [] ||
    (AllUnbound(w, run[..|run| - 1]) &&
     (run[|run| - 1].Batch? ==> Unbound(Now(w, run[..|run| - 1]), run[|run| - 1].inputs)))
  }

  // ----- who got what

  datatype Win = Win(claim: string, key: Key)

  function WinsOf(inputs: seq<CreateInput>, results: seq<Result<CreateOutput>>): seq<Win>
    requires |results| == |inputs|
  {
    if inputs == [] then []
    else
      var n := |inputs| - 1;
      WinsOf(inputs[..n], results[..n]) +
      if results[n].Success() then [Win(inputs[n].claim, results[n].output.value.key)] else []
  }

  /** Every success of the run, in order. */
  function Wins(run: seq<Event>): seq<Win> {
    if run == [] then []
    else
      var e := run[|run| - 1];
      Wins(run[..|run| - 1]) + if e.Batch? && |e.results| == |e.inputs| then WinsOf(e.inputs, e.results) else []
  }

  /** The Machine half of a success: the Machine is still claimed. */
  ghost predicate Claimed(w: World, x: Win) { x.key in w.machines && w.machines[x.key].Member() }

  /** The NodeClaim half: the NodeClaim still refers to exactly that Machine. */
  ghost predicate Refers(w: World, x: Win) {
    && x.claim in w.claims && MACHINE_ANNOTATION in w.claims[x.claim]
    && w.claims[x.claim][MACHINE_ANNOTATION] == Print(x.key)
  }

  ghost predicate AllRefer(w: World, wins: seq<Win>) { forall x | x in wins :: Refers(w, x) }

  function KeysOf(wins: seq<Win>): set<Key> { set x | x in wins :: x.key }
  function ClaimsOf(wins: seq<Win>): set<string> { set x | x in wins :: x.claim }

  ghost predicate DistinctMachines(wins: seq<Win>) {
    forall i, j | 0 <= i < j < |wins| :: wins[i].key != wins[j].key
  }

  ghost predicate DistinctClaimants(wins: seq<Win>) {
    forall i, j | 0 <= i < j < |wins| :: wins[i].claim != wins[j].claim
  }

  lemma WinsOfSnoc(inputs: seq<CreateInput>, results: seq<Result<CreateOutput>>)
    requires |results| == |inputs| && inputs != []
    ensures var n := |inputs| - 1;
      WinsOf(inputs, results) == WinsOf(inputs[..n], results[..n]) +
        if results[n].Success() then [Win(inputs[n].claim, results[n].output.value.key)] else []
  {
  }

  ghost predicate WinOf(inputs: seq<CreateInput>, results: seq<Result<CreateOutput>>, i: int, x: Win)
    requires |results| == |inputs|
  {
    0 <= i < |inputs| && results[i].Success() && x == Win(inputs[i].claim, results[i].output.value.key)
  }

  /** The wins of a batch are its successful results. */
  lemma {:induction false} WinsOfAre(inputs: seq<CreateInput>, results: seq<Result<CreateOutput>>)
    requires |results| == |inputs|
    ensures forall x | x in WinsOf(inputs, results) :: exists i :: WinOf(inputs, results, i, x)
    ensures forall i, x | WinOf(inputs, results, i, x) :: x in WinsOf(inputs, results)
  {
    if inputs != [] {
      var n := |inputs| - 1;
      WinsOfAre(inputs[..n], results[..n]);
      WinsOfSnoc(inputs, results);
      var front := WinsOf(inputs[..n], results[..n]);
      forall x | x in front
        ensures exists i :: WinOf(inputs, results, i, x)
      {
        var i :| WinOf(inputs[..n], results[..n], i, x);
        assert WinOf(inputs, results, i, x);
      }
      forall i, x | WinOf(inputs, results, i, x)
        ensures x in WinsOf(inputs, results)
      {
        if i < n { assert WinOf(inputs[..n], results[..n], i, x); }
      }
      forall x | x in WinsOf(inputs, results) && x !in front
        ensures exists i :: WinOf(inputs, results, i, x)
      {
        assert WinOf(inputs, results, n, x);
      }
    }
  }

  /** They inherit the distinctness of the NodeClaims. */
  lemma {:induction false} WinsOfClaimants(inputs: seq<CreateInput>, results: seq<Result<CreateOutput>>)
    requires |results| == |inputs| && DistinctClaims(inputs)
    ensures DistinctClaimants(WinsOf(inputs, results))
  {
    if inputs != [] {
      var n := |inputs| - 1;
      var ii, rr := inputs[..n], results[..n];
      WinsOfClaimants(ii, rr);
      WinsOfAre(ii, rr);
      WinsOfSnoc(inputs, results);
      var front := WinsOf(ii, rr);
      forall x | x in front && results[n].Success()
        ensures x.claim != inputs[n].claim
      {
        var i :| WinOf(ii, rr, i, x);
        assert inputs[i].claim != inputs[n].claim;
      }
      assert forall i | 0 <= i < |front| :: front[i] in front;
    }
  }

  /** They inherit the distinctness of the Machines found. */
  lemma {:induction false} WinsOfMachines(inputs: seq<CreateInput>, results: seq<Result<CreateOutput>>, keys: seq<Key>)
    requires |results| == |inputs| && DistinctKeys(keys) && |keys| <= |inputs|
    requires forall i | 0 <= i < |results| && results[i].Success() ::
      i < |keys| && results[i].output.value.key == keys[i]
    ensures DistinctMachines(WinsOf(inputs, results))
  {
    if inputs != [] {
      var n := |inputs| - 1;
      var ii, rr := inputs[..n], results[..n];
      WinsOfMachines(ii, rr, keys[..Min(n, |keys|)]);
      WinsOfAre(ii, rr);
      WinsOfSnoc(inputs, results);
      var front := WinsOf(ii, rr);
      forall x | x in front && results[n].Success()
        ensures x.key != results[n].output.value.key
      {
        var i :| WinOf(ii, rr, i, x);
        assert results[i].Success();
      }
      assert forall i | 0 <= i < |front| :: front[i] in front;
    }
  }

  lemma {:induction false} RefusedWins(inputs: seq<CreateInput>, results: seq<Result<CreateOutput>>)
    requires |results| == |inputs| && forall i | 0 <= i < |results| :: !results[i].Success()
    ensures WinsOf(inputs, results) == []
  {
    if inputs != [] { RefusedWins(inputs[..|inputs| - 1], results[..|inputs| - 1]); }
  }

  lemma MachinesConcat(a: seq<Win>, b: seq<Win>)
    requires DistinctMachines(a) && DistinctMachines(b) && forall x, y | x in a && y in b :: x.key != y.key
    ensures DistinctMachines(a + b)
  {
  }

  lemma ClaimantsConcat(a: seq<Win>, b: seq<Win>)
    ensures DistinctClaimants(a + b) <==>
      DistinctClaimants(a) && DistinctClaimants(b) && forall x, y | x in a && y in b :: x.claim != y.claim
  {
    var c := a + b;
    assert forall i | 0 <= i < |a| :: c[i] == a[i];
    assert forall i | 0 <= i < |b| :: c[|a| + i] == b[i];
  }

  /** A winner holds afterwards, and its Machine was nobody's before. */
  lemma {:induction false} NewWin(w: World, inputs: seq<CreateInput>, results: seq<Result<CreateOutput>>, t: Trail,
                                  v: World, i: int, x: Win)
    requires inputs != [] && |results| == |inputs| && Served(w, inputs, results, t, v)
    requires DistinctClaims(inputs) && WinOf(inputs, results, i, x)
    ensures Claimed(v, x) && Refers(v, x) && Of(x.key, v.machines[x.key], inputs[0].deployment)
    ensures x.key in w.machines ==> !w.machines[x.key].Member()
  {
    assert results[i] in results && x.key in Won(results) + t.stuck;
    assert t.found[i] in t.found;
  }

  /** What one batch means for its own winners. */
  lemma {:induction false} BatchWins(w: World, inputs: seq<CreateInput>, results: seq<Result<CreateOutput>>, t: Trail,
                                     v: World)
    requires inputs != [] && CreateEffect(w, inputs, results, t, v) && DistinctClaims(inputs)
    ensures DistinctMachines(WinsOf(inputs, results)) && DistinctClaimants(WinsOf(inputs, results))
    ensures forall x | x in WinsOf(inputs, results) ::
      Claimed(v, x) && Refers(v, x) && Of(x.key, v.machines[x.key], inputs[0].deployment)
    ensures forall x | x in WinsOf(inputs, results) :: x.key in w.machines ==> !w.machines[x.key].Member()
  {
    if !Served(w, inputs, results, t, v) {
      RefusedWins(inputs, results);
    } else {
      WinsOfAre(inputs, results);
      WinsOfClaimants(inputs, results);
      WinsOfMachines(inputs, results, Keys(t.found));
      forall x | x in WinsOf(inputs, results)
        ensures Claimed(v, x) && Refers(v, x) && Of(x.key, v.machines[x.key], inputs[0].deployment)
        ensures x.key in w.machines ==> !w.machines[x.key].Member()
      {
        var i :| WinOf(inputs, results, i, x);
        NewWin(w, inputs, results, t, v, i, x);
      }
    }
  }

  /** Nothing in a run takes a Machine's label off again, or moves it elsewhere. */
  lemma ClaimedStays(w: World, e: Event, d: Key, k: Key)
    requires Step(w, e, d) && k in w.machines && w.machines[k].Member() && Of(k, w.machines[k], d)
    ensures k in e.after.machines && e.after.machines[k].Member() && Of(k, e.after.machines[k], d)
  {
    LabelledKeepsOwner(w.machines[k], d.name);
    assert MEMBER_LABEL in w.machines[k].Labelled().labels;
  }

  /** A provider ID that a Machine has stays with it. */
  lemma ProviderStays(w: World, e: Event, d: Key, k: Key)
    requires Step(w, e, d) && k in w.machines
    ensures k in e.after.machines && SameProvider(w.machines[k], e.after.machines[k])
  {
  }

  lemma {:induction false} ProviderStaysOn(w: World, run: seq<Event>, n: nat, d: Key, k: Key)
    requires Run(w, run, d) && n <= |run| && k in Now(w, run[..n]).machines
    ensures k in Now(w, run).machines && SameProvider(Now(w, run[..n]).machines[k], Now(w, run).machines[k])
  {
    if n == |run| {
      assert run[..n] == run;
    } else {
      var front := run[..|run| - 1];
      assert front[..n] == run[..n];
      ProviderStaysOn(w, front, n, d, k);
      ProviderStays(Now(w, front), run[|run| - 1], d, k);
    }
  }

  /** The wins of a run: its last batch's after the earlier ones. */
  lemma WinsSnoc(w: World, run: seq<Event>, d: Key)
    requires Run(w, run, d) && run != []
    ensures var front, e := run[..|run| - 1], run[|run| - 1];
      Wins(run) == Wins(front) + if e.Batch? then WinsOf(e.inputs, e.results) else []
  {
  }

  /**
   Main result, the Machine half: over any such run, stale requests included, no Machine
   is in two successes, and every Machine won is still claimed, and the deployment's, at the end.
   */
  lemma {:induction false} ExclusiveMachines(w: World, run: seq<Event>, d: Key)
    requires Run(w, run, d)
    ensures DistinctMachines(Wins(run))
    ensures forall x | x in Wins(run) :: Claimed(Now(w, run), x) && Of(x.key, Now(w, run).machines[x.key], d)
  {
    if run != [] {
      var front, e := run[..|run| - 1], run[|run| - 1];
      var before := Now(w, front);
      ExclusiveMachines(w, front, d);
      WinsSnoc(w, run, d);
      forall x | x in Wins(front)
        ensures Claimed(e.after, x) && Of(x.key, e.after.machines[x.key], d)
      {
        ClaimedStays(before, e, d, x.key);
      }
      if e.Batch? {
        BatchWins(before, e.inputs, e.results, e.trail, e.after);
        MachinesConcat(Wins(front), WinsOf(e.inputs, e.results));
      }
    }
  }

  // ----- the NodeClaim half

  /** A batch leaves the references alone that belong to none of its winners. */
  lemma RefersStays(w: World, inputs: seq<CreateInput>, results: seq<Result<CreateOutput>>, t: Trail, v: World, x: Win)
    requires inputs != [] && CreateEffect(w, inputs, results, t, v) && Refers(w, x)
    requires forall y | y in WinsOf(inputs, results) :: y.claim != x.claim
    ensures Refers(v, x)
  {
    WinsOfAre(inputs, results);
    forall i | 0 <= i < |results| && results[i].Success()
      ensures inputs[i].claim != x.claim
    {
      assert WinOf(inputs, results, i, Win(inputs[i].claim, results[i].output.value.key));
    }
  }

  lemma {:induction false} DistinctRefer(w: World, run: seq<Event>, d: Key)
    requires Run(w, run, d) && DistinctClaimants(Wins(run))
    ensures AllRefer(Now(w, run), Wins(run))
  {
    if run != [] {
      var front, e := run[..|run| - 1], run[|run| - 1];
      WinsSnoc(w, run, d);
      if e.Batch? {
        ClaimantsConcat(Wins(front), WinsOf(e.inputs, e.results));
        DistinctRefer(w, front, d);
        BatchWins(Now(w, front), e.inputs, e.results, e.trail, e.after);
        forall x | x in Wins(front)
          ensures Refers(e.after, x)
        {
          RefersStays(Now(w, front), e.inputs, e.results, e.trail, e.after, x);
        }
      } else {
        assert Wins(run) == Wins(front);
        DistinctRefer(w, front, d);
      }
    }
  }

  lemma SamePrint(k: Key, l: Key)
    requires k.ns == l.ns && Print(k) == Print(l)
    ensures k == l
  {
    assert k.name == Print(k)[|k.ns| + 1..] && l.name == Print(l)[|l.ns| + 1..];
  }

  /**
   Main result, the NodeClaim half: every success of a run still stands at its end
   exactly if no NodeClaim won twice.
   */
  lemma {:induction false} BindingsStandIff(w: World, run: seq<Event>, d: Key)
    requires Run(w, run, d) && d.ns != ""
    ensures AllRefer(Now(w, run), Wins(run)) <==> DistinctClaimants(Wins(run))
  {
    var wins := Wins(run);
    if DistinctClaimants(wins) {
      DistinctRefer(w, run, d);
    } else if AllRefer(Now(w, run), wins) {
      ExclusiveMachines(w, run, d);
      var i, j :| 0 <= i < j < |wins| && wins[i].claim == wins[j].claim;
      assert wins[i] in wins && wins[j] in wins;
      SamePrint(wins[i].key, wins[j].key);
      assert false;
    }
  }

  /** Some request that succeeds names a NodeClaim that won before. */
  ghost predicate Rewins(inputs: seq<CreateInput>, results: seq<Result<CreateOutput>>, earlier: seq<Win>)
    requires |results| == |inputs|
  {
    exists i :: 0 <= i < |inputs| && results[i].Success() && inputs[i].claim in ClaimsOf(earlier)
  }

  lemma RewinsIff(inputs: seq<CreateInput>, results: seq<Result<CreateOutput>>, earlier: seq<Win>)
    requires |results| == |inputs|
    ensures Rewins(inputs, results, earlier) <==>
      exists x, y :: x in earlier && y in WinsOf(inputs, results) && x.claim == y.claim
  {
    WinsOfAre(inputs, results);
    if Rewins(inputs, results, earlier) {
      var i :| 0 <= i < |inputs| && results[i].Success() && inputs[i].claim in ClaimsOf(earlier);
      assert WinOf(inputs, results, i, Win(inputs[i].claim, results[i].output.value.key));
    }
    forall x, y | x in earlier && y in WinsOf(inputs, results) && x.claim == y.claim
      ensures Rewins(inputs, results, earlier)
    {
      var i :| WinOf(inputs, results, i, y);
      assert inputs[i].claim in ClaimsOf(earlier);
    }
  }

  /** One batch overwrites a reference won earlier exactly if it rewins. */
  lemma {:induction false} BatchKeepsBindingsIff(w: World, run: seq<Event>, d: Key)
    requires Run(w, run, d) && d.ns != "" && run != [] && run[|run| - 1].Batch?
    requires AllRefer(Now(w, run[..|run| - 1]), Wins(run[..|run| - 1]))
    ensures AllRefer(Now(w, run), Wins(run)) <==>
      !Rewins(run[|run| - 1].inputs, run[|run| - 1].results, Wins(run[..|run| - 1]))
  {
    var front, e := run[..|run| - 1], run[|run| - 1];
    BindingsStandIff(w, run, d);
    BindingsStandIff(w, front, d);
    WinsSnoc(w, run, d);
    ClaimantsConcat(Wins(front), WinsOf(e.inputs, e.results));
    BatchWins(Now(w, front), e.inputs, e.results, e.trail, e.after);
    RewinsIff(e.inputs, e.results, Wins(front));
  }

  /**
   Main result: if every request was up to date, the relation of Machines to NodeClaims in
   the successes is one-to-one, and at the end every success still stands on both sides.
   */
  lemma {:induction false} ExclusiveBinding(w: World, run: seq<Event>, d: Key)
    requires Run(w, run, d) && AllUnbound(w, run)
    ensures DistinctMachines(Wins(run)) && DistinctClaimants(Wins(run))
    ensures forall x | x in Wins(run) :: Claimed(Now(w, run), x) && Refers(Now(w, run), x)
  {
    ExclusiveMachines(w, run, d);
    UnboundDistinct(w, run, d);
    DistinctRefer(w, run, d);
  }

  lemma {:induction false} UnboundDistinct(w: World, run: seq<Event>, d: Key)
    requires Run(w, run, d) && AllUnbound(w, run)
    ensures DistinctClaimants(Wins(run))
  {
    if run != [] {
      var front, e := run[..|run| - 1], run[|run| - 1];
      UnboundDistinct(w, front, d);
      DistinctRefer(w, front, d);
      WinsSnoc(w, run, d);
      if e.Batch? {
        BatchWins(Now(w, front), e.inputs, e.results, e.trail, e.after);
        WinsOfAre(e.inputs, e.results);
        forall x, y | x in Wins(front) && y in WinsOf(e.inputs, e.results)
          ensures x.claim != y.claim
        {
          var i :| WinOf(e.inputs, e.results, i, y);
          assert Refers(Now(w, front), x);
        }
        ClaimantsConcat(Wins(front), WinsOf(e.inputs, e.results));
      }
    }
  }
}
