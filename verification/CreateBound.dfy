/** Retries do not accumulate: a bound on the replicas over any run of create batches. */
module CreateBound {
  import opened Common
  import opened Machines
  import opened Replicas
  import opened ApiServer
  import opened CreateSpec
  import opened CreateBatch
  import opened CreateRuns

  /** Members of the deployment that are not on their way out. */
  function MembersOf(ms: map<Key, Machine>, d: Key): set<Key> {
    set k | k in ms && Of(k, ms[k], d) && ms[k].Member() && !ms[k].deleting
  }

  function UsableOf(ms: map<Key, Machine>, d: Key): set<Key> { set k | k in ms && Of(k, ms[k], d) && ms[k].Usable() }

  /** The MachineSet does not lag behind the replicas; the count fits int32. */
  ghost predicate CaughtUp(w: World, d: Key) { ReplicasOf(w, d) <= |UsableOf(w.machines, d)| <= MAX_INT32 }

  /** Whenever a batch is served, its List worked and the MachineSet had caught up.
      Nothing is asked of a batch that was refused. */
  ghost predicate Steady(w: World, run: seq<Event>, d: Key) {
    run == [] || (Steady(w, run[..|run| - 1], d) && SteadyStep(Now(w, run[..|run| - 1]), run[|run| - 1], d))
  }

  ghost predicate SteadyStep(w: World, e: Event, d: Key) {
    e.Batch? && e.inputs != [] && |e.results| == |e.inputs| && Served(w, e.inputs, e.results, e.trail, e.after) ==>
      e.trail.listed && CaughtUp(w, d)
  }

  function ClaimsIn(inputs: seq<CreateInput>): set<string> { set x | x in inputs :: x.claim }

  /** The NodeClaims the run's batches served. */
  function Requested(run: seq<Event>): set<string> {
    if run == [] then {}
    else Requested(run[..|run| - 1]) + if run[|run| - 1].Batch? then ClaimsIn(run[|run| - 1].inputs) else {}
  }

  /** The Machines left labelled by a failed rollback. */
  function Leftover(run: seq<Event>): set<Key> {
    if run == [] then {}
    else Leftover(run[..|run| - 1]) + if run[|run| - 1].Batch? then run[|run| - 1].trail.stuck else {}
  }

  /** How often a batch was asked for a NodeClaim that had won before. */
  function Resubmitted(run: seq<Event>): nat {
    if run == [] then 0
    else
      var front, e := run[..|run| - 1], run[|run| - 1];
      Resubmitted(front) + if e.Batch? then |ClaimsIn(e.inputs) * ClaimsOf(Wins(front))| else 0
  }

  function Bound(w: World, run: seq<Event>, d: Key): int {
    Max(ReplicasOf(w, d), |MembersOf(w.machines, d)| + |Requested(run)| + |Leftover(run)| + Resubmitted(run))
  }

  lemma {:induction false} KeysCard(wins: seq<Win>)
    requires DistinctMachines(wins)
    ensures |KeysOf(wins)| == |wins|
  {
    if wins != [] {
      var front, last := wins[..|wins| - 1], wins[|wins| - 1];
      KeysCard(front);
      assert KeysOf(wins) == KeysOf(front) + {last.key};
      assert last.key !in KeysOf(front);
    }
  }

  lemma {:induction false} ClaimsCard(wins: seq<Win>)
    requires DistinctClaimants(wins)
    ensures |ClaimsOf(wins)| == |wins|
  {
    if wins != [] {
      var front, last := wins[..|wins| - 1], wins[|wins| - 1];
      ClaimsCard(front);
      assert ClaimsOf(wins) == ClaimsOf(front) + {last.claim};
      assert last.claim !in ClaimsOf(front);
    }
  }

  /** A NodeClaim that wins again was asked for again. */
  lemma {:induction false} WinsCount(w: World, run: seq<Event>, d: Key)
    requires Run(w, run, d)
    ensures |Wins(run)| <= |ClaimsOf(Wins(run))| + Resubmitted(run)
  {
    if run != [] {
      var front, e := run[..|run| - 1], run[|run| - 1];
      WinsCount(w, front, d);
      WinsSnoc(w, run, d);
      if e.Batch? {
        var news := WinsOf(e.inputs, e.results);
        BatchWins(Now(w, front), e.inputs, e.results, e.trail, e.after);
        MembersAfterBatch(Now(w, front), e.inputs, e.results, e.trail, e.after, d);
        ClaimsCard(news);
        assert ClaimsOf(Wins(front) + news) == ClaimsOf(Wins(front)) + ClaimsOf(news);
        CardSubset(ClaimsOf(Wins(front)) * ClaimsOf(news), ClaimsIn(e.inputs) * ClaimsOf(Wins(front)));
      } else {
        assert Wins(run) == Wins(front);
      }
    }
  }

  /** Requests that are up to date ask for nobody again. */
  lemma {:induction false} FreshRequestsAddNothing(w: World, run: seq<Event>, d: Key)
    requires Run(w, run, d) && AllUnbound(w, run)
    ensures Resubmitted(run) == 0
  {
    if run != [] {
      var front, e := run[..|run| - 1], run[|run| - 1];
      FreshRequestsAddNothing(w, front, d);
      ExclusiveBinding(w, front, d);
      if e.Batch? {
        forall x | x in Wins(front)
          ensures x.claim !in ClaimsIn(e.inputs)
        {
          assert Refers(Now(w, front), x);
        }
        assert ClaimsIn(e.inputs) * ClaimsOf(Wins(front)) == {};
      }
    }
  }

  lemma {:induction false} InputsCard(inputs: seq<CreateInput>)
    requires DistinctClaims(inputs)
    ensures |ClaimsIn(inputs)| == |inputs|
  {
    if inputs != [] {
      var front, last := inputs[..|inputs| - 1], inputs[|inputs| - 1];
      assert inputs == front + [last];
      InputsCard(front);
      assert ClaimsIn(inputs) == ClaimsIn(front) + {last.claim};
    }
  }

  // ----- where members come from

  lemma {:induction false} MembersAccounted(w: World, run: seq<Event>, d: Key)
    requires Run(w, run, d)
    ensures MembersOf(Now(w, run).machines, d) <= MembersOf(w.machines, d) + KeysOf(Wins(run)) + Leftover(run)
    ensures ClaimsOf(Wins(run)) <= Requested(run)
  {
    if run != [] {
      var front, e := run[..|run| - 1], run[|run| - 1];
      MembersAccounted(w, front, d);
      match e
      case Batch(inputs, results, t, v) => MembersAfterBatch(Now(w, front), inputs, results, t, v, d);
      case Other(v) =>
        assert Elsewhere(Now(w, front), v, d);
        NewMembers(Now(w, front).machines, v.machines, {}, d);
    }
  }

  lemma MembersAfterBatch(w: World, inputs: seq<CreateInput>, results: seq<Result<CreateOutput>>, t: Trail, v: World,
                          d: Key)
    requires inputs != [] && CreateEffect(w, inputs, results, t, v) && DistinctClaims(inputs)
    ensures MembersOf(v.machines, d) <= MembersOf(w.machines, d) + KeysOf(WinsOf(inputs, results)) + t.stuck
    ensures ClaimsOf(WinsOf(inputs, results)) <= ClaimsIn(inputs)
  {
    WinsOfAre(inputs, results);
    forall x | x in WinsOf(inputs, results)
      ensures x.claim in ClaimsIn(inputs)
    {
      var i :| WinOf(inputs, results, i, x);
      assert inputs[i] in inputs;
    }
    if Served(w, inputs, results, t, v) {
      WonAreWins(inputs, results);
      NewMembers(w.machines, v.machines, Won(results) + t.stuck, d);
    }
  }

  lemma WonAreWins(inputs: seq<CreateInput>, results: seq<Result<CreateOutput>>)
    requires |results| == |inputs|
    requires forall i, x | WinOf(inputs, results, i, x) :: x in WinsOf(inputs, results)
    ensures Won(results) <= KeysOf(WinsOf(inputs, results))
  {
    forall k | k in Won(results)
      ensures k in KeysOf(WinsOf(inputs, results))
    {
      var i :| 0 <= i < |results| && results[i].Success() && results[i].output.value.key == k;
      assert WinOf(inputs, results, i, Win(inputs[i].claim, k));
    }
  }

  lemma NewMembers(before: map<Key, Machine>, after: map<Key, Machine>, labelled: set<Key>, d: Key)
    requires Relabelled(before, after, labelled)
    ensures MembersOf(after, d) <= MembersOf(before, d) + labelled
  {
  }

  // ----- one batch

  function ClaimedOf(ms: map<Key, Machine>, d: Key): set<Key> { UsableOf(ms, d) - UnclaimedOf(ms, d) }

  lemma UsableSplits(ms: map<Key, Machine>, d: Key)
    ensures |UsableOf(ms, d)| == |UnclaimedOf(ms, d)| + |ClaimedOf(ms, d)|
    ensures |ClaimedOf(ms, d)| <= |MembersOf(ms, d)|
  {
    assert UnclaimedOf(ms, d) <= UsableOf(ms, d);
    assert UsableOf(ms, d) == UnclaimedOf(ms, d) + ClaimedOf(ms, d);
    assert ClaimedOf(ms, d) <= MembersOf(ms, d);
    CardSubset(ClaimedOf(ms, d), MembersOf(ms, d));
  }

  /** A batch that needs new Machines orders no more than claimed plus requested in
      all exactly when the MachineSet was not lagging. */
  lemma RaiseIsTightIff(w: World, inputs: seq<CreateInput>, results: seq<Result<CreateOutput>>, t: Trail, v: World,
                        d: Key)
    requires inputs != [] && |results| == |inputs| && inputs[0].deployment == d && Served(w, inputs, results, t, v)
    requires t.listed
    requires |UnclaimedOf(w.machines, d)| < |inputs| <= MAX_INT32
    requires 0 <= ReplicasOf(w, d) && ReplicasOf(w, d) + |inputs| <= MAX_INT32
    ensures ReplicasOf(v, d) <= |ClaimedOf(w.machines, d)| + |inputs| <==> ReplicasOf(w, d) <= |UsableOf(w.machines, d)|
  {
    UsableSplits(w.machines, d);
    RaisedExactIff(ReplicasOf(w, d), |inputs|, |UnclaimedOf(w.machines, d)|);
  }

  /** Caught up and listed, a batch raises the replicas to members plus requests, or not at all. */
  lemma RaiseIsTight(w: World, inputs: seq<CreateInput>, results: seq<Result<CreateOutput>>, t: Trail, v: World,
                     d: Key, bound: int)
    requires inputs != [] && inputs[0].deployment == d && CreateEffect(w, inputs, results, t, v)
    requires |results| == |inputs| && Served(w, inputs, results, t, v) ==> t.listed && CaughtUp(w, d)
    requires 0 <= ReplicasOf(w, d)
    requires Max(ReplicasOf(w, d), |MembersOf(w.machines, d)| + |inputs|) <= bound <= MAX_INT32
    ensures 0 <= ReplicasOf(v, d) <= bound
  {
    if Served(w, inputs, results, t, v) {
      UsableSplits(w.machines, d);
      RaisedExactIff(ReplicasOf(w, d), |inputs|, |UnclaimedOf(w.machines, d)|);
    }
  }

  lemma BoundGrows(w: World, run: seq<Event>, d: Key)
    requires run != []
    ensures Bound(w, run[..|run| - 1], d) <= Bound(w, run, d)
  {
    CardSubset(Requested(run[..|run| - 1]), Requested(run));
    CardSubset(Leftover(run[..|run| - 1]), Leftover(run));
  }

  lemma CoverCard<T>(m: set<T>, a: set<T>, b: set<T>, c: set<T>)
    requires m <= a + b + c
    ensures |m| <= |a| + |b| + |c|
  {
    CardSubset(m, a + b + c);
  }

  /** The winners so far and a batch's requests, counted against all NodeClaims served. */
  lemma RequestsCount(w: World, run: seq<Event>, d: Key)
    requires Run(w, run, d) && run != [] && run[|run| - 1].Batch?
    ensures |Wins(run[..|run| - 1])| + |run[|run| - 1].inputs| <= |Requested(run)| + Resubmitted(run)
  {
    var front, e := run[..|run| - 1], run[|run| - 1];
    var won, asked := ClaimsOf(Wins(front)), ClaimsIn(e.inputs);
    MembersAccounted(w, front, d);
    WinsCount(w, front, d);
    InputsCard(e.inputs);
    CardSubset(won + asked, Requested(run));
    assert asked * won == won * asked;
  }

  /** What a batch can add is covered. */
  lemma BatchWithinBound(w: World, run: seq<Event>, d: Key)
    requires Run(w, run, d) && run != [] && run[|run| - 1].Batch?
    ensures |MembersOf(Now(w, run[..|run| - 1]).machines, d)| + |run[|run| - 1].inputs|
         <= |MembersOf(w.machines, d)| + |Requested(run)| + |Leftover(run)| + Resubmitted(run)
  {
    var front, e := run[..|run| - 1], run[|run| - 1];
    var before, wins := Now(w, front), Wins(front);
    MembersAccounted(w, front, d);
    ExclusiveMachines(w, front, d);
    KeysCard(wins);
    RequestsCount(w, run, d);
    CardSubset(Leftover(front), Leftover(run));
    CoverCard(MembersOf(before.machines, d), MembersOf(w.machines, d), KeysOf(wins), Leftover(front));
  }

  /**
   Main result: however often the requests fail and come back, the replicas never
   exceed the larger of what they were and members, plus NodeClaims served, plus
   Machines a failed rollback left labelled, plus stale requests for NodeClaims
   already served (`FreshRequestsAddNothing`).
   */
  lemma {:induction false} RetriesDoNotAccumulate(w: World, run: seq<Event>, d: Key)
    requires 0 <= ReplicasOf(w, d) && Run(w, run, d) && Steady(w, run, d) && Bound(w, run, d) <= MAX_INT32
    ensures 0 <= ReplicasOf(Now(w, run), d) <= Bound(w, run, d)
  {
    if run != [] {
      var front, e := run[..|run| - 1], run[|run| - 1];
      BoundGrows(w, run, d);
      RetriesDoNotAccumulate(w, front, d);
      if e.Batch? {
        BatchWithinBound(w, run, d);
        RaiseIsTight(Now(w, front), e.inputs, e.results, e.trail, e.after, d, Bound(w, run, d));
      }
    }
  }
}
