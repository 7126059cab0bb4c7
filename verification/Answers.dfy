/** The coalescing protocol with the real executors behind it: what each caller of `Add` gets. */
module Answers {
  import opened Common
  import opened Machines
  import opened Providers
  import opened ApiServer
  import opened Batching
  import opened BatchingTheorems
  import opened BatchTargets
  import opened CreateBatch
  import DeleteBatch

  /** Each caller's bucket key is the hash of its batch key, and the hash tells keys in use apart. */
  ghost predicate Hashed<U>(s: State<U>, target: map<nat, Key>, hashOf: string -> nat) {
    && (forall p | p in s.hash :: p in target && s.hash[p] == hashOf(Print(target[p])) && '/' !in target[p].ns)
    && (forall p, r | p in target && r in target && hashOf(Print(target[p])) == hashOf(Print(target[r])) ::
          Print(target[p]) == Print(target[r]))
  }

  lemma HashKept<U>(s: State<U>, a: Action<U>)
    requires Enabled(s, a)
    ensures Do(s, a).hash == s.hash
  {
  }

  lemma {:induction false} HashStays<U>(s: State<U>, run: seq<Action<U>>)
    requires Legal(s, run)
    ensures End(s, run).hash == s.hash
    decreases |run|
  {
    if run != [] {
      HashStays(s, run[..|run| - 1]);
      HashKept(End(s, run[..|run| - 1]), run[|run| - 1]);
    }
  }

  /** A batch's requests and results stay what they are. */
  lemma BatchStays<U>(s: State<U>, a: Action<U>, b: nat)
    requires Enabled(s, a) && b in Do(s, a).batches && Do(s, a).batches[b].results.Some?
    ensures b in s.batches && Do(s, a).batches[b].reqs == s.batches[b].reqs
    ensures if s.batches[b].results.Some? then Do(s, a).batches[b].results == s.batches[b].results
            else a.Execute? && a.b == b && Do(s, a).batches[b].results == Some(a.results)
  {
  }

  lemma {:induction false} TargetsAgree<U>(s: State<U>, run: seq<Action<U>>, target: map<nat, Key>,
                                           hashOf: string -> nat, b: nat)
    requires Init(s) && Legal(s, run) && Hashed(s, target, hashOf) && b in End(s, run).batches
    ensures var reqs := End(s, run).batches[b].reqs;
      forall p | p in reqs :: p in target && reqs[0] in target && target[p] == target[reqs[0]]
  {
    HashStays(s, run);
    forall p | p in End(s, run).batches[b].reqs
      ensures p in target && End(s, run).batches[b].reqs[0] in target
      ensures target[p] == target[End(s, run).batches[b].reqs[0]]
    {
      BatchSharesDeployment(s, run, target, hashOf, b, p);
    }
  }

  // ----- creation

  /** One execution of the create executor: the store around it, what it saw, what failed. */
  datatype CreateLog = CreateLog(before: World, trail: Trail, after: World, failed: seq<Call>)

  function Inputs(ask: map<nat, CreateInput>, reqs: seq<nat>): seq<CreateInput>
    requires forall q | q in reqs :: q in ask
  {
    seq(|reqs|, i requires 0 <= i < |reqs| => ask[reqs[i]])
  }

  /** Execution `x` did what the executor's contract says, for these requests. */
  ghost predicate Created(ask: map<nat, CreateInput>, reqs: seq<nat>, results: seq<Result<CreateOutput>>,
                          x: CreateLog) {
    && (forall q | q in reqs :: q in ask)
    && CreateEffect(x.before, Inputs(ask, reqs), results, x.trail, x.after)
    && (reqs != [] ==>
          && ReasonsGiven(Keys(x.trail.found), Inputs(ask, reqs), results, ask[reqs[0]].deployment, x.failed)
          && (!IsRefusal(results[0]) ==> x.failed == Failures(x.trail)))
  }

  /** Batch `b` of the run was executed as `log[b]`. */
  ghost predicate CreateRun(s: State<CreateOutput>, run: seq<Action<CreateOutput>>, ask: map<nat, CreateInput>,
                            log: map<nat, CreateLog>)
    requires Legal(s, run)
    decreases |run|
  {
    run == [] ||
    (CreateRun(s, run[..|run| - 1], ask, log) &&
     var t, a := End(s, run[..|run| - 1]), run[|run| - 1];
     (a.Execute? ==> a.b in log && Created(ask, t.batches[a.b].reqs, a.results, log[a.b])))
  }

  ghost predicate AllCreated(batches: map<nat, Batch<CreateOutput>>, ask: map<nat, CreateInput>,
                             log: map<nat, CreateLog>) {
    forall b | b in batches && batches[b].results.Some? ::
      b in log && Created(ask, batches[b].reqs, batches[b].results.value, log[b])
  }

  lemma {:induction false} CreatedHolds(s: State<CreateOutput>, run: seq<Action<CreateOutput>>,
                                        ask: map<nat, CreateInput>, log: map<nat, CreateLog>)
    requires Init(s) && Legal(s, run) && CreateRun(s, run, ask, log)
    ensures AllCreated(End(s, run).batches, ask, log)
    decreases |run|
  {
    if run != [] {
      var front, a := run[..|run| - 1], run[|run| - 1];
      CreatedHolds(s, front, ask, log);
      var t := End(s, front);
      forall b | b in Do(t, a).batches && Do(t, a).batches[b].results.Some?
        ensures b in log && Created(ask, Do(t, a).batches[b].reqs, Do(t, a).batches[b].results.value, log[b])
      {
        BatchStays(t, a, b);
      }
    }
  }

  /** What execution `x` tells its `i`th request: a Machine of the deployment asked for,
      picked for this very request, as it was stored when it was bound, with the labels
      and provider ID it still has; or an error explained by a failed call on the
      request's own objects. */
  ghost predicate OwnCreateAnswer(input: CreateInput, i: nat, r: Result<CreateOutput>, x: CreateLog) {
    && r.Definite()
    && (r.Success() ==>
          var k, m := r.output.value.key, r.output.value.machine;
          && r.output.value.deployment == input.deployment
          && i < |x.trail.found| && k == x.trail.found[i].key
          && k in x.trail.bound && m == x.trail.bound[k] && SameProvider(x.trail.found[i].machine, m)
          && k in x.after.machines && x.after.machines[k].labels == m.labels && SameProvider(m, x.after.machines[k])
          && m.Member() && Of(k, m, input.deployment))
    && (r.Failure() ==>
          var k := if i < |x.trail.found| then x.trail.found[i].key else input.deployment;
          Explains(x.failed, r.err.value, input.deployment, k, input.claim))
  }

  /** The request's NodeClaim refers to the Machine it was told. */
  ghost predicate ReferenceSet(input: CreateInput, r: Result<CreateOutput>, x: CreateLog) {
    r.Success() ==>
      && input.claim in x.after.claims && MACHINE_ANNOTATION in x.after.claims[input.claim]
      && x.after.claims[input.claim][MACHINE_ANNOTATION] == Print(r.output.value.key)
  }

  lemma {:induction false} CreateAnswersOwn(ask: map<nat, CreateInput>, reqs: seq<nat>,
                                            results: seq<Result<CreateOutput>>, x: CreateLog, i: nat)
    requires Created(ask, reqs, results, x) && i < |reqs|
    requires forall q | q in reqs :: ask[q].deployment == ask[reqs[0]].deployment
    ensures |results| == |reqs| && reqs[i] in ask && OwnCreateAnswer(ask[reqs[i]], i, results[i], x)
    ensures DistinctClaims(Inputs(ask, reqs)) ==> ReferenceSet(ask[reqs[i]], results[i], x)
  {
    assert reqs[i] in reqs;
    var inputs := Inputs(ask, reqs);
    assert inputs[i] == ask[reqs[i]] && inputs[0] == ask[reqs[0]];
    if results[i].Success() {
      assert Served(x.before, inputs, results, x.trail, x.after);
      assert results[i] in results && results[i].output.value.key in Won(results) + x.trail.stuck;
      assert x.trail.found[i] in x.trail.found;
    }
  }

  function TargetsOf(ask: map<nat, CreateInput>): map<nat, Key> { map q | q in ask :: ask[q].deployment }

  /**
   Main result: a caller of the create batcher that returns had one slot in one batch,
   was answered once, and was handed what the execution of that batch has for that slot:
   its own Machine, to which its own NodeClaim now refers, or its own error.
   */
  lemma {:induction false} CreateCallersGetTheirOwn(
    s: State<CreateOutput>, run: seq<Action<CreateOutput>>, ask: map<nat, CreateInput>, log: map<nat, CreateLog>,
    hashOf: string -> nat, q: nat)
    returns (b: nat, i: nat)
    requires Init(s) && Legal(s, run) && CreateRun(s, run, ask, log) && Hashed(s, TargetsOf(ask), hashOf)
    requires q in End(s, run).callers && End(s, run).callers[q].Returned?
    ensures var t := End(s, run);
      && q in t.sends && t.sends[q] == 1
      && b in t.batches && b in log && i < |t.batches[b].reqs| && t.batches[b].reqs[i] == q
      && t.batches[b].results.Some? && Created(ask, t.batches[b].reqs, t.batches[b].results.value, log[b])
      && q in ask && OwnCreateAnswer(ask[q], i, t.callers[q].r, log[b])
      && (DistinctClaims(Inputs(ask, t.batches[b].reqs)) ==> ReferenceSet(ask[q], t.callers[q].r, log[b]))
  {
    b, i := ReturnedIsDelivery(s, run, q);
    CreatedHolds(s, run, ask, log);
    TargetsAgree(s, run, TargetsOf(ask), hashOf, b);
    CreateAnswersOwn(ask, End(s, run).batches[b].reqs, End(s, run).batches[b].results.value, log[b], i);
  }

  // ----- deletion

  datatype DeleteLog = DeleteLog(before: World, annotated: seq<bool>, left: set<Key>, after: World, failed: seq<Call>)

  function DeleteInputs(ask: map<nat, DeleteBatch.DeleteInput>, reqs: seq<nat>): seq<DeleteBatch.DeleteInput>
    requires forall q | q in reqs :: q in ask
  {
    seq(|reqs|, i requires 0 <= i < |reqs| => ask[reqs[i]])
  }

  ghost predicate Deleted(ask: map<nat, DeleteBatch.DeleteInput>, reqs: seq<nat>,
                          results: seq<Result<DeleteBatch.DeleteOutput>>, x: DeleteLog)
  {
    && (forall q | q in reqs :: q in ask)
    && DeleteBatch.DeleteEffect(x.before, DeleteInputs(ask, reqs), results, x.annotated, x.left, x.after)
    && (reqs != [] ==> DeleteBatch.ReasonsGiven(DeleteInputs(ask, reqs), results, ask[reqs[0]].deployment, x.failed))
  }

  ghost predicate DeleteRun(
    s: State<DeleteBatch.DeleteOutput>, run: seq<Action<DeleteBatch.DeleteOutput>>,
    ask: map<nat, DeleteBatch.DeleteInput>, log: map<nat, DeleteLog>)
    requires Legal(s, run)
    decreases |run|
  {
    run == [] ||
    (DeleteRun(s, run[..|run| - 1], ask, log) &&
     var t, a := End(s, run[..|run| - 1]), run[|run| - 1];
     (a.Execute? ==> a.b in log && Deleted(ask, t.batches[a.b].reqs, a.results, log[a.b])))
  }

  ghost predicate AllDeleted(batches: map<nat, Batch<DeleteBatch.DeleteOutput>>,
                             ask: map<nat, DeleteBatch.DeleteInput>, log: map<nat, DeleteLog>)
  {
    forall b | b in batches && batches[b].results.Some? ::
      b in log && Deleted(ask, batches[b].reqs, batches[b].results.value, log[b])
  }

  lemma {:induction false} DeletedHolds(
    s: State<DeleteBatch.DeleteOutput>, run: seq<Action<DeleteBatch.DeleteOutput>>,
    ask: map<nat, DeleteBatch.DeleteInput>, log: map<nat, DeleteLog>)
    requires Init(s) && Legal(s, run) && DeleteRun(s, run, ask, log)
    ensures AllDeleted(End(s, run).batches, ask, log)
    decreases |run|
  {
    if run != [] {
      var front, a := run[..|run| - 1], run[|run| - 1];
      DeletedHolds(s, front, ask, log);
      var t := End(s, front);
      forall b | b in Do(t, a).batches && Do(t, a).batches[b].results.Some?
        ensures b in log && Deleted(ask, Do(t, a).batches[b].reqs, Do(t, a).batches[b].results.value, log[b])
      {
        BatchStays(t, a, b);
      }
    }
  }

  /** A success means the request's own Machine is marked and was counted; an error is
      explained by a failed call on the request's own objects. */
  ghost predicate OwnDeleteAnswer(input: DeleteBatch.DeleteInput, i: nat, r: Result<DeleteBatch.DeleteOutput>,
                                  x: DeleteLog) {
    && r.Definite()
    && (r.Success() ==>
          && i < |x.annotated| && x.annotated[i]
          && input.machine in x.after.machines && x.after.machines[input.machine].Marked()
          && input.deployment in x.before.deployments
          && x.after.deployments ==
            DeleteBatch.LoweredIn(x.before.deployments, input.deployment, DeleteBatch.Count(x.annotated)))
    && (r.Failure() ==> Explains(x.failed, r.err.value, input.deployment, input.machine, ""))
  }

  lemma {:induction false} DeleteAnswersOwn(ask: map<nat, DeleteBatch.DeleteInput>, reqs: seq<nat>,
                                            results: seq<Result<DeleteBatch.DeleteOutput>>, x: DeleteLog, i: nat)
    requires Deleted(ask, reqs, results, x) && i < |reqs|
    requires forall q | q in reqs :: ask[q].deployment == ask[reqs[0]].deployment
    ensures |results| == |reqs| && reqs[i] in ask && OwnDeleteAnswer(ask[reqs[i]], i, results[i], x)
  {
    assert reqs[i] in reqs;
    var inputs := DeleteInputs(ask, reqs);
    assert inputs[i] == ask[reqs[i]] && inputs[0] == ask[reqs[0]];
    if results[i].Success() {
      assert DeleteBatch.Done(x.before, inputs, results, x.annotated, x.after);
      assert inputs[i].machine in DeleteBatch.Targets(inputs, x.annotated);
    }
  }

  function DeleteTargetsOf(ask: map<nat, DeleteBatch.DeleteInput>): map<nat, Key> {
    map q | q in ask :: ask[q].deployment
  }

  /** Main result: the same for a caller of the delete batcher. */
  lemma {:induction false} DeleteCallersGetTheirOwn(
    s: State<DeleteBatch.DeleteOutput>, run: seq<Action<DeleteBatch.DeleteOutput>>,
    ask: map<nat, DeleteBatch.DeleteInput>, log: map<nat, DeleteLog>, hashOf: string -> nat, q: nat)
    returns (b: nat, i: nat)
    requires Init(s) && Legal(s, run) && DeleteRun(s, run, ask, log) && Hashed(s, DeleteTargetsOf(ask), hashOf)
    requires q in End(s, run).callers && End(s, run).callers[q].Returned?
    ensures var t := End(s, run);
      && q in t.sends && t.sends[q] == 1
      && b in t.batches && b in log && i < |t.batches[b].reqs| && t.batches[b].reqs[i] == q
      && t.batches[b].results.Some? && Deleted(ask, t.batches[b].reqs, t.batches[b].results.value, log[b])
      && q in ask && OwnDeleteAnswer(ask[q], i, t.callers[q].r, log[b])
  {
    b, i := ReturnedIsDelivery(s, run, q);
    DeletedHolds(s, run, ask, log);
    TargetsAgree(s, run, DeleteTargetsOf(ask), hashOf, b);
    DeleteAnswersOwn(ask, End(s, run).batches[b].reqs, End(s, run).batches[b].results.value, log[b], i);
  }
}
