/** The delete batch: mark, lower under the lock, and undo the marks if that fails. */
module DeleteBatch {
  import opened Common
  import opened Machines
  import opened Providers
  import opened Replicas
  import opened ApiServer

  datatype DeleteInput = DeleteInput(machine: Key, deployment: Key)
  datatype DeleteOutput = DeleteOutput

  const PENDING := Result<DeleteOutput>.Result(None, None)

  /** `after` is `before` with a mark; a mark that was there is the same one. */
  predicate MarkOf(before: Machine, after: Machine) {
    after.Marked() && after.WithoutMark() == before.WithoutMark() && (before.Marked() ==> after == before)
  }

  lemma WithMarkIsMarkOf(m: Machine, stamp: string)
    ensures MarkOf(m, m.WithMark(stamp)) && MarkOf(m, m.WithMark(stamp).WithMark(stamp))
  {
  }

  /** Marks the copy `m` of a Machine and writes it back, unless the copy is marked already. */
  method AddDeleteAnnotation(c: Cluster, k: Key, m: Machine) returns (ok: bool)
    modifies c`machines, c`failed
    ensures ok ==> c.failed == old(c.failed)
    ensures ok && m.Marked() ==> c.machines == old(c.machines)
    ensures ok && !m.Marked() ==>
      && k in c.machines
      && MarkOf(m, c.machines[k])
      && c.machines == old(c.machines)[k := c.machines[k]]
    ensures !ok ==> !m.Marked() && c.machines == old(c.machines) && c.failed == old(c.failed) + [MachineUpdate(k)]
  {
    ok := true;
    if !m.Marked() {
      var now: string := *;
      WithMarkIsMarkOf(m, now);
      ok := c.UpdateMachine(k, m.WithMark(now));
    }
  }

  /** Takes the mark off the copy `m` of a Machine and writes it back, if it carries one. */
  method RemoveDeleteAnnotation(c: Cluster, k: Key, m: Machine) returns (ok: bool)
    modifies c`machines, c`failed
    ensures ok ==> c.failed == old(c.failed)
    ensures ok ==> c.machines == if m.Marked() then old(c.machines)[k := m.WithoutMark()] else old(c.machines)
    ensures !ok ==> m.Marked() && c.machines == old(c.machines) && c.failed == old(c.failed) + [MachineUpdate(k)]
  {
    ok := true;
    if m.Marked() {
      ok := c.UpdateMachine(k, m.WithoutMark());
    }
  }

  // ----- marking

  /** The Machines whose request was annotated. */
  function Targets(inputs: seq<DeleteInput>, annotated: seq<bool>): set<Key>
    requires |annotated| == |inputs|
  {
    set i | 0 <= i < |inputs| && annotated[i] :: inputs[i].machine
  }

  predicate MarkedAt(before: map<Key, Machine>, after: map<Key, Machine>, ks: set<Key>) {
    && after.Keys == before.Keys && ks <= before.Keys
    && forall k | k in before :: if k in ks then MarkOf(before[k], after[k]) else after[k] == before[k]
  }

  ghost predicate MarkingDone(inputs: seq<DeleteInput>, results: seq<Result<DeleteOutput>>, annotated: seq<bool>,
                              todo: set<nat>) {
    && |annotated| == |results| == |inputs|
    && forall i: nat | i < |inputs| ::
      if i in todo then !annotated[i] && results[i] == PENDING
      else if annotated[i] then results[i] == PENDING
      else results[i] in {Fail(GetMachineError), Fail(MarkMachineError)}
  }

  /** Every error is explained by a failed call on the request's own objects. */
  ghost predicate ReasonsGiven(inputs: seq<DeleteInput>, results: seq<Result<DeleteOutput>>, d: Key, failed: seq<Call>)
    requires |results| == |inputs|
  {
    forall i | 0 <= i < |results| && results[i].err.Some? ::
      Explains(failed, results[i].err.value, d, inputs[i].machine, "")
  }

  lemma ReasonsGrow(inputs: seq<DeleteInput>, results: seq<Result<DeleteOutput>>, d: Key, failed: seq<Call>,
                    more: seq<Call>, i: nat, err: Option<Error>)
    requires |results| == |inputs| && i < |inputs| && ReasonsGiven(inputs, results, d, failed) && failed <= more
    requires err.Some? ==> Explains(more, err.value, d, inputs[i].machine, "")
    ensures ReasonsGiven(inputs, if err.Some? then results[i := Fail(err.value)] else results, d, more)
  {
  }

  lemma TargetsGrow(inputs: seq<DeleteInput>, annotated: seq<bool>, i: nat)
    requires |annotated| == |inputs| && i < |inputs| && !annotated[i]
    ensures Targets(inputs, annotated[i := true]) == Targets(inputs, annotated) + {inputs[i].machine}
  {
  }

  lemma MarkedAtGrows(before: map<Key, Machine>, m: map<Key, Machine>, ks: set<Key>, k: Key, x: Machine)
    requires MarkedAt(before, m, ks) && k in before && MarkOf(m[k], x)
    ensures MarkedAt(before, m[k := x], ks + {k})
  {
  }

  /** One goroutine of the first phase. */
  method MarkOne(c: Cluster, k: Key) returns (err: Option<Error>)
    modifies c`machines, c`failed
    ensures c.machines.Keys == old(c.machines).Keys && (err.None? ==> k in c.machines)
    ensures err.None? ==>
      && MarkOf(old(c.machines)[k], c.machines[k])
      && c.machines == old(c.machines)[k := c.machines[k]]
      && c.failed == old(c.failed)
    ensures err.Some? ==> err.value in {GetMachineError, MarkMachineError} && c.machines == old(c.machines)
    ensures err.Some? ==>
      c.failed == old(c.failed) + [if err.value == GetMachineError then MachineGet(k) else MachineUpdate(k)]
  {
    var got := c.GetMachine(k);
    if got.Failed? { return Some(GetMachineError); }
    var ok := AddDeleteAnnotation(c, k, got.value);
    if !ok { return Some(MarkMachineError); }
    return None;
  }

  /** Where the first phase stands when the goroutines in `todo` have not run yet. */
  ghost predicate Marking(before: map<Key, Machine>, now: map<Key, Machine>, d: Key, inputs: seq<DeleteInput>,
                          results: seq<Result<DeleteOutput>>, annotated: seq<bool>, todo: set<nat>, failed: seq<Call>)
  {
    && MarkingDone(inputs, results, annotated, todo)
    && ReasonsGiven(inputs, results, d, failed)
    && MarkedAt(before, now, Targets(inputs, annotated))
  }

  lemma MarkingRefused(before: map<Key, Machine>, now: map<Key, Machine>, d: Key, inputs: seq<DeleteInput>,
                       results: seq<Result<DeleteOutput>>, annotated: seq<bool>, todo: set<nat>, failed: seq<Call>,
                       i: nat, err: Error, c: Call)
    requires Marking(before, now, d, inputs, results, annotated, todo, failed) && i in todo && i < |inputs|
    requires err in {GetMachineError, MarkMachineError}
    requires c == if err == GetMachineError then MachineGet(inputs[i].machine) else MachineUpdate(inputs[i].machine)
    ensures Marking(before, now, d, inputs, results[i := Fail(err)], annotated, todo - {i}, failed + [c])
  {
    ReasonsGrow(inputs, results, d, failed, failed + [c], i, Some(err));
  }

  lemma MarkingPlaced(before: map<Key, Machine>, now: map<Key, Machine>, d: Key, inputs: seq<DeleteInput>,
                      results: seq<Result<DeleteOutput>>, annotated: seq<bool>, todo: set<nat>, failed: seq<Call>,
                      i: nat, m: Machine)
    requires Marking(before, now, d, inputs, results, annotated, todo, failed) && i in todo && i < |inputs|
    requires inputs[i].machine in now && MarkOf(now[inputs[i].machine], m)
    ensures Marking(before, now[inputs[i].machine := m], d, inputs, results, annotated[i := true], todo - {i}, failed)
  {
    TargetsGrow(inputs, annotated, i);
    MarkedAtGrows(before, now, Targets(inputs, annotated), inputs[i].machine, m);
  }

  /** The first phase, the goroutines running in any order. */
  method MarkAll(c: Cluster, ghost d: Key, inputs: seq<DeleteInput>)
    returns (results: seq<Result<DeleteOutput>>, annotated: seq<bool>, ghost failed: seq<Call>)
    modifies c`machines, c`failed
    ensures c.failed == old(c.failed) + failed
    ensures Marking(old(c.machines), c.machines, d, inputs, results, annotated, {}, failed)
  {
    results := seq(|inputs|, _ => PENDING);
    annotated := seq(|inputs|, _ => false);
    failed := [];
    var todo := Upto(|inputs|);
    UptoMembers(|inputs|);
    assert Targets(inputs, annotated) == {};
    while todo != {}
      invariant todo <= Upto(|inputs|) && c.failed == old(c.failed) + failed
      invariant Marking(old(c.machines), c.machines, d, inputs, results, annotated, todo, failed)
    {
      var i :| i in todo;
      var k := inputs[i].machine;
      ghost var before := c.machines;
      var err := MarkOne(c, k);
      if err.Some? {
        ghost var call := if err.value == GetMachineError then MachineGet(k) else MachineUpdate(k);
        MarkingRefused(old(c.machines), before, d, inputs, results, annotated, todo, failed, i, err.value, call);
        results, failed := results[i := Fail(err.value)], failed + [call];
      } else {
        MarkingPlaced(old(c.machines), before, d, inputs, results, annotated, todo, failed, i, c.machines[k]);
        annotated := annotated[i := true];
      }
      todo := todo - {i};
    }
  }

  // ----- undoing

  /** Every target is unmarked again, or its rollback is among the failures. */
  predicate UndoneAt(before: map<Key, Machine>, after: map<Key, Machine>, ks: set<Key>, left: set<Key>) {
    && after.Keys == before.Keys && ks <= before.Keys && left <= ks
    && forall k | k in before ::
      if k in ks then after[k] == before[k].WithoutMark() || (k in left && after[k] == before[k])
      else after[k] == before[k]
  }

  /** Each of `left` has a failed call of its own. */
  predicate Excused(left: set<Key>, failed: seq<Call>) {
    forall k | k in left :: MachineGet(k) in failed || MachineUpdate(k) in failed
  }

  method RollbackDeleteAnnotations(c: Cluster, inputs: seq<DeleteInput>, annotated: seq<bool>)
    returns (ghost left: set<Key>)
    requires |annotated| == |inputs| && Targets(inputs, annotated) <= c.machines.Keys
    modifies c`machines, c`failed
    ensures old(c.failed) <= c.failed
    ensures UndoneAt(old(c.machines), c.machines, Targets(inputs, annotated), left)
    ensures Excused(left, c.failed[|old(c.failed)|..])
  {
    left := {};
    for i := 0 to |inputs|
      invariant old(c.failed) <= c.failed
      invariant UndoneAt(old(c.machines), c.machines, Targets(inputs[..i], annotated[..i]), left)
      invariant Excused(left, c.failed[|old(c.failed)|..])
    {
      TargetsSnoc(inputs, annotated, i);
      if !annotated[i] { continue; }
      var k := inputs[i].machine;
      assert k in Targets(inputs, annotated);
      ghost var since := c.failed[|old(c.failed)|..];
      var got := c.GetMachine(k);
      var ok := false;
      if got.Ok? {
        UndoTwice(old(c.machines)[k]);
        ok := RemoveDeleteAnnotation(c, k, got.value);
      }
      if !ok {
        assert c.failed[|old(c.failed)|..] == since + [c.failed[|c.failed| - 1]];
        left := left + {k};
      }
    }
    assert inputs[..|inputs|] == inputs && annotated[..|annotated|] == annotated;
  }

  lemma TargetsSnoc(inputs: seq<DeleteInput>, annotated: seq<bool>, i: nat)
    requires |annotated| == |inputs| && i < |inputs|
    ensures Targets(inputs[..i + 1], annotated[..i + 1]) ==
      Targets(inputs[..i], annotated[..i]) + if annotated[i] then {inputs[i].machine} else {}
    ensures annotated[i] ==> inputs[i].machine in Targets(inputs, annotated)
  {
  }

  lemma UndoTwice(m: Machine)
    ensures m.WithoutMark().WithoutMark() == m.WithoutMark() && !m.WithoutMark().Marked()
  {
  }

  // ----- the executor

  function Count(annotated: seq<bool>): nat {
    if annotated == [] then 0 else Count(annotated[..|annotated| - 1]) + if annotated[|annotated| - 1] then 1 else 0
  }

  /** Annotated requests get `r`; the others keep the error they have. */
  function Settle(results: seq<Result<DeleteOutput>>, annotated: seq<bool>, r: Result<DeleteOutput>)
    : seq<Result<DeleteOutput>>
    requires |annotated| == |results|
  {
    seq(|results|, i requires 0 <= i < |results| => if annotated[i] then r else results[i])
  }

  /** The last loop of each path. */
  method SettleAll(results: seq<Result<DeleteOutput>>, annotated: seq<bool>, r: Result<DeleteOutput>)
    returns (settled: seq<Result<DeleteOutput>>)
    requires |annotated| == |results|
    ensures settled == Settle(results, annotated, r)
  {
    settled := results;
    for i := 0 to |results|
      invariant |settled| == |results|
      invariant forall k | 0 <= k < |results| :: settled[k] == if k < i && annotated[k] then r else results[k]
    {
      if annotated[i] { settled := settled[i := r]; }
    }
  }

  /** The calls made under the lock, given how they ended. */
  function LowerCalls(d: Key, err: Option<Error>): seq<Call> {
    if err == Some(GetMachineDeploymentError) then [DeploymentGet(d)] else [DeploymentGet(d), DeploymentUpdate(d)]
  }

  /** The critical section. */
  method LowerReplicas(c: Cluster, locks: LockManager, d: Key, marked: nat) returns (err: Option<Error>)
    requires locks.Free(Print(d))
    modifies c`deployments, c`failed, c`trace, locks
    ensures locks.Free(Print(d)) && c.trace == old(c.trace) + Guarded(Print(d), LowerCalls(d, err))
    ensures err.None? ==>
      && d in old(c.deployments)
      && c.deployments == LoweredIn(old(c.deployments), d, marked)
      && c.failed == old(c.failed)
    ensures err.Some? ==> c.deployments == old(c.deployments)
    ensures err.Some? ==>
      c.failed == old(c.failed) +
        [if err.value == GetMachineDeploymentError then DeploymentGet(d) else DeploymentUpdate(d)]
    ensures err.Some? ==> err.value in {GetMachineDeploymentError, UpdateMachineDeploymentError}
  {
    locks.Lock(c, Print(d));
    GuardedIs(Print(d), DeploymentGet(d), DeploymentUpdate(d), MachineList);
    var md := c.GetDeployment(d);
    if md.Failed? {
      locks.Unlock(c, Print(d));
      return Some(GetMachineDeploymentError);
    }
    var replicas := Wrap(Deref(md.value.replicas) - Wrap(marked));
    if replicas < 0 { replicas := 0; }
    var ok := c.UpdateDeployment(d, md.value.(replicas := Some(replicas)));
    locks.Unlock(c, Print(d));
    return if ok then None else Some(UpdateMachineDeploymentError);
  }

  function LoweredIn(ds: map<Key, Deployment>, d: Key, marked: nat): map<Key, Deployment>
    requires d in ds
  {
    ds[d := ds[d].(replicas := Some(Lowered(Deref(ds[d].replicas), marked)))]
  }

  /** The replicas went down by the number of annotated requests; exactly those
      succeed, and their Machines are the ones marked. */
  ghost predicate Done(w: World, inputs: seq<DeleteInput>, results: seq<Result<DeleteOutput>>, annotated: seq<bool>,
                       v: World)
    requires inputs != [] && |results| == |annotated| == |inputs|
  {
    var d := inputs[0].deployment;
    && d in w.deployments && v.deployments == LoweredIn(w.deployments, d, Count(annotated))
    && MarkedAt(w.machines, v.machines, Targets(inputs, annotated))
    && forall i | 0 <= i < |inputs| ::
      if annotated[i] then results[i] == Succeed(DeleteOutput) else results[i].Failure()
  }

  /** Nothing was lowered, nobody succeeds, and the marks of all but `left` are undone. */
  ghost predicate Compensated(w: World, inputs: seq<DeleteInput>, results: seq<Result<DeleteOutput>>,
                              annotated: seq<bool>, left: set<Key>, v: World)
    requires |results| == |annotated| == |inputs|
  {
    && v.deployments == w.deployments
    && (forall i | 0 <= i < |inputs| :: results[i].Failure())
    && RolledBack(w.machines, v.machines, Targets(inputs, annotated), left)
  }

  predicate RolledBack(before: map<Key, Machine>, after: map<Key, Machine>, ks: set<Key>, left: set<Key>) {
    && after.Keys == before.Keys && ks <= before.Keys && left <= ks
    && forall k | k in before ::
      if k in ks then after[k] == before[k].WithoutMark() || (k in left && MarkOf(before[k], after[k]))
      else after[k] == before[k]
  }

  /** What a delete request can be refused for. */
  predicate DeleteError(e: Error) {
    e in {GetMachineError, MarkMachineError, GetMachineDeploymentError, UpdateMachineDeploymentError}
  }

  ghost predicate DeleteEffect(w: World, inputs: seq<DeleteInput>, results: seq<Result<DeleteOutput>>,
                               annotated: seq<bool>, left: set<Key>, v: World) {
    && |results| == |annotated| == |inputs| && v.claims == w.claims
    && (forall i | 0 <= i < |results| && results[i].err.Some? :: DeleteError(results[i].err.value))
    && if Count(annotated) == 0 then v == w && forall i | 0 <= i < |inputs| :: results[i].Failure()
       else
         && inputs != []
         && (Done(w, inputs, results, annotated, v) || Compensated(w, inputs, results, annotated, left, v))
  }

  lemma {:induction false} CountPositive(inputs: seq<DeleteInput>, annotated: seq<bool>)
    requires |annotated| == |inputs|
    ensures Count(annotated) == 0 <==> Targets(inputs, annotated) == {}
    ensures Count(annotated) == 0 <==> forall i | 0 <= i < |annotated| :: !annotated[i]
  {
    if annotated != [] {
      var n := |annotated| - 1;
      CountPositive(inputs[..n], annotated[..n]);
      TargetsSnoc(inputs, annotated, n);
      assert inputs[..n + 1] == inputs && annotated[..n + 1] == annotated;
      assert forall i | 0 <= i < n :: annotated[i] == annotated[..n][i];
    }
  }

  lemma UndoneIsRolledBack(before: map<Key, Machine>, marked: map<Key, Machine>, after: map<Key, Machine>,
                           ks: set<Key>, left: set<Key>)
    requires MarkedAt(before, marked, ks) && UndoneAt(marked, after, ks, left)
    ensures RolledBack(before, after, ks, left)
  {
  }

  lemma Settled(inputs: seq<DeleteInput>, results: seq<Result<DeleteOutput>>, annotated: seq<bool>,
                r: Result<DeleteOutput>)
    requires MarkingDone(inputs, results, annotated, {})
    ensures forall i | 0 <= i < |inputs| ::
      var s := Settle(results, annotated, r)[i]; if annotated[i] then s == r else s.Failure()
  {
  }

  lemma SettledReasons(inputs: seq<DeleteInput>, results: seq<Result<DeleteOutput>>, annotated: seq<bool>,
                       err: Option<Error>, d: Key, a: seq<Call>, b: seq<Call>)
    requires MarkingDone(inputs, results, annotated, {}) && ReasonsGiven(inputs, results, d, a)
    requires err.Some? ==>
      && err.value in {GetMachineDeploymentError, UpdateMachineDeploymentError}
      && Explains(b, err.value, d, d, "")
    ensures ReasonsGiven(inputs, Settle(results, annotated, Outcome(err)), d, a + b)
  {
  }

  function Outcome(err: Option<Error>): Result<DeleteOutput> {
    if err.Some? then Fail(err.value) else Succeed(DeleteOutput)
  }

  /** The second phase: lower the replicas, or take the marks off again. */
  method LowerOrUndo(c: Cluster, locks: LockManager, d: Key, inputs: seq<DeleteInput>, annotated: seq<bool>,
                     marked: nat)
    returns (err: Option<Error>, ghost left: set<Key>, ghost failed: seq<Call>)
    requires |annotated| == |inputs| && Targets(inputs, annotated) <= c.machines.Keys && locks.Free(Print(d))
    modifies c`machines, c`deployments, c`failed, c`trace, locks
    ensures locks.Free(Print(d)) && c.trace == old(c.trace) + Guarded(Print(d), LowerCalls(d, err))
    ensures c.failed == old(c.failed) + failed && Excused(left, failed)
    ensures err.None? ==> d in old(c.deployments) && c.deployments == LoweredIn(old(c.deployments), d, marked)
    ensures err.None? ==> c.machines == old(c.machines) && left == {}
    ensures err.Some? ==>
      && c.deployments == old(c.deployments)
      && UndoneAt(old(c.machines), c.machines, Targets(inputs, annotated), left)
    ensures err.Some? ==>
      && err.value in {GetMachineDeploymentError, UpdateMachineDeploymentError}
      && Explains(failed, err.value, d, d, "")
  {
    left, failed := {}, [];
    err := LowerReplicas(c, locks, d, marked);
    if err.Some? {
      ghost var atRollback := c.failed;
      left := RollbackDeleteAnnotations(c, inputs, annotated);
      failed := c.failed[|old(c.failed)|..];
      ExcusedLater(left, old(c.failed), atRollback, c.failed);
      assert failed[0] == atRollback[|atRollback| - 1];
    }
  }

  lemma NothingMarked(before: map<Key, Machine>, after: map<Key, Machine>, inputs: seq<DeleteInput>,
                      results: seq<Result<DeleteOutput>>, annotated: seq<bool>)
    requires MarkingDone(inputs, results, annotated, {}) && Count(annotated) == 0
    requires MarkedAt(before, after, Targets(inputs, annotated))
    ensures after == before && forall i | 0 <= i < |inputs| :: results[i].Failure() && DeleteError(results[i].err.value)
  {
    CountPositive(inputs, annotated);
  }

  /** What the two phases come to together. */
  lemma EffectIs(w: World, inputs: seq<DeleteInput>, results: seq<Result<DeleteOutput>>, annotated: seq<bool>,
                 err: Option<Error>, left: set<Key>, marked: map<Key, Machine>, v: World)
    requires inputs != [] && MarkingDone(inputs, results, annotated, {}) && Count(annotated) != 0
    requires MarkedAt(w.machines, marked, Targets(inputs, annotated)) && v.claims == w.claims
    requires err.None? ==>
      && inputs[0].deployment in w.deployments && v.machines == marked
      && v.deployments == LoweredIn(w.deployments, inputs[0].deployment, Count(annotated))
    requires err.Some? ==>
      && err.value in {GetMachineDeploymentError, UpdateMachineDeploymentError} && v.deployments == w.deployments
      && UndoneAt(marked, v.machines, Targets(inputs, annotated), left)
    ensures DeleteEffect(w, inputs, Settle(results, annotated, Outcome(err)), annotated, left, v)
  {
    Settled(inputs, results, annotated, Outcome(err));
    if err.Some? { UndoneIsRolledBack(w.machines, marked, v.machines, Targets(inputs, annotated), left); }
  }

  method ExecDeleteBatch(c: Cluster, locks: LockManager, inputs: seq<DeleteInput>)
    returns (results: seq<Result<DeleteOutput>>,
             ghost annotated: seq<bool>, ghost left: set<Key>, ghost failed: seq<Call>, ghost err: Option<Error>)
    requires inputs != [] ==> locks.Free(Print(inputs[0].deployment))
    modifies c, locks
    ensures DeleteEffect(old(c.State()), inputs, results, annotated, left, c.State())
    ensures c.failed == old(c.failed) + failed && Excused(left, failed)
    ensures inputs != [] ==> ReasonsGiven(inputs, results, inputs[0].deployment, failed)
    ensures Count(annotated) == 0 ==> c.trace == old(c.trace)
    ensures Count(annotated) != 0 ==> var d := inputs[0].deployment;
      locks.Free(Print(d)) && c.trace == old(c.trace) + Guarded(Print(d), LowerCalls(d, err))
    ensures forall i | 0 <= i < |inputs| && annotated[i] :: results[i] == Outcome(err)
  {
    results, annotated, left, failed, err := [], [], {}, [], None;
    if |inputs| == 0 { return; }
    var d := inputs[0].deployment;
    var mark;
    results, mark, failed := MarkAll(c, d, inputs);
    annotated := mark;
    var successCount := CountMarks(mark);
    CountPositive(inputs, mark);
    if successCount == 0 {
      NothingMarked(old(c.machines), c.machines, inputs, results, mark);
      return;
    }
    ghost var marked, later := c.machines, [];
    var e;
    e, left, later := LowerOrUndo(c, locks, d, inputs, mark, successCount);
    err := e;
    EffectIs(old(c.State()), inputs, results, mark, err, left, marked, c.State());
    SettledReasons(inputs, results, mark, err, d, failed, later);
    Regroup(old(c.failed), failed, later);
    failed := failed + later;
    results := SettleAll(results, mark, Outcome(e));
  }

  lemma ExcusedLater(left: set<Key>, a: seq<Call>, b: seq<Call>, c: seq<Call>)
    requires a <= b <= c && Excused(left, c[|b|..])
    ensures Excused(left, c[|a|..])
  {
  }

  method CountMarks(annotated: seq<bool>) returns (n: nat)
    ensures n == Count(annotated)
  {
    n := 0;
    for i := 0 to |annotated|
      invariant n == Count(annotated[..i])
    {
      assert annotated[..i + 1][..i] == annotated[..i];
      if annotated[i] { n := n + 1; }
    }
    assert annotated[..|annotated|] == annotated;
  }
}
