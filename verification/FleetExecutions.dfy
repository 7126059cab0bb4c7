/**
 An execution of the delete executor is a run of the interleaving system: whatever
 `DeleteBatch.DeleteEffect` allows, some legal list of single API calls produces.
 So what holds of every interleaving holds with whole executions among the steps.
 */
module FleetExecutions {
  import opened Common
  import opened Machines
  import opened Replicas
  import opened Fleet
  import opened FleetSafety
  import opened FleetTraces
  import FleetLimits
  import opened ApiServer
  import D = DeleteBatch
  import DeleteTheorems
  import CreateRuns

  // ----- the requests of one execution

  function Ids(base: nat, n: nat): (ids: set<nat>)
    ensures forall q :: q in ids <==> base <= q < base + n
  {
    if n == 0 then {} else Ids(base, n - 1) + {base + n - 1}
  }

  function Requests(b: nat, base: nat, inputs: seq<D.DeleteInput>, stages: seq<Stage>): map<nat, Request>
    requires |stages| == |inputs|
  {
    map q | q in Ids(base, |inputs|) :: Request(b, inputs[q - base].machine, stages[q - base])
  }

  function Asks(base: nat, inputs: seq<D.DeleteInput>): map<nat, Key> {
    map q | q in Ids(base, |inputs|) :: inputs[q - base].machine
  }

  predicate FreshIds(s: State, b: nat, base: nat) {
    b !in s.batches && s.holder == None && forall q | q in s.requests :: q < base && s.requests[q].batch != b
  }

  /** State `s` with the execution as batch `b` in it. */
  function Where(s: State, b: nat, base: nat, inputs: seq<D.DeleteInput>, stages: seq<Stage>, ms: map<Key, Machine>,
                 phase: Phase): State
    requires |stages| == |inputs|
  {
    s.(requests := s.requests + Requests(b, base, inputs, stages),
       machines := ms,
       batches := s.batches[b := Batch(false, phase)])
  }

  lemma SetStage(qs: map<nat, Request>, b: nat, base: nat, inputs: seq<D.DeleteInput>, stages: seq<Stage>, i: nat,
                 x: Stage)
    requires |stages| == |inputs| && i < |inputs|
    ensures (qs + Requests(b, base, inputs, stages))[base + i := Request(b, inputs[i].machine, x)]
         == qs + Requests(b, base, inputs, stages[i := x])
    ensures base + i in qs + Requests(b, base, inputs, stages)
    ensures (qs + Requests(b, base, inputs, stages))[base + i] == Request(b, inputs[i].machine, stages[i])
  {
  }

  // ----- marks

  /** The text of the mark the execution leaves on `k`. */
  function Stamp(after: map<Key, Machine>, k: Key): string {
    if k in after && after[k].Marked() then after[k].annotations[DELETE_ANNOTATION] else ""
  }

  /** The Machines once those of `ks` are marked. */
  function MarkedMap(before: map<Key, Machine>, ks: set<Key>, after: map<Key, Machine>): map<Key, Machine> {
    map k | k in before :: if k in ks then before[k].WithMark(Stamp(after, k)) else before[k]
  }

  /** The Machines once the marks of `ks` that `after` lacks are off again. */
  function RolledMap(ms: map<Key, Machine>, ks: set<Key>, after: map<Key, Machine>): map<Key, Machine> {
    map k | k in ms :: if k in ks && k in after && !after[k].Marked() then ms[k].WithoutMark() else ms[k]
  }

  lemma MarkFacts(m: Machine, x: string)
    ensures m.WithMark(x).WithMark(x) == m.WithMark(x)
    ensures m.WithMark(x).WithoutMark() == m.WithoutMark() == m.WithoutMark().WithoutMark()
  {
    assert m.annotations[DELETE_ANNOTATION := x] - {DELETE_ANNOTATION} == m.annotations - {DELETE_ANNOTATION};
    assert m.annotations - {DELETE_ANNOTATION} - {DELETE_ANNOTATION} == m.annotations - {DELETE_ANNOTATION};
  }

  lemma MarkIsStamp(before: Machine, after: Machine)
    requires D.MarkOf(before, after)
    ensures after.Marked() && before.WithMark(after.annotations[DELETE_ANNOTATION]) == after
  {
    if !before.Marked() {
      assert before.annotations - {DELETE_ANNOTATION} == before.annotations;
      assert after.annotations ==
        (after.annotations - {DELETE_ANNOTATION})[DELETE_ANNOTATION := after.annotations[DELETE_ANNOTATION]];
    }
  }

  lemma MarkedMapGrows(before: map<Key, Machine>, ks: set<Key>, after: map<Key, Machine>, k: Key)
    requires k in before
    ensures var ms := MarkedMap(before, ks, after);
      ms[k := ms[k].WithMark(Stamp(after, k))] == MarkedMap(before, ks + {k}, after)
  {
    MarkFacts(before[k], Stamp(after, k));
  }

  lemma RolledMapGrows(ms: map<Key, Machine>, ks: set<Key>, after: map<Key, Machine>, k: Key)
    requires k in ms && k in after
    ensures var now := RolledMap(ms, ks, after);
      (if after[k].Marked() then now else now[k := now[k].WithoutMark()]) == RolledMap(ms, ks + {k}, after)
  {
    MarkFacts(ms[k], "");
  }

  lemma MarkedMapIs(before: map<Key, Machine>, ks: set<Key>, after: map<Key, Machine>)
    requires D.MarkedAt(before, after, ks)
    ensures MarkedMap(before, ks, after) == after
  {
    forall k | k in ks { MarkIsStamp(before[k], after[k]); }
  }

  lemma RolledMapIs(before: map<Key, Machine>, ks: set<Key>, left: set<Key>, after: map<Key, Machine>)
    requires D.RolledBack(before, after, ks, left)
    ensures RolledMap(MarkedMap(before, ks, after), ks, after) == after
  {
    forall k | k in ks
      ensures RolledMap(MarkedMap(before, ks, after), ks, after)[k] == after[k]
    {
      MarkFacts(before[k], Stamp(after, k));
      if after[k].Marked() {
        if after[k] == before[k].WithoutMark() { assert false; }
        MarkIsStamp(before[k], after[k]);
      }
    }
  }

  // ----- marking, call by call

  lemma StepRead(s: State, b: nat, base: nat, inputs: seq<D.DeleteInput>, stages: seq<Stage>, ms: map<Key, Machine>,
                 i: nat)
    requires |stages| == |inputs| && i < |inputs| && stages[i] == Queued && inputs[i].machine in ms
    ensures var t := Where(s, b, base, inputs, stages, ms, Marking);
      Enabled(t, ReadMachine(base + i)) &&
      Do(t, ReadMachine(base + i)) ==
        Where(s, b, base, inputs, stages[i := Fetched(ms[inputs[i].machine])], ms, Marking)
  {
    SetStage(s.requests, b, base, inputs, stages, i, Fetched(ms[inputs[i].machine]));
  }

  lemma StepMark(s: State, b: nat, base: nat, inputs: seq<D.DeleteInput>, stages: seq<Stage>, ms: map<Key, Machine>,
                 i: nat, stamp: string)
    requires |stages| == |inputs| && i < |inputs| && inputs[i].machine in ms
    requires stages[i] == Fetched(ms[inputs[i].machine])
    ensures var t := Where(s, b, base, inputs, stages, ms, Marking);
      var k := inputs[i].machine;
      Enabled(t, MarkMachine(base + i, stamp)) &&
      Do(t, MarkMachine(base + i, stamp)) ==
        Where(s, b, base, inputs, stages[i := Placed], ms[k := ms[k].WithMark(stamp)], Marking)
  {
    SetStage(s.requests, b, base, inputs, stages, i, Placed);
    var k := inputs[i].machine;
    assert ms[k].Marked() ==> ms[k := ms[k].WithMark(stamp)] == ms;
  }

  lemma StepRefuse(s: State, b: nat, base: nat, inputs: seq<D.DeleteInput>, stages: seq<Stage>, ms: map<Key, Machine>,
                   i: nat)
    requires |stages| == |inputs| && i < |inputs| && stages[i] == Queued
    ensures var t := Where(s, b, base, inputs, stages, ms, Marking);
      Enabled(t, RefuseMachine(base + i)) &&
      Do(t, RefuseMachine(base + i)) == Where(s, b, base, inputs, stages[i := Refused], ms, Marking)
  {
    SetStage(s.requests, b, base, inputs, stages, i, Refused);
  }

  /** Where marking stands after `n` requests. */
  function StagesAt(annotated: seq<bool>, n: nat): seq<Stage> {
    seq(|annotated|, i requires 0 <= i < |annotated| =>
      if i >= n then Queued else if annotated[i] then Placed else Refused)
  }

  lemma Submitted(s: State, b: nat, base: nat, inputs: seq<D.DeleteInput>, annotated: seq<bool>)
    requires inputs != [] && |annotated| == |inputs| && FreshIds(s, b, base)
    ensures Enabled(s, SubmitDelete(b, Asks(base, inputs)))
    ensures Do(s, SubmitDelete(b, Asks(base, inputs))) ==
      Where(s, b, base, inputs, StagesAt(annotated, 0), s.machines, Marking)
  {
    assert base in Asks(base, inputs);
    assert Do(s, SubmitDelete(b, Asks(base, inputs))).requests ==
      s.requests + Requests(b, base, inputs, StagesAt(annotated, 0));
  }

  lemma MarkStages(annotated: seq<bool>, n: nat, copy: Machine)
    requires n < |annotated| && annotated[n]
    ensures StagesAt(annotated, n)[n] == Queued
    ensures StagesAt(annotated, n)[n := Fetched(copy)][n := Placed] == StagesAt(annotated, n + 1)
  {
  }

  lemma RefusalStages(annotated: seq<bool>, n: nat)
    requires n < |annotated| && !annotated[n]
    ensures StagesAt(annotated, n)[n] == Queued
    ensures StagesAt(annotated, n)[n := Refused] == StagesAt(annotated, n + 1)
  {
  }

  /** One request is marked. */
  lemma RunOneMark(s: State, run: Trace, b: nat, base: nat, inputs: seq<D.DeleteInput>, annotated: seq<bool>,
                   ms: map<Key, Machine>, stamp: string, n: nat, p: (State, Action) -> bool)
    returns (longer: Trace)
    requires |annotated| == |inputs| && n < |inputs| && annotated[n] && inputs[n].machine in ms
    requires Follows(s, run, p) && Lenient(p)
    requires Last(run) == Where(s, b, base, inputs, StagesAt(annotated, n), ms, Marking)
    ensures Follows(s, longer, p)
    ensures var k := inputs[n].machine;
      Last(longer) == Where(s, b, base, inputs, StagesAt(annotated, n + 1), ms[k := ms[k].WithMark(stamp)], Marking)
  {
    var k, stages := inputs[n].machine, StagesAt(annotated, n);
    MarkStages(annotated, n, ms[k]);
    StepRead(s, b, base, inputs, stages, ms, n);
    longer := Extend(s, run, ReadMachine(base + n), p);
    StepMark(s, b, base, inputs, stages[n := Fetched(ms[k])], ms, n, stamp);
    longer := Extend(s, longer, MarkMachine(base + n, stamp), p);
  }

  /** One request is refused. */
  lemma RunOneRefusal(s: State, run: Trace, b: nat, base: nat, inputs: seq<D.DeleteInput>, annotated: seq<bool>,
                      ms: map<Key, Machine>, n: nat, p: (State, Action) -> bool)
    returns (longer: Trace)
    requires |annotated| == |inputs| && n < |inputs| && !annotated[n]
    requires Follows(s, run, p) && Lenient(p)
    requires Last(run) == Where(s, b, base, inputs, StagesAt(annotated, n), ms, Marking)
    ensures Follows(s, longer, p)
    ensures Last(longer) == Where(s, b, base, inputs, StagesAt(annotated, n + 1), ms, Marking)
  {
    RefusalStages(annotated, n);
    StepRefuse(s, b, base, inputs, StagesAt(annotated, n), ms, n);
    longer := Extend(s, run, RefuseMachine(base + n), p);
  }

  lemma NothingMarked(ms: map<Key, Machine>, inputs: seq<D.DeleteInput>, annotated: seq<bool>, after: map<Key, Machine>)
    requires |annotated| == |inputs|
    ensures MarkedMap(ms, D.Targets(inputs[..0], annotated[..0]), after) == ms
  {
  }

  /** The Machines marked by the first `n` requests, one at a time. */
  lemma MarkedSoFar(ms: map<Key, Machine>, inputs: seq<D.DeleteInput>, annotated: seq<bool>, after: map<Key, Machine>,
                    n: nat)
    requires |annotated| == |inputs| && 0 < n <= |inputs| && D.Targets(inputs, annotated) <= ms.Keys
    ensures var before := MarkedMap(ms, D.Targets(inputs[..n - 1], annotated[..n - 1]), after);
      var now := MarkedMap(ms, D.Targets(inputs[..n], annotated[..n]), after);
      var k := inputs[n - 1].machine;
      if annotated[n - 1] then k in before && now == before[k := before[k].WithMark(Stamp(after, k))] else now == before
  {
    var ks := D.Targets(inputs[..n - 1], annotated[..n - 1]);
    D.TargetsSnoc(inputs, annotated, n - 1);
    if annotated[n - 1] {
      MarkedMapGrows(ms, ks, after, inputs[n - 1].machine);
    } else {
      assert ks + {} == ks;
    }
  }

  /** The first `n` requests are marked or refused. */
  lemma {:induction false} RunMarking(s: State, b: nat, base: nat, inputs: seq<D.DeleteInput>, annotated: seq<bool>,
                                      after: map<Key, Machine>, n: nat, p: (State, Action) -> bool)
    returns (run: Trace)
    requires inputs != [] && |annotated| == |inputs| && n <= |inputs| && FreshIds(s, b, base)
    requires D.Targets(inputs, annotated) <= s.machines.Keys
    requires Lenient(p) && p(s, SubmitDelete(b, Asks(base, inputs)))
    ensures Follows(s, run, p)
    ensures Last(run) == Where(s, b, base, inputs, StagesAt(annotated, n),
                                 MarkedMap(s.machines, D.Targets(inputs[..n], annotated[..n]), after), Marking)
  {
    if n == 0 {
      Submitted(s, b, base, inputs, annotated);
      run := Start(s, p);
      run := Extend(s, run, SubmitDelete(b, Asks(base, inputs)), p);
      NothingMarked(s.machines, inputs, annotated, after);
    } else {
      var k := inputs[n - 1].machine;
      var ms := MarkedMap(s.machines, D.Targets(inputs[..n - 1], annotated[..n - 1]), after);
      run := RunMarking(s, b, base, inputs, annotated, after, n - 1, p);
      MarkedSoFar(s.machines, inputs, annotated, after, n);
      if annotated[n - 1] {
        run := RunOneMark(s, run, b, base, inputs, annotated, ms, Stamp(after, k), n - 1, p);
      } else {
        run := RunOneRefusal(s, run, b, base, inputs, annotated, ms, n - 1, p);
      }
    }
  }

  // ----- the marks placed

  function PlacedIds(base: nat, annotated: seq<bool>): set<nat> {
    if annotated == [] then {}
    else
      var n := |annotated| - 1;
      PlacedIds(base, annotated[..n]) + if annotated[n] then {base + n} else {}
  }

  lemma {:induction false} PlacedIdsFacts(base: nat, annotated: seq<bool>)
    ensures forall q :: q in PlacedIds(base, annotated) <==> base <= q < base + |annotated| && annotated[q - base]
    ensures |PlacedIds(base, annotated)| == D.Count(annotated)
  {
    if annotated != [] {
      var n := |annotated| - 1;
      PlacedIdsFacts(base, annotated[..n]);
      assert forall i | 0 <= i < n :: annotated[..n][i] == annotated[i];
    }
  }

  /** The requests of the system are the earlier ones and the execution's. */
  lemma RequestsFacts(s: State, b: nat, base: nat, inputs: seq<D.DeleteInput>, stages: seq<Stage>, q: nat)
    requires |stages| == |inputs| && FreshIds(s, b, base)
    ensures var qs := s.requests + Requests(b, base, inputs, stages);
      && (q in qs <==> q in s.requests || base <= q < base + |inputs|)
      && (base <= q < base + |inputs| ==> qs[q] == Request(b, inputs[q - base].machine, stages[q - base]))
      && (q in s.requests ==> qs[q] == s.requests[q] && qs[q].batch != b)
  {
  }

  lemma PlacedAre(s: State, b: nat, base: nat, inputs: seq<D.DeleteInput>, annotated: seq<bool>)
    requires |annotated| == |inputs| && FreshIds(s, b, base)
    ensures PlacedBy(s.requests + Requests(b, base, inputs, StagesAt(annotated, |inputs|)), b)
         == PlacedIds(base, annotated)
  {
    var stages := StagesAt(annotated, |inputs|);
    var qs := s.requests + Requests(b, base, inputs, stages);
    PlacedIdsFacts(base, annotated);
    forall q: nat
      ensures q in PlacedBy(qs, b) <==> q in PlacedIds(base, annotated)
    {
      RequestsFacts(s, b, base, inputs, stages, q);
    }
  }

  lemma PlacedCount(s: State, b: nat, base: nat, inputs: seq<D.DeleteInput>, annotated: seq<bool>)
    requires |annotated| == |inputs| && FreshIds(s, b, base)
    ensures |PlacedBy(s.requests + Requests(b, base, inputs, StagesAt(annotated, |inputs|)), b)| == D.Count(annotated)
  {
    PlacedAre(s, b, base, inputs, annotated);
    PlacedIdsFacts(base, annotated);
  }

  lemma NoneEarly(s: State, b: nat, base: nat, inputs: seq<D.DeleteInput>, annotated: seq<bool>)
    requires |annotated| == |inputs| && FreshIds(s, b, base)
    ensures var qs := s.requests + Requests(b, base, inputs, StagesAt(annotated, |inputs|));
      forall q | q in qs && qs[q].batch == b :: !qs[q].Early()
  {
    var stages := StagesAt(annotated, |inputs|);
    var qs := s.requests + Requests(b, base, inputs, stages);
    forall q | q in qs && qs[q].batch == b
      ensures !qs[q].Early()
    {
      RequestsFacts(s, b, base, inputs, stages, q);
    }
  }

  /** Storing the lowered replicas settles exactly the requests that were marked. */
  lemma AllSettle(s: State, b: nat, base: nat, inputs: seq<D.DeleteInput>, annotated: seq<bool>)
    requires |annotated| == |inputs| && FreshIds(s, b, base)
    ensures Settle(s.requests + Requests(b, base, inputs, StagesAt(annotated, |inputs|)), b)
         == s.requests + Requests(b, base, inputs, StagesUndone(annotated, |inputs|))
  {
    var qs := s.requests + Requests(b, base, inputs, StagesAt(annotated, |inputs|));
    var done := s.requests + Requests(b, base, inputs, StagesUndone(annotated, |inputs|));
    PlacedAre(s, b, base, inputs, annotated);
    PlacedIdsFacts(base, annotated);
    forall q: nat
      ensures q in qs <==> q in done
      ensures q in qs ==> Settle(qs, b)[q] == done[q]
    {
      RequestsFacts(s, b, base, inputs, StagesAt(annotated, |inputs|), q);
      RequestsFacts(s, b, base, inputs, StagesUndone(annotated, |inputs|), q);
    }
  }

  /** Where undoing stands after `n` requests. */
  function StagesUndone(annotated: seq<bool>, n: nat): seq<Stage> {
    seq(|annotated|, i requires 0 <= i < |annotated| =>
      if !annotated[i] then Refused else if i >= n then Placed else Stage.Settled)
  }

  /** Only the batch's phase changes. */
  lemma WhereNext(s: State, b: nat, base: nat, inputs: seq<D.DeleteInput>, stages: seq<Stage>, ms: map<Key, Machine>,
                  x: Phase, y: Phase)
    requires |stages| == |inputs|
    ensures var t := Where(s, b, base, inputs, stages, ms, x);
      t.(batches := t.batches[b := Batch(false, y)]) == Where(s, b, base, inputs, stages, ms, y)
  {
  }

  lemma EndsMarking(t: State, b: nat, n: nat)
    requires b in t.batches && t.batches[b] == Batch(false, Marking) && n == |PlacedBy(t.requests, b)|
    requires forall q | q in t.requests && t.requests[q].batch == b :: !t.requests[q].Early()
    ensures Enabled(t, EndMarking(b))
    ensures Do(t, EndMarking(b)) == t.(batches := t.batches[b := Batch(false, AfterMarking(n))])
  {
  }

  function AfterMarking(n: nat): Phase { if n == 0 then Phase.Done(true) else Ready(n) }

  /** Marking is over: the execution knows how many marks it placed. */
  lemma StepEndMarking(s: State, b: nat, base: nat, inputs: seq<D.DeleteInput>, annotated: seq<bool>,
                       ms: map<Key, Machine>, t: State)
    requires |annotated| == |inputs| && FreshIds(s, b, base)
    requires t == Where(s, b, base, inputs, StagesAt(annotated, |inputs|), ms, Marking)
    ensures Enabled(t, EndMarking(b))
    ensures Do(t, EndMarking(b)) == t.(batches := t.batches[b := Batch(false, AfterMarking(D.Count(annotated)))])
  {
    NoneEarly(s, b, base, inputs, annotated);
    PlacedCount(s, b, base, inputs, annotated);
    assert t.batches[b] == Batch(false, Marking);
    EndsMarking(t, b, D.Count(annotated));
  }

  // ----- the critical section

  lemma StoreAndSettle(v: State, b: nat, n: nat)
    requires b in v.batches && v.batches[b] == Batch(false, Read(n, v.replicas))
    requires 0 <= v.replicas <= MAX_INT32 && n <= MAX_INT32
    ensures Enabled(v, Store(b)) && Enabled(Do(v, Store(b)), Release(b))
    ensures Do(Do(v, Store(b)), Release(b)) ==
      v.(requests := Settle(v.requests, b), batches := v.batches[b := Batch(false, Phase.Done(true))],
         replicas := Max(0, v.replicas - n), holder := None, log := v.log + [Section(b, Lower(n))])
  {
    LoweredExact(v.replicas, n);
    var w := Do(v, Store(b));
    assert w.batches == v.batches[b := Batch(false, Leaving(n, Lower(n)))];
  }

  lemma FailAndRelease(u: State, b: nat, n: nat)
    requires b in u.batches && u.batches[b] == Batch(false, Ready(n)) && u.holder == None
    ensures Enabled(u, Acquire(b)) && Enabled(Do(u, Acquire(b)), ReadFails(b))
    ensures var w := Do(Do(u, Acquire(b)), ReadFails(b));
      Enabled(w, Release(b)) && Do(w, Release(b)) ==
        u.(batches := u.batches[b := Batch(false, Phase.Done(false))],
           order := u.order + [Entry(b, 0)], log := u.log + [Section(b, Nothing)])
  {
    var v := Do(u, Acquire(b));
    assert v.batches == u.batches[b := Batch(false, Phase.Locked(n))];
    assert Do(v, ReadFails(b)).batches == u.batches[b := Batch(false, Leaving(n, Nothing))];
  }

  /** The section up to its write. */
  lemma RunToStore(s: State, run: Trace, b: nat, n: nat, p: (State, Action) -> bool) returns (longer: Trace)
    requires Follows(s, run, p) && Lenient(p)
    requires b in Last(run).batches && Last(run).batches[b] == Batch(false, Ready(n)) && Last(run).holder == None
    ensures Follows(s, longer, p)
    ensures var u := Last(run);
      Last(longer) == u.(batches := u.batches[b := Batch(false, Read(n, u.replicas))],
                           holder := Some(b), order := u.order + [Entry(b, 0)])
  {
    FleetLimits.AcquireAndRead(Last(run), b, n);
    longer := Extend(s, run, Acquire(b), p);
    longer := Extend(s, longer, ReadReplicas(b), p);
  }

  lemma RunStore(s: State, run: Trace, b: nat, n: nat, p: (State, Action) -> bool) returns (longer: Trace)
    requires Follows(s, run, p) && Lenient(p)
    requires b in Last(run).batches && Last(run).batches[b] == Batch(false, Read(n, Last(run).replicas))
    requires 0 <= Last(run).replicas <= MAX_INT32 && n <= MAX_INT32
    ensures Follows(s, longer, p)
    ensures var v := Last(run);
      Last(longer) ==
        v.(requests := Settle(v.requests, b), batches := v.batches[b := Batch(false, Phase.Done(true))],
           replicas := Max(0, v.replicas - n), holder := None, log := v.log + [Section(b, Lower(n))])
  {
    StoreAndSettle(Last(run), b, n);
    longer := Extend(s, run, Store(b), p);
    longer := Extend(s, longer, Release(b), p);
  }

  /** The section that lowers the replicas. */
  lemma RunLower(s: State, run: Trace, b: nat, n: nat, p: (State, Action) -> bool) returns (longer: Trace)
    requires Follows(s, run, p) && Lenient(p)
    requires b in Last(run).batches && Last(run).batches[b] == Batch(false, Ready(n)) && Last(run).holder == None
    requires 0 <= Last(run).replicas <= MAX_INT32 && n <= MAX_INT32
    ensures Follows(s, longer, p)
    ensures var u := Last(run);
      Last(longer) == u.(requests := Settle(u.requests, b), batches := u.batches[b := Batch(false, Phase.Done(true))],
                           replicas := Max(0, u.replicas - n), order := u.order + [Entry(b, 0)],
                           log := u.log + [Section(b, Lower(n))])
  {
    var u := Last(run);
    longer := RunToStore(s, run, b, n, p);
    longer := RunStore(s, longer, b, n, p);
    assert u.batches[b := Batch(false, Read(n, u.replicas))][b := Batch(false, Phase.Done(true))]
        == u.batches[b := Batch(false, Phase.Done(true))];
  }

  /** The section that fails. */
  lemma RunFail(s: State, run: Trace, b: nat, n: nat, p: (State, Action) -> bool) returns (longer: Trace)
    requires Follows(s, run, p) && Lenient(p)
    requires b in Last(run).batches && Last(run).batches[b] == Batch(false, Ready(n)) && Last(run).holder == None
    ensures Follows(s, longer, p)
    ensures var u := Last(run);
      Last(longer) == u.(batches := u.batches[b := Batch(false, Phase.Done(false))],
                           order := u.order + [Entry(b, 0)], log := u.log + [Section(b, Nothing)])
  {
    FailAndRelease(Last(run), b, n);
    longer := Extend(s, run, Acquire(b), p);
    longer := Extend(s, longer, ReadFails(b), p);
    longer := Extend(s, longer, Release(b), p);
  }

  // ----- undoing, call by call

  lemma StepReadMark(s: State, b: nat, base: nat, inputs: seq<D.DeleteInput>, stages: seq<Stage>,
                     ms: map<Key, Machine>, i: nat)
    requires |stages| == |inputs| && i < |inputs| && stages[i] == Placed && inputs[i].machine in ms
    ensures var t := Where(s, b, base, inputs, stages, ms, Phase.Done(false));
      Enabled(t, ReadMark(base + i)) &&
      Do(t, ReadMark(base + i)) ==
        Where(s, b, base, inputs, stages[i := Undoing(ms[inputs[i].machine])], ms, Phase.Done(false))
  {
    SetStage(s.requests, b, base, inputs, stages, i, Undoing(ms[inputs[i].machine]));
  }

  lemma StepRemoveMark(s: State, b: nat, base: nat, inputs: seq<D.DeleteInput>, stages: seq<Stage>,
                       ms: map<Key, Machine>, i: nat)
    requires |stages| == |inputs| && i < |inputs| && inputs[i].machine in ms
    requires stages[i] == Undoing(ms[inputs[i].machine])
    ensures var t := Where(s, b, base, inputs, stages, ms, Phase.Done(false));
      var k := inputs[i].machine;
      Enabled(t, RemoveMark(base + i)) &&
      Do(t, RemoveMark(base + i)) ==
        Where(s, b, base, inputs, stages[i := Stage.Settled], ms[k := ms[k].WithoutMark()], Phase.Done(false))
  {
    SetStage(s.requests, b, base, inputs, stages, i, Stage.Settled);
    var k := inputs[i].machine;
    if !ms[k].Marked() {
      assert ms[k].annotations - {DELETE_ANNOTATION} == ms[k].annotations;
      assert ms[k := ms[k].WithoutMark()] == ms;
    }
  }

  lemma StepAbandon(s: State, b: nat, base: nat, inputs: seq<D.DeleteInput>, stages: seq<Stage>,
                    ms: map<Key, Machine>, i: nat)
    requires |stages| == |inputs| && i < |inputs| && stages[i] == Placed
    ensures var t := Where(s, b, base, inputs, stages, ms, Phase.Done(false));
      Enabled(t, AbandonMark(base + i)) &&
      Do(t, AbandonMark(base + i)) == Where(s, b, base, inputs, stages[i := Stage.Settled], ms, Phase.Done(false))
  {
    SetStage(s.requests, b, base, inputs, stages, i, Stage.Settled);
  }

  lemma RemovalStages(annotated: seq<bool>, n: nat, copy: Machine)
    requires n < |annotated| && annotated[n]
    ensures StagesUndone(annotated, n)[n] == Placed
    ensures StagesUndone(annotated, n)[n := Undoing(copy)][n := Stage.Settled] == StagesUndone(annotated, n + 1)
  {
  }

  lemma AbandonStages(annotated: seq<bool>, n: nat)
    requires n < |annotated| && annotated[n]
    ensures StagesUndone(annotated, n)[n] == Placed
    ensures StagesUndone(annotated, n)[n := Stage.Settled] == StagesUndone(annotated, n + 1)
  {
  }

  lemma SkippedStages(annotated: seq<bool>, n: nat)
    requires n < |annotated| && !annotated[n]
    ensures StagesUndone(annotated, n) == StagesUndone(annotated, n + 1)
  {
  }

  lemma UndoneAtFirst(annotated: seq<bool>)
    ensures StagesAt(annotated, |annotated|) == StagesUndone(annotated, 0)
  {
  }

  /** One rollback that works. */
  lemma RunOneRemoval(s: State, run: Trace, s1: State, b: nat, base: nat, inputs: seq<D.DeleteInput>,
                      annotated: seq<bool>, ms: map<Key, Machine>, n: nat, p: (State, Action) -> bool)
    returns (longer: Trace)
    requires |annotated| == |inputs| && n < |inputs| && annotated[n] && inputs[n].machine in ms
    requires Follows(s, run, p) && Lenient(p)
    requires Last(run) == Where(s1, b, base, inputs, StagesUndone(annotated, n), ms, Phase.Done(false))
    ensures Follows(s, longer, p)
    ensures var k := inputs[n].machine;
      Last(longer) == Where(s1, b, base, inputs, StagesUndone(annotated, n + 1),
                              ms[k := ms[k].WithoutMark()], Phase.Done(false))
  {
    var k, stages := inputs[n].machine, StagesUndone(annotated, n);
    RemovalStages(annotated, n, ms[k]);
    StepReadMark(s1, b, base, inputs, stages, ms, n);
    longer := Extend(s, run, ReadMark(base + n), p);
    StepRemoveMark(s1, b, base, inputs, stages[n := Undoing(ms[k])], ms, n);
    longer := Extend(s, longer, RemoveMark(base + n), p);
  }

  /** One rollback that fails. */
  lemma RunOneAbandon(s: State, run: Trace, s1: State, b: nat, base: nat, inputs: seq<D.DeleteInput>,
                      annotated: seq<bool>, ms: map<Key, Machine>, n: nat, p: (State, Action) -> bool)
    returns (longer: Trace)
    requires |annotated| == |inputs| && n < |inputs| && annotated[n]
    requires Follows(s, run, p) && Lenient(p)
    requires Last(run) == Where(s1, b, base, inputs, StagesUndone(annotated, n), ms, Phase.Done(false))
    ensures Follows(s, longer, p)
    ensures Last(longer) == Where(s1, b, base, inputs, StagesUndone(annotated, n + 1), ms, Phase.Done(false))
  {
    AbandonStages(annotated, n);
    StepAbandon(s1, b, base, inputs, StagesUndone(annotated, n), ms, n);
    longer := Extend(s, run, AbandonMark(base + n), p);
  }

  /** The Machines rolled back by the first `n` requests, one at a time. */
  lemma RolledSoFar(ms: map<Key, Machine>, inputs: seq<D.DeleteInput>, annotated: seq<bool>, after: map<Key, Machine>,
                    n: nat)
    requires |annotated| == |inputs| && 0 < n <= |inputs| && D.Targets(inputs, annotated) <= ms.Keys
    requires after.Keys == ms.Keys
    ensures var before := RolledMap(ms, D.Targets(inputs[..n - 1], annotated[..n - 1]), after);
      var now := RolledMap(ms, D.Targets(inputs[..n], annotated[..n]), after);
      var k := inputs[n - 1].machine;
      if annotated[n - 1] then
        k in before && k in after && now == if after[k].Marked() then before else before[k := before[k].WithoutMark()]
      else now == before
  {
    var ks := D.Targets(inputs[..n - 1], annotated[..n - 1]);
    D.TargetsSnoc(inputs, annotated, n - 1);
    if annotated[n - 1] {
      RolledMapGrows(ms, ks, after, inputs[n - 1].machine);
    } else {
      assert ks + {} == ks;
    }
  }

  lemma NothingRolled(ms: map<Key, Machine>, inputs: seq<D.DeleteInput>, annotated: seq<bool>, after: map<Key, Machine>)
    requires |annotated| == |inputs|
    ensures RolledMap(ms, D.Targets(inputs[..0], annotated[..0]), after) == ms
  {
  }

  /** The first `n` requests are rolled back. */
  lemma {:induction false} RunUndoing(s: State, run: Trace, s1: State, b: nat, base: nat, inputs: seq<D.DeleteInput>,
                                      annotated: seq<bool>, ms: map<Key, Machine>, after: map<Key, Machine>, n: nat,
                                      p: (State, Action) -> bool)
    returns (longer: Trace)
    requires |annotated| == |inputs| && n <= |inputs|
    requires D.Targets(inputs, annotated) <= ms.Keys && after.Keys == ms.Keys
    requires Follows(s, run, p) && Lenient(p)
    requires Last(run) == Where(s1, b, base, inputs, StagesUndone(annotated, 0), ms, Phase.Done(false))
    ensures Follows(s, longer, p)
    ensures Last(longer) == Where(s1, b, base, inputs, StagesUndone(annotated, n),
                                    RolledMap(ms, D.Targets(inputs[..n], annotated[..n]), after), Phase.Done(false))
    decreases n
  {
    if n == 0 {
      longer := run;
      NothingRolled(ms, inputs, annotated, after);
    } else {
      var k := inputs[n - 1].machine;
      var so := RolledMap(ms, D.Targets(inputs[..n - 1], annotated[..n - 1]), after);
      longer := RunUndoing(s, run, s1, b, base, inputs, annotated, ms, after, n - 1, p);
      RolledSoFar(ms, inputs, annotated, after, n);
      if annotated[n - 1] && after[k].Marked() {
        longer := RunOneAbandon(s, longer, s1, b, base, inputs, annotated, so, n - 1, p);
      } else if annotated[n - 1] {
        longer := RunOneRemoval(s, longer, s1, b, base, inputs, annotated, so, n - 1, p);
      } else {
        SkippedStages(annotated, n - 1);
      }
    }
  }

  // ----- the whole execution

  /** One deployment's share of a store. */
  function Only(ms: map<Key, Machine>, own: set<Key>): map<Key, Machine> { map k | k in ms && k in own :: ms[k] }

  lemma MarkedOnly(before: map<Key, Machine>, after: map<Key, Machine>, ks: set<Key>, own: set<Key>)
    requires D.MarkedAt(before, after, ks) && ks <= own
    ensures D.MarkedAt(Only(before, own), Only(after, own), ks)
  {
  }

  lemma RolledOnly(before: map<Key, Machine>, after: map<Key, Machine>, ks: set<Key>, left: set<Key>, own: set<Key>)
    requires D.RolledBack(before, after, ks, left) && ks <= own
    ensures D.RolledBack(Only(before, own), Only(after, own), ks, left)
  {
  }

  /** What the run of an execution comes to: the requests settled, nothing held, and in the
      Machines and the replicas what the executor left. */
  predicate Executed(s: State, t: State, b: nat, base: nat, inputs: seq<D.DeleteInput>, stages: seq<Stage>,
                     ms: map<Key, Machine>, replicas: int, ok: bool)
  {
    && |stages| == |inputs| && (forall i | 0 <= i < |stages| :: stages[i] in {Stage.Settled, Refused})
    && t.requests == s.requests + Requests(b, base, inputs, stages)
    && t.batches == s.batches[b := Batch(false, Phase.Done(ok))]
    && t.machines == ms && t.replicas == replicas && t.holder == None
    && t.bindings == s.bindings && t.initial == s.initial
  }

  /** Everybody marked or refused, and the count taken. */
  lemma RunToCount(s: State, b: nat, base: nat, inputs: seq<D.DeleteInput>, annotated: seq<bool>,
                   after: map<Key, Machine>, p: (State, Action) -> bool)
    returns (run: Trace)
    requires inputs != [] && |annotated| == |inputs| && FreshIds(s, b, base)
    requires D.Targets(inputs, annotated) <= s.machines.Keys
    requires Lenient(p) && p(s, SubmitDelete(b, Asks(base, inputs)))
    ensures Follows(s, run, p)
    ensures Last(run) == Where(s, b, base, inputs, StagesAt(annotated, |inputs|),
                                 MarkedMap(s.machines, D.Targets(inputs, annotated), after),
                                 AfterMarking(D.Count(annotated)))
  {
    var n := |inputs|;
    run := RunMarking(s, b, base, inputs, annotated, after, n, p);
    assert inputs[..n] == inputs && annotated[..n] == annotated;
    var ms := MarkedMap(s.machines, D.Targets(inputs, annotated), after);
    StepEndMarking(s, b, base, inputs, annotated, ms, Last(run));
    WhereNext(s, b, base, inputs, StagesAt(annotated, n), ms, Marking, AfterMarking(D.Count(annotated)));
    run := Extend(s, run, EndMarking(b), p);
  }

  /** Nobody could be marked. */
  lemma RunRefused(s: State, b: nat, base: nat, inputs: seq<D.DeleteInput>, annotated: seq<bool>,
                   p: (State, Action) -> bool)
    returns (run: Trace)
    requires inputs != [] && |annotated| == |inputs| && FreshIds(s, b, base) && D.Count(annotated) == 0
    requires Lenient(p) && p(s, SubmitDelete(b, Asks(base, inputs)))
    ensures Follows(s, run, p)
    ensures Executed(s, Last(run), b, base, inputs, StagesAt(annotated, |inputs|), s.machines, s.replicas, true)
  {
    D.CountPositive(inputs, annotated);
    run := RunToCount(s, b, base, inputs, annotated, map[], p);
    assert MarkedMap(s.machines, {}, map[]) == s.machines;
  }

  /** The marks are placed and counted off. */
  lemma RunDone(s: State, b: nat, base: nat, inputs: seq<D.DeleteInput>, annotated: seq<bool>,
                after: map<Key, Machine>, p: (State, Action) -> bool)
    returns (run: Trace)
    requires inputs != [] && |annotated| == |inputs| <= MAX_INT32 && FreshIds(s, b, base) && D.Count(annotated) != 0
    requires D.MarkedAt(s.machines, after, D.Targets(inputs, annotated)) && 0 <= s.replicas <= MAX_INT32
    requires Lenient(p) && p(s, SubmitDelete(b, Asks(base, inputs)))
    ensures Follows(s, run, p)
    ensures Executed(s, Last(run), b, base, inputs, StagesUndone(annotated, |inputs|), after,
                     Max(0, s.replicas - D.Count(annotated)), true)
  {
    var n := D.Count(annotated);
    DeleteTheorems.CountBound(annotated);
    run := RunToCount(s, b, base, inputs, annotated, after, p);
    MarkedMapIs(s.machines, D.Targets(inputs, annotated), after);
    var u := Last(run);
    run := RunLower(s, run, b, n, p);
    AllSettle(s, b, base, inputs, annotated);
    ExecutedIs(s, u, Last(run), b, base, inputs, annotated, after);
  }

  lemma StagesAreFinal(annotated: seq<bool>)
    ensures forall i | 0 <= i < |annotated| :: StagesUndone(annotated, |annotated|)[i] in {Stage.Settled, Refused}
  {
  }

  lemma LastPhase(batches: map<nat, Batch>, b: nat, x: Batch, y: Batch)
    ensures batches[b := x][b := y] == batches[b := y]
  {
  }

  lemma ExecutedIs(s: State, u: State, t: State, b: nat, base: nat, inputs: seq<D.DeleteInput>, annotated: seq<bool>,
                   after: map<Key, Machine>)
    requires |annotated| == |inputs|
    requires u == Where(s, b, base, inputs, StagesAt(annotated, |inputs|), after, Ready(D.Count(annotated)))
    requires t.requests == s.requests + Requests(b, base, inputs, StagesUndone(annotated, |inputs|))
    requires t.batches == u.batches[b := Batch(false, Phase.Done(true))]
    requires t.machines == u.machines && t.replicas == Max(0, u.replicas - D.Count(annotated))
    requires t.holder == None && t.bindings == u.bindings && t.initial == u.initial
    ensures Executed(s, t, b, base, inputs, StagesUndone(annotated, |inputs|), after,
                     Max(0, s.replicas - D.Count(annotated)), true)
  {
    StagesAreFinal(annotated);
    LastPhase(s.batches, b, Batch(false, Ready(D.Count(annotated))), Batch(false, Phase.Done(true)));
  }

  /** The section failed, and the marks are undone but those whose rollback failed. */
  lemma RunCompensated(s: State, b: nat, base: nat, inputs: seq<D.DeleteInput>, annotated: seq<bool>, left: set<Key>,
                       after: map<Key, Machine>, p: (State, Action) -> bool)
    returns (run: Trace)
    requires inputs != [] && |annotated| == |inputs| && FreshIds(s, b, base) && D.Count(annotated) != 0
    requires D.RolledBack(s.machines, after, D.Targets(inputs, annotated), left)
    requires Lenient(p) && p(s, SubmitDelete(b, Asks(base, inputs)))
    ensures Follows(s, run, p)
    ensures Executed(s, Last(run), b, base, inputs, StagesUndone(annotated, |inputs|), after, s.replicas, false)
  {
    var n, ks := |inputs|, D.Targets(inputs, annotated);
    var ms := MarkedMap(s.machines, ks, after);
    run := RunToCount(s, b, base, inputs, annotated, after, p);
    run := RunFail(s, run, b, D.Count(annotated), p);
    var s1 := s.(order := s.order + [Entry(b, 0)], log := s.log + [Section(b, Nothing)]);
    UndoneAtFirst(annotated);
    AfterFail(s, s1, b, base, inputs, StagesAt(annotated, n), ms, D.Count(annotated));
    run := RunUndoing(s, run, s1, b, base, inputs, annotated, ms, after, n, p);
    assert inputs[..n] == inputs && annotated[..n] == annotated;
    RolledMapIs(s.machines, ks, left, after);
  }

  lemma AfterFail(s: State, s1: State, b: nat, base: nat, inputs: seq<D.DeleteInput>, stages: seq<Stage>,
                  ms: map<Key, Machine>, n: nat)
    requires |stages| == |inputs|
    requires s1 == s.(order := s.order + [Entry(b, 0)], log := s.log + [Section(b, Nothing)])
    ensures var u := Where(s, b, base, inputs, stages, ms, Ready(n));
      u.(batches := u.batches[b := Batch(false, Phase.Done(false))],
         order := u.order + [Entry(b, 0)], log := u.log + [Section(b, Nothing)])
      == Where(s1, b, base, inputs, stages, ms, Phase.Done(false))
  {
    WhereNext(s, b, base, inputs, stages, ms, Ready(n), Phase.Done(false));
  }

  lemma {:induction false} ExecutionTrace(
    w: World, inputs: seq<D.DeleteInput>, results: seq<Result<D.DeleteOutput>>, annotated: seq<bool>, left: set<Key>,
    v: World, d: Key, own: set<Key>, s: State, b: nat, base: nat, p: (State, Action) -> bool)
    returns (run: Trace, stages: seq<Stage>, ok: bool)
    requires inputs != [] && inputs[0].deployment == d && |inputs| <= MAX_INT32
    requires D.DeleteEffect(w, inputs, results, annotated, left, v) && D.Targets(inputs, annotated) <= own
    requires s.machines == Only(w.machines, own) && s.replicas == CreateRuns.ReplicasOf(w, d)
    requires 0 <= s.replicas <= MAX_INT32
    requires FreshIds(s, b, base) && Lenient(p) && p(s, SubmitDelete(b, Asks(base, inputs)))
    ensures Follows(s, run, p)
    ensures Executed(s, Last(run), b, base, inputs, stages, Only(v.machines, own), CreateRuns.ReplicasOf(v, d), ok)
    ensures ok <==> D.Count(annotated) == 0 || exists i :: 0 <= i < |results| && results[i].Success()
  {
    var ks := D.Targets(inputs, annotated);
    D.CountPositive(inputs, annotated);
    if D.Count(annotated) == 0 {
      stages, ok := StagesAt(annotated, |inputs|), true;
      run := RunRefused(s, b, base, inputs, annotated, p);
    } else if D.Done(w, inputs, results, annotated, v) {
      stages, ok := StagesUndone(annotated, |inputs|), true;
      var i :| 0 <= i < |annotated| && annotated[i];
      assert results[i].Success();
      MarkedOnly(w.machines, v.machines, ks, own);
      run := RunDone(s, b, base, inputs, annotated, Only(v.machines, own), p);
      DeleteTheorems.CountBound(annotated);
      LoweredExact(s.replicas, D.Count(annotated));
    } else {
      stages, ok := StagesUndone(annotated, |inputs|), false;
      RolledOnly(w.machines, v.machines, ks, left, own);
      run := RunCompensated(s, b, base, inputs, annotated, left, Only(v.machines, own), p);
    }
  }

  /**
   Main result: any execution of the delete executor, from a store whose share `own` is
   what system state `s` shows, is a run of the system by single API calls. The run ends
   with the executor's Machines and replicas, its batch done, and none of its requests
   active; and it obeys any discipline that lets its submission through.
   */
  lemma {:induction false} DeleteExecutionIsRun(
    w: World, inputs: seq<D.DeleteInput>, results: seq<Result<D.DeleteOutput>>, annotated: seq<bool>, left: set<Key>,
    v: World, d: Key, own: set<Key>, s: State, b: nat, base: nat, p: (State, Action) -> bool)
    returns (run: seq<Action>, stages: seq<Stage>, ok: bool)
    requires inputs != [] && inputs[0].deployment == d && |inputs| <= MAX_INT32
    requires D.DeleteEffect(w, inputs, results, annotated, left, v) && D.Targets(inputs, annotated) <= own
    requires s.machines == Only(w.machines, own)
    requires s.replicas == CreateRuns.ReplicasOf(w, d) && 0 <= s.replicas <= MAX_INT32
    requires FreshIds(s, b, base) && Lenient(p) && p(s, SubmitDelete(b, Asks(base, inputs)))
    ensures Legal(s, run) && AllAlong(s, run, p)
    ensures Executed(s, End(s, run), b, base, inputs, stages, Only(v.machines, own), CreateRuns.ReplicasOf(v, d), ok)
    ensures ok <==> D.Count(annotated) == 0 || exists i :: 0 <= i < |results| && results[i].Success()
  {
    var trace;
    trace, stages, ok := ExecutionTrace(w, inputs, results, annotated, left, v, d, own, s, b, base, p);
    IsRun(s, trace, p);
    run := trace.actions;
  }
}
