/** Both halves of `FleetSafety.Disciplined` are needed: where each bites, and a run that goes wrong without it. */
module FleetLimits {
  import opened Common
  import opened Machines
  import opened Replicas
  import opened Fleet
  import opened FleetSafety
  import opened FleetTraces
  import FleetOrder

  /** Where the replicas leave no slack, marking keeps the balance exactly when
      the Machine was neither marked nor deleting before. */
  lemma MarkBalancedIff(s: State, q: nat, stamp: string)
    requires Enabled(s, MarkMachine(q, stamp)) && Balance(s)
    requires |Usable(s.machines)| + |InFlight(s.requests)| == s.replicas
    requires s.requests[q].machine in s.machines && s.requests[q].stage.copy == s.machines[s.requests[q].machine]
    ensures Balance(Do(s, MarkMachine(q, stamp))) <==> s.requests[q].stage.copy.Usable()
  {
    var r := s.requests[q];
    MachineSetUpdate(s.machines, r.machine, r.stage.copy.WithMark(stamp));
    RequestUpdate(s.requests, q, r.(stage := Placed));
    assert q !in InFlight(s.requests);
  }

  /** Likewise, writing a label back keeps the balance exactly when it does not
      bring a marked or deleting Machine back from an older copy. */
  lemma WriteBalancedIff(s: State, i: nat, claim: bool)
    requires Enabled(s, WriteLabel(i, claim)) && Balance(s)
    requires |Usable(s.machines)| + |InFlight(s.requests)| == s.replicas
    requires s.bindings[i].machine in s.machines
    requires s.bindings[i].copy.deleting ==> s.machines[s.bindings[i].machine].deleting
    ensures Balance(Do(s, WriteLabel(i, claim)))
       <==> (s.bindings[i].copy.Usable() ==> s.machines[s.bindings[i].machine].Usable())
  {
    var c := s.bindings[i];
    MachineSetUpdate(s.machines, c.machine, if claim then c.copy.Labelled() else c.copy.Unlabelled());
  }

  /** Nothing is going on that could interfere with a new delete batch `b`. */
  predicate Quiet(s: State, b: nat, q: nat, k: Key) {
    && b !in s.batches && q !in s.requests && k in s.machines && s.holder == None
    && forall r | r in s.requests :: s.requests[r].batch != b
  }

  /** What a delete batch of one request comes to when nothing fails or interferes. */
  function AfterDeleteOne(s: State, b: nat, q: nat, k: Key): State
    requires k in s.machines
  {
    s.(machines := s.machines[k := s.machines[k].WithMark("")],
       requests := s.requests[q := Request(b, k, Fleet.Settled)],
       batches := s.batches[b := Batch(false, Done(true))],
       replicas := Max(0, s.replicas - 1),
       order := s.order + [Entry(b, 0)],
       log := s.log + [Section(b, Lower(1))])
  }

  function AfterMarkOne(s: State, b: nat, q: nat, k: Key): State
    requires k in s.machines
  {
    s.(machines := s.machines[k := s.machines[k].WithMark("")],
       requests := s.requests[q := Request(b, k, Placed)],
       batches := s.batches[b := Batch(false, Ready(1))])
  }

  lemma SubmitAndRead(t: State, b: nat, q: nat, k: Key)
    requires Quiet(t, b, q, k)
    ensures Enabled(t, SubmitDelete(b, map[q := k]))
    ensures var u := Do(t, SubmitDelete(b, map[q := k]));
      Enabled(u, ReadMachine(q)) && Do(u, ReadMachine(q)) ==
        t.(requests := t.requests[q := Request(b, k, Fetched(t.machines[k]))],
           batches := t.batches[b := Batch(false, Marking)])
  {
    assert q in map[q := k];
    var u := Do(t, SubmitDelete(b, map[q := k]));
    assert u.requests == t.requests[q := Request(b, k, Queued)];
    assert Do(u, ReadMachine(q)).requests == t.requests[q := Request(b, k, Fetched(t.machines[k]))];
  }

  lemma MarkAndEnd(t: State, u: State, b: nat, q: nat, k: Key)
    requires Quiet(t, b, q, k)
    requires u == t.(requests := t.requests[q := Request(b, k, Fetched(t.machines[k]))],
                     batches := t.batches[b := Batch(false, Marking)])
    ensures Enabled(u, MarkMachine(q, ""))
    ensures var v := Do(u, MarkMachine(q, ""));
      PlacedBy(v.requests, b) == {q} && Enabled(v, EndMarking(b)) && Do(v, EndMarking(b)) == AfterMarkOne(t, b, q, k)
  {
    var v := Do(u, MarkMachine(q, ""));
    assert v.requests == t.requests[q := Request(b, k, Placed)];
    assert v.machines == t.machines[k := t.machines[k].WithMark("")];
    assert PlacedBy(v.requests, b) == {q};
    assert Do(v, EndMarking(b)).batches == t.batches[b := Batch(false, Ready(1))];
  }

  lemma AcquireAndRead(u: State, b: nat, n: nat)
    requires b in u.batches && u.batches[b] == Batch(false, Ready(n)) && u.holder == None
    ensures Enabled(u, Acquire(b))
    ensures var v := Do(u, Acquire(b));
      Enabled(v, ReadReplicas(b)) && Do(v, ReadReplicas(b)) ==
        u.(batches := u.batches[b := Batch(false, Read(n, u.replicas))],
           holder := Some(b), order := u.order + [Entry(b, 0)])
  {
  }

  lemma StoreAndRelease(v: State, b: nat, q: nat)
    requires b in v.batches && v.batches[b] == Batch(false, Read(1, v.replicas)) && PlacedBy(v.requests, b) == {q}
    requires 0 <= v.replicas <= MAX_INT32
    ensures Enabled(v, Store(b)) && q in v.requests
    ensures var w := Do(v, Store(b));
      Enabled(w, Release(b)) && Do(w, Release(b)) ==
        v.(requests := v.requests[q := v.requests[q].(stage := Fleet.Settled)],
           batches := v.batches[b := Batch(false, Done(true))],
           replicas := Max(0, v.replicas - 1), holder := None, log := v.log + [Section(b, Lower(1))])
  {
  }

  lemma SameAfterDeleteOne(t: State, b: nat, q: nat, k: Key)
    requires Quiet(t, b, q, k)
    ensures t.requests[q := Request(b, k, Placed)][q := Request(b, k, Fleet.Settled)]
         == t.requests[q := Request(b, k, Fleet.Settled)]
    ensures t.batches[b := Batch(false, Ready(1))][b := Batch(false, Read(1, t.replicas))]
            [b := Batch(false, Done(true))]
         == t.batches[b := Batch(false, Done(true))]
  {
  }

  lemma RunMark(s: State, run: Trace, b: nat, q: nat, k: Key, p: (State, Action) -> bool)
    returns (longer: Trace)
    requires Follows(s, run, p) && Quiet(Last(run), b, q, k)
    requires Lenient(p) && p(Last(run), SubmitDelete(b, map[q := k]))
    ensures Follows(s, longer, p)
    ensures Last(longer) == AfterMarkOne(Last(run), b, q, k) && PlacedBy(Last(longer).requests, b) == {q}
  {
    var t := Last(run);
    SubmitAndRead(t, b, q, k);
    longer := Extend(s, run, SubmitDelete(b, map[q := k]), p);
    longer := Extend(s, longer, ReadMachine(q), p);
    MarkAndEnd(t, Last(longer), b, q, k);
    longer := Extend(s, longer, MarkMachine(q, ""), p);
    longer := Extend(s, longer, EndMarking(b), p);
  }

  lemma RunDeleteOne(s: State, run: Trace, b: nat, q: nat, k: Key, p: (State, Action) -> bool)
    returns (longer: Trace)
    requires Follows(s, run, p) && Quiet(Last(run), b, q, k)
    requires Lenient(p) && p(Last(run), SubmitDelete(b, map[q := k]))
    requires 0 <= Last(run).replicas <= MAX_INT32
    ensures Follows(s, longer, p)
    ensures Last(longer) == AfterDeleteOne(Last(run), b, q, k)
  {
    var t := Last(run);
    longer := RunMark(s, run, b, q, k, p);
    AcquireAndRead(Last(longer), b, 1);
    longer := Extend(s, longer, Acquire(b), p);
    longer := Extend(s, longer, ReadReplicas(b), p);
    StoreAndRelease(Last(longer), b, q);
    longer := Extend(s, longer, Store(b), p);
    longer := Extend(s, longer, Release(b), p);
    SameAfterDeleteOne(t, b, q, k);
  }

  /** Marking is done once: the second mark writes nothing. */
  lemma MarkOnce(m: Machine)
    requires m.Usable()
    ensures m.WithMark("").Marked() && !m.WithMark("").deleting && m.WithMark("").WithMark("") == m.WithMark("")
  {
  }

  /** One marked and one unmarked Machine, no replicas: both go, the marked one first. */
  lemma UnmarkedFollows(t: State, a: Key, b: Key, m: Machine, p: Machine)
    requires a != b && t.machines == map[a := m, b := p] && t.replicas == 0
    requires m.Marked() && !m.deleting && p.Usable()
    ensures Enabled(t, StartDelete(a)) && Enabled(Do(t, StartDelete(a)), StartDelete(b))
    ensures Do(t, StartDelete(a)).machines[b] == p
  {
  }

  lemma QuietAgain(s: State, b: nat, q: nat, c: nat, r: nat, k: Key)
    requires Quiet(s, b, q, k) && Quiet(s, c, r, k) && b != c && q != r
    ensures Quiet(AfterDeleteOne(s, b, q, k), c, r, k)
  {
  }

  predicate TwoPlain(s: State, a: Key, b: Key, p: Machine) {
    && a != b && s.machines == map[a := p, b := p] && p.Usable() && s.replicas == s.initial == 2
    && s.requests == map[] && s.order == []
  }

  predicate OneMarkSpent(t: State, a: Key, b: Key, p: Machine) {
    && a != b && p.Usable() && t.machines == map[a := p.WithMark(""), b := p]
    && t.replicas == 0 && t.initial == 2 && |t.requests| == 2 && Asked(t.order) == 0
  }

  lemma OneMarkSpentIs(s: State, t: State, a: Key, b: Key, p: Machine, x: nat, y: nat)
    requires TwoPlain(s, a, b, p) && x != y
    requires t.machines == s.machines[a := p.WithMark("")] && t.replicas == 0 && t.initial == s.initial
    requires t.requests.Keys == {x, y} && t.order == s.order + [Entry(x, 0)] + [Entry(y, 0)]
    ensures OneMarkSpent(t, a, b, p)
  {
    FleetOrder.AskedGrows(s.order, Entry(x, 0));
    FleetOrder.AskedGrows(s.order + [Entry(x, 0)], Entry(y, 0));
    MarkOneOfTwo(s.machines, a, b, p);
  }

  lemma MarkOneOfTwo(ms: map<Key, Machine>, a: Key, b: Key, p: Machine)
    requires a != b && ms == map[a := p, b := p]
    ensures ms[a := p.WithMark("")] == map[a := p.WithMark(""), b := p]
  {
  }

  lemma AfterTwoDeletes(s: State, a: Key, b: Key, p: Machine, x: nat, y: nat)
    requires TwoPlain(s, a, b, p) && x != y && Quiet(s, x, x, a)
    ensures OneMarkSpent(AfterDeleteOne(AfterDeleteOne(s, x, x, a), y, y, a), a, b, p)
  {
    MarkOnce(p);
    var t := AfterDeleteOne(AfterDeleteOne(s, x, x, a), y, y, a);
    assert t.machines == s.machines[a := p.WithMark("")];
    assert t.requests.Keys == {x, y};
    OneMarkSpentIs(s, t, a, b, p, x, y);
  }

  lemma TwoPlainCovered(s: State, a: Key, b: Key, p: Machine)
    requires TwoPlain(s, a, b, p)
    ensures |Usable(s.machines)| == s.replicas
  {
    assert Usable(s.machines) == {a, b};
  }

  lemma SmallAfterStartDelete(t: State, a: Key, b: Key)
    requires Enabled(t, StartDelete(a)) && t.machines.Keys == {a, b}
    requires t.initial == 2 && |t.requests| == 2 && Asked(t.order) == 0
    ensures InRange(Do(t, StartDelete(a)))
  {
  }

  lemma VictimOf(t: State, a: Key, b: Key, p: Machine)
    requires OneMarkSpent(t, a, b, p)
    ensures Enabled(t, StartDelete(a)) && InRange(Do(t, StartDelete(a)))
    ensures Enabled(Do(t, StartDelete(a)), StartDelete(b)) && !Do(t, StartDelete(a)).machines[b].Marked()
  {
    MarkOnce(p);
    UnmarkedFollows(t, a, b, p.WithMark(""), p);
    SmallAfterStartDelete(t, a, b);
  }

  lemma RunTwoDeletes(s: State, a: Key, b: Key, p: Machine, x: nat, y: nat) returns (run: Trace)
    requires Init(s) && TwoPlain(s, a, b, p) && x != y
    ensures Follows(s, run, Careful)
    ensures OneMarkSpent(Last(run), a, b, p)
  {
    run := Start(s, Careful);
    run := RunDeleteOne(s, run, x, x, a, Careful);
    QuietAgain(s, x, x, y, y, a);
    run := RunDeleteOne(s, run, y, y, a, Careful);
    AfterTwoDeletes(s, a, b, p, x, y);
  }

  /**
   Deleting the same Machine twice, one batch after the other, takes the replicas
   down twice for one mark; the MachineSet then removes a Machine nobody marked.
   Every bind in the run is careful (there is none).
   */
  lemma {:induction false} RepeatedDeleteIsUnsafe(s: State, a: Key, b: Key, p: Machine, x: nat, y: nat)
    returns (run: seq<Action>)
    requires Init(s) && TwoPlain(s, a, b, p) && x != y
    ensures |Usable(s.machines)| <= s.replicas
    ensures Legal(s, run) && AllAlong(s, run, Careful) && InRange(End(s, run))
    ensures Enabled(End(s, run), StartDelete(b)) && !End(s, run).machines[b].Marked()
  {
    TwoPlainCovered(s, a, b, p);
    var twice := RunTwoDeletes(s, a, b, p, x, y);
    VictimOf(Last(twice), a, b, p);
    var trace := Extend(s, twice, StartDelete(a), Careful);
    IsRun(s, trace, Careful);
    run := trace.actions;
  }

  // ----- a bind that writes back an older copy

  /** What a create batch of one request comes to when a Machine is waiting for it. */
  function AfterCreateOne(s: State, b: nat): State {
    s.(batches := s.batches[b := Batch(true, Done(true))],
       order := s.order + [Entry(b, 1)],
       log := s.log + [Section(b, Raise(1, |Unclaimed(s.machines)|))])
  }

  lemma SubmitToCount(t: State, b: nat)
    requires b !in t.batches && t.holder == None
    ensures Enabled(t, SubmitCreate(b, 1))
    ensures var u := Do(t, SubmitCreate(b, 1));
      Enabled(u, Acquire(b)) && Enabled(Do(u, Acquire(b)), ReadReplicas(b)) &&
      Do(Do(u, Acquire(b)), ReadReplicas(b)) ==
        t.(batches := t.batches[b := Batch(true, Read(1, t.replicas))],
           holder := Some(b), order := t.order + [Entry(b, 1)])
  {
    var u := Do(t, SubmitCreate(b, 1));
    assert Do(u, Acquire(b)).batches == t.batches[b := Batch(true, Locked(1))];
  }

  lemma CountToRelease(u: State, b: nat)
    requires b in u.batches && u.batches[b] == Batch(true, Read(1, u.replicas))
    requires 1 <= |Unclaimed(u.machines)| <= MAX_INT32
    ensures Enabled(u, Count(b, true)) && Enabled(Do(u, Count(b, true)), Store(b))
    ensures var v := Do(Do(u, Count(b, true)), Store(b));
      Enabled(v, Release(b)) && Do(v, Release(b)) ==
        u.(batches := u.batches[b := Batch(true, Done(true))], holder := None,
           log := u.log + [Section(b, Raise(1, |Unclaimed(u.machines)|))])
  {
    var c := Do(u, Count(b, true));
    assert c.batches == u.batches[b := Batch(true, Counted(1, u.replicas, |Unclaimed(u.machines)|))];
    var v := Do(c, Store(b));
    assert v.batches == u.batches[b := Batch(true, Leaving(1, Raise(1, |Unclaimed(u.machines)|)))];
    assert Do(v, Release(b)).batches == u.batches[b := Batch(true, Done(true))];
  }

  lemma RunToCount(s: State, run: Trace, b: nat, p: (State, Action) -> bool) returns (longer: Trace)
    requires Follows(s, run, p) && Lenient(p) && b !in Last(run).batches
    requires Last(run).holder == None
    ensures Follows(s, longer, p)
    ensures var t := Last(run);
      Last(longer) == t.(batches := t.batches[b := Batch(true, Read(1, t.replicas))],
                           holder := Some(b), order := t.order + [Entry(b, 1)])
  {
    SubmitToCount(Last(run), b);
    longer := Extend(s, run, SubmitCreate(b, 1), p);
    longer := Extend(s, longer, Acquire(b), p);
    longer := Extend(s, longer, ReadReplicas(b), p);
  }

  lemma RunFromCount(s: State, run: Trace, b: nat, p: (State, Action) -> bool) returns (longer: Trace)
    requires Follows(s, run, p) && Lenient(p)
    requires var u := Last(run);
      b in u.batches && u.batches[b] == Batch(true, Read(1, u.replicas)) && 1 <= |Unclaimed(u.machines)| <= MAX_INT32
    ensures Follows(s, longer, p)
    ensures var u := Last(run);
      Last(longer) == u.(batches := u.batches[b := Batch(true, Done(true))], holder := None,
                           log := u.log + [Section(b, Raise(1, |Unclaimed(u.machines)|))])
  {
    CountToRelease(Last(run), b);
    longer := Extend(s, run, Count(b, true), p);
    longer := Extend(s, longer, Store(b), p);
    longer := Extend(s, longer, Release(b), p);
  }

  lemma RunCreateOne(s: State, run: Trace, b: nat, p: (State, Action) -> bool) returns (longer: Trace)
    requires Follows(s, run, p) && Lenient(p)
    requires b !in Last(run).batches && Last(run).holder == None
    requires 1 <= |Unclaimed(Last(run).machines)| <= MAX_INT32
    ensures Follows(s, longer, p) && Last(longer) == AfterCreateOne(Last(run), b)
  {
    var t := Last(run);
    longer := RunToCount(s, run, b, p);
    longer := RunFromCount(s, longer, b, p);
    assert t.batches[b := Batch(true, Read(1, t.replicas))][b := Batch(true, Done(true))]
        == t.batches[b := Batch(true, Done(true))];
  }

  /** The bind of batch `x` holds a copy of `a`; the delete batch `y` has marked `a` and lowered the replicas. */
  function BindUnderway(s: State, a: Key, x: nat): State
    requires a in s.machines
  {
    AfterCreateOne(s, x).(bindings := s.bindings[x := Binding(a, s.machines[a])])
  }

  lemma QuietAfterBind(s: State, a: Key, b: Key, p: Machine, x: nat, y: nat)
    requires Init(s) && TwoPlain(s, a, b, p) && x != y
    ensures Quiet(BindUnderway(s, a, x), y, y, a) && Honest(BindUnderway(s, a, x), SubmitDelete(y, map[y := a]))
  {
  }

  lemma RunBindRead(s: State, a: Key, b: Key, p: Machine, x: nat) returns (run: Trace)
    requires Init(s) && TwoPlain(s, a, b, p) && !p.Member()
    ensures Follows(s, run, Honest) && Last(run) == BindUnderway(s, a, x)
  {
    assert Unclaimed(s.machines) == {a, b};
    run := Start(s, Honest);
    run := RunCreateOne(s, run, x, Honest);
    run := Extend(s, run, ReadForBind(x, x, a), Honest);
  }

  /** One Machine marked, the replicas lowered for it, and a bind still holding its older copy. */
  predicate OldCopyHeld(t: State, a: Key, b: Key, p: Machine, x: nat) {
    && a != b && t.machines == map[a := p.WithMark(""), b := p] && t.replicas == 1
    && x in t.bindings && t.bindings[x] == Binding(a, p)
    && t.initial == 2 && |t.requests| <= 1 && Asked(t.order) <= 1
  }

  lemma WrittenBack(t: State, a: Key, b: Key, p: Machine, x: nat)
    requires OldCopyHeld(t, a, b, p, x)
    ensures Enabled(t, WriteLabel(x, true))
    ensures Do(t, WriteLabel(x, true)) == t.(machines := map[a := p.Labelled(), b := p], bindings := t.bindings - {x})
  {
    assert t.machines[a := p.Labelled()] == map[a := p.Labelled(), b := p];
  }

  lemma BothStand(u: State, a: Key, b: Key, p: Machine)
    requires a != b && p.Usable() && u.machines == map[a := p.Labelled(), b := p] && u.replicas == 1
    ensures Enabled(u, StartDelete(b)) && !u.machines[b].Marked() && u.machines.Keys == {a, b}
  {
    assert Standing(u.machines) == {a, b} && Doomed(u.machines) == {};
  }

  lemma OldCopyBringsBack(t: State, a: Key, b: Key, p: Machine, x: nat)
    requires OldCopyHeld(t, a, b, p, x) && p.Usable()
    ensures Enabled(t, WriteLabel(x, true)) && InRange(Do(t, WriteLabel(x, true)))
    ensures Enabled(Do(t, WriteLabel(x, true)), StartDelete(b)) && !Do(t, WriteLabel(x, true)).machines[b].Marked()
  {
    WrittenBack(t, a, b, p, x);
    BothStand(Do(t, WriteLabel(x, true)), a, b, p);
  }

  lemma OrderOfTwo(order: seq<Entry>, x: nat, y: nat)
    requires order == []
    ensures Asked(order + [Entry(x, 1)] + [Entry(y, 0)]) == 1
  {
    FleetOrder.AskedGrows(order, Entry(x, 1));
    FleetOrder.AskedGrows(order + [Entry(x, 1)], Entry(y, 0));
  }

  lemma OneRequest(qs: map<nat, Request>, y: nat, r: Request)
    requires qs == map[]
    ensures |qs[y := r]| == 1
  {
    assert qs[y := r].Keys == {y};
  }

  lemma OldCopyHeldIs(s: State, t: State, a: Key, b: Key, p: Machine, x: nat, y: nat)
    requires TwoPlain(s, a, b, p)
    requires t.machines == s.machines[a := p.WithMark("")] && t.replicas == 1 && t.initial == s.initial
    requires t.requests == s.requests[y := Request(y, a, Fleet.Settled)]
    requires t.order == s.order + [Entry(x, 1)] + [Entry(y, 0)] && t.bindings == s.bindings[x := Binding(a, p)]
    ensures OldCopyHeld(t, a, b, p, x)
  {
    OrderOfTwo(s.order, x, y);
    MarkOneOfTwo(s.machines, a, b, p);
    OneRequest(s.requests, y, Request(y, a, Fleet.Settled));
  }

  lemma AfterBindAndDelete(s: State, a: Key, b: Key, p: Machine, x: nat, y: nat)
    requires TwoPlain(s, a, b, p)
    ensures OldCopyHeld(AfterDeleteOne(BindUnderway(s, a, x), y, y, a), a, b, p, x)
  {
    OldCopyHeldIs(s, AfterDeleteOne(BindUnderway(s, a, x), y, y, a), a, b, p, x, y);
  }

  /**
   On a store that overwrites, honest deletions are not enough: a bind reads `a`, a
   delete batch marks `a` and lowers the replicas, and the bind writes its copy back
   without the mark. The MachineSet may then remove `b`, which nobody marked.
   */
  lemma {:induction false} StaleBindIsUnsafe(s: State, a: Key, b: Key, p: Machine, x: nat, y: nat)
    returns (run: seq<Action>)
    requires Init(s) && TwoPlain(s, a, b, p) && !p.Member() && x != y
    ensures |Usable(s.machines)| <= s.replicas
    ensures Legal(s, run) && AllAlong(s, run, Honest) && InRange(End(s, run))
    ensures Enabled(End(s, run), StartDelete(b)) && !End(s, run).machines[b].Marked()
  {
    TwoPlainCovered(s, a, b, p);
    var trace := RunBindRead(s, a, b, p, x);
    QuietAfterBind(s, a, b, p, x, y);
    trace := RunDeleteOne(s, trace, y, y, a, Honest);
    AfterBindAndDelete(s, a, b, p, x, y);
    OldCopyBringsBack(Last(trace), a, b, p, x);
    trace := Extend(s, trace, WriteLabel(x, true), Honest);
    IsRun(s, trace, Honest);
    run := trace.actions;
  }
}
