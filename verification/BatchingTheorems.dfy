/** What the coalescing protocol guarantees over every run. */
module BatchingTheorems {
  import opened Common
  import opened Batching
  import opened BatchingInvariant

  // ----- nobody is stranded

  ghost predicate Unanswered<U>(s: State<U>, q: nat) {
    q in s.callers && !s.callers[q].Returned? && !s.callers[q].GaveUp?
  }

  /** While a caller waits for an answer, something other than giving up can happen. */
  lemma {:induction false} Progress<U>(s: State<U>, q: nat) returns (a: Action<U>)
    requires Inv(s) && Unanswered(s, q)
    ensures Enabled(s, a) && !a.GiveUp?
  {
    assert DeliveredAt(s, q);
    match s.callers[q]
    case New => a := Append(q);
    case Appended => a := Signal(q);
    case Waiting =>
      if s.channel[q].Some? {
        a := Return(q);
      } else {
        a := ProgressUnsent(s, q);
      }
  }

  /** An appended request that was not answered yet can get closer to its answer,
      even if its caller has stopped waiting. */
  lemma {:induction false} ProgressUnsent<U>(s: State<U>, q: nat) returns (a: Action<U>)
    requires Inv(s) && q in s.callers && !s.callers[q].New? && s.sends[q] == 0
    ensures Enabled(s, a) && !a.GiveUp?
  {
    assert DeliveredAt(s, q);
    match s.place[q]
    case InPending => a := ProgressPending(s, q);
    case InBucket =>
      var b := AboveAll(s.batches.Keys);
      a := Launch(s.hash[q], b);
    case InBatch(b, i) => a := ProgressBatch(s, q, b, i);
  }

  /** The argument that replaces a wakeup counter. */
  lemma {:induction false} ProgressPending<U>(s: State<U>, q: nat) returns (a: Action<U>)
    requires Inv(s) && q in s.callers && s.place[q].InPending?
    ensures Enabled(s, a) && !a.GiveUp?
  {
    BucketMembers(s.hash, s.arrivals, s.hash[q]);
    assert s.pending != map[] by { assert s.hash[q] in s.pending; }
    match s.dispatcher
    case Window => a := Close;
    case Closing => a := Swap;
    case Idle =>
      if s.token {
        a := Receive;
      } else {
        var p :| p in s.callers && s.callers[p].Appended?;
        a := Signal(p);
      }
    case Launching(buckets) =>
      if buckets == map[] {
        a := EndLaunch;
      } else {
        var h :| h in buckets;
        var b := AboveAll(s.batches.Keys);
        a := Launch(h, b);
      }
  }

  /** A batch with an answer outstanding can run, or send: the channel it sends on is empty. */
  lemma {:induction false} ProgressBatch<U>(s: State<U>, q: nat, b: nat, i: nat) returns (a: Action<U>)
    requires Inv(s) && q in s.callers && s.sends[q] == 0 && s.place[q] == InBatch(b, i)
    ensures Enabled(s, a) && !a.GiveUp?
  {
    assert Slotted(s.batches, q, s.place[q]);
    assert DeliveredAt(s, q);
    if s.batches[b].results.None? {
      a := Execute(b, []);
    } else {
      SendNeverBlocks(s, b);
      a := Send(b);
    }
  }

  /** Whatever the caller did meanwhile, its channel has room for its one result. */
  lemma SendNeverBlocks<U>(s: State<U>, b: nat)
    requires Inv(s) && b in s.batches && s.batches[b].results.Some? && s.batches[b].sent < |s.batches[b].reqs|
    ensures Enabled(s, Send(b)) && s.sends[s.batches[b].reqs[s.batches[b].sent]] == 0
  {
  }

  // ----- every run ends

  datatype Rank = Rank(
    news: nat, appended: nat, token: nat, stage: nat, buckets: nat, unrun: nat, unsent: nat, waiting: nat)

  function News<U>(s: State<U>): set<nat> { set q | q in s.callers && s.callers[q].New? }
  function Appendeds<U>(s: State<U>): set<nat> { set q | q in s.callers && s.callers[q].Appended? }
  function Waitings<U>(s: State<U>): set<nat> { set q | q in s.callers && s.callers[q].Waiting? }
  function Unrun<U>(s: State<U>): set<nat> { set b | b in s.batches && s.batches[b].results.None? }
  function Unsent<U>(s: State<U>): set<nat> { set q | q in s.sends && s.sends[q] == 0 }

  function Stage(d: Dispatcher): nat {
    match d
    case Idle => 0
    case Launching(_) => 1
    case Closing => 2
    case Window => 3
  }

  function RankOf<U>(s: State<U>): Rank {
    Rank(|News(s)|, |Appendeds(s)|, if s.token then 1 else 0, Stage(s.dispatcher),
         |Buckets(s.dispatcher).Keys|, |Unrun(s)|, |Unsent(s)|, |Waitings(s)|)
  }

  /** Lexicographic order. */
  predicate Below(x: Rank, y: Rank) {
    x.news < y.news || (x.news == y.news && (
    x.appended < y.appended || (x.appended == y.appended && (
    x.token < y.token || (x.token == y.token && (
    x.stage < y.stage || (x.stage == y.stage && (
    x.buckets < y.buckets || (x.buckets == y.buckets && (
    x.unrun < y.unrun || (x.unrun == y.unrun && (
    x.unsent < y.unsent || (x.unsent == y.unsent && x.waiting < y.waiting)))))))))))))
  }

  /** A caller moving on changes the caller sets only at that caller. */
  lemma CallerMoves<U>(s: State<U>, t: State<U>, q: nat, c: Caller<U>)
    requires q in s.callers && t.callers == s.callers[q := c]
    ensures News(t) == if c.New? then News(s) + {q} else News(s) - {q}
    ensures Appendeds(t) == if c.Appended? then Appendeds(s) + {q} else Appendeds(s) - {q}
    ensures Waitings(t) == if c.Waiting? then Waitings(s) + {q} else Waitings(s) - {q}
  {
  }

  lemma SameCallers<U>(s: State<U>, t: State<U>)
    requires t.callers == s.callers
    ensures News(t) == News(s) && Appendeds(t) == Appendeds(s) && Waitings(t) == Waitings(s)
  {
  }

  predicate ByCaller<U>(a: Action<U>) { a.Append? || a.Signal? || a.Return? || a.GiveUp? }

  lemma RankAfterCaller<U>(s: State<U>, a: Action<U>)
    requires Enabled(s, a) && ByCaller(a)
    ensures Below(RankOf(Do(s, a)), RankOf(s))
  {
    var t := Do(s, a);
    CallerMoves(s, t, a.q, t.callers[a.q]);
    assert t.batches == s.batches && t.sends == s.sends && t.dispatcher == s.dispatcher;
  }

  lemma RankAfterDispatcher<U>(s: State<U>, a: Action<U>)
    requires Enabled(s, a) && (a.Receive? || a.Rearm? || a.Close? || a.Swap? || a.Launch? || a.EndLaunch?)
    ensures Below(RankOf(Do(s, a)), RankOf(s))
  {
  }

  lemma RankAfterExecute<U>(s: State<U>, b: nat, results: seq<Result<U>>)
    requires Enabled(s, Execute(b, results))
    ensures Below(RankOf(Do(s, Execute(b, results))), RankOf(s))
  {
    var t := Do(s, Execute(b, results));
    SameCallers(s, t);
    assert Unrun(t) == Unrun(s) - {b};
  }

  lemma RankAfterSend<U>(s: State<U>, b: nat)
    requires Inv(s) && Enabled(s, Send(b))
    ensures Below(RankOf(Do(s, Send(b))), RankOf(s))
  {
    SendNeverBlocks(s, b);
    SendLowers(s, b);
  }

  lemma SendLowers<U>(s: State<U>, b: nat)
    requires Enabled(s, Send(b)) && s.sends[s.batches[b].reqs[s.batches[b].sent]] == 0
    ensures Below(RankOf(Do(s, Send(b))), RankOf(s))
  {
    var t := DoSend(s, b);
    var q := s.batches[b].reqs[s.batches[b].sent];
    SameCallers(s, t);
    assert q in Unsent(s);
    assert Unrun(t) == Unrun(s);
    assert Unsent(t) == Unsent(s) - {q};
  }

  /** Every action, the caller's giving up included, goes down in the order. */
  lemma {:induction false} RankDecreases<U>(s: State<U>, a: Action<U>)
    requires Inv(s) && Enabled(s, a)
    ensures Below(RankOf(Do(s, a)), RankOf(s))
  {
    if ByCaller(a) {
      RankAfterCaller(s, a);
    } else if a.Execute? {
      RankAfterExecute(s, a.b, a.results);
    } else if a.Send? {
      RankAfterSend(s, a.b);
    } else {
      RankAfterDispatcher(s, a);
    }
  }

  ghost function After<U>(s: State<U>, schedule: nat -> Action<U>, n: nat): State<U> {
    if n == 0 then s
    else
      var t := After(s, schedule, n - 1);
      if Enabled(t, schedule(n - 1)) then Do(t, schedule(n - 1)) else t
  }

  lemma {:induction false} StopsFrom<U>(s: State<U>, schedule: nat -> Action<U>, n: nat, r: Rank) returns (m: nat)
    requires Inv(After(s, schedule, n)) && r == RankOf(After(s, schedule, n))
    ensures n <= m && !Enabled(After(s, schedule, m), schedule(m))
    decreases r.news, r.appended, r.token, r.stage, r.buckets, r.unrun, r.unsent, r.waiting
  {
    var t, a := After(s, schedule, n), schedule(n);
    if Enabled(t, a) {
      RankDecreases(t, a);
      FiledKept(t, a);
      DeliveredKept(t, a);
      WakeKept(t, a);
      assert After(s, schedule, n + 1) == Do(t, a);
      m := StopsFrom(s, schedule, n + 1, RankOf(Do(t, a)));
    } else {
      m := n;
    }
  }

  /** Main result: no schedule of actions stays enabled for ever. */
  lemma {:induction false} EveryScheduleStops<U>(s: State<U>, schedule: nat -> Action<U>) returns (m: nat)
    requires Init(s)
    ensures !Enabled(After(s, schedule, m), schedule(m))
  {
    InitInv(s);
    m := StopsFrom(s, schedule, 0, RankOf(s));
  }

  /** A state in which nothing can happen unless a caller gives up. */
  ghost predicate Quiescent<U(!new)>(s: State<U>) {
    forall a: Action<U> | Enabled(s, a) :: a.GiveUp?
  }

  /**
   Main result: where a run cannot go on (and by `EveryScheduleStops` it cannot for
   ever) every caller has its answer, or stopped waiting, and every request was
   answered exactly once.
   */
  lemma {:induction false} EveryoneIsAnswered<U(!new)>(s: State<U>, run: seq<Action<U>>)
    requires Init(s) && Legal(s, run) && Quiescent(End(s, run))
    ensures var t := End(s, run);
      forall q | q in t.callers :: (t.callers[q].Returned? || t.callers[q].GaveUp?) && q in t.sends && t.sends[q] == 1
  {
    InvHolds(s, run);
    var t := End(s, run);
    forall q | q in t.callers
      ensures (t.callers[q].Returned? || t.callers[q].GaveUp?) && t.sends[q] == 1
    {
      QuiescentAnswered(t, q);
    }
  }

  lemma {:induction false} QuiescentAnswered<U(!new)>(t: State<U>, q: nat)
    requires Inv(t) && q in t.callers && Quiescent(t)
    ensures (t.callers[q].Returned? || t.callers[q].GaveUp?) && t.sends[q] == 1
  {
    assert DeliveredAt(t, q);
    if Unanswered(t, q) {
      var _ := Progress(t, q);
      assert false;
    } else if t.sends[q] == 0 {
      var _ := ProgressUnsent(t, q);
      assert false;
    }
  }

  // ----- what the answers are

  /** An executor that returns one result per input, each about its own input. */
  ghost predicate Faithful<U>(reqs: seq<nat>, results: seq<Result<U>>, about: (nat, Result<U>) -> bool) {
    |results| == |reqs| && forall i | 0 <= i < |reqs| :: about(reqs[i], results[i])
  }

  ghost predicate FaithfulRun<U>(s: State<U>, run: seq<Action<U>>, about: (nat, Result<U>) -> bool)
    requires Legal(s, run)
    decreases |run|
  {
    run == [] ||
    (FaithfulRun(s, run[..|run| - 1], about) &&
     var t, a := End(s, run[..|run| - 1]), run[|run| - 1];
     (a.Execute? ==> Faithful(t.batches[a.b].reqs, a.results, about)))
  }

  ghost predicate AllFaithful<U>(batches: map<nat, Batch<U>>, about: (nat, Result<U>) -> bool) {
    forall b | b in batches && batches[b].results.Some? :: Faithful(batches[b].reqs, batches[b].results.value, about)
  }

  lemma {:induction false} FaithfulHolds<U>(s: State<U>, run: seq<Action<U>>, about: (nat, Result<U>) -> bool)
    requires Init(s) && Legal(s, run) && FaithfulRun(s, run, about)
    ensures AllFaithful(End(s, run).batches, about)
    decreases |run|
  {
    if run != [] {
      FaithfulHolds(s, run[..|run| - 1], about);
      FaithfulKept(End(s, run[..|run| - 1]), run[|run| - 1], about);
    }
  }

  lemma FaithfulKept<U>(s: State<U>, a: Action<U>, about: (nat, Result<U>) -> bool)
    requires Enabled(s, a) && AllFaithful(s.batches, about)
    requires a.Execute? ==> Faithful(s.batches[a.b].reqs, a.results, about)
    ensures AllFaithful(Do(s, a).batches, about)
  {
  }

  /** Main result: with a faithful executor, whatever any caller is handed is about
      its own input; and no request is ever answered twice. */
  lemma {:induction false} EachGetsItsOwn<U>(s: State<U>, run: seq<Action<U>>, about: (nat, Result<U>) -> bool, q: nat)
    requires Init(s) && Legal(s, run) && FaithfulRun(s, run, about) && q in End(s, run).callers
    ensures var t := End(s, run);
      q in t.sends && t.sends[q] <= 1 && (t.callers[q].Returned? ==> about(q, t.callers[q].r))
  {
    InvHolds(s, run);
    FaithfulHolds(s, run, about);
    var t := End(s, run);
    assert DeliveredAt(t, q);
    assert Slotted(t.batches, q, t.place[q]);
  }

  /** Whoever returns was answered once, with what its one slot in one batch holds. A
      wrong number of results is no exception: a caller past the end gets the
      too-few-results error, and surplus results go to nobody. */
  lemma {:induction false} ReturnedIsDelivery<U>(s: State<U>, run: seq<Action<U>>, q: nat) returns (b: nat, i: nat)
    requires Init(s) && Legal(s, run) && q in End(s, run).callers && End(s, run).callers[q].Returned?
    ensures var t := End(s, run);
      && b in t.batches && i < |t.batches[b].reqs| && t.batches[b].reqs[i] == q && t.batches[b].results.Some?
      && q in t.sends && t.sends[q] == 1
      && t.callers[q].r == (if i < |t.batches[b].results.value| then t.batches[b].results.value[i]
                            else Fail(TooFewResultsError))
      && forall c, j | c in t.batches && 0 <= j < |t.batches[c].reqs| && t.batches[c].reqs[j] == q :: c == b && j == i
  {
    InvHolds(s, run);
    var t := End(s, run);
    assert DeliveredAt(t, q);
    assert Slotted(t.batches, q, t.place[q]);
    b, i := t.place[q].b, t.place[q].i;
  }

  // ----- the swap

  /** A bucket map that holds, per hash, exactly the arrivals with that hash, in order. */
  ghost predicate Partition(hash: map<nat, nat>, arrivals: seq<nat>, buckets: map<nat, seq<nat>>) {
    && (forall h | h in buckets :: buckets[h] == Bucket(hash, arrivals, h) && buckets[h] != [])
    && (forall h, q | h in buckets && q in buckets[h] :: q in arrivals && q in hash && hash[q] == h)
    && (forall q | q in arrivals :: q in hash && hash[q] in buckets && q in buckets[hash[q]])
    && (forall h, g, q | h in buckets && g in buckets && q in buckets[h] && q in buckets[g] :: h == g)
  }

  lemma PendingPartition(hash: map<nat, nat>, arrivals: seq<nat>, pending: map<nat, seq<nat>>, place: map<nat, Place>)
    requires PendingFiled(hash, arrivals, pending, place) && place.Keys == hash.Keys
    ensures Partition(hash, arrivals, pending)
  {
    forall h: nat
      ensures forall q :: q in Bucket(hash, arrivals, h) <==> q in arrivals && q in hash && hash[q] == h
    {
      BucketMembers(hash, arrivals, h);
    }
    forall q | q in arrivals
      ensures q in hash && hash[q] in pending && q in pending[hash[q]]
    {
      assert q in Bucket(hash, arrivals, hash[q]);
    }
  }

  /**
   Main result: the map swapped out partitions what was pending. Each request that
   arrived since the last swap is in exactly one bucket, its hash's, and each bucket
   holds its requests in arrival order.
   */
  lemma {:induction false} SwapPartitions<U>(s: State<U>, run: seq<Action<U>>)
    requires Init(s) && Legal(s, run) && Enabled(End(s, run), Swap)
    ensures var t := End(s, run);
      Partition(t.hash, t.arrivals, Buckets(DoSwap(t).dispatcher))
  {
    InvHolds(s, run);
    var t := End(s, run);
    PendingPartition(t.hash, t.arrivals, t.pending, t.place);
  }
}
