/** What every action of the coalescing protocol keeps. */
module BatchingInvariant {
  import opened Common
  import opened Batching

  ghost predicate NoDuplicates(xs: seq<nat>) {
    forall i, j | 0 <= i < j < |xs| :: xs[i] != xs[j]
  }

  ghost predicate Domains<U>(s: State<U>) {
    s.hash.Keys == s.channel.Keys == s.sends.Keys == s.place.Keys == s.callers.Keys
  }

  /** `pending` holds, per hash, what arrived since the last swap, in arrival order. */
  ghost predicate PendingFiled(hash: map<nat, nat>, arrivals: seq<nat>, pending: map<nat, seq<nat>>,
                               place: map<nat, Place>) {
    && NoDuplicates(arrivals)
    && (forall q | q in arrivals :: q in place && place[q].InPending?)
    && (forall q | q in place && place[q].InPending? :: q in arrivals)
    && (forall h | h in pending :: pending[h] == Bucket(hash, arrivals, h) && pending[h] != [])
    && (forall h: nat | h !in pending :: Bucket(hash, arrivals, h) == [])
  }

  function Buckets(d: Dispatcher): map<nat, seq<nat>> { if d.Launching? then d.buckets else map[] }

  /** A swapped-out map: each bucket non-empty, of one hash, and marked so. */
  ghost predicate BucketsFiled(hash: map<nat, nat>, buckets: map<nat, seq<nat>>, place: map<nat, Place>) {
    && (forall h | h in buckets :: buckets[h] != [] && NoDuplicates(buckets[h]))
    && (forall h, q | h in buckets && q in buckets[h] :: q in place && place[q].InBucket? && q in hash && hash[q] == h)
    && (forall q | q in place && place[q].InBucket? :: q in hash && hash[q] in buckets && q in buckets[hash[q]])
  }

  /** Every slot of a batch is where its request thinks it is... */
  ghost predicate Slots<U>(batches: map<nat, Batch<U>>, place: map<nat, Place>) {
    forall b, i {:trigger batches[b].reqs[i]} | b in batches && 0 <= i < |batches[b].reqs| ::
      batches[b].reqs[i] in place && place[batches[b].reqs[i]] == InBatch(b, i)
  }

  ghost predicate Slotted<U>(batches: map<nat, Batch<U>>, q: nat, at: Place) {
    at.InBatch? ==> at.b in batches && at.i < |batches[at.b].reqs| && batches[at.b].reqs[at.i] == q
  }

  /** ...and every request is in the slot it thinks it is in. */
  ghost predicate Places<U>(batches: map<nat, Batch<U>>, place: map<nat, Place>) {
    forall q | q in place :: Slotted(batches, q, place[q])
  }

  ghost predicate Shape<U>(batches: map<nat, Batch<U>>) {
    forall b | b in batches ::
      batches[b].sent <= |batches[b].reqs| && (batches[b].results.None? ==> batches[b].sent == 0)
  }

  ghost predicate OneHash<U>(hash: map<nat, nat>, batches: map<nat, Batch<U>>) {
    forall b, q, r | b in batches && q in batches[b].reqs && r in batches[b].reqs ::
      q in hash && r in hash && hash[q] == hash[r]
  }

  ghost predicate BatchesFiled<U>(hash: map<nat, nat>, batches: map<nat, Batch<U>>, place: map<nat, Place>) {
    Slots(batches, place) && Places(batches, place) && Shape(batches) && OneHash(hash, batches)
  }

  ghost predicate Answered<U>(batches: map<nat, Batch<U>>, at: Place) {
    at.InBatch? && at.b in batches && at.i < batches[at.b].sent
  }

  /** One request's channel: empty and never sent to, or sent to exactly once. */
  ghost predicate Delivered<U>(batches: map<nat, Batch<U>>, at: Place, caller: Caller<U>, channel: Option<Result<U>>,
                               sends: nat) {
    if Answered(batches, at) then
      var x := batches[at.b];
      sends == 1 && x.results.Some? &&
      var d := Delivery(x.results.value, at.i);
      (channel == Some(d) && !caller.Returned?) || (channel.None? && caller == Returned(d))
    else
      sends == 0 && channel.None? && !caller.Returned?
  }

  ghost predicate DeliveredAt<U>(s: State<U>, q: nat)
    requires Domains(s) && q in s.callers
  {
    && Delivered(s.batches, s.place[q], s.callers[q], s.channel[q], s.sends[q])
    && (s.callers[q].New? <==> s.place[q].Nowhere?)
  }

  ghost predicate AllDelivered<U>(s: State<U>) {
    Domains(s) && forall q | q in s.callers :: DeliveredAt(s, q)
  }

  /** Nothing is stranded: someone is still bound to look at a non-empty map. */
  ghost predicate Wake<U>(s: State<U>) {
    s.pending != map[] ==>
      s.token || s.dispatcher.Window? || s.dispatcher.Closing? || exists q :: q in s.callers && s.callers[q].Appended?
  }

  ghost predicate Filed<U>(s: State<U>) {
    && PendingFiled(s.hash, s.arrivals, s.pending, s.place)
    && BucketsFiled(s.hash, Buckets(s.dispatcher), s.place)
    && BatchesFiled(s.hash, s.batches, s.place)
  }

  ghost predicate Inv<U>(s: State<U>) { Filed(s) && AllDelivered(s) && Wake(s) }

  // ----- buckets of an arrival history

  lemma {:induction false} BucketMembers(hash: map<nat, nat>, arrivals: seq<nat>, h: nat)
    ensures forall q :: q in Bucket(hash, arrivals, h) <==> q in arrivals && q in hash && hash[q] == h
    ensures NoDuplicates(arrivals) ==> NoDuplicates(Bucket(hash, arrivals, h))
  {
    if arrivals != [] {
      var front, last := arrivals[..|arrivals| - 1], arrivals[|arrivals| - 1];
      assert arrivals == front + [last];
      BucketMembers(hash, front, h);
    }
  }

  // ----- filing, action by action

  lemma PendingAfterAppend(hash: map<nat, nat>, arrivals: seq<nat>, pending: map<nat, seq<nat>>,
                           place: map<nat, Place>, q: nat)
    requires PendingFiled(hash, arrivals, pending, place) && q in hash && q in place && place[q].Nowhere?
    ensures PendingFiled(hash, arrivals + [q],
      pending[hash[q] := (if hash[q] in pending then pending[hash[q]] else []) + [q]], place[q := InPending])
  {
  }

  lemma BucketsUnmoved(hash: map<nat, nat>, buckets: map<nat, seq<nat>>, place: map<nat, Place>, q: nat)
    requires BucketsFiled(hash, buckets, place) && q in place && place[q].Nowhere?
    ensures BucketsFiled(hash, buckets, place[q := InPending])
  {
  }

  /** Requests not in a batch can move without the batches noticing. */
  lemma BatchesUnmoved<U>(hash: map<nat, nat>, batches: map<nat, Batch<U>>, place: map<nat, Place>,
                          after: map<nat, Place>)
    requires BatchesFiled(hash, batches, place) && after.Keys == place.Keys
    requires forall q | q in place :: after[q] == place[q] || (!place[q].InBatch? && !after[q].InBatch?)
    ensures BatchesFiled(hash, batches, after)
  {
  }

  lemma FiledAfterAppend<U>(s: State<U>, q: nat)
    requires Enabled(s, Append(q)) && Filed(s) && q in s.place && s.place[q].Nowhere?
    ensures Filed(DoAppend(s, q))
  {
    var t := DoAppend(s, q);
    PendingAfterAppend(s.hash, s.arrivals, s.pending, s.place, q);
    BucketsUnmoved(s.hash, Buckets(s.dispatcher), s.place, q);
    BatchesUnmoved(s.hash, s.batches, s.place, t.place);
  }

  lemma BucketsAfterSwap(hash: map<nat, nat>, arrivals: seq<nat>, pending: map<nat, seq<nat>>, place: map<nat, Place>,
                         after: map<nat, Place>)
    requires PendingFiled(hash, arrivals, pending, place) && BucketsFiled(hash, map[], place) && place.Keys == hash.Keys
    requires after == map q | q in place :: if place[q].InPending? then InBucket else place[q]
    ensures BucketsFiled(hash, pending, after) && PendingFiled(hash, [], map[], after)
  {
    forall h | h in pending
      ensures pending[h] != [] && NoDuplicates(pending[h])
      ensures forall q :: q in pending[h] <==> q in arrivals && q in hash && hash[q] == h
    {
      BucketMembers(hash, arrivals, h);
    }
    forall q | q in after && after[q].InBucket?
      ensures q in hash && hash[q] in pending && q in pending[hash[q]]
    {
      assert place[q].InPending?;
      BucketMembers(hash, arrivals, hash[q]);
    }
  }

  lemma FiledAfterSwap<U>(s: State<U>)
    requires Enabled(s, Swap) && Filed(s) && s.place.Keys == s.hash.Keys
    ensures Filed(DoSwap(s))
  {
    var t := DoSwap(s);
    BucketsAfterSwap(s.hash, s.arrivals, s.pending, s.place, t.place);
    BatchesAfterSwap(s);
  }

  lemma BatchesAfterSwap<U>(s: State<U>)
    requires Enabled(s, Swap) && BatchesFiled(s.hash, s.batches, s.place)
    ensures BatchesFiled(s.hash, s.batches, DoSwap(s).place)
  {
  }

  /** Where the requests of a launched bucket go. */
  ghost predicate Moved(place: map<nat, Place>, after: map<nat, Place>, reqs: seq<nat>, b: nat) {
    && after.Keys == place.Keys
    && (forall i | 0 <= i < |reqs| :: reqs[i] in after && after[reqs[i]] == InBatch(b, i))
    && (forall q | q in place && q !in reqs :: after[q] == place[q])
  }

  lemma SlotsAfterLaunch<U>(batches: map<nat, Batch<U>>, place: map<nat, Place>, after: map<nat, Place>,
                            reqs: seq<nat>, b: nat)
    requires Slots(batches, place) && b !in batches && Moved(place, after, reqs, b)
    requires forall q | q in reqs :: q in place && place[q].InBucket?
    ensures Slots(batches[b := Batch(reqs, None, 0)], after)
  {
  }

  lemma PlacesAfterLaunch<U>(batches: map<nat, Batch<U>>, place: map<nat, Place>, after: map<nat, Place>,
                             reqs: seq<nat>, b: nat)
    requires Places(batches, place) && b !in batches && Moved(place, after, reqs, b)
    ensures Places(batches[b := Batch(reqs, None, 0)], after)
  {
  }

  lemma OneHashAfterLaunch<U>(hash: map<nat, nat>, batches: map<nat, Batch<U>>, reqs: seq<nat>, b: nat)
    requires OneHash(hash, batches) && b !in batches
    requires forall q, r | q in reqs && r in reqs :: q in hash && r in hash && hash[q] == hash[r]
    ensures OneHash(hash, batches[b := Batch(reqs, None, 0)])
  {
  }

  lemma BatchesAfterLaunch<U>(hash: map<nat, nat>, batches: map<nat, Batch<U>>, place: map<nat, Place>,
                              after: map<nat, Place>, reqs: seq<nat>, b: nat)
    requires BatchesFiled(hash, batches, place) && b !in batches && Moved(place, after, reqs, b)
    requires forall q | q in reqs :: q in place && place[q].InBucket?
    requires forall q, r | q in reqs && r in reqs :: q in hash && r in hash && hash[q] == hash[r]
    ensures BatchesFiled(hash, batches[b := Batch(reqs, None, 0)], after)
  {
    SlotsAfterLaunch(batches, place, after, reqs, b);
    PlacesAfterLaunch(batches, place, after, reqs, b);
    OneHashAfterLaunch(hash, batches, reqs, b);
  }

  lemma LaunchMoves<U>(s: State<U>, h: nat, b: nat)
    requires Enabled(s, Launch(h, b)) && BucketsFiled(s.hash, Buckets(s.dispatcher), s.place)
    ensures Moved(s.place, DoLaunch(s, h, b).place, s.dispatcher.buckets[h], b)
    ensures forall q | q in s.dispatcher.buckets[h] ::
      q in s.place && s.place[q].InBucket? && q in s.hash && s.hash[q] == h
  {
  }

  lemma BucketsAfterLaunch(hash: map<nat, nat>, buckets: map<nat, seq<nat>>, place: map<nat, Place>,
                           after: map<nat, Place>, h: nat, b: nat)
    requires BucketsFiled(hash, buckets, place) && h in buckets && Moved(place, after, buckets[h], b)
    ensures BucketsFiled(hash, buckets - {h}, after)
  {
  }

  lemma PendingUnmoved(hash: map<nat, nat>, arrivals: seq<nat>, pending: map<nat, seq<nat>>, place: map<nat, Place>,
                       after: map<nat, Place>, reqs: seq<nat>, b: nat)
    requires PendingFiled(hash, arrivals, pending, place) && Moved(place, after, reqs, b)
    requires forall q | q in reqs :: q in place && place[q].InBucket?
    ensures PendingFiled(hash, arrivals, pending, after)
  {
  }

  lemma FiledAfterLaunch<U>(s: State<U>, h: nat, b: nat)
    requires Enabled(s, Launch(h, b)) && Filed(s)
    ensures Filed(DoLaunch(s, h, b))
  {
    var reqs, after := s.dispatcher.buckets[h], DoLaunch(s, h, b).place;
    LaunchMoves(s, h, b);
    PendingUnmoved(s.hash, s.arrivals, s.pending, s.place, after, reqs, b);
    BucketsAfterLaunch(s.hash, s.dispatcher.buckets, s.place, after, h, b);
    BatchesAfterLaunch(s.hash, s.batches, s.place, after, reqs, b);
  }

  /** Running an executor or sending leaves the requests of a batch alone. */
  lemma SameRequests<U>(hash: map<nat, nat>, batches: map<nat, Batch<U>>, place: map<nat, Place>, b: nat, x: Batch<U>)
    requires BatchesFiled(hash, batches, place) && b in batches && x.reqs == batches[b].reqs
    requires x.sent <= |x.reqs| && (x.results.None? ==> x.sent == 0)
    ensures BatchesFiled(hash, batches[b := x], place)
  {
  }

  lemma FiledAfterOther<U>(s: State<U>, a: Action<U>)
    requires Enabled(s, a) && Filed(s) && !a.Append? && !a.Swap? && !a.Launch?
    ensures Filed(Do(s, a))
  {
    if a.Execute? || a.Send? {
      SameRequests(s.hash, s.batches, s.place, a.b, Do(s, a).batches[a.b]);
    }
  }

  // ----- deliveries, action by action

  lemma DeliveredAfterSend<U>(s: State<U>, b: nat)
    requires Enabled(s, Send(b)) && AllDelivered(s)
    requires Slots(s.batches, s.place) && Places(s.batches, s.place)
    ensures AllDelivered(DoSend(s, b))
  {
    forall p | p in s.callers
      ensures DeliveredAt(DoSend(s, b), p)
    {
      SendDelivers(s, b, p);
    }
  }

  lemma SendDelivers<U>(s: State<U>, b: nat, p: nat)
    requires Enabled(s, Send(b)) && Domains(s) && p in s.callers && DeliveredAt(s, p)
    requires Slots(s.batches, s.place) && Places(s.batches, s.place)
    ensures DeliveredAt(DoSend(s, b), p)
  {
  }

  lemma DeliveredAfterLaunch<U>(s: State<U>, h: nat, b: nat)
    requires Enabled(s, Launch(h, b)) && AllDelivered(s) && Places(s.batches, s.place)
    requires Moved(s.place, DoLaunch(s, h, b).place, s.dispatcher.buckets[h], b)
    requires forall q | q in s.dispatcher.buckets[h] :: q in s.place && s.place[q].InBucket?
    ensures AllDelivered(DoLaunch(s, h, b))
  {
    var t := DoLaunch(s, h, b);
    forall p | p in t.callers
      ensures DeliveredAt(t, p)
    {
      LaunchDelivers(s, h, b, p);
    }
  }

  lemma LaunchDelivers<U>(s: State<U>, h: nat, b: nat, p: nat)
    requires Enabled(s, Launch(h, b)) && Domains(s) && p in s.callers && DeliveredAt(s, p) && Places(s.batches, s.place)
    requires Moved(s.place, DoLaunch(s, h, b).place, s.dispatcher.buckets[h], b)
    requires forall q | q in s.dispatcher.buckets[h] :: q in s.place && s.place[q].InBucket?
    ensures DeliveredAt(DoLaunch(s, h, b), p)
  {
    assert Slotted(s.batches, p, s.place[p]);
  }

  lemma DeliveredAfterExecute<U>(s: State<U>, b: nat, results: seq<Result<U>>)
    requires Enabled(s, Execute(b, results)) && Shape(s.batches) && AllDelivered(s)
    ensures AllDelivered(Do(s, Execute(b, results)))
  {
  }

  lemma DeliveredAfterAppend<U>(s: State<U>, q: nat)
    requires Enabled(s, Append(q)) && AllDelivered(s)
    ensures AllDelivered(DoAppend(s, q))
  {
  }

  lemma DeliveredAfterSwap<U>(s: State<U>)
    requires Enabled(s, Swap) && AllDelivered(s)
    ensures AllDelivered(DoSwap(s))
  {
  }

  /** A step that leaves requests, callers and channels alone. */
  lemma DeliveredUntouched<U>(s: State<U>, t: State<U>)
    requires AllDelivered(s)
    requires t.hash == s.hash && t.batches == s.batches && t.place == s.place
    requires t.callers == s.callers && t.channel == s.channel && t.sends == s.sends
    ensures AllDelivered(t)
  {
    forall p | p in t.callers
      ensures DeliveredAt(t, p)
    {
      assert DeliveredAt(s, p);
    }
  }

  lemma DeliveredAfterDispatcher<U>(s: State<U>, a: Action<U>)
    requires Enabled(s, a) && AllDelivered(s) && (a.Receive? || a.Rearm? || a.Close? || a.EndLaunch?)
    ensures AllDelivered(Do(s, a))
  {
    DeliveredUntouched(s, Do(s, a));
  }

  lemma DeliveredAfterSignal<U>(s: State<U>, q: nat)
    requires Enabled(s, Signal(q)) && AllDelivered(s)
    ensures AllDelivered(Do(s, Signal(q)))
  {
    var t := Do(s, Signal(q));
    forall p | p in t.callers
      ensures DeliveredAt(t, p)
    {
      assert DeliveredAt(s, p);
    }
  }

  lemma DeliveredAfterReturn<U>(s: State<U>, q: nat)
    requires Enabled(s, Return(q)) && AllDelivered(s)
    ensures AllDelivered(Do(s, Return(q)))
  {
    var t := Do(s, Return(q));
    forall p | p in t.callers
      ensures DeliveredAt(t, p)
    {
      assert DeliveredAt(s, p);
    }
  }

  lemma DeliveredAfterGiveUp<U>(s: State<U>, q: nat)
    requires Enabled(s, GiveUp(q)) && AllDelivered(s)
    ensures AllDelivered(Do(s, GiveUp(q)))
  {
    var t := Do(s, GiveUp(q));
    forall p | p in t.callers
      ensures DeliveredAt(t, p)
    {
      assert DeliveredAt(s, p);
    }
  }

  lemma WakeKept<U>(s: State<U>, a: Action<U>)
    requires Enabled(s, a) && Wake(s)
    ensures Wake(Do(s, a))
  {
    var t := Do(s, a);
    if a.Append? { assert t.callers[a.q].Appended?; }
    if exists q :: q in s.callers && s.callers[q].Appended? {
      var q :| q in s.callers && s.callers[q].Appended?;
      assert a == Signal(q) || t.callers[q].Appended?;
    }
  }

  lemma {:induction false} FiledKept<U>(s: State<U>, a: Action<U>)
    requires Enabled(s, a) && Filed(s) && AllDelivered(s)
    ensures Filed(Do(s, a))
  {
    if a.Append? {
      assert DeliveredAt(s, a.q);
      FiledAfterAppend(s, a.q);
    } else if a.Swap? {
      FiledAfterSwap(s);
    } else if a.Launch? {
      FiledAfterLaunch(s, a.h, a.b);
    } else {
      FiledAfterOther(s, a);
    }
  }

  lemma {:induction false} DeliveredAfterBatch<U>(s: State<U>, a: Action<U>)
    requires Enabled(s, a) && Filed(s) && AllDelivered(s) && (a.Launch? || a.Execute? || a.Send?)
    ensures AllDelivered(Do(s, a))
  {
    if a.Launch? {
      LaunchMoves(s, a.h, a.b);
      DeliveredAfterLaunch(s, a.h, a.b);
    } else if a.Execute? {
      DeliveredAfterExecute(s, a.b, a.results);
    } else {
      DeliveredAfterSend(s, a.b);
    }
  }

  lemma {:induction false} DeliveredKept<U>(s: State<U>, a: Action<U>)
    requires Enabled(s, a) && Filed(s) && AllDelivered(s)
    ensures AllDelivered(Do(s, a))
  {
    match a
    case Append(q) => DeliveredAfterAppend(s, q);
    case Signal(q) => DeliveredAfterSignal(s, q);
    case Return(q) => DeliveredAfterReturn(s, q);
    case GiveUp(q) => DeliveredAfterGiveUp(s, q);
    case Swap => DeliveredAfterSwap(s);
    case Launch(_, _) => DeliveredAfterBatch(s, a);
    case Execute(_, _) => DeliveredAfterBatch(s, a);
    case Send(_) => DeliveredAfterBatch(s, a);
    case _ => DeliveredAfterDispatcher(s, a);
  }

  lemma InitInv<U>(s: State<U>)
    requires Init(s)
    ensures Inv(s)
  {
  }

  lemma {:induction false} InvHolds<U>(s: State<U>, run: seq<Action<U>>)
    requires Init(s) && Legal(s, run)
    ensures Inv(End(s, run))
    decreases |run|
  {
    if run == [] {
      InitInv(s);
    } else {
      InvHolds(s, run[..|run| - 1]);
      var t, a := End(s, run[..|run| - 1]), run[|run| - 1];
      FiledKept(t, a);
      DeliveredKept(t, a);
      WakeKept(t, a);
    }
  }
}
