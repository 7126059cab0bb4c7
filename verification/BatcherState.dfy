/**
 The state `Batcher` keeps behind its mutex and trigger, and the delivery loops
 of `runBatch`. Each method performs one action of the protocol in `Batching`.
 */
module BatcherState {
  import opened Common
  import opened Batching

  /** A caller's result channel, capacity one. */
  class Requestor<U> {
    var slot: Option<Result<U>>

    constructor ()
      ensures slot == None
    {
      slot := None;
    }
  }

  class Batcher {
    var requests: map<nat, seq<nat>>
    var trigger: bool

    /** This object is the shared part of protocol state `s`. */
    ghost predicate Represents<U>(s: State<U>)
      reads this
    {
      requests == s.pending && trigger == s.token
    }

    constructor ()
      ensures requests == map[] && !trigger
    {
      requests := map[];
      trigger := false;
    }

    /** `Add`, the part under the mutex. */
    method Append<U>(ghost s: State<U>, q: nat, hash: nat)
      requires Represents(s) && Batching.Enabled(s, Action<U>.Append(q)) && s.hash[q] == hash
      modifies this
      ensures Represents(Do(s, Action<U>.Append(q)))
    {
      var waiting := if hash in requests then requests[hash] else [];
      requests := requests[hash := waiting + [q]];
    }

    /** `Add`, the non-blocking send: a token already there is left there. */
    method Signal<U>(ghost s: State<U>, ghost q: nat)
      requires Represents(s) && Batching.Enabled(s, Action<U>.Signal(q))
      modifies this
      ensures Represents(Do(s, Action<U>.Signal(q)))
    {
      if !trigger {
        trigger := true;
      }
    }

    /** A receive from the trigger, by `run` when idle or by `waitForIdle`. */
    method Receive<U>(ghost s: State<U>) returns (received: bool)
      requires Represents(s)
      modifies this
      ensures received <==> s.token
      ensures received && s.dispatcher.Idle? ==>
        && Batching.Enabled(s, Action<U>.Receive)
        && Represents(Do(s, Action<U>.Receive))
      ensures received && s.dispatcher.Window? ==>
        && Batching.Enabled(s, Action<U>.Rearm)
        && Represents(Do(s, Action<U>.Rearm))
      ensures !received ==> Represents(s)
    {
      received := trigger;
      trigger := false;
    }

    /** `run`, the part under the mutex. */
    method Swap<U>(ghost s: State<U>) returns (buckets: map<nat, seq<nat>>)
      requires Represents(s) && Batching.Enabled(s, Action<U>.Swap)
      modifies this
      ensures Represents(Do(s, Action<U>.Swap)) && Do(s, Action<U>.Swap).dispatcher == Launching(buckets)
    {
      buckets := requests;
      requests := map[];
    }
  }

  /** The delivery loops of `runBatch`, for any number of results: every requestor
      is sent to once, so its channel is still empty when its turn comes. */
  method Deliver<U>(reqs: seq<Requestor<U>>, results: seq<Result<U>>)
    requires forall i, j | 0 <= i < j < |reqs| :: reqs[i] != reqs[j]
    requires forall r | r in reqs :: r.slot.None?
    modifies reqs
    ensures forall i | 0 <= i < |reqs| :: reqs[i].slot == Some(Delivery(results, i))
    ensures forall i | 0 <= i < |reqs| ::
      reqs[i].slot == Some(if i < |results| then results[i] else Fail(TooFewResultsError))
  {
    for i := 0 to |results|
      invariant forall k | 0 <= k < |reqs| :: reqs[k].slot == if k < i then Some(results[k]) else None
    {
      if i < |reqs| {
        assert reqs[i].slot.None?;
        reqs[i].slot := Some(results[i]);
      }
    }
    var i := |results|;
    while i < |reqs|
      invariant |results| <= i
      invariant forall k | 0 <= k < |reqs| ::
        reqs[k].slot == if k < |results| || k < i then Some(Delivery(results, k)) else None
    {
      assert reqs[i].slot.None?;
      reqs[i].slot := Some(Fail(TooFewResultsError));
      i := i + 1;
    }
  }
}
