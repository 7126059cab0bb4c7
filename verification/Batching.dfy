/**
 The coalescing protocol of `Batcher`: callers append and signal, the dispatcher
 opens a window, swaps the pending map out and starts one batch per bucket, each
 batch runs its executor and sends one result to each caller.

 Every channel operation, lock section and timer is one action. A request is
 identified by its caller. `place` is bookkeeping: where a request is.
 */
module Batching {
  import opened Common

  datatype Caller<U> = New | Appended | Waiting | Returned(r: Result<U>) | GaveUp

  datatype Dispatcher = Idle | Window | Closing | Launching(buckets: map<nat, seq<nat>>)

  datatype Batch<U> = Batch(reqs: seq<nat>, results: Option<seq<Result<U>>>, sent: nat)

  datatype Place = Nowhere | InPending | InBucket | InBatch(b: nat, i: nat)

  datatype State<U> = State(
    hash: map<nat, nat>,                    // each caller's bucket key
    callers: map<nat, Caller<U>>,
    pending: map<nat, seq<nat>>,            // Batcher.requests
    token: bool,                            // Batcher.trigger, capacity one
    dispatcher: Dispatcher,
    batches: map<nat, Batch<U>>,
    channel: map<nat, Option<Result<U>>>,   // each caller's requestor, capacity one
    sends: map<nat, nat>,                   // history: sends to each requestor
    arrivals: seq<nat>,                     // history: appended since the last swap
    place: map<nat, Place>)

  datatype Action<U> =
    | Append(q: nat)
    | Signal(q: nat)
    | Receive                               // dispatcher idle: opens the window
    | Rearm                                 // window: resets the idle timer
    | Close                                 // idle or maximum timer
    | Swap
    | Launch(h: nat, b: nat)
    | EndLaunch
    | Execute(b: nat, results: seq<Result<U>>)
    | Send(b: nat)
    | Return(q: nat)
    | GiveUp(q: nat)                        // the caller's context is done

  /** What request `i` of a batch is sent, whatever number of results there are. */
  function Delivery<U>(results: seq<Result<U>>, i: nat): Result<U> {
    if i < |results| then results[i] else Fail(TooFewResultsError)
  }

  /** The requests of a history with hash `h`, in order. */
  function Bucket(hash: map<nat, nat>, arrivals: seq<nat>, h: nat): seq<nat> {
    if arrivals == [] then []
    else
      var front, q := arrivals[..|arrivals| - 1], arrivals[|arrivals| - 1];
      if q in hash && hash[q] == h then Bucket(hash, front, h) + [q] else Bucket(hash, front, h)
  }

  predicate Enabled<U>(s: State<U>, a: Action<U>) {
    match a
    case Append(q) => q in s.callers && s.callers[q].New? && q in s.hash
    case Signal(q) => q in s.callers && s.callers[q].Appended?
    case Receive => s.dispatcher.Idle? && s.token
    case Rearm => s.dispatcher.Window? && s.token
    case Close => s.dispatcher.Window?
    case Swap => s.dispatcher.Closing?
    case Launch(h, b) => s.dispatcher.Launching? && h in s.dispatcher.buckets && b !in s.batches
    case EndLaunch => s.dispatcher.Launching? && s.dispatcher.buckets == map[]
    case Execute(b, _) => b in s.batches && s.batches[b].results.None?
    case Send(b) =>
      && b in s.batches && s.batches[b].results.Some? && s.batches[b].sent < |s.batches[b].reqs|
      && var q := s.batches[b].reqs[s.batches[b].sent];
         q in s.channel && s.channel[q].None? && q in s.sends
    case Return(q) => q in s.callers && s.callers[q].Waiting? && q in s.channel && s.channel[q].Some?
    case GiveUp(q) => q in s.callers && s.callers[q].Waiting?
  }

  function Do<U>(s: State<U>, a: Action<U>): State<U>
    requires Enabled(s, a)
  {
    match a
    case Append(q) => DoAppend(s, q)
    case Signal(q) => s.(callers := s.callers[q := Waiting], token := true)
    case Receive => s.(token := false, dispatcher := Window)
    case Rearm => s.(token := false)
    case Close => s.(dispatcher := Closing)
    case Swap => DoSwap(s)
    case Launch(h, b) => DoLaunch(s, h, b)
    case EndLaunch => s.(dispatcher := Idle)
    case Execute(b, results) => s.(batches := s.batches[b := s.batches[b].(results := Some(results))])
    case Send(b) => DoSend(s, b)
    case Return(q) => s.(callers := s.callers[q := Returned(s.channel[q].value)], channel := s.channel[q := None])
    case GiveUp(q) => s.(callers := s.callers[q := GaveUp])
  }

  function DoAppend<U>(s: State<U>, q: nat): State<U>
    requires Enabled(s, Append(q))
  {
    var h := s.hash[q];
    s.(callers := s.callers[q := Appended],
       pending := s.pending[h := (if h in s.pending then s.pending[h] else []) + [q]],
       arrivals := s.arrivals + [q],
       place := s.place[q := InPending])
  }

  function DoSwap<U>(s: State<U>): State<U>
    requires Enabled(s, Swap)
  {
    s.(dispatcher := Launching(s.pending), pending := map[], arrivals := [],
       place := map q | q in s.place :: if s.place[q].InPending? then InBucket else s.place[q])
  }

  function DoLaunch<U>(s: State<U>, h: nat, b: nat): State<U>
    requires Enabled(s, Launch(h, b))
  {
    var reqs := s.dispatcher.buckets[h];
    s.(dispatcher := Launching(s.dispatcher.buckets - {h}),
       batches := s.batches[b := Batch(reqs, None, 0)],
       place := map q | q in s.place :: if q in reqs then InBatch(b, IndexOf(reqs, q)) else s.place[q])
  }

  function DoSend<U>(s: State<U>, b: nat): State<U>
    requires Enabled(s, Send(b))
  {
    var x := s.batches[b];
    var q := x.reqs[x.sent];
    s.(batches := s.batches[b := x.(sent := x.sent + 1)],
       channel := s.channel[q := Some(Delivery(x.results.value, x.sent))],
       sends := s.sends[q := s.sends[q] + 1])
  }

  function IndexOf(reqs: seq<nat>, q: nat): (i: nat)
    requires q in reqs
    ensures i < |reqs| && reqs[i] == q
  {
    if reqs[0] == q then 0 else 1 + IndexOf(reqs[1..], q)
  }

  predicate Init<U>(s: State<U>) {
    && s.hash.Keys == s.channel.Keys == s.sends.Keys == s.place.Keys == s.callers.Keys
    && (forall q | q in s.callers :: s.callers[q].New? && s.channel[q].None? && s.sends[q] == 0 && s.place[q].Nowhere?)
    && s.pending == map[] && !s.token && s.dispatcher.Idle? && s.batches == map[] && s.arrivals == []
  }

  ghost predicate Legal<U>(s: State<U>, run: seq<Action<U>>)
    decreases |run|, 0
  {
    run == [] || (Legal(s, run[..|run| - 1]) && Enabled(End(s, run[..|run| - 1]), run[|run| - 1]))
  }

  ghost function End<U>(s: State<U>, run: seq<Action<U>>): State<U>
    requires Legal(s, run)
    decreases |run|, 1
  {
    if run == [] then s else Do(End(s, run[..|run| - 1]), run[|run| - 1])
  }
}
