/**
 Every interleaving of create batches, delete batches and MachineSet steps on
 one MachineDeployment, one API call at a time.

 `Enabled` and `Do` are the code and its environment; reads and writes are
 separate actions, and a write stores the copy that was read (no
 compare-and-swap). What the safety results assume of callers and store is not
 built in: see `FleetSafety.Disciplined`. Nothing below is scheduled: a run is
 any list of enabled actions.
 */
module Fleet {
  import opened Common
  import opened Machines
  import opened Replicas

  /** One request of a delete batch. `Placed` and `Undoing`: marked, and neither
      decremented nor rolled back yet. */
  datatype Stage = Queued | Fetched(copy: Machine) | Refused | Placed | Undoing(copy: Machine) | Settled

  datatype Request = Request(batch: nat, machine: Key, stage: Stage) {
    predicate Early() { stage.Queued? || stage.Fetched? }
    predicate InFlight() { stage.Placed? || stage.Undoing? }
    predicate Active() { Early() || InFlight() }
  }

  /** What one critical section did to `spec.replicas`. */
  datatype Effect = Raise(n: nat, unclaimed: nat) | Lower(marked: nat) | Nothing

  datatype Phase =
    | Marking                                        // delete only, before wg.Wait returns
    | Ready(amount: nat)                             // wants the lock
    | Locked(amount: nat)
    | Read(amount: nat, copy: int)                   // holds a copy of spec.replicas
    | Counted(amount: nat, copy: int, unclaimed: nat) // create only
    | Leaving(amount: nat, effect: Effect)           // about to unlock
    | Done(ok: bool)

  datatype Batch = Batch(create: bool, phase: Phase)

  /** A Machine some bind goroutine has read and not written back yet. */
  datatype Binding = Binding(machine: Key, copy: Machine)

  datatype Entry = Entry(batch: nat, n: nat)
  datatype Section = Section(batch: nat, effect: Effect)

  datatype State = State(
    initial: int,                 // spec.replicas when the run began
    replicas: int,
    machines: map<Key, Machine>,
    requests: map<nat, Request>,
    batches: map<nat, Batch>,
    bindings: map<nat, Binding>,
    holder: Option<nat>,          // who holds the MachineDeployment's lock
    order: seq<Entry>,            // history: lock acquisitions
    log: seq<Section>)            // history: critical sections that ended

  datatype Action =
    | SubmitCreate(b: nat, n: nat)
    | SubmitDelete(b: nat, asks: map<nat, Key>)
    | ReadMachine(q: nat)
    | RefuseMachine(q: nat)                   // Get or Update failed
    | MarkMachine(q: nat, stamp: string)
    | EndMarking(b: nat)
    | Acquire(b: nat)
    | ReadReplicas(b: nat)
    | ReadFails(b: nat)
    | Count(b: nat, listed: bool)
    | Store(b: nat)
    | StoreFails(b: nat)
    | Release(b: nat)
    | ReadMark(q: nat)
    | RemoveMark(q: nat)
    | AbandonMark(q: nat)                     // rollback Get or Update failed
    | ReadForBind(i: nat, b: nat, k: Key)
    | WriteLabel(i: nat, claim: bool)
    | AbandonBind(i: nat)
    | AddMachine(k: Key, m: Machine)          // MachineSet
    | StartDelete(k: Key)                     // MachineSet

  // ----- derived quantities

  function Usable(ms: map<Key, Machine>): set<Key> { set k | k in ms && ms[k].Usable() }
  function Doomed(ms: map<Key, Machine>): set<Key> { set k | k in ms && ms[k].Marked() && !ms[k].deleting }
  function Unclaimed(ms: map<Key, Machine>): set<Key> { set k | k in ms && ms[k].Unclaimed() }
  function Standing(ms: map<Key, Machine>): set<Key> { set k | k in ms && !ms[k].deleting }
  function InFlight(qs: map<nat, Request>): set<nat> { set q | q in qs && qs[q].InFlight() }
  function PlacedBy(qs: map<nat, Request>, b: nat): set<nat> {
    set q | q in qs && qs[q].batch == b && qs[q].stage.Placed?
  }

  predicate InSection(p: Phase) { p.Locked? || p.Read? || p.Counted? || p.Leaving? }

  function Apply(e: Effect, r: int): int {
    match e
    case Raise(n, u) => r + Max(0, n - u)
    case Lower(k) => Max(0, r - k)
    case Nothing => r
  }

  /** The reference: sections applied one after the other, nothing overlapping. */
  function Fold(log: seq<Section>, r: int): int {
    if log == [] then r else Apply(log[|log| - 1].effect, Fold(log[..|log| - 1], r))
  }

  function Asked(order: seq<Entry>): nat {
    if order == [] then 0 else Asked(order[..|order| - 1]) + order[|order| - 1].n
  }

  // ----- the step system

  predicate MayMark(s: State, q: nat) {
    q in s.requests && s.requests[q].batch in s.batches && s.batches[s.requests[q].batch] == Batch(false, Marking)
  }

  predicate MayUndo(s: State, q: nat) {
    q in s.requests && s.requests[q].batch in s.batches && s.batches[s.requests[q].batch] == Batch(false, Done(false))
  }

  predicate Enabled(s: State, a: Action) {
    match a
    case SubmitCreate(b, n) => b !in s.batches && n > 0
    case SubmitDelete(b, asks) => b !in s.batches && asks != map[] && asks.Keys !! s.requests.Keys
    case ReadMachine(q) => MayMark(s, q) && s.requests[q].stage.Queued? && s.requests[q].machine in s.machines
    case RefuseMachine(q) =>
      MayMark(s, q) && (s.requests[q].stage.Queued? ||
                        (s.requests[q].stage.Fetched? && !s.requests[q].stage.copy.Marked()))
    case MarkMachine(q, _) => MayMark(s, q) && s.requests[q].stage.Fetched?
    case EndMarking(b) =>
      b in s.batches && s.batches[b] == Batch(false, Marking) &&
      forall q | q in s.requests && s.requests[q].batch == b :: !s.requests[q].Early()
    case Acquire(b) => b in s.batches && s.batches[b].phase.Ready? && s.holder.None?
    case ReadReplicas(b) => b in s.batches && s.batches[b].phase.Locked?
    case ReadFails(b) => b in s.batches && s.batches[b].phase.Locked?
    case Count(b, _) => b in s.batches && s.batches[b].create && s.batches[b].phase.Read?
    case Store(b) =>
      b in s.batches && if s.batches[b].create then s.batches[b].phase.Counted? else s.batches[b].phase.Read?
    case StoreFails(b) =>
      b in s.batches && var p := s.batches[b].phase;
      if s.batches[b].create then p.Counted? && Deficit(p.amount, p.unclaimed) > 0 else p.Read?
    case Release(b) => b in s.batches && s.batches[b].phase.Leaving?
    case ReadMark(q) => MayUndo(s, q) && s.requests[q].stage.Placed? && s.requests[q].machine in s.machines
    case RemoveMark(q) => MayUndo(s, q) && s.requests[q].stage.Undoing?
    case AbandonMark(q) => MayUndo(s, q) && s.requests[q].InFlight()
    case ReadForBind(i, b, k) =>
      b in s.batches && s.batches[b] == Batch(true, Done(true)) && k in s.machines && i !in s.bindings
    case WriteLabel(i, _) => i in s.bindings
    case AbandonBind(i) => i in s.bindings
    case AddMachine(k, m) => k !in s.machines && m.Unclaimed() && |Standing(s.machines)| < s.replicas
    case StartDelete(k) =>
      k in Standing(s.machines) && s.replicas < |Standing(s.machines)| &&
      (k in Doomed(s.machines) || Doomed(s.machines) == {})
  }

  function WithStage(s: State, q: nat, stage: Stage): State
    requires q in s.requests
  {
    s.(requests := s.requests[q := s.requests[q].(stage := stage)])
  }

  function WithPhase(s: State, b: nat, p: Phase): State
    requires b in s.batches
  {
    s.(batches := s.batches[b := s.batches[b].(phase := p)])
  }

  function Settle(qs: map<nat, Request>, b: nat): map<nat, Request> {
    map q | q in qs :: if q in PlacedBy(qs, b) then qs[q].(stage := Settled) else qs[q]
  }

  function Do(s: State, a: Action): State
    requires Enabled(s, a)
  {
    match a
    case SubmitCreate(b, n) => s.(batches := s.batches[b := Batch(true, Ready(n))])
    case SubmitDelete(b, asks) =>
      s.(batches := s.batches[b := Batch(false, Marking)],
         requests := s.requests + map q | q in asks :: Request(b, asks[q], Queued))
    case ReadMachine(q) => WithStage(s, q, Fetched(s.machines[s.requests[q].machine]))
    case RefuseMachine(q) => WithStage(s, q, Refused)
    case MarkMachine(q, stamp) =>
      var m := s.requests[q].stage.copy;
      var s1 := if m.Marked() then s else s.(machines := s.machines[s.requests[q].machine := m.WithMark(stamp)]);
      WithStage(s1, q, Placed)
    case EndMarking(b) =>
      var k := |PlacedBy(s.requests, b)|;
      WithPhase(s, b, if k == 0 then Done(true) else Ready(k))
    case Acquire(b) =>
      var p := s.batches[b].phase;
      WithPhase(s, b, Locked(p.amount)).(holder := Some(b),
        order := s.order + [Entry(b, if s.batches[b].create then p.amount else 0)])
    case ReadReplicas(b) => WithPhase(s, b, Read(s.batches[b].phase.amount, s.replicas))
    case ReadFails(b) => WithPhase(s, b, Leaving(s.batches[b].phase.amount, Nothing))
    case Count(b, listed) =>
      var p := s.batches[b].phase;
      WithPhase(s, b, Counted(p.amount, p.copy, if listed then |Unclaimed(s.machines)| else 0))
    case Store(b) =>
      var p := s.batches[b].phase;
      if s.batches[b].create then
        var r := if Deficit(p.amount, p.unclaimed) > 0 then Raised(p.copy, p.amount, p.unclaimed) else s.replicas;
        WithPhase(s, b, Leaving(p.amount, Raise(p.amount, p.unclaimed))).(replicas := r)
      else
        WithPhase(s, b, Leaving(p.amount, Lower(p.amount))).(
          replicas := Lowered(p.copy, p.amount),
          requests := Settle(s.requests, b))
    case StoreFails(b) => WithPhase(s, b, Leaving(s.batches[b].phase.amount, Nothing))
    case Release(b) =>
      var e := s.batches[b].phase.effect;
      WithPhase(s, b, Done(e != Nothing)).(holder := None, log := s.log + [Section(b, e)])
    case ReadMark(q) => WithStage(s, q, Undoing(s.machines[s.requests[q].machine]))
    case RemoveMark(q) =>
      var m := s.requests[q].stage.copy;
      var s1 := if m.Marked() then s.(machines := s.machines[s.requests[q].machine := m.WithoutMark()]) else s;
      WithStage(s1, q, Settled)
    case AbandonMark(q) => WithStage(s, q, Settled)
    case ReadForBind(i, b, k) => s.(bindings := s.bindings[i := Binding(k, s.machines[k])])
    case WriteLabel(i, claim) =>
      var c := s.bindings[i];
      s.(machines := s.machines[c.machine := if claim then c.copy.Labelled() else c.copy.Unlabelled()],
         bindings := s.bindings - {i})
    case AbandonBind(i) => s.(bindings := s.bindings - {i})
    case AddMachine(k, m) => s.(machines := s.machines[k := m])
    case StartDelete(k) => s.(machines := s.machines[k := s.machines[k].(deleting := true)])
  }

  ghost predicate Legal(s: State, run: seq<Action>)
    decreases |run|, 0
  {
    run == [] || (Legal(s, run[..|run| - 1]) && Enabled(End(s, run[..|run| - 1]), run[|run| - 1]))
  }

  ghost function End(s: State, run: seq<Action>): State
    requires Legal(s, run)
    decreases |run|, 1
  {
    if run == [] then s else Do(End(s, run[..|run| - 1]), run[|run| - 1])
  }

  predicate Init(s: State) {
    0 <= s.initial == s.replicas && s.requests == map[] && s.batches == map[] && s.bindings == map[]
    && s.holder == None && s.order == [] && s.log == []
  }

  /** The sizes fit int32: initial replicas plus all create requests, Machines, delete requests. */
  predicate InRange(s: State) {
    s.initial + Asked(s.order) <= MAX_INT32 && |s.machines| <= MAX_INT32 && |s.requests| <= MAX_INT32
  }

  lemma RangeShrinksBackwards(s: State, a: Action)
    requires Enabled(s, a) && InRange(Do(s, a))
    ensures InRange(s)
  {
    var t := Do(s, a);
    CardSubset(s.machines.Keys, t.machines.Keys);
    CardSubset(s.requests.Keys, t.requests.Keys);
    if a.Acquire? {
      assert t.order[..|t.order| - 1] == s.order;
    }
  }
}
