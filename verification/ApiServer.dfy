/**
 The API server as the providers see it: whole objects are read and overwritten,
 any call can fail, and a failed write has no effect. `failed` records the calls
 that failed; `trace` records, in order, what takes and gives back locks, and the
 Lists and MachineDeployment calls in between. `MachineSetActs` is everybody else.
 */
module ApiServer {
  import opened Common
  import opened Machines

  datatype Deployment = Deployment(
    replicas: Option<int>,
    templateLabels: Option<map<string, string>>,
    annotations: map<string, string>)

  datatype Call =
    | MachineGet(k: Key)
    | MachineUpdate(k: Key)
    | MachineList
    | DeploymentGet(d: Key)
    | DeploymentUpdate(d: Key)
    | ClaimPatch(name: string)

  lemma Regroup(a: seq<Call>, b: seq<Call>, c: seq<Call>)
    ensures a + b + c == a + (b + c)
  {
  }

  datatype Act = Locked(key: string) | Unlocked(key: string) | Called(call: Call)

  /** The calls of one critical section. */
  function Guarded(key: string, calls: seq<Call>): seq<Act> {
    [Locked(key)] + seq(|calls|, i requires 0 <= i < |calls| => Called(calls[i])) + [Unlocked(key)]
  }

  lemma GuardedIs(key: string, a: Call, b: Call, c: Call)
    ensures Guarded(key, [a]) == [Locked(key), Called(a), Unlocked(key)]
    ensures Guarded(key, [a, b]) == [Locked(key), Called(a), Called(b), Unlocked(key)]
    ensures Guarded(key, [a, b, c]) == [Locked(key), Called(a), Called(b), Called(c), Unlocked(key)]
  {
  }

  /** `n` Lists outside any critical section. */
  function Lists(n: nat): seq<Act> { seq(n, _ => Called(MachineList)) }

  /** Calls were made, no lock was touched. */
  predicate OnlyCalls(before: seq<Act>, after: seq<Act>) {
    before <= after && forall i | |before| <= i < |after| :: after[i].Called?
  }

  /** An error a caller is given names a call that failed for it; lack of a Machine needs none. */
  predicate Explains(failed: seq<Call>, e: Error, d: Key, k: Key, claim: string) {
    match e
    case GetMachineDeploymentError => DeploymentGet(d) in failed
    case UpdateMachineDeploymentError => DeploymentUpdate(d) in failed
    case GetMachineError => MachineGet(k) in failed
    case LabelMachineError => MachineUpdate(k) in failed
    case MarkMachineError => MachineUpdate(k) in failed
    case AnnotateNodeClaimError => ClaimPatch(claim) in failed
    case NoMachineError => true
    case TooFewResultsError => false
  }

  datatype World = World(
    machines: map<Key, Machine>,
    deployments: map<Key, Deployment>,
    claims: map<string, map<string, string>>)   // the annotations of each NodeClaim

  datatype Listed = Listed(key: Key, machine: Machine)

  /** Labelled as a Machine of deployment `d`; a List with an empty namespace spans all. */
  predicate Of(k: Key, m: Machine, d: Key) { (d.ns == "" || k.ns == d.ns) && m.OwnedBy(d.name) }

  /** What the create batch's selector matches. */
  predicate Selected(k: Key, m: Machine, d: Key) { Of(k, m, d) && !m.Member() }

  /** Spelled out: an unclaimed Machine of the deployment in its namespace. */
  lemma SelectedIs(k: Key, m: Machine, d: Key)
    ensures Selected(k, m, d) <==>
      && (d.ns == "" || k.ns == d.ns)
      && DEPLOYMENT_LABEL in m.labels && m.labels[DEPLOYMENT_LABEL] == d.name && MEMBER_LABEL !in m.labels
  {
  }

  predicate IsListing(listing: seq<Listed>, ms: map<Key, Machine>, d: Key) {
    && (forall i, j | 0 <= i < j < |listing| :: listing[i].key != listing[j].key)
    && (forall x | x in listing :: x.key in ms && ms[x.key] == x.machine && Selected(x.key, x.machine, d))
    && (forall k | k in ms && Selected(k, ms[k], d) :: Listed(k, ms[k]) in listing)
  }

  /** A provider ID that has been set stays. */
  predicate SameProvider(m: Machine, n: Machine) { m.providerID.Some? ==> n.providerID == m.providerID }

  /** What others may do to a Machine meanwhile: start its deletion, change its
      annotations, set its provider ID; never its labels. */
  predicate Keeps(m: Machine, n: Machine) {
    n.labels == m.labels && (m.deleting ==> n.deleting) && SameProvider(m, n)
  }

  /** They may also add Machines, unclaimed ones. */
  predicate Drift(before: map<Key, Machine>, after: map<Key, Machine>) {
    && (forall k | k in before :: k in after && Keeps(before[k], after[k]))
    && (forall k | k in after && k !in before :: !after[k].Member())
  }

  class Cluster {
    var machines: map<Key, Machine>
    var deployments: map<Key, Deployment>
    var claims: map<string, map<string, string>>
    ghost var failed: seq<Call>
    ghost var trace: seq<Act>

    ghost function State(): World
      reads this
    {
      World(machines, deployments, claims)
    }

    constructor (w: World)
      ensures State() == w && failed == [] && trace == []
    {
      machines, deployments, claims := w.machines, w.deployments, w.claims;
      failed, trace := [], [];
    }

    method GetMachine(k: Key) returns (r: Outcome<Machine>)
      modifies this`failed
      ensures r.Ok? ==> k in machines && r.value == machines[k] && failed == old(failed)
      ensures r.Failed? ==> failed == old(failed) + [MachineGet(k)]
    {
      var broken: bool := *;
      if broken || k !in machines {
        r := Failed;
        failed := failed + [MachineGet(k)];
      } else {
        r := Ok(machines[k]);
      }
    }

    /** Overwrites whatever is there. (A store may also refuse what is not there: any call can fail.) */
    method UpdateMachine(k: Key, m: Machine) returns (ok: bool)
      modifies this`machines, this`failed
      ensures ok ==> machines == old(machines)[k := m] && failed == old(failed)
      ensures !ok ==> machines == old(machines) && failed == old(failed) + [MachineUpdate(k)]
    {
      var broken: bool := *;
      ok := !broken;
      if ok {
        machines := machines[k := m];
      } else {
        failed := failed + [MachineUpdate(k)];
      }
    }

    /** In no particular order. */
    method ListMachines(d: Key) returns (r: Outcome<seq<Listed>>)
      modifies this`failed, this`trace
      ensures trace == old(trace) + [Called(MachineList)]
      ensures r.Ok? ==> IsListing(r.value, machines, d) && failed == old(failed)
      ensures r.Failed? ==> failed == old(failed) + [MachineList]
    {
      trace := trace + [Called(MachineList)];
      var broken: bool := *;
      if broken {
        r := Failed;
        failed := failed + [MachineList];
        return;
      }
      var listing: seq<Listed> := [];
      var todo := machines.Keys;
      while todo != {}
        invariant todo <= machines.Keys
        invariant forall x | x in listing :: x.key !in todo
        invariant IsListing(listing, map k | k in machines && k !in todo :: machines[k], d)
      {
        var k :| k in todo;
        todo := todo - {k};
        if Selected(k, machines[k], d) {
          listing := listing + [Listed(k, machines[k])];
        }
      }
      assert (map k | k in machines && k !in todo :: machines[k]) == machines;
      r := Ok(listing);
    }

    /** The first Machine of all, in whatever order they are listed, with this provider ID. */
    method GetByProviderID(id: string) returns (r: Outcome<Option<Listed>>)
      modifies this`failed, this`trace
      ensures trace == old(trace) + [Called(MachineList)]
      ensures r.Ok? ==> failed == old(failed)
      ensures r.Failed? ==> failed == old(failed) + [MachineList]
      ensures r.Ok? && r.value.Some? ==>
        var x := r.value.value; x.key in machines && machines[x.key] == x.machine && x.machine.providerID == Some(id)
      ensures r.Ok? && r.value.None? ==> forall k | k in machines :: machines[k].providerID != Some(id)
    {
      trace := trace + [Called(MachineList)];
      var broken: bool := *;
      if broken {
        r := Failed;
        failed := failed + [MachineList];
        return;
      }
      var todo := machines.Keys;
      while todo != {}
        invariant todo <= machines.Keys
        invariant forall k | k in machines && k !in todo :: machines[k].providerID != Some(id)
      {
        var k :| k in todo;
        todo := todo - {k};
        if machines[k].providerID == Some(id) { return Ok(Some(Listed(k, machines[k]))); }
      }
      return Ok(None);
    }

    method GetDeployment(d: Key) returns (r: Outcome<Deployment>)
      modifies this`failed, this`trace
      ensures trace == old(trace) + [Called(DeploymentGet(d))]
      ensures r.Ok? ==> d in deployments && r.value == deployments[d] && failed == old(failed)
      ensures r.Failed? ==> failed == old(failed) + [DeploymentGet(d)]
    {
      trace := trace + [Called(DeploymentGet(d))];
      var broken: bool := *;
      if broken || d !in deployments {
        r := Failed;
        failed := failed + [DeploymentGet(d)];
      } else {
        r := Ok(deployments[d]);
      }
    }

    method UpdateDeployment(d: Key, x: Deployment) returns (ok: bool)
      modifies this`deployments, this`failed, this`trace
      ensures trace == old(trace) + [Called(DeploymentUpdate(d))]
      ensures ok ==> deployments == old(deployments)[d := x] && failed == old(failed)
      ensures !ok ==> deployments == old(deployments) && failed == old(failed) + [DeploymentUpdate(d)]
    {
      trace := trace + [Called(DeploymentUpdate(d))];
      var broken: bool := *;
      ok := !broken;
      if ok {
        deployments := deployments[d := x];
      } else {
        failed := failed + [DeploymentUpdate(d)];
      }
    }

    /** The merge patch that sets one annotation of a NodeClaim. */
    method PatchClaim(name: string, value: string) returns (ok: bool)
      modifies this`claims, this`failed
      ensures ok ==>
        && name in old(claims)
        && claims == old(claims)[name := old(claims)[name][MACHINE_ANNOTATION := value]]
        && failed == old(failed)
      ensures !ok ==> claims == old(claims) && failed == old(failed) + [ClaimPatch(name)]
    {
      var broken: bool := *;
      ok := !broken && name in claims;
      if ok {
        claims := claims[name := claims[name][MACHINE_ANNOTATION := value]];
      } else {
        failed := failed + [ClaimPatch(name)];
      }
    }

    /** Time passes: the MachineSet and concurrent delete batches do what they may. */
    method MachineSetActs()
      modifies this`machines
      ensures Drift(old(machines), machines)
    {
      var rounds: nat := *;
      while rounds > 0
        invariant Drift(old(machines), machines)
        decreases rounds
      {
        rounds := rounds - 1;
        var k: Key := *;
        var m: Machine := *;
        if k in machines {
          var x := machines[k];
          machines := machines[k := m.(labels := x.labels, deleting := m.deleting || x.deleting,
                                       providerID := if x.providerID.Some? then x.providerID else m.providerID)];
        } else if !m.Member() {
          machines := machines[k := m];
        }
      }
    }
  }

  /** `MDLockManager` as one executor uses it. `MDLock` is the concurrent protocol;
      there a key has one mutex for good, so here the key stands for its mutex. Taking
      and giving back a lock is noted in the trace of the store `c` it protects. */
  class LockManager {
    var locks: map<string, bool>

    predicate Free(key: string)
      reads this
    {
      key in locks ==> !locks[key]
    }

    constructor ()
      ensures locks == map[]
    {
      locks := map[];
    }

    method Lock(ghost c: Cluster, key: string)
      requires Free(key)
      modifies this, c`trace
      ensures key in locks && locks[key]
      ensures forall k | k != key :: Free(k) == old(Free(k))
      ensures c.trace == old(c.trace) + [Locked(key)]
    {
      if key !in locks {
        locks := locks[key := false];
      }
      locks := locks[key := true];
      c.trace := c.trace + [Locked(key)];
    }

    method Unlock(ghost c: Cluster, key: string)
      requires !Free(key)
      modifies this, c`trace
      ensures Free(key)
      ensures forall k | k != key :: Free(k) == old(Free(k))
      ensures c.trace == old(c.trace) + [Unlocked(key)]
    {
      locks := locks[key := false];
      c.trace := c.trace + [Unlocked(key)];
    }
  }
}
