/** The executors take their MachineDeployment from the first input of a batch. */
module BatchTargets {
  import opened Machines
  import opened Providers
  import opened Batching
  import opened BatchingInvariant

  /**
   Every request of a batch names the MachineDeployment the first one names, in
   every run, provided the hash tells the keys in use apart and namespaces have
   no slash. (64-bit FNV-1a can collide, so the first is a hypothesis.)
   */
  lemma BatchSharesDeployment<U>(s: State<U>, run: seq<Action<U>>, target: map<nat, Key>, hashOf: string -> nat,
                                 b: nat, q: nat)
    requires Init(s) && Legal(s, run) && b in End(s, run).batches && q in End(s, run).batches[b].reqs
    requires forall p | p in End(s, run).hash ::
      p in target && End(s, run).hash[p] == hashOf(Print(target[p])) && '/' !in target[p].ns
    requires forall p, r | p in target && r in target && hashOf(Print(target[p])) == hashOf(Print(target[r])) ::
      Print(target[p]) == Print(target[r])
    ensures var first := End(s, run).batches[b].reqs[0]; q in target && first in target && target[q] == target[first]
  {
    InvHolds(s, run);
    var reqs := End(s, run).batches[b].reqs;
    assert reqs[0] in reqs;
    BatchKeyInjective(target[q], target[reqs[0]]);
  }
}
