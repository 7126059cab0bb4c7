/** `Create` and `Delete` around the batches: resuming a bound NodeClaim, and what is submitted. */
module CloudProviders {
  import opened Common
  import opened Machines
  import opened Providers
  import opened Replicas
  import opened Labels
  import opened ApiServer
  import opened CreateBatch
  import opened CreateRuns
  import opened DeleteBatch
  import DeleteTheorems

  const LABELS_KEY := "capacity.cluster-autoscaler.kubernetes.io/labels"

  datatype NodeClaim = NodeClaim(name: string, annotations: map<string, string>, providerID: string)

  datatype Reason =
    | NilNodeClaim | NoInstanceType | NoReference | BadReference | MachineUnreadable | NoOwner
    | DeploymentUnreadable | NoProviderID | BatchFailed(e: Error) | NodeClaimNotFound | NilReplicas | ZeroReplicas

  datatype Reply<+T> = Fine(value: T) | Refusal(why: Reason)

  /** What `Create` fills in; capacity is not part of this model. */
  datatype Launched = Launched(labels: map<string, string>, providerID: string)

  datatype Owner = Owner(key: Key, deployment: Deployment)

  /** The MachineDeployment a Machine's label names, in the Machine's namespace. */
  function OwnerIn(ds: map<Key, Deployment>, k: Key, m: Machine): (r: Reply<Owner>)
    ensures r.Fine? <==> DEPLOYMENT_LABEL in m.labels && Key(k.ns, m.labels[DEPLOYMENT_LABEL]) in ds
    ensures r.Fine? ==>
      && r.value.key in ds
      && r.value.deployment == ds[r.value.key]
      && Of(k, m, r.value.key)
      && k.ns == r.value.key.ns
    ensures r.Refusal? ==> r.why == if DEPLOYMENT_LABEL in m.labels then DeploymentUnreadable else NoOwner
  {
    if DEPLOYMENT_LABEL !in m.labels then Refusal(NoOwner)
    else
      var d := Key(k.ns, m.labels[DEPLOYMENT_LABEL]);
      if d !in ds then Refusal(DeploymentUnreadable) else Fine(Owner(d, ds[d]))
  }

  /** The scale-from-zero annotation's label `key`, if there is one. */
  predicate Annotates(md: Deployment, key: string) {
    LABELS_KEY in md.annotations && key in LabelsOf(md.annotations[LABELS_KEY])
  }

  /** Key by key: the annotation's labels, and under them the template's managed ones. */
  ghost predicate LabelledFor(labels: map<string, string>, md: Deployment) {
    && (forall key :: key in labels <==>
          || Annotates(md, key)
          || (md.templateLabels.Some? && key in md.templateLabels.value && Managed(CLUSTER_API, key)))
    && (forall key | key in labels ::
          labels[key] ==
            if Annotates(md, key) then LabelsOf(md.annotations[LABELS_KEY])[key] else md.templateLabels.value[key])
  }

  /** What `Create` answers for provider ID `id`, from the MachineDeployment `md`. */
  ghost predicate Launches(l: Launched, md: Deployment, id: string) { l.providerID == id && LabelledFor(l.labels, md) }

  lemma LaunchesOne(l: Launched, m: Launched, md: Deployment, id: string)
    requires Launches(l, md, id) && Launches(m, md, id)
    ensures l == m
  {
    assert l.labels.Keys == m.labels.Keys by {
      forall key ensures key in l.labels <==> key in m.labels { }
    }
    assert l.labels == m.labels;
  }

  method MachineDeploymentFromMachine(c: Cluster, k: Key, m: Machine) returns (r: Reply<Owner>)
    modifies c`failed, c`trace
    ensures OnlyCalls(old(c.trace), c.trace)
    ensures r.Fine? || c.failed == old(c.failed) ==> r == OwnerIn(c.deployments, k, m)
    ensures c.failed != old(c.failed) ==>
      && DEPLOYMENT_LABEL in m.labels && r == Refusal(DeploymentUnreadable)
      && c.failed == old(c.failed) + [DeploymentGet(Key(k.ns, m.labels[DEPLOYMENT_LABEL]))]
  {
    if DEPLOYMENT_LABEL !in m.labels { return Refusal(NoOwner); }
    var d := Key(k.ns, m.labels[DEPLOYMENT_LABEL]);
    var md := c.GetDeployment(d);
    return if md.Ok? then Fine(Owner(d, md.value)) else Refusal(DeploymentUnreadable);
  }

  method CreateNodeClaim(md: Deployment, id: string) returns (r: Launched)
    ensures Launches(r, md, id)
  {
    var labels := NodeLabelsFromMachineDeployment(CLUSTER_API, md.templateLabels,
      if LABELS_KEY in md.annotations then Some(md.annotations[LABELS_KEY]) else None);
    return Launched(labels, id);
  }

  /** The answer for a stored Machine `k` of which everything could be read. */
  ghost predicate AnswersFor(w: World, k: Key, r: Reply<Launched>) {
    && k in w.machines
    && var md, id := OwnerIn(w.deployments, k, w.machines[k]), w.machines[k].providerID;
       if md.Refusal? then r == Refusal(md.why)
       else if id.None? then r == Refusal(NoProviderID)
       else r.Fine? && Launches(r.value, md.value.deployment, id.value)
  }

  /** What a `Create` that sees a reference answers, `failed` being the calls that failed:
      unless one did, an unparsable reference is refused and any other is answered for
      exactly the Machine it names. */
  ghost predicate Resumed(w: World, reference: string, failed: seq<Call>, r: Reply<Launched>) {
    match ParseMachineAnnotation(reference)
    case Failed => r == Refusal(BadReference) && failed == []
    case Ok(k) =>
      if failed == [] then AnswersFor(w, k, r)
      else if failed == [MachineGet(k)] then r == Refusal(MachineUnreadable)
      else
        && k in w.machines && DEPLOYMENT_LABEL in w.machines[k].labels && r == Refusal(DeploymentUnreadable)
        && failed == [DeploymentGet(Key(k.ns, w.machines[k].labels[DEPLOYMENT_LABEL]))]
  }

  /** Reads only. */
  method GetExistingMachine(c: Cluster, reference: string) returns (r: Reply<Launched>)
    modifies c`failed, c`trace
    ensures OnlyCalls(old(c.trace), c.trace)
    ensures old(c.failed) <= c.failed && Resumed(c.State(), reference, c.failed[|old(c.failed)|..], r)
  {
    var k := ParseMachineAnnotation(reference);
    if k.Failed? { return Refusal(BadReference); }
    var m := c.GetMachine(k.value);
    if m.Failed? { return Refusal(MachineUnreadable); }
    var md := MachineDeploymentFromMachine(c, k.value, m.value);
    if md.Refusal? { return Refusal(md.why); }
    if m.value.providerID.None? { return Refusal(NoProviderID); }
    var l := CreateNodeClaim(md.value.deployment, m.value.providerID.value);
    return Fine(l);
  }

  function CreateInputs(ahead: seq<string>, name: string, behind: seq<string>, d: Key): (inputs: seq<CreateInput>)
    ensures |inputs| == |ahead| + 1 + |behind| && inputs[|ahead|] == CreateInput(name, d)
    ensures forall i | 0 <= i < |ahead| :: inputs[i] == CreateInput(ahead[i], d)
    ensures forall i | 0 <= i < |behind| :: inputs[|ahead| + 1 + i] == CreateInput(behind[i], d)
  {
    var names := ahead + [name] + behind;
    seq(|names|, i requires 0 <= i < |names| => CreateInput(names[i], d))
  }

  /** What the caller is told about result `mine` of its own request: the error, or that
      the Machine has no provider ID yet, or the Machine's provider ID and its deployment's labels. */
  ghost predicate ToldOf(r: Reply<Launched>, mine: Result<CreateOutput>, md: Deployment) {
    if mine.err.Some? then r == Refusal(BatchFailed(mine.err.value))
    else
      && mine.output.Some?
      && match mine.output.value.machine.providerID
         case None => r == Refusal(NoProviderID)
         case Some(id) => r.Fine? && Launches(r.value, md, id)
  }

  /** A NodeClaim that is launched is bound: its reference names a stored Machine that
      carries the provider ID answered. */
  predicate BoundAs(v: World, name: string, k: Key, id: string) {
    && name in v.claims && MACHINE_ANNOTATION in v.claims[name] && v.claims[name][MACHINE_ANNOTATION] == Print(k)
    && k in v.machines && v.machines[k].Member() && v.machines[k].providerID == Some(id)
  }

  /**
   `Create`. `resolved` is the MachineDeployment of the chosen instance type; the
   batcher puts the request between those of `ahead` and `behind`, and `ticks` bounds
   how often the batch's poll can wait.
   A NodeClaim with a reference, or none to serve, changes nothing at all.
   */
  method Create(c: Cluster, locks: LockManager, claim: Option<NodeClaim>, resolved: Outcome<Key>, ahead: seq<string>,
                behind: seq<string>, ticks: nat)
    returns (r: Reply<Launched>, ghost results: seq<Result<CreateOutput>>, ghost t: Trail, ghost failed: seq<Call>)
    requires resolved.Ok? ==> locks.Free(Print(resolved.value))
    modifies c, locks
    ensures c.failed == old(c.failed) + failed
    ensures claim.None? || MACHINE_ANNOTATION in claim.value.annotations || resolved.Failed? ==>
      c.State() == old(c.State()) && OnlyCalls(old(c.trace), c.trace)
    ensures claim.None? ==> r == Refusal(NilNodeClaim) && failed == []
    ensures claim.Some? && MACHINE_ANNOTATION in claim.value.annotations ==>
      Resumed(c.State(), claim.value.annotations[MACHINE_ANNOTATION], failed, r)
    ensures claim.Some? && MACHINE_ANNOTATION !in claim.value.annotations && resolved.Failed? ==>
      r == Refusal(NoInstanceType) && failed == []
    ensures claim.Some? && MACHINE_ANNOTATION !in claim.value.annotations && resolved.Ok? ==>
      var d := resolved.value;
      var inputs := CreateInputs(ahead, claim.value.name, behind, d);
      && CreateEffect(old(c.State()), inputs, results, t, c.State())
      && CreateBatch.ReasonsGiven(Keys(t.found), inputs, results, d, failed)
      && (!IsRefusal(results[0]) ==> t.ticks == ticks && failed == Failures(t))
      && (results[|ahead|].err.None? ==> d in c.deployments)
      && ToldOf(r, results[|ahead|], if d in c.deployments then c.deployments[d] else NO_DEPLOYMENT)
      && (r.Fine? && DistinctClaims(inputs) ==>
            && results[|ahead|].Success()
            && BoundAs(c.State(), claim.value.name, results[|ahead|].output.value.key, r.value.providerID))
  {
    results, t, failed := [], NO_TRAIL, [];
    if claim.None? { r := Refusal(NilNodeClaim); return; }
    if MACHINE_ANNOTATION in claim.value.annotations {
      r := GetExistingMachine(c, claim.value.annotations[MACHINE_ANNOTATION]);
      failed := c.failed[|old(c.failed)|..];
      return;
    }
    if resolved.Failed? { r := Refusal(NoInstanceType); return; }
    var d := resolved.value;
    ghost var inputs := CreateInputs(ahead, claim.value.name, behind, d);
    var answers;
    answers, t, failed := ExecCreateBatch(c, locks, CreateInputs(ahead, claim.value.name, behind, d), ticks);
    results := answers;
    var mine := answers[|ahead|];
    if mine.err.Some? { r := Refusal(BatchFailed(mine.err.value)); return; }
    MineIsBound(old(c.State()), inputs, results, t, c.State(), |ahead|);
    if mine.output.None? || mine.output.value.machine.providerID.None? { r := Refusal(NoProviderID); return; }
    // The answer carries the MachineDeployment as it was read under the lock; what
    // the stored one has now differs at most in its replicas, which are not used.
    var launched := CreateNodeClaim(c.deployments[d], mine.output.value.machine.providerID.value);
    r := Fine(launched);
  }

  /** Stands for the labels of a MachineDeployment nobody could read; no answer uses it. */
  const NO_DEPLOYMENT := Deployment(None, None, map[])

  /** A request without error got a Machine, to which its NodeClaim refers. */
  lemma {:induction false} MineIsBound(w: World, inputs: seq<CreateInput>, results: seq<Result<CreateOutput>>, t: Trail,
                                       v: World, i: nat)
    requires inputs != [] && CreateEffect(w, inputs, results, t, v) && i < |inputs| && results[i].err.None?
    ensures results[i].Success() && inputs[0].deployment in v.deployments
    ensures var o := results[i].output.value;
      DistinctClaims(inputs) && o.machine.providerID.Some? ==>
        BoundAs(v, inputs[i].claim, o.key, o.machine.providerID.value)
  {
    assert Served(w, inputs, results, t, v);
    assert i < |t.found| && results[i].Success();
  }

  // ----- idempotence

  /**
   Main result: once a NodeClaim has won a Machine, then at any later point of a run in
   which no NodeClaim wins twice (`UnboundDistinct` says when, `BindingsStandIff` why)
   its reference parses to exactly that Machine iff the Machine's names are clean; and
   then a `Create` that sees the reference answers with that Machine's provider ID and
   its deployment's labels as soon as they exist. (By `Create`'s contract it changes nothing.)
   */
  lemma {:induction false} BoundNodeClaimResumes(w: World, run: seq<Event>, d: Key, x: Win)
    requires Run(w, run, d) && x in Wins(run) && d.ns != "" && DistinctClaimants(Wins(run))
    ensures x.claim in Now(w, run).claims && MACHINE_ANNOTATION in Now(w, run).claims[x.claim]
    ensures var reference := Now(w, run).claims[x.claim][MACHINE_ANNOTATION];
      ParseMachineAnnotation(reference) == Ok(x.key) <==> Clean(x.key)
    ensures Clean(x.key) ==> x.key in Now(w, run).machines
    ensures Clean(x.key) && d in Now(w, run).deployments ==> forall r ::
      Resumed(Now(w, run), Now(w, run).claims[x.claim][MACHINE_ANNOTATION], [], r) <==>
        match Now(w, run).machines[x.key].providerID
        case None => r == Refusal(NoProviderID)
        case Some(id) => r.Fine? && Launches(r.value, Now(w, run).deployments[d], id)
  {
    ExclusiveMachines(w, run, d);
    DistinctRefer(w, run, d);
    PrintParseIff(x.key);
    OwnerIsDeployment(Now(w, run), x.key, d);
  }

  lemma OwnerIsDeployment(v: World, k: Key, d: Key)
    requires k in v.machines && Of(k, v.machines[k], d) && d.ns != ""
    ensures d in v.deployments ==> OwnerIn(v.deployments, k, v.machines[k]) == Fine(Owner(d, v.deployments[d]))
  {
  }

  /**
   Main result: what a NodeClaim is told when it is bound, it is told ever after. If
   request `i` of the run's `n`th batch got a Machine with provider ID `id`, then as long
   as no NodeClaim wins twice any later `Create` that sees the reference and whose calls
   work answers with `id`.
   */
  lemma {:induction false} ResumeAgrees(w: World, run: seq<Event>, d: Key, n: nat, i: nat, id: string,
                                        r: Reply<Launched>)
    requires Run(w, run, d) && d.ns != "" && DistinctClaimants(Wins(run))
    requires n < |run| && run[n].Batch? && i < |run[n].inputs| == |run[n].results| && run[n].results[i].Success()
    requires run[n].results[i].output.value.machine.providerID == Some(id) && Clean(run[n].results[i].output.value.key)
    ensures var name, v := run[n].inputs[i].claim, Now(w, run);
      && name in v.claims && MACHINE_ANNOTATION in v.claims[name]
      && (d in v.deployments && Resumed(v, v.claims[name][MACHINE_ANNOTATION], [], r) ==>
            r.Fine? && Launches(r.value, v.deployments[d], id))
  {
    var x := Win(run[n].inputs[i].claim, run[n].results[i].output.value.key);
    WonInRun(w, run, d, n, i);
    BoundNodeClaimResumes(w, run, d, x);
    BoundProvider(w, run, d, n, i);
    ProviderStaysOn(w, run, n + 1, d, x.key);
  }

  /** A success of any batch of the run is among its wins. */
  lemma {:induction false} WonInRun(w: World, run: seq<Event>, d: Key, n: nat, i: nat)
    requires Run(w, run, d) && n < |run| && run[n].Batch? && i < |run[n].inputs| == |run[n].results|
    requires run[n].results[i].Success()
    ensures Win(run[n].inputs[i].claim, run[n].results[i].output.value.key) in Wins(run)
  {
    WinsSnoc(w, run, d);
    var front := run[..|run| - 1];
    if n == |run| - 1 {
      WinsOfAre(run[n].inputs, run[n].results);
      assert WinOf(run[n].inputs, run[n].results, i, Win(run[n].inputs[i].claim, run[n].results[i].output.value.key));
    } else {
      WonInRun(w, front, d, n, i);
    }
  }

  /** The Machine of a success is stored with the provider ID handed over. */
  lemma {:induction false} BoundProvider(w: World, run: seq<Event>, d: Key, n: nat, i: nat)
    requires Run(w, run, d) && n < |run| && run[n].Batch? && i < |run[n].inputs| == |run[n].results|
    requires run[n].results[i].Success()
    ensures var o := run[n].results[i].output.value;
      var v := Now(w, run[..n + 1]);
      o.key in v.machines && SameProvider(o.machine, v.machines[o.key])
  {
    RunPrefix(w, run, d, n + 1);
    var e, front := run[n], run[..n];
    assert run[..n + 1][..n] == front && Now(w, run[..n + 1]) == e.after;
    HandedIsStored(Now(w, front), e.inputs, e.results, e.trail, e.after, i);
  }

  lemma {:induction false} HandedIsStored(w: World, inputs: seq<CreateInput>, results: seq<Result<CreateOutput>>,
                                          t: Trail, v: World, i: nat)
    requires inputs != [] && CreateEffect(w, inputs, results, t, v) && i < |inputs| && results[i].Success()
    ensures var o := results[i].output.value;
      o.key in v.machines && SameProvider(o.machine, v.machines[o.key])
  {
    assert Served(w, inputs, results, t, v);
    assert i < |t.found|;
  }

  lemma {:induction false} RunPrefix(w: World, run: seq<Event>, d: Key, n: nat)
    requires Run(w, run, d) && n <= |run|
    ensures Run(w, run[..n], d)
  {
    if n == |run| {
      assert run[..n] == run;
    } else {
      RunPrefix(w, run[..|run| - 1], d, n);
      assert run[..|run| - 1][..n] == run[..n];
    }
  }

  // ----- deletion

  /** The Machine `claim` refers to: by provider ID if it has one, else by reference. */
  predicate RefersTo(w: World, claim: NodeClaim, k: Key) {
    && k in w.machines
    && if claim.providerID != "" then w.machines[k].providerID == Some(claim.providerID)
       else
         && MACHINE_ANNOTATION in claim.annotations
         && ParseMachineAnnotation(claim.annotations[MACHINE_ANNOTATION]) == Ok(k)
  }

  /** No Machine, and why, when every call works. */
  predicate NotFound(claim: NodeClaim, r: Reply<Option<Listed>>) {
    if claim.providerID != "" then r == Fine(None)
    else if MACHINE_ANNOTATION !in claim.annotations then r == Refusal(NoReference)
    else ParseMachineAnnotation(claim.annotations[MACHINE_ANNOTATION]).Failed? && r == Refusal(BadReference)
  }

  method FindMachineForNodeClaim(c: Cluster, claim: NodeClaim) returns (r: Reply<Option<Listed>>)
    modifies c`failed, c`trace
    ensures OnlyCalls(old(c.trace), c.trace)
    ensures c.failed == old(c.failed) ==>
      if r.Fine? && r.value.Some? then
        RefersTo(c.State(), claim, r.value.value.key) && r.value.value.machine == c.machines[r.value.value.key]
      else NotFound(claim, r) && forall k | k in c.machines :: !RefersTo(c.State(), claim, k)
    ensures c.failed != old(c.failed) ==>
      && r == Refusal(MachineUnreadable)
      && exists x :: c.failed == old(c.failed) + [x] && (x.MachineGet? || x.MachineList?)
  {
    if claim.providerID != "" {
      var m := c.GetByProviderID(claim.providerID);
      return if m.Ok? then Fine(m.value) else Refusal(MachineUnreadable);
    }
    if MACHINE_ANNOTATION in claim.annotations {
      var k := ParseMachineAnnotation(claim.annotations[MACHINE_ANNOTATION]);
      if k.Failed? { return Refusal(BadReference); }
      var m := c.GetMachine(k.value);
      return if m.Ok? then Fine(Some(Listed(k.value, m.value))) else Refusal(MachineUnreadable);
    }
    return Refusal(NoReference);
  }

  /** `Delete` would submit this Machine: the mark is not looked at. */
  predicate Deletable(w: World, k: Key) {
    && k in w.machines && !w.machines[k].deleting
    && var md := OwnerIn(w.deployments, k, w.machines[k]);
       md.Fine? && md.value.deployment.replicas.Some? && md.value.deployment.replicas.value != 0
  }

  function DeleteInputs(ahead: seq<Key>, k: Key, behind: seq<Key>, d: Key): (inputs: seq<DeleteInput>)
    ensures |inputs| == |ahead| + 1 + |behind| && inputs[|ahead|] == DeleteInput(k, d)
    ensures forall i | 0 <= i < |ahead| :: inputs[i] == DeleteInput(ahead[i], d)
    ensures forall i | 0 <= i < |behind| :: inputs[|ahead| + 1 + i] == DeleteInput(behind[i], d)
  {
    var ks := ahead + [k] + behind;
    seq(|ks|, i requires 0 <= i < |ks| => DeleteInput(ks[i], d))
  }

  /** The lock of the MachineDeployment that owns Machine `k`, if one does, is free. */
  ghost predicate OwnerFree(c: Cluster, locks: LockManager, k: Key)
    reads c, locks
    requires k in c.machines
  {
    var md := OwnerIn(c.deployments, k, c.machines[k]);
    md.Fine? ==> locks.Free(Print(md.value.key))
  }

  /** What one `Delete` did: the Machine it found, whether it joined a batch, that batch,
      and the calls that failed. */
  datatype Deletion = Deletion(
    found: Option<Key>,
    sent: bool,
    owner: Key,
    results: seq<Result<DeleteOutput>>,
    annotated: seq<bool>,
    left: set<Key>,
    failed: seq<Call>)

  /** What `Delete` answers without a batch when every call works. */
  predicate AnswersUnsent(w: World, claim: NodeClaim, found: Option<Key>, r: Reply<DeleteOutput>) {
    match found
    case None =>
      if claim.providerID != "" then r == Refusal(NodeClaimNotFound)
      else if MACHINE_ANNOTATION !in claim.annotations then r == Refusal(NoReference)
      else r == Refusal(BadReference)
    case Some(k) =>
      && k in w.machines
      && var md := OwnerIn(w.deployments, k, w.machines[k]);
         if w.machines[k].deleting then r == Fine(DeleteOutput)
         else if md.Refusal? then r == Refusal(md.why)
         else match md.value.deployment.replicas
           case None => r == Refusal(NilReplicas)
           case Some(n) => n == 0 && r == Refusal(ZeroReplicas)
  }

  /**
   `Delete`. A request joins a batch, between those of `ahead` and `behind`, exactly for a
   Machine the NodeClaim refers to that can go; a Machine already going is a success
   that changes nothing; every other answer before the batch is a refusal that says why.
   */
  method Delete(c: Cluster, locks: LockManager, claim: NodeClaim, ahead: seq<Key>, behind: seq<Key>)
    returns (r: Reply<DeleteOutput>, ghost log: Deletion)
    requires forall k | RefersTo(c.State(), claim, k) :: OwnerFree(c, locks, k)
    modifies c, locks
    ensures c.failed == old(c.failed) + log.failed
    ensures log.found.Some? ==> RefersTo(old(c.State()), claim, log.found.value)
    ensures log.found.None? && log.failed == [] ==>
      forall k | k in old(c.machines) :: !RefersTo(old(c.State()), claim, k)
    ensures log.found.Some? && old(c.machines)[log.found.value].deleting ==>
      !log.sent && log.failed == [] && r == Fine(DeleteOutput)
    ensures !log.sent ==> c.State() == old(c.State()) && OnlyCalls(old(c.trace), c.trace)
    ensures !log.sent && log.failed == [] ==> AnswersUnsent(old(c.State()), claim, log.found, r)
    ensures !log.sent && log.failed != [] ==>
      r == Refusal(if log.found.None? then MachineUnreadable else DeploymentUnreadable)
    ensures log.sent ==>
      && log.found.Some? && Deletable(old(c.State()), log.found.value)
      && Fine(log.owner) == MapReply(OwnerIn(old(c.deployments), log.found.value, old(c.machines)[log.found.value]))
      && DeleteEffect(old(c.State()), DeleteInputs(ahead, log.found.value, behind, log.owner),
                      log.results, log.annotated, log.left, c.State())
      && DeleteBatch.ReasonsGiven(DeleteInputs(ahead, log.found.value, behind, log.owner),
                                  log.results, log.owner, log.failed)
      && r == match log.results[|ahead|].err
              case Some(e) => Refusal(BatchFailed(e))
              case None => Fine(DeleteOutput)
  {
    log := Deletion(None, false, Key("", ""), [], [], {}, []);
    var m := FindMachineForNodeClaim(c, claim);
    assert c.State() == old(c.State());
    log := log.(failed := c.failed[|old(c.failed)|..]);
    if m.Refusal? { r := Refusal(m.why); return; }
    if m.value.None? { r := Refusal(NodeClaimNotFound); return; }
    var k, machine := m.value.value.key, m.value.value.machine;
    log := log.(found := Some(k));
    if machine.deleting { r := Fine(DeleteOutput); return; }
    var md := MachineDeploymentFromMachine(c, k, machine);
    log := log.(failed := c.failed[|old(c.failed)|..]);
    if md.Refusal? { r := Refusal(md.why); return; }
    if md.value.deployment.replicas.None? { r := Refusal(NilReplicas); return; }
    if md.value.deployment.replicas.value == 0 { r := Refusal(ZeroReplicas); return; }
    var d := md.value.key;
    var results;
    ghost var annotated, left, failed, err;
    results, annotated, left, failed, err := ExecDeleteBatch(c, locks, DeleteInputs(ahead, k, behind, d));
    log := Deletion(Some(k), true, d, results, annotated, left, failed);
    r := if results[|ahead|].err.Some? then Refusal(BatchFailed(results[|ahead|].err.value)) else Fine(DeleteOutput);
  }

  function MapReply(r: Reply<Owner>): Reply<Key> { if r.Fine? then Fine(r.value.key) else Refusal(r.why) }

  /**
   A Machine whose deletion just succeeded, and which is not going yet, would be
   submitted and counted once more exactly when the batch left some replicas. (What
   that leads to is `FleetLimits.RepeatedDeleteIsUnsafe`.)
   */
  lemma ResubmittedIff(w: World, inputs: seq<DeleteInput>, results: seq<Result<DeleteOutput>>, annotated: seq<bool>,
                       v: World, i: nat)
    requires inputs != [] && |results| == |annotated| == |inputs| <= MAX_INT32
    requires DeleteBatch.Done(w, inputs, results, annotated, v)
    requires i < |inputs| && results[i].Success() && Deletable(w, inputs[i].machine)
    requires var k := inputs[i].machine;
      Fine(inputs[0].deployment) == MapReply(OwnerIn(w.deployments, k, w.machines[k]))
    requires 0 <= Deref(w.deployments[inputs[0].deployment].replicas) <= MAX_INT32
    ensures v.machines[inputs[i].machine].Marked()
    ensures Deletable(v, inputs[i].machine) <==> Deref(w.deployments[inputs[0].deployment].replicas) > Count(annotated)
  {
    DeleteTheorems.CountBound(annotated);
    LoweredExact(Deref(w.deployments[inputs[0].deployment].replicas), Count(annotated));
    assert inputs[i].machine in Targets(inputs, annotated);
    var m, n := w.machines[inputs[i].machine], v.machines[inputs[i].machine];
    assert n.labels == n.WithoutMark().labels == m.WithoutMark().labels == m.labels;
    assert n.deleting == n.WithoutMark().deleting == m.WithoutMark().deleting;
  }
}
