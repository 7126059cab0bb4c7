# Verification of the Cluster API provider's batching

Karpenter's Cluster API provider turns many concurrent `Create` and `Delete`
calls into a few edits of `spec.replicas` on a shared MachineDeployment, then
binds or marks individual Machines, while the Cluster API MachineSet controller
adds and removes Machines on its own. This project models that machinery and
proves what it keeps.

- **Coalescing** (`Batching`, `BatchingInvariant`, `BatchingTheorems`,
  `BatcherState`, `BatchTargets`, `Answers`). The generic batcher as a step
  system over its mutex, one-slot trigger, dispatcher and result channels; the
  object with its fields, each method tied to one step; and the protocol with
  the create and delete executors behind it.
- **Locking** (`MDLock`). The two-level lock as a step system.
- **Executors** (`ApiServer`, `CreateSpec`, `CreateBatch`, `CreateTheorems`,
  `CreateRuns`, `CreateBound`, `CreateLimits`, `DeleteBatch`, `DeleteTheorems`). The create and
  delete batches as methods over a store whose every call may fail, and what a
  batch, or a run of create batches, comes to.
- **Interleavings** (`Fleet`, `FleetOrder`, `FleetSafety`, `FleetLimits`,
  `FleetTraces`, `FleetExecutions`, `Sections`). All create batches, delete
  batches and MachineSet actions on one MachineDeployment, interleaved one API
  call at a time; and the executors as runs or steps of that system.
- **Around the batches** (`CloudProviders`, `Providers`, `Labels`, `Text`).
  Resuming a bound NodeClaim, submitting a deletion, and the two text formats.

`Common`, `Machines` and `Replicas` hold the shared vocabulary, the Machine and
the int32 arithmetic.

Assumptions, all explicit in the contracts that use them:

- The store overwrites whole objects, without compare-and-swap, as the fakes in
  `pkg/batcher/fake_test.go` do; a failed write has no effect.
- The MachineSet adds unlabelled, unmarked Machines while fewer stand than
  `spec.replicas`, and starts deleting, marked ones first, while more stand.
- Meanwhile others may add unclaimed Machines, start deletions, change annotations
  and set provider IDs; labels of a Machine, and a provider ID once set, stay
  (`ApiServer.Drift`).
- `FleetSafety.Honest`, asked of the callers and not checked by the code:
  deletions name distinct, unmarked Machines.
- `FleetSafety.Careful`, asked of the store: it does not accept a bind's copy
  that is older than a mark or a deletion. The overwriting store does accept it;
  a store that compares resource versions does not
  (`FleetSafety.VersionedStoreIsSafe`).
- `CreateRuns` covers create batches on one MachineDeployment that do not
  overlap, each for distinct NodeClaims. That a requested NodeClaim carries no
  reference yet is assumed only where a result says so (`CreateRuns.AllUnbound`).

Findings, each an exact condition or a concrete run:

- Deleting a marked Machine again, before the MachineSet reacts, lowers the
  replicas a second time, and a Machine nobody asked for goes
  (`FleetLimits.RepeatedDeleteIsUnsafe`). `Delete` lets it through exactly while
  replicas are left (`CloudProviders.ResubmittedIff`); one batch counts right
  exactly if its Machines are distinct and unmarked
  (`DeleteTheorems.CountIsNewMarksIff`).
- On the overwriting store, a bind that writes back the copy it read before a
  delete batch marked the Machine takes the mark off again, and a Machine nobody
  marked may go (`FleetLimits.StaleBindIsUnsafe`); a label write does such harm
  exactly if it brings a marked or deleting Machine back
  (`FleetLimits.WriteBalancedIff`).
- `Create` looks for the reference in its caller's copy of the NodeClaim. Asked
  again from an older copy, a NodeClaim wins a second Machine and its first
  reference is overwritten (`CreateLimits.StaleRequestRebinds`). Successes stand
  exactly if no NodeClaim wins twice (`CreateRuns.BindingsStandIff`).
- The rollback of a delete batch also removes marks somebody else had placed
  (`DeleteTheorems.CompensationRestoresIff`, `DeleteTheorems.ForeignMarkIsLost`).
- The comment at `pkg/batcher/create.go:101-106` says that replicas are never
  over-incremented. That holds exactly if the List worked or nothing was waiting
  (`CreateTheorems.OrdersExactlyIff`, `CreateLimits.ListFailureOverOrders`) and, as
  a bound on the total, exactly if the MachineSet does not lag
  (`CreateBound.RaiseIsTightIff`, `CreateLimits.LagOverOrders`).
- The increment wraps around exactly past 2^31 - 1 (`Replicas.RaisedExactIff`).
- A reference reads back exactly if its parts are clean (`Providers.PrintParseIff`);
  labels, exactly if keys have no `,` or `=` and values no `,` (`Labels.RoundTripIff`).

## Model

| member | source | states |
|---|---|---|
| FleetSafety.ScaleDownSafety | pkg/batcher/delete.go:77-170 | After any run of interleaved API calls of create batches, delete batches and the MachineSet with honest deletions and no stale bind write accepted, every Machine the MachineSet may start deleting is marked |
| FleetSafety.VersionedStoreIsSafe | pkg/batcher/delete.go:77-170 | On a store that accepts a bind's write only while the copy is current, honest deletions alone give the same |
| FleetSafety.BalanceAlways | pkg/batcher/delete.go:105-170 | After any such run, replicas >= unmarked standing Machines + marks in flight (placed, neither decremented nor rolled back), and marked standing Machines >= marks in flight |
| FleetSafety.DecrementsAreExact | pkg/batcher/delete.go:152-157 | At any point of such a run a delete batch about to write subtracts exactly the marks it placed, and the clamp at zero is never reached |
| FleetSafety.OnlyMarkedGo | pkg/batcher/delete.go:77-80 | While the balance holds, a MachineSet that prefers marked Machines only ever deletes marked ones |
| FleetSafety.SafeKept | pkg/batcher/delete.go:105-170 | Each of the 21 kinds of step, by code or MachineSet, keeps the balance, the distinctness of active requests and the freshness of what they fetched |
| FleetOrder.NoLostUpdate | pkg/batcher/create.go:130-159 | For every interleaving and without any assumption on callers: at most one batch is in its critical section; with the lock free the replicas equal the fold of the sections in lock order; they lie between 0 and initial value plus creates asked for |
| FleetOrder.StoreIsExact | pkg/batcher/delete.go:152-157 | The replica write under the lock has exactly the section's effect on the stored value, int32 arithmetic included |
| FleetLimits.RepeatedDeleteIsUnsafe | pkg/batcher/delete.go:107-137 | A concrete run: the same Machine deleted by two batches in a row leads to a state where the MachineSet may delete an unmarked Machine |
| FleetLimits.StaleBindIsUnsafe | pkg/batcher/create.go:305-321 | A concrete run with honest deletions: a bind's older copy overwrites a mark, and the MachineSet may delete an unmarked Machine |
| FleetLimits.MarkBalancedIff | pkg/providers/machine/machine.go:119-134 | With no slack left, marking keeps the balance iff the Machine was neither marked nor deleting |
| FleetLimits.WriteBalancedIff | pkg/batcher/create.go:305-321 | With no slack left, a label write keeps the balance iff it does not bring a marked or deleting Machine back from an older copy |
| Sections.CreateIsSection | pkg/batcher/create.go:129-159 | The create executor's effect on the replicas is the `Raise` step of the interleaving model, or nothing when refused |
| Sections.DeleteIsSection | pkg/batcher/delete.go:137-170 | The delete executor's effect on the replicas is the `Lower` step by the number of annotated requests iff somebody succeeds, else nothing |
| FleetExecutions.DeleteExecutionIsRun | pkg/batcher/delete.go:88-201 | Any execution of the delete executor is a legal run of single API calls in the interleaving system, ending with the executor's Machines, replicas and verdict and with none of its requests active; it obeys every discipline that admits its submission (and runs compose: `FleetTraces.Concat`) |
| BatchingTheorems.EveryoneIsAnswered | pkg/batcher/batcher.go:89-169 | Where a run cannot go on, every caller has returned or given up and every request was sent exactly one result |
| BatchingTheorems.EveryScheduleStops | pkg/batcher/batcher.go:127-169 | No schedule keeps acting for ever, by a lexicographic measure over callers, token, dispatcher phase, buckets, batches and unsent results |
| BatchingTheorems.RankDecreases | pkg/batcher/batcher.go:89-189 | Every step of callers, dispatcher and batches lowers that measure |
| BatchingTheorems.ProgressPending | pkg/batcher/batcher.go:97-140 | A pending request is never stranded: some step other than giving up is enabled, though wakeups are not counted |
| BatchingInvariant.WakeKept | pkg/batcher/batcher.go:97-140 | Every step keeps: a non-empty map implies a token, an open window, or a caller between append and signal |
| BatchingInvariant.InvHolds | pkg/batcher/batcher.go:89-189 | In every reachable state requests are filed in exactly one place, by hash and arrival, and each channel was sent to at most once, with the result for its own slot |
| BatchingTheorems.SwapPartitions | pkg/batcher/batcher.go:137-144 | The swapped-out map partitions what arrived since the last swap: by hash, disjoint, complete, in arrival order |
| BatchingTheorems.SendNeverBlocks | pkg/batcher/batcher.go:181-188 | When a batch sends, the capacity-one channel it sends on is empty and was never sent to, also if the caller has gone |
| BatchingTheorems.EachGetsItsOwn | pkg/batcher/batcher.go:70-113 | With an executor that returns one result per input in order, whatever a caller is handed is about its own input, and it is answered at most once |
| BatchingTheorems.ReturnedIsDelivery | pkg/batcher/batcher.go:181-188 | For any number of results: a caller that returns was sent to once, has one slot in one batch and is handed that slot's result, or the too-few-results error |
| BatchTargets.BatchSharesDeployment | pkg/batcher/create.go:125-127 | Given a hash injective on keys in use and slash-free namespaces, every request of a batch names the MachineDeployment of the first |
| Answers.CreateCallersGetTheirOwn | pkg/batcher/create.go:164-182 | Batcher and create executor composed: a caller that returns has one slot in one executed batch and is handed that slot's result: the Machine picked for its own request, as stored when it was bound, of its deployment, with the labels and provider ID it still has, to which (claims in the batch being distinct) its own NodeClaim now refers; or an error explained by a failed call on its own objects |
| Answers.DeleteCallersGetTheirOwn | pkg/batcher/delete.go:172-179 | Batcher and delete executor composed: likewise; success means its own Machine is marked and counted in the decrement, an error is explained by a failed call on its own objects |
| BatcherState.Batcher.Append | pkg/batcher/batcher.go:97-99 | The append under the mutex performs the protocol's append step |
| BatcherState.Batcher.Signal | pkg/batcher/batcher.go:101-105 | The non-blocking send performs the signal step, whether or not a token is there |
| BatcherState.Batcher.Receive | pkg/batcher/batcher.go:129-162 | A receive succeeds iff there is a token, and then opens the window or resets its idle timer |
| BatcherState.Batcher.Swap | pkg/batcher/batcher.go:137-140 | The swap performs the protocol's swap step and hands on exactly the buckets that step launches |
| BatcherState.Deliver | pkg/batcher/batcher.go:181-188 | For results shorter than, as long as, or longer than the batch, each requestor gets exactly one send: its result or the too-few-results error |
| MDLock.MutualExclusion | pkg/batcher/mdlock.go:33-49 | In every reachable state one thread owns a key, distinct keys have distinct mutexes, nobody waits for a key mutex while holding the map mutex, and an Unlock releases a mutex its own thread holds |
| MDLock.MutexForGood | pkg/batcher/mdlock.go:35-39 | Once a key has a mutex it keeps it for the rest of the run |
| MDLock.RefinesLockPerKey | pkg/batcher/mdlock.go:33-49 | Each step is a step of a plain lock per key: ownership is gained only of a free key and lost only by its owner's release |
| MDLock.NoDeadlock | pkg/batcher/mdlock.go:33-49 | While a thread is inside Lock or Unlock some thread can move, at worst the owner of the key it waits for by unlocking |
| CreateBatch.ExecCreateBatch | pkg/batcher/create.go:111-184 | Either nothing changes and all get one error, or replicas are raised by the deficit under the lock, distinct eligible Machines are picked, request i gets Machine i or its reason, and a success hands over that Machine as it was stored right after its bind; labels move only by these binds, annotations only by successes; each error is explained by a failed call on the request's own objects. The trace is the locked section, with exactly the calls needed in it, and then the poll's Lists. Without the trail: when the Lists and the MachineDeployment's calls work the replicas rise by exactly max(0, n - unclaimed); when the Lists work and enough Machines wait, no request is told that there was none |
| CreateBatch.RaiseReplicas | pkg/batcher/create.go:130-159 | Between taking and giving back the lock: get, List, and an update iff the deficit is positive. Leaves `current + max(0, n - unclaimed)` in int32, zero being counted only if the List is among the failed calls; or the replicas as they were with the error of the call that failed |
| CreateBatch.CountUnclaimedMachines | pkg/batcher/create.go:255-290 | The number of unlabelled, unmarked, not deleting Machines of the deployment, or 0 if the List failed |
| CreateBatch.PollForNUnclaimedMachines | pkg/batcher/create.go:190-251 | For any sequence of listings and errors: the first `count` of what the successful listings offer, or all of it. Lists at least once, first of all the store it began with, and again at every tick until it has enough or the deadline comes |
| CreateBatch.PollOnce | pkg/batcher/create.go:218-241 | One round makes one List and adds the listing of the store as it is, or nothing exactly if the List failed, and leaves the first `count` of what all listings offer |
| CreateBatch.GatherFrom | pkg/batcher/create.go:221-236 | One listing is merged without duplicates, marked or deleting Machines, stopping at `count` |
| CreateBatch.BindMachineToNodeClaim | pkg/batcher/create.go:295-349 | The exact state and the exact list of failed calls for each outcome: up to three label attempts, annotation, and the rollback with its own failure; nothing but the member label and the reference changes |
| CreateBatch.BindAll | pkg/batcher/create.go:164-174 | In any order of the goroutines, others acting before each: Machine i goes to request i, which gets it as stored right after the bind, or stays unclaimed, except where the rollback failed; no other label or annotation moves; every error is explained |
| CreateBatch.Finish | pkg/batcher/create.go:176-180 | Exactly the requests left with neither output nor error are told that there was no Machine |
| CreateSpec.CollectedFacts | pkg/batcher/create.go:211-240 | Over all listings: no name twice, each gathered Machine eligible in the listing it came from, and nothing eligible missed |
| CreateTheorems.PollFacts | pkg/batcher/create.go:186-251 | What the poll returns: at most `count`, distinct, each eligible where seen; if fewer, every eligible Machine of every listing |
| CreateSpec.CountAndPollAgree | pkg/batcher/create.go:219-289 | On an unchanged store the first round of a poll for n Machines yields exactly min(n, counted) |
| CreateSpec.DeficitSuffices | pkg/batcher/create.go:140-162 | Counted plus ordered Machines, once one listing shows as many, cover all requests |
| CreateTheorems.NoShortage | pkg/batcher/create.go:140-180 | In a batch where a listing showed them, no request is told that there was no Machine |
| CreateTheorems.NoFailureNoError | pkg/batcher/create.go:130-182 | A batch none of whose calls failed is served, and every request for which a Machine was found succeeds |
| CreateTheorems.MissingReplicasRaised | pkg/batcher/create.go:148-150 | Missing replicas count as zero: the batch leaves exactly the shortage |
| CreateTheorems.BindIsAtomic | pkg/batcher/create.go:303-348 | A picked Machine ends labelled iff its request succeeded or the rollback's own call failed; the NodeClaim gets the reference iff it succeeded and is untouched otherwise |
| CreateTheorems.OrdersExactlyIff | pkg/batcher/create.go:140-158 | The increment is the true shortage iff the List worked or no unclaimed Machine was waiting |
| CreateLimits.ListFailureOverOrders | pkg/batcher/create.go:274-277 | A failed List: one request orders a Machine although one was waiting, which it then gets |
| CreateRuns.ExclusiveBinding | pkg/batcher/create.go:164-174 | Over any run of non-overlapping create batches whose requests were up to date, the relation of Machines to NodeClaims in successes is one-to-one, and every success still stands on both sides at the end |
| CreateRuns.ExclusiveMachines | pkg/batcher/create.go:190-251 | Over any such run, stale requests included, no Machine is in two successes and every Machine won is still claimed and the deployment's at the end |
| CreateRuns.BindingsStandIff | pkg/batcher/create.go:326-335 | Over any such run every success's reference still stands at the end iff no NodeClaim won twice |
| CreateRuns.BatchKeepsBindingsIff | pkg/batcher/create.go:326-335 | One batch overwrites a reference won earlier iff a request that succeeds names a NodeClaim that won before |
| CreateLimits.StaleRequestRebinds | pkg/cloudprovider/cloudprovider.go:91-106 | A concrete run: a NodeClaim submitted again wins a second Machine, its reference to the first is gone, both stay claimed |
| CreateBound.RetriesDoNotAccumulate | pkg/batcher/create.go:96-106 | Over any such run whose served batches had a working List and no MachineSet lag: replicas <= max(initial, initially claimed + NodeClaims served + Machines left labelled by a failed rollback + stale requests for NodeClaims already served) |
| CreateBound.FreshRequestsAddNothing | pkg/cloudprovider/cloudprovider.go:91-95 | The last term is zero when every request was up to date |
| CreateLimits.RefusedIsSteady | pkg/batcher/create.go:130-157 | What the executor returns for a refused batch is a step of such a run and is asked nothing |
| CreateBound.RaiseIsTightIff | pkg/batcher/create.go:140-158 | A batch short of Machines stays within claimed plus requested iff the MachineSet was not lagging when it counted |
| CreateLimits.LagOverOrders | pkg/batcher/create.go:140-158 | A lagging MachineSet: one request orders again what was ordered before |
| CreateBound.MembersAccounted | pkg/batcher/create.go:303-345 | Every claimed Machine of a run was claimed at the start, belongs to a success, or was left by a failed rollback |
| DeleteBatch.ExecDeleteBatch | pkg/batcher/delete.go:88-181 | Replicas drop by the annotated count and exactly those requests succeed, or nothing is lowered, all fail and every mark is undone but those whose rollback call failed; each error is explained by a failed call on the request's own objects; the trace is one locked section, or nothing at all if nothing was annotated |
| DeleteBatch.LowerReplicas | pkg/batcher/delete.go:137-170 | Between taking and giving back the lock: get, and an update if that worked. Leaves `max(0, current - marked)`, or the replicas as they were with the error of the call that failed |
| DeleteBatch.MarkAll | pkg/batcher/delete.go:105-125 | In any order of the goroutines: exactly the annotated requests' Machines are marked, nothing else of a Machine changes, the other requests carry their errors |
| DeleteBatch.RollbackDeleteAnnotations | pkg/batcher/delete.go:187-201 | Every annotated Machine is unmarked except those whose own read or write failed; no other Machine changes |
| DeleteBatch.SettleAll | pkg/batcher/delete.go:144-176 | Annotated requests get the batch's outcome, the others keep their own error |
| DeleteBatch.AddDeleteAnnotation | pkg/providers/machine/machine.go:114-134 | For any copy, current or not: the copy's Machine is written back marked, a copy already marked is not written; on failure nothing changed |
| DeleteBatch.RemoveDeleteAnnotation | pkg/providers/machine/machine.go:138-158 | For any copy, current or not: it is written back without its mark, an unmarked copy is not written; on failure nothing changed |
| DeleteTheorems.AllOrCompensated | pkg/batcher/delete.go:88-201 | Whatever fails, the replicas drop by exactly the number of successes, down to zero; Machines of successes are marked; any other is as before unless its rollback call failed or it lost a mark it already had |
| DeleteTheorems.NoFailureNoError | pkg/batcher/delete.go:88-181 | A batch none of whose calls failed succeeds for every request |
| DeleteTheorems.MissingReplicasLowered | pkg/batcher/delete.go:152-157 | Missing replicas count as zero: a decrement leaves zero |
| DeleteTheorems.CountIsNewMarksIff | pkg/batcher/delete.go:107-129 | The decrement equals the number of Machines newly marked iff the annotated requests name distinct Machines that were unmarked |
| DeleteTheorems.CompensationRestoresIff | pkg/batcher/delete.go:183-201 | A compensated batch whose rollback calls worked restores the store iff none of its Machines was marked before |
| DeleteTheorems.ForeignMarkIsLost | pkg/batcher/delete.go:159-168 | A concrete failed batch after which a Machine marked by somebody else is unmarked |
| Machines.UndoRestoresIff | pkg/providers/machine/machine.go:114-158 | Removing the mark after adding it restores the Machine iff it was not marked before |
| Machines.MarkTouchesOnlyItself | pkg/providers/machine/machine.go:119-157 | Marking sets the mark if there is none, unmarking takes it off, and neither changes any other annotation, any label or anything else |
| Machines.ClaimTouchesOnlyItsLabel | pkg/batcher/create.go:311-341 | Claiming sets the member label to the empty text, giving up the claim takes it off, and neither changes any other label or anything else |
| Replicas.RaisedExactIff | pkg/batcher/create.go:140-151 | The int32 increment is the mathematical one iff that fits int32 |
| Replicas.LoweredExact | pkg/batcher/delete.go:152-157 | The int32 decrement is the mathematical one, clamped at zero |
| CloudProviders.Create | pkg/cloudprovider/cloudprovider.go:86-121 | A nil NodeClaim, one with a reference, or one without instance type changes nothing and gets its own answer; any other joins a batch and is told its own request's error, or that its Machine has no provider ID, or that Machine's provider ID and its deployment's labels key by key. Once launched, its NodeClaim refers to a stored, claimed Machine with exactly the provider ID answered |
| CloudProviders.GetExistingMachine | pkg/cloudprovider/cloudprovider.go:263-286 | Reads only. Each answer in each case: bad reference; the error of the one call that failed; no owner; no provider ID; or the stored Machine's provider ID and its deployment's labels key by key |
| CloudProviders.CreateNodeClaim | pkg/cloudprovider/cloudprovider.go:505-518 | The given provider ID, and for every key the annotation's label or, under it, the template's managed one |
| CloudProviders.LaunchesOne | pkg/cloudprovider/cloudprovider.go:505-518 | What is answered for a MachineDeployment and a provider ID is thereby determined |
| CloudProviders.BoundNodeClaimResumes | pkg/cloudprovider/cloudprovider.go:91-95 | At any later point of a run in which no NodeClaim wins twice, the reference of a NodeClaim that won a Machine parses to exactly that Machine iff its names are clean, and `Create` then answers exactly with that Machine's provider ID and its deployment's labels, or that there is no provider ID yet |
| CloudProviders.ResumeAgrees | pkg/cloudprovider/cloudprovider.go:91-121 | A NodeClaim is told the same provider ID ever after: if its request got a Machine with one, any later `Create` that sees the reference and whose calls work answers with it |
| CloudProviders.MachineDeploymentFromMachine | pkg/cloudprovider/cloudprovider.go:341-353 | With no failed call, the deployment the Machine's label names in its own namespace, or which of the two is missing |
| CloudProviders.FindMachineForNodeClaim | pkg/cloudprovider/cloudprovider.go:317-339 | Finds a Machine the NodeClaim refers to, by provider ID first; with no failed call, finds none only if there is none, and says which of the three reasons; a failed call is reported as such |
| CloudProviders.Delete | pkg/cloudprovider/cloudprovider.go:123-160 | A Machine already deleting is a success without change. A request joins a batch exactly if the Machine found is not deleting and its deployment has replicas set and not zero, and is told its own result. Every other answer is pinned: not found, no or bad reference, no owner, nil replicas, zero replicas, or the kind of call that failed |
| CloudProviders.ResubmittedIff | pkg/cloudprovider/cloudprovider.go:133-158 | A Machine whose deletion succeeded but has not begun is submitted and counted again iff replicas were left |
| ApiServer.Cluster.GetMachine | pkg/batcher/fake_test.go:73-85 | The stored Machine, or a recorded failure; always a failure if there is none |
| ApiServer.Cluster.ListMachines | pkg/batcher/fake_test.go:91-115 | Each selected Machine of the namespace exactly once, in any order, or a recorded failure |
| ApiServer.SelectedIs | pkg/batcher/create.go:197-209 | A Machine is selected iff it is in the namespace (or none is given), carries the deployment's label, and not the member label |
| ApiServer.Cluster.UpdateMachine | pkg/batcher/fake_test.go:158-167 | Overwrites or adds the Machine, or a recorded failure with no effect |
| ApiServer.Cluster.GetByProviderID | pkg/providers/machine/machine.go:61-75 | Some Machine with the provider ID, nothing exactly if there is none, or a recorded failure |
| ApiServer.Cluster.GetDeployment | pkg/batcher/fake_test.go:222-234 | The stored MachineDeployment, or a recorded failure; always a failure if there is none |
| ApiServer.Cluster.PatchClaim | pkg/batcher/create.go:326-335 | The merge patch sets the one annotation and no other, or is a recorded failure with no effect |
| ApiServer.LockManager.Lock | pkg/batcher/mdlock.go:33-42 | Takes a free key, creating it if needed, and notes it in the trace; no other key changes |
| ApiServer.LockManager.Unlock | pkg/batcher/mdlock.go:44-49 | Frees a key that is held, and notes it in the trace; no other key changes |
| ApiServer.Cluster.UpdateDeployment | pkg/batcher/fake_test.go:240-249 | Overwrites or adds the MachineDeployment, or a recorded failure with no effect |
| Providers.ParseAcceptsIff | pkg/providers/providers.go:34-48 | Accepts exactly the strings with one slash between two sides that are not blank |
| Providers.ParseIsStable | pkg/providers/providers.go:34-48 | What is returned is trimmed and slash-free, and printing and parsing it again gives the same pair |
| Providers.PrintParseIff | pkg/batcher/create.go:331 | A printed reference parses back to its Machine iff both parts are non-empty, slash-free and untrimmable |
| Providers.PlainNamesParse | pkg/providers/providers.go:34-48 | Names of lowercase letters, digits, '-' and '.' parse back, printed plainly or padded with blanks on any side |
| Providers.BlankSideFails | pkg/providers/providers.go:40-45 | With nothing but blanks on one side of the slash there is no reference |
| Providers.BatchKeyInjective | pkg/batcher/create.go:45-47 | Batch keys tell MachineDeployments apart when namespaces have no slash |
| Providers.BatchKeyCollision | pkg/batcher/delete.go:41-43 | With a slash in a namespace, two different MachineDeployments share a batch key |
| Labels.RoundTripIff | pkg/cloudprovider/cloudprovider.go:532-544 | Labels written as `k=v` items in any order parse back to themselves iff keys have no `,` or `=` and values no `,` |
| Labels.JoinOverrides | pkg/cloudprovider/cloudprovider.go:532-544 | For all strings, joining two annotations with a comma gives the first's labels overridden by the second's |
| Labels.ItemsWithoutLabels | pkg/cloudprovider/cloudprovider.go:535-541 | An item without `=` adds nothing |
| Labels.LabelsFromScaleFromZeroAnnotation | pkg/cloudprovider/cloudprovider.go:532-544 | Computes the parse that the round trip is about |
| Labels.ManagedNodeLabelsFromLabels | pkg/cloudprovider/cloudprovider.go:617-633 | In whatever order the map is walked: exactly the labels whose key is in one of the three propagated domains |
| Labels.ManagedIff | pkg/cloudprovider/cloudprovider.go:620-629 | A key is propagated iff what stands before its first slash is the role prefix, or equals or is a subdomain of one of the two other domains |
| Labels.NodeLabelsFromMachineDeployment | pkg/cloudprovider/cloudprovider.go:635-654 | Exactly the managed template labels overridden by the annotation's, independent of map order |

## Left out

- Real time: timers, tickers, deadlines and the draining of a stopped timer. Window close is a step that may come at any point, so no bound on waiting is claimed; how often the poll's ticker fires before the deadline or a cancellation is the parameter `ticks`.
- FNV-1a: that the hash tells the keys in use apart is a hypothesis of `BatchTargets.BatchSharesDeployment`.
- Cancelling the batcher's context, and the effects of a request's context other than that its caller may stop waiting.
- FleetSafety.ScaleDownSafety: does not cover an overwriting store that accepts a bind's copy older than a mark or a deletion, because it is false there (`FleetLimits.StaleBindIsUnsafe`).
- FleetSafety.BalanceAlways: does not cover such writes either, because they break the balance (`FleetLimits.WriteBalancedIff` says which exactly).
- FleetSafety.DecrementsAreExact: does not cover them either, since it rests on that balance.
- FleetSafety.SafeKept: does not cover them either, for the same reason.
- CreateBatch.BindAll: others act between the goroutines, by `ApiServer.Drift` (adding Machines, starting deletions, setting provider IDs, changing annotations and status, not replicas), but not between one goroutine's own calls, so that its contract can say that nothing but the label changes; single calls interleave in `Fleet`.
- DeleteBatch.ExecDeleteBatch: nobody else acts while it runs, so that its contract can give the whole new store; `FleetExecutions.DeleteExecutionIsRun` makes it a run of `Fleet`, where everybody acts between any two calls.
- DeleteBatch.MarkAll: the goroutines run one after the other in any order, so that two requests for one Machine do not interleave their calls; in `Fleet` they do.
- ApiServer.LockManager.Lock: requires a free key instead of waiting for one; waiting is in `MDLock` and in `Fleet`.
- Create executions as runs of `Fleet`: only their critical section is tied to it (`Sections.CreateIsSection`), since `ApiServer.Drift` lets others change what `Fleet` does not have.
- Deletions that finish: a Machine whose deletion has begun stays in the store as deleting. A Machine that vanishes before it is read is a failed read.
- Exclusive binding across overlapping create batches on one MachineDeployment: the bind does not check that the label is absent, so the code does not give it.
- Resource versions and conflict errors beyond "any call can fail".
- `isBelowMaxSize` and the autoscaler's maximum size: checked per request, before batching, so no bound on the replicas follows from it.
- Choosing an instance type, capacity and taints, `Get`, `List`, `GetInstanceTypes`, NodeClass resolution, the status controller and the operator's wiring: `resolved` in `CloudProviders.Create` stands for the chosen MachineDeployment.
- Nil versus empty maps and slices, and the texts of error messages.
- With an empty namespace a List spans all namespaces while the poll tells Machines apart by name alone; `CreateSpec.CountAndPollAgree` and `CreateSpec.DeficitSuffices` therefore require a namespace.
- Unicode: `TrimSpace` trims the characters Go calls space; strings are sequences of characters.
