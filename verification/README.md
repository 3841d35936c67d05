# A verified model of the cloudscale.ch load balancer reconciler

The cloud controller manager keeps one load balancer for each Kubernetes service of type LoadBalancer. It
computes what the service asks for, takes a snapshot of what there is, compares the two by keys, runs a
batch of actions, and starts over until nothing is left to do. This project models that loop and what it
rests on, and proves what users depend on: that a run comes to an end, what it leaves behind, and what it
never touches.

* `Seqs`, `Compare`, `Limiters`, `Lookup`: lists, the keyed difference and pairing, and finding the load
  balancer of a service.
* `Domain`, `CloudWorld`, `Validity`, `Clouds`: resources and their keys, the cloud as a value and as an
  object, and what each action does to it.
* `Planner`: the batch of one round, as a method with the loops of the program, and as a function of what
  the map iterations came up with.
* `Effects`, `Rounds`, `JobBatches`, `Gaps`, `PoolRounds`, `ChildRounds`, `Closing`, `UpdateRounds`,
  `FinalRounds`, `Convergence`, `Settling`, `BatchOrder`, `Steps`: what one round does.
* `Frames`, `PlanLocality`, `Runs`, `Progress`, `FewTurns`, `Disruption`, `OrderIndependence`, `Twins`, `Outcomes`, `Tallies`,
  `Endings`, `Choices`, `Finishing`, `Reconcile`: what whole runs do, cut off at any point or not, and when they end.
* `Names`: when concatenated keys and names tell what they were made of.
* `Locks`: any number of workers on any number of services, step by step.
* `FloatingIps`, `Flapping`: conflicts of floating IPs between services, and when floating IPs go back and forth.
* `Annotate`: the patch that annotates a service.
* `DesiredStates`, `DesiredFits`: what a service asks for, and that runs can reach it.
* `Ensure`: the calls of Kubernetes, put together from all of this. `Example`: a service from nothing to its
  end, and a small run written out, as evidence that the conditions of the results can be met.

## What is assumed of the cloud

The client library and the service behind it are not part of this model. The model assumes that

* creating appends to the listings, deleting keeps their order, and new identities have not been used before;
  one identity stands for both the UUID and the URL of a resource;
* deleting a pool deletes what is in it, deleting a load balancer deletes everything under it and leaves its
  floating IPs unassigned; a pool that still has members cannot be deleted, which makes the order of
  deletions matter;
* a request without an address gets one, requests name the subnet of a member by its UUID, members are
  created enabled, an HTTP block gets its defaults filled in, and a monitor requested without one has none;
* an update sets exactly the field it names, also to a zero value;
* the status of a load balancer is an observation made with each snapshot, and a snapshot is taken at once,
  except in `Locks`, where the steps of a lookup and the batch are apart;
* calls may fail, and runs may be cancelled, before any action, and what a pass meets with is given to the reconciler;
  safety is proved whatever that is, success for passes that nothing disturbs.

Where code and comments differ, the model follows the code. `Join` is said to keep the first error
(pkg/internal/limiter/limiter.go:28-31), but never sets one; `LostErrors` says exactly when
a lookup is wrong for it. Services that are not supported are said to be
skipped (pkg/cloudscale_ccm/loadbalancer.go:658-661), but get an error. Two HTTP hosts are compared as
pointers (pkg/cloudscale_ccm/reconcile.go:632), so they count as different unless both are missing: fixpoints
are clouds that do not change, not empty batches. Duplicates of an undesired key are deleted one in each
round, and duplicates of a desired key never: fixpoints have equal sets of keys.

## Model

| member | source | states |
|---|---|---|
| Compare.Diff | pkg/internal/compare/compare.go:10-43 | Returns, in whatever order the maps are iterated, the last actual item of every undesired key and the last desired item of every missing key, each key once. |
| Compare.Lacking | pkg/internal/compare/compare.go:26-40 | One of the two map loops: lists exactly the values whose key the other map lacks, each once, in arbitrary order. |
| Compare.Match | pkg/internal/compare/compare.go:47-64 | Returns the pairs of `Matched`: every item of the first list whose key occurs in the second, in order, with the last item of that key. |
| Compare.IndexIsLast | pkg/internal/compare/compare.go:15-24 | Of items with the same key, the last one is what the map holds. |
| Compare.DeletesUndesired | pkg/internal/compare/compare.go:34-40 | What is to be deleted is actual and undesired, and every undesired key is reached. |
| Compare.CreatesMissing | pkg/internal/compare/compare.go:26-32 | What is to be created is desired and missing, and every missing key is reached. |
| Compare.DiffReaches | pkg/internal/compare/compare.go:10-43 | Deleting and creating as told turns the actual key set into the desired one if and only if no undesired key occurs twice. |
| Compare.DiffOrderIrrelevant | pkg/internal/compare/compare.go:26-42 | Any two results of `Diff` for the same lists are permutations of each other. |
| Compare.PairsAll | pkg/internal/compare/compare.go:47-64 | If nothing is missing, `Match` pairs every desired item, in order, with the item `Diff` saw for its key. |
| Limiters.Limiter.Join | pkg/internal/limiter/limiter.go:21-38 | The elements of all limiters in order; the error of the result is never set, whatever the joined limiters report. |
| Limiters.Limiter.Unique | pkg/internal/limiter/limiter.go:42-64 | In place, keeps of equal elements the first. |
| Limiters.Limiter.AtMostOne | pkg/internal/limiter/limiter.go:103-115 | Fails on an error or on two elements, and else returns the one element or none. |
| Limiters.Limiter.One | pkg/internal/limiter/limiter.go:76-88 | Succeeds exactly if there is no error and one element, which it returns. |
| Limiters.DedupedByKey | pkg/internal/limiter/limiter.go:42-64 | If equality is equality of keys, every key is kept once, with the first element that has it. |
| Lookup.LookupExact | pkg/cloudscale_ccm/lb_mapper.go:20-40 | The lookup returns a load balancer exactly if it is the only one with the UUID or the name of the service, and none exactly if there is none; else it fails. |
| Lookup.RenameIsSafe | pkg/cloudscale_ccm/lb_mapper.go:28-39 | Renaming the load balancer that was found leaves exactly one of that name, and the lookup finds it again. |
| Lookup.LostErrors | pkg/internal/limiter/limiter.go:21-38 | A failing call makes the lookup succeed with a wrong answer exactly if the service carries a UUID, the calls that answered left a candidate out, and they did not come up with two: joining the answers loses the error. |
| Lookup.LostErrorsDuplicate | pkg/cloudscale_ccm/lb_mapper.go:28-39 | So if both calls for an existing load balancer fail, none is found, and after the one that is then created every lookup finds two and fails. |
| Clouds.Cloud.GetByUUID | pkg/cloudscale_ccm/lb_mapper.go:42-58 | The load balancer with this UUID, or nothing, or the error of a call that failed otherwise. |
| Clouds.Cloud.FindByName | pkg/cloudscale_ccm/lb_mapper.go:62-86 | All load balancers of this name, in the order of the listing; looking for the empty name is an error, and so is a failing listing. |
| Clouds.Cloud.FindAtMostOne | pkg/cloudscale_ccm/lb_mapper.go:20-40 | Both lookups joined and made unique give what `FindDespite` specifies, whichever of the two calls fails. |
| Clouds.Cloud.CreateLb | pkg/internal/actions/actions.go:49-67 | Adds one load balancer with a new identity and the requested name, addresses, flavor and zone, and changes nothing else. |
| Clouds.Cloud.RenameLb | pkg/internal/actions/actions.go:83-90 | Changes the name of the one load balancer, or is refused without effect. |
| Clouds.Cloud.DeleteResource | pkg/internal/actions/actions.go:130-139 | Removes one resource with everything under it, or is refused without effect. |
| Clouds.Cloud.CreateItem | pkg/internal/actions/actions.go:180-371 | Appends one pool, member, listener or monitor under its owner, or is refused without effect. |
| Clouds.Cloud.UpdateItem | pkg/internal/actions/actions.go:276-540 | Sets exactly the named field of one listener or monitor, or is refused without effect. |
| Clouds.Cloud.AssignFloatingIP | pkg/internal/actions/actions.go:556-567 | Moves the floating IP with this address, up to the first slash, to the load balancer, or is refused without effect. |
| Clouds.Cloud.Run | pkg/internal/actions/actions.go:22-567 | Every action changes the cloud as `Apply` says and answers with the matching control code; refetches and waits change nothing. |
| Validity.ApplyValid | pkg/internal/actions/actions.go:22-567 | Every action keeps identities unique, owners existing and floating IP addresses distinct. |
| Validity.ExecValid | pkg/cloudscale_ccm/reconcile.go:766-799 | So does every batch, however far it gets. |
| Validity.StoredExactly | pkg/internal/actions/actions.go:180-371 | Requests carry every field of pools, listeners and monitors; of a member, the cloud decides only that it is enabled, and what it reports of the subnet with that UUID. |
| Validity.StoredHttp | pkg/internal/actions/actions.go:340-371 | And of HTTP options, each one that is given, with the defaults for the others. |
| CloudWorld.ExecConcat | pkg/cloudscale_ccm/reconcile.go:766-799 | A batch runs as its first part does, and goes on with the rest only if the first part finished. |
| Planner.NextLbActions | pkg/cloudscale_ccm/reconcile.go:325-711 | Fails exactly if addresses, flavor or zone of the load balancer differ, or all pool keys agree and yet a desired pool is not found by name; the error is that of the first difference, or names the first such pool; else returns the batch `Plan` for some possible order of its map iterations. |
| Planner.RefusalExactly | pkg/cloudscale_ccm/reconcile.go:413-455 | The load balancer can stay exactly if flavor and zone are the same and the addresses, unless none are asked for, are as many, in the same subnets, and the same where they are not left open; otherwise it is refused for the first of addresses, flavor and zone that differs. |
| Planner.ItemActions | pkg/cloudscale_ccm/reconcile.go:466-711 | The same for the part after the checks of the load balancer: pools, then what is in them, then updates and floating IPs. |
| Planner.PoolChanges | pkg/cloudscale_ccm/reconcile.go:466-483 | Appends the deletion of every undesired pool after its members, then the creation of every missing pool. |
| Planner.JobChanges | pkg/cloudscale_ccm/reconcile.go:505-565 | Appends deletions, a pause if there are both, and creations for one comparison of a pool. |
| Planner.ChildChanges | pkg/cloudscale_ccm/reconcile.go:493-566 | Appends these for members, listeners and monitors of every desired pool, or fails exactly if a pool is not found by name, naming it. |
| Planner.ChildUpdates | pkg/cloudscale_ccm/reconcile.go:575-694 | Appends the in-place updates of every matched listener and monitor. |
| Planner.PoolsByName | pkg/cloudscale_ccm/reconcile.go:942-949 | Of pools with the same name, the last one is found. |
| Planner.EmptyDiffSamePools | pkg/cloudscale_ccm/reconcile.go:466-490 | There is nothing to do about pools exactly if desired and actual pool keys are the same set. |
| Steps.RemovalIs | pkg/cloudscale_ccm/reconcile.go:343-352 | An undesired pool is deleted after its members, one after the other, with half a second after each. |
| Steps.JobStepsAre | pkg/cloudscale_ccm/reconcile.go:504-526 | One comparison deletes first, pauses for five seconds if it also creates, and then creates, member by member, listener by listener or monitor by monitor, in the pool it was made for. |
| Steps.JobsAre | pkg/cloudscale_ccm/reconcile.go:493-566 | Each desired pool is compared with the last one of its name: members first, then listeners, then monitors. |
| Steps.UpdatesExactly | pkg/cloudscale_ccm/reconcile.go:575-694 | A matched listener or monitor is updated exactly if it differs in a field that is updated in place, and each update changes something, but for that of an HTTP host, whose pointers differ unless both are missing. |
| Steps.AssignsMissing | pkg/cloudscale_ccm/reconcile.go:696-708 | A floating IP is assigned exactly if it is desired and not on the load balancer, as the cloud writes it, and only by a plan that ends the run. |
| Effects.ExecSound | pkg/cloudscale_ccm/reconcile.go:766-799 | A batch that deletes and creates only what it may is refused or kept waiting, or runs to its end and the cloud then is what it was without what was deleted, and with what was created, and nothing else; the former cannot happen if the cloud knows all subnets and nothing is changing. |
| BatchOrder.SoundIsOrdered | pkg/cloudscale_ccm/reconcile.go:338-342 | In such a batch nothing is deleted twice or after its pool, pools are deleted after their members, and nothing is created in a pool that does not exist or is deleted. |
| BatchOrder.RoundIsOrdered | pkg/cloudscale_ccm/reconcile.go:466-573 | Every planned batch that creates or deletes anything, in pools with different names but else for whatever is desired, is well ordered in this sense up to the refetch that ends it, also if the cloud will refuse parts of it or keep it waiting. |
| BatchOrder.UpdatesComeLast | pkg/cloudscale_ccm/reconcile.go:568-711 | For any two states: in-place updates and floating IP assignments are planned only if pools, members, listeners and monitors have the desired keys. |
| Rounds.PoolRemovalsSound | pkg/cloudscale_ccm/reconcile.go:472-478 | The cloud refuses none of the deletions of undesired pools and their members. |
| JobBatches.JobsSound | pkg/cloudscale_ccm/reconcile.go:496-566 | The cloud refuses none of the deletions and creations of members, listeners and monitors. |
| Gaps.GapShrinks | pkg/cloudscale_ccm/reconcile.go:466-566 | Each deletion and each creation closes the gap between desired and actual by one. |
| Gaps.GapCloses | pkg/cloudscale_ccm/reconcile.go:466-566 | One round closes the gap altogether if and only if no undesired key occurred twice. |
| PoolRounds.PoolsReplaced | pkg/cloudscale_ccm/reconcile.go:466-490 | After a pool round exactly the undesired pools it listed are gone and exactly the missing ones are there. |
| Closing.JobReplaced | pkg/cloudscale_ccm/reconcile.go:504-565 | After a child round the same holds for the members, listeners and monitors of every desired pool. |
| Closing.PoolsKept | pkg/cloudscale_ccm/reconcile.go:496-573 | A round that changes what is in pools leaves the pools of every load balancer as they are. |
| Convergence.PoolRound | pkg/cloudscale_ccm/reconcile.go:466-490 | A round with wrong pools runs to its refetch and changes no floating IP and no load balancer but for the name. |
| Convergence.PoolRoundShrinks | pkg/cloudscale_ccm/reconcile.go:466-490 | It brings the pools closer by as many as it deletes and creates, and all the way if and only if no undesired key occurred twice. |
| Convergence.ChildRound | pkg/cloudscale_ccm/reconcile.go:493-573 | A round with the right pools but wrong contents runs to its refetch. |
| Convergence.ChildRoundShrinks | pkg/cloudscale_ccm/reconcile.go:493-573 | It leaves the pools alone and brings the contents closer by as many as it deletes and creates, which is at least one. |
| UpdateRounds.ExecGentle | pkg/cloudscale_ccm/reconcile.go:575-711 | A batch of updates, renames and assignments runs to its end and revises every resource by the updates that name it. |
| UpdateRounds.PairDone | pkg/cloudscale_ccm/reconcile.go:589-692 | After its updates a matched pair agrees in every compared field, and a pair that agreed before is not changed. |
| FinalRounds.PairsDistinct | pkg/cloudscale_ccm/reconcile.go:576-694 | No resource is updated for two pairs. |
| FinalRounds.JobSettles | pkg/cloudscale_ccm/reconcile.go:576-694 | Among the updates of all pools, every pair ends in agreement. |
| Settling.AssignAll | pkg/cloudscale_ccm/reconcile.go:696-708 | Assigning moves exactly the floating IPs with the requested addresses. |
| Settling.FipsDone | pkg/cloudscale_ccm/reconcile.go:696-708 | After the assignments every desired IP is on the load balancer. |
| Settling.LastKeys | pkg/cloudscale_ccm/reconcile.go:568-573 | A round that neither creates nor deletes has seen the desired keys everywhere. |
| Settling.LastRoundSettles | pkg/cloudscale_ccm/reconcile.go:575-711 | The last round of a run leaves the cloud settled: name, pool keys, contents, compared fields and floating IPs are as desired. |
| Settling.FixpointsAreSettled | pkg/cloudscale_ccm/reconcile.go:387-711 | A cloud is settled if and only if a round leaves it exactly as it is and ends the run. |
| Frames.LocalStep | pkg/internal/actions/actions.go:22-567 | An action that concerns one load balancer leaves everything else as it was. |
| Frames.LocalBatch | pkg/cloudscale_ccm/reconcile.go:766-799 | So does a batch of such actions, however far it gets. |
| PlanLocality.PlanLocal | pkg/cloudscale_ccm/reconcile.go:387-711 | Every batch that is planned for a load balancer concerns only it. |
| Runs.RunFrame | pkg/cloudscale_ccm/reconcile.go:716-762 | At every moment of every run, also one that is cut off, all other load balancers, their resources, listeners without a pool, and floating IPs that were not requested are exactly as they were. |
| Runs.TurnKeepsLb | pkg/cloudscale_ccm/reconcile.go:403-461 | No part of a turn deletes or recreates the load balancer while one is wanted. |
| Runs.RunKeepsLb | pkg/cloudscale_ccm/reconcile.go:403-461 | At every moment of a run it is the same load balancer, with the UUID, addresses, flavor and zone it had. |
| Runs.CreatedIsFound | pkg/internal/actions/actions.go:49-67 | A load balancer that was created is what the next lookup finds, and it passes the checks of the following turns. |
| Runs.CreatedIsFoundExactly | pkg/cloudscale_ccm/lb_mapper.go:62-70 | One is found again after its creation if and only if the name of the service is not empty; under an empty name with an outdated UUID every turn creates another one. |
| Runs.WaitingTurn | pkg/cloudscale_ccm/loadbalancer.go:592-597 | A turn of a deletion that goes on has changed nothing. |
| Runs.DeletionBatch | pkg/cloudscale_ccm/reconcile.go:403-411 | A deletion waits while the load balancer is changing and then issues the one delete. |
| Runs.DeletionEnds | pkg/cloudscale_ccm/loadbalancer.go:592-597 | A deletion that ends has removed the load balancer, or found none, and nothing is found any more. |
| Runs.DeletionCascades | pkg/cloudscale_ccm/loadbalancer.go:592-597 | Remark: of what belonged to a deleted load balancer nothing is left, and no floating IP is on it. |
| Runs.DeletionRepeats | pkg/cloudscale_ccm/loadbalancer.go:592-597 | Remark: deleting once more changes nothing. |
| Progress.ChangingWaits | pkg/internal/actions/actions.go:106-115 | Remark: while the load balancer is changing a turn changes nothing and goes on. |
| Progress.TurnAccepted | pkg/cloudscale_ccm/reconcile.go:716-762 | The cloud refuses no action of a turn for a state it can reach. |
| Progress.TurnProgress | pkg/cloudscale_ccm/reconcile.go:716-762 | Every turn waits for a changing load balancer, or comes closer in the lexicographic measure of missing load balancer, pools and contents, or ends with a settled cloud. |
| Progress.RunSuits | pkg/cloudscale_ccm/reconcile.go:413-455 | Any run for a wanted load balancer that ends leaves one with the desired addresses, flavor and zone. |
| FewTurns.TurnRank | pkg/cloudscale_ccm/reconcile.go:394-573 | Without duplicates among what is to be changed, every turn that does not wait lowers the rank. |
| FewTurns.AtMostThreeThenLast | pkg/cloudscale_ccm/reconcile.go:716-762 | So a run makes at most three refetching turns besides those that wait, and one more. |
| FewTurns.NoDuplicatesAtAll | pkg/cloudscale_ccm/reconcile.go:716-762 | Remark: a load balancer without two resources of the same key meets this condition. |
| Finishing.EndsExactly | pkg/cloudscale_ccm/reconcile.go:716-762 | For a request the cloud does not refuse, and words that keep pool names apart: some run comes to an end if and only if the cloud reports every desired member back as it was requested, and a run that goes on for ever, with a load balancer that is never changing, exists if and only if it does not. |
| Finishing.SomeEnd | pkg/cloudscale_ccm/reconcile.go:716-762 | With such members there is a run that ends with the cloud settled: the planner always has a batch, and no turn leaves it without a next one. |
| Finishing.ReadyStill | pkg/cloudscale_ccm/reconcile.go:716-762 | A turn that goes on, whatever it was for and whether or not members are reported back, leaves the run able to take the next one. |
| Finishing.OtherDetailsNeverEnd | pkg/cloudscale_ccm/reconcile.go:504-525 | A subnet that is reported with other details than it is requested with makes a run go on for ever: an instance for every two different details. |
| Choices.SomeChoice | pkg/cloudscale_ccm/reconcile.go:325-711 | A planner that does not refuse always has a possible batch. |
| Endings.RunEndsOnlyIfFaithful | pkg/cloudscale_ccm/reconcile.go:504-525 | No turn that ends a run, also after waits, had a desired member that the cloud would not report back as requested. |
| Disruption.RunKeeps | pkg/cloudscale_ccm/reconcile.go:466-565 | A pool whose key stays desired is untouched at every moment of a run, and every member, listener and monitor in it whose key stays desired keeps its UUID and its key. For what is in the pool, keys have to tell pool names; for the pool itself they need not. |
| OrderIndependence.RoundOrderIrrelevant | pkg/cloudscale_ccm/reconcile.go:472-573 | Whatever the order of the map iterations, a round ends the same way, in clouds that differ only in identities and order of what was created. Members need not be reported back as requested. |
| Twins.PlanAdditive | pkg/cloudscale_ccm/reconcile.go:466-573 | Every plan for pools with different names asks for each key of an owner and kind once at most, and only if it is not there. |
| Twins.RunAtMost | pkg/cloudscale_ccm/reconcile.go:466-573 | At every moment of a run, cut off or refused anywhere, with desired states that may differ from turn to turn: there are no more resources of an owner, kind and key than at the start, unless there was none then and is one now. Only for members does this take desired members that are reported back as requested. |
| Twins.RunApart | pkg/cloudscale_ccm/reconcile.go:466-573 | So if no two pools of its load balancer had the same key at the start, and no two listeners or monitors of a pool, none have at any moment; and the same for members, if the desired ones are reported back as requested. |
| Outcomes.SettledMirrors | pkg/cloudscale_ccm/reconcile.go:387-711 | A settled load balancer without such twins holds exactly the desired pools, and each of them exactly the desired contents. |
| Outcomes.RunMirrors | pkg/cloudscale_ccm/reconcile.go:716-762 | So the contents a run ends with depend on what its last turn desired only: not on the cloud it started from, not on what it desired before, and not on map orders. |
| Tallies.RunHolds | pkg/cloudscale_ccm/reconcile.go:466-490 | The pools of a key that stays desired are the same at every moment of a run, in the same order, if there were any. |
| Tallies.RunTallies | pkg/cloudscale_ccm/reconcile.go:716-762 | Also where resources share a key: a run for one desired state ends with as many pools of each desired key as there were, the same ones, or one new one, and none of another key; the pool that is found by name, which is the last one of its key or the new one, holds as many members, listeners and monitors of each desired key as it did, or one, and none of another key; other pools of that key hold what they held. |
| Tallies.RunsAgree | pkg/cloudscale_ccm/reconcile.go:716-762 | So any two runs for one desired state from one cloud end with as many resources of each key, in whatever order their maps were iterated. |
| Reconcile.PoolStates | pkg/cloudscale_ccm/reconcile.go:256-294 | Lists the pools of a load balancer, each with its members, listeners and monitors, in the order of the listings. |
| Reconcile.AssignedNetworksOf | pkg/cloudscale_ccm/reconcile.go:305-316 | Lists the networks of the floating IPs on a load balancer. |
| Reconcile.ActualLbState | pkg/cloudscale_ccm/reconcile.go:221-319 | Fails exactly if the lookup does, with those of its calls that fail, or there is a load balancer and a listing of what belongs to it fails; else returns the snapshot. |
| Reconcile.RunActions | pkg/cloudscale_ccm/reconcile.go:766-799 | Some first part of the batch has had its effect, nothing was in its way, and success tells whether to refetch; it fails only if it was cancelled before the next action, or the call of that action failed or was refused by the cloud. |
| Reconcile.TakeTurn | pkg/cloudscale_ccm/reconcile.go:722-744 | One pass, under the failures and cancellations it is to meet with: an error before the batch leaves the cloud as it was and has its cause in the lookup, a listing or the planner; the batch that is run is the planned one. |
| Reconcile.ReconcileLbState | pkg/cloudscale_ccm/reconcile.go:716-762 | With a deadline for any desired states, which may differ from pass to pass or be missing, and without one for a state that can be reached: terminates; ends as a run does, and for a cause: a missing desired state, a failing lookup or listing, a refusal of the planner, a cancellation, a failing or refused call, or the deadline; leaves everything else alone however it ends; on success the load balancer suits, and the desired state of the last pass is reached, unless the cloud cannot report it back. |
| Reconcile.MustEnd | pkg/cloudscale_ccm/reconcile.go:716-762 | Without failing calls and cancellations, for one desired state that nothing speaks against, it ends well, or when the deadline is over, however often the load balancer was found changing. |
| Names.PoolKeysExact | pkg/cloudscale_ccm/reconcile.go:347-353 | The concatenation without separators tells pools apart if and only if no algorithm and protocol end in those of another pool. |
| Names.SuffixFreeTells | pkg/cloudscale_ccm/reconcile.go:347-353 | It is enough that no algorithm ends in another one and no protocol in another one. |
| Names.KnownAlphabets | pkg/cloudscale_ccm/reconcile.go:347-353 | Remark: this holds for the algorithms and protocols that the documentation and tests use. |
| Names.NeverMissingExact | pkg/cloudscale_ccm/reconcile.go:496-502 | For any sets of algorithms and protocols: the error about a pool that is not found can never occur if and only if no algorithm and protocol, one after the other, end in those of another pool without being written the same. |
| Names.NoPoolIsMissing | pkg/cloudscale_ccm/reconcile.go:403-461 | With such words, a batch is refused only for the sake of the load balancer itself. |
| Names.MeetingIsWeaker | pkg/cloudscale_ccm/reconcile.go:347-353 | Remark: keys need not tell pools apart for that. |
| Names.AmbiguousKeys | pkg/cloudscale_ccm/reconcile.go:347-353 | Otherwise it can occur: a desired pool with the unknown algorithm xround_robin has the key of an existing pool, and its name is not found. |
| Names.KeysExactly | pkg/cloudscale_ccm/reconcile.go:347-381 | What is recreated when it changes, and what is not: every field of a member, name, protocol and port of a listener, type and HTTP version of a monitor. |
| Names.DecimalExactly | pkg/cloudscale_ccm/reconcile.go:982 | What `%d` prints is the one text without needless zeros or signs that reads back, digit by digit, as the number. |
| Names.MemberNameExactly | pkg/cloudscale_ccm/reconcile.go:976-983 | The name of a member, and no other text, is its address, in brackets exactly if it has a colon, a colon, and a text that reads back as the port. |
| Names.PoolNameExactly | pkg/cloudscale_ccm/reconcile.go:959-968 | The name of a pool, and no other text, is tcp or udp, alone exactly for a port without a name, and else followed by a slash and that name. |
| DesiredStates.ListenerNameExactly | pkg/cloudscale_ccm/reconcile.go:992-994 | The name of a listener, and no other text, is the protocol in lower case, a slash, and a text that reads back as the port. |
| Names.PoolNamesDiffer | pkg/cloudscale_ccm/reconcile.go:959-968 | Ports that differ in protocol or name have pools with different names. |
| Names.MemberNamesDiffer | pkg/cloudscale_ccm/reconcile.go:976-983 | The name of a pool member tells its address and its port. |
| Locks.LockTable.MutexFor | pkg/cloudscale_ccm/loadbalancer.go:317-319 | Returns the mutex of the service, and stores it if there was none yet. |
| Locks.OneHolder | pkg/cloudscale_ccm/loadbalancer.go:317-328 | No two workers hold the lock of one service. |
| Locks.AnswerAtOnce | pkg/cloudscale_ccm/lb_mapper.go:20-40 | With no step of another worker in between, the two calls of a lookup are the lookup. |
| Locks.AnswerGuards | pkg/cloudscale_ccm/lb_mapper.go:28-39 | What a lookup returns tells that no other load balancer has the name of the service. |
| Locks.PlanGuarded | pkg/cloudscale_ccm/reconcile.go:394-461 | A batch gives only the name of its service, and creates only if nothing was found. |
| Locks.StepKeeps | pkg/cloudscale_ccm/loadbalancer.go:408-454 | Every step of every worker, and every outside change that uses no name of a service, keeps the invariant. |
| Locks.AtMostOneLbEach | pkg/cloudscale_ccm/loadbalancer.go:317-328 | In every interleaving of any number of workers there is at most one load balancer with the name of a service. |
| Locks.SharedNameDefeatsLocks | pkg/cloudscale_ccm/loadbalancer.go:317-332 | If two services have the same name, their workers can create one load balancer each. |
| FloatingIps.FindIPsAssignedElsewhere | pkg/cloudscale_ccm/loadbalancer.go:691-758 | However the listing is paged, returns the conflicts with all other services; fails exactly if the IPs of the service cannot be read, or it has some and a page cannot be listed. |
| FloatingIps.ConflictsExact | pkg/cloudscale_ccm/loadbalancer.go:722-748 | The conflicts are exactly the IPs that another service of type LoadBalancer with readable IPs has as well, each with the name of the last such service. |
| FloatingIps.EnsureValidConfig | pkg/cloudscale_ccm/loadbalancer.go:656-686 | Succeeds exactly for a supported service with readable IPs and no conflict, if what is needed can be listed; otherwise tells which of these is wrong, and the conflicts. |
| FloatingIps.AllPassExactly | pkg/cloudscale_ccm/loadbalancer.go:656-758 | All services pass if and only if each is supported and readable and no two share an IP. |
| FloatingIps.CanonicalAddresses | pkg/internal/actions/actions.go:556-567 | IPs written as the cloud writes its networks are different exactly if their addresses are. |
| FloatingIps.RunMoves | pkg/cloudscale_ccm/reconcile.go:696-708 | At every moment of a run, floating IPs have moved to its own load balancer only. |
| Flapping.NoFlapping | pkg/cloudscale_ccm/loadbalancer.go:656-758 | A floating IP on the load balancer that its service holds stays there through every history of runs of services that pass the check, in any order, with changing annotations, cut off anywhere, if and only if no other such service asks for its address. |
| Flapping.VisitKeeps | pkg/cloudscale_ccm/loadbalancer.go:656-758 | Through each of these runs the load balancer stays with its service: it is found by it, and by no other service. |
| Flapping.BackAndForth | pkg/cloudscale_ccm/loadbalancer.go:656-758 | Two services that pass the check, ask for one address, and whose runs can start, take the floating IP from each other: the history is there. |
| Flapping.CanonicalStays | pkg/cloudscale_ccm/loadbalancer.go:656-758 | If all services pass and write their IPs as the cloud does, a floating IP in its place stays there. |
| Flapping.TwoNotationsFlap | pkg/cloudscale_ccm/loadbalancer.go:743-747 | For every two ways to write one IP: services that use one each both pass the check, and their planned runs take the floating IP from each other. |
| Flapping.TwoAddressesStay | pkg/cloudscale_ccm/loadbalancer.go:656-758 | For every two addresses, in any notation: services with one each pass, do not disturb each other, and the second one gets its floating IP in a run of its own. |
| Annotate.EscapeRoundTrip | pkg/internal/kubeutil/annotate.go:61-63 | The two passes are undone by the decoding of section 4 of RFC 6901, and leave no slash, for every key. |
| Annotate.EscapeFirst | pkg/internal/kubeutil/annotate.go:61-63 | A tilde becomes ~0, a slash ~1, and nothing else changes. |
| Annotate.PathLeadsTo | pkg/internal/kubeutil/annotate.go:61-65 | The path of an operation has the tokens metadata, annotations and the key. |
| Annotate.AnnotateService | pkg/internal/kubeutil/annotate.go:19-79 | Succeeds without operations for no arguments, fails for an odd number of them and without a client, in this order, and else makes `Operations`. |
| Annotate.PatchIsExact | pkg/internal/kubeutil/annotate.go:37-72 | All operations apply and leave all other annotations alone; every given key then reads as its value if and only if no key is given two values. |
| Annotate.SecondTimeNothing | pkg/internal/kubeutil/annotate.go:57-76 | A second call makes no operations if and only if no key is given two values. |
| DesiredStates.FindZone | pkg/cloudscale_ccm/reconcile.go:67-82 | Returns the set zone, or the one the loop over the servers comes to. |
| DesiredStates.ZonesAgree | pkg/cloudscale_ccm/reconcile.go:68-82 | Without a set zone this succeeds exactly if the servers all tell the same zone, but for some first ones that tell none. |
| DesiredStates.Members | pkg/cloudscale_ccm/reconcile.go:167-199 | The nested loops list exactly the eligible addresses, in order, as members. |
| DesiredStates.PortNode | pkg/cloudscale_ccm/reconcile.go:128-213 | One pass of the loop over the ports, with the first error that it meets. |
| DesiredStates.DesiredLbState | pkg/cloudscale_ccm/reconcile.go:55-219 | Returns the specified desired state, or the first error. |
| DesiredFits.DesiredShape | pkg/cloudscale_ccm/reconcile.go:123-216 | A load balancer with the name, addresses, flavor and zone of the service, the zone of its servers if none is set; and for each port, in order, one pool, one listener and one monitor: protocols by that of the port, the names, the port and timeouts and networks of the listener, type, delay, timeout, thresholds and HTTP options of the monitor, and the eligible addresses in order as members, with their port and the port they are monitored at. |
| DesiredFits.EligibleExactly | pkg/cloudscale_ccm/reconcile.go:167-199 | Members are exactly the addresses of interfaces that are not public, in a subnet, and in one of the allowed ones if there are any, in the order of all addresses. |
| DesiredFits.AddressesInOrder | pkg/cloudscale_ccm/reconcile.go:167-175 | All addresses are those of one server after the other. |
| DesiredFits.AddressesOfOne | pkg/cloudscale_ccm/reconcile.go:168-175 | Those of a server are those of one interface after the other. |
| DesiredFits.SucceedsExactly | pkg/cloudscale_ccm/reconcile.go:55-219 | Says exactly when there is a desired state. |
| DesiredFits.ErrorsTell | pkg/cloudscale_ccm/reconcile.go:55-219 | An error tells what is wrong: the number of servers, servers in different zones or in none, the first port that cannot be balanced or has no node port, or an annotation that cannot be read. |
| DesiredFits.DesiredIsWanted | pkg/cloudscale_ccm/reconcile.go:123-216 | The desired state of a service whose ports differ is one that runs can reach. |
| DesiredFits.MembersApart | pkg/cloudscale_ccm/reconcile.go:976-983 | Remark: members at different addresses have different keys. |
| DesiredFits.MonitorComplete | pkg/cloudscale_ccm/reconcile.go:882-936 | Remark: the desired monitor has all defaults that the cloud would fill in; with the local traffic policy it is an HTTP monitor. |
| DesiredFits.ServiceIsMirrored | pkg/cloudscale_ccm/reconcile.go:55-219 | From the service to the cloud: a run that ends leaves a load balancer that holds exactly what the service asks for. |
| DesiredFits.ServiceIsProvisioned | pkg/cloudscale_ccm/reconcile.go:716-762 | And unless the lookup fails or the load balancer that is found does not fit, there is such a run, after which the floating IPs of the service are on the load balancer too. |
| Ensure.UpdateLoadBalancer | pkg/cloudscale_ccm/loadbalancer.go:516-563 | Touches nothing but the load balancer and the floating IPs of the service; changes nothing if the configuration is bad or the first pass has no desired state; on success the load balancer suits, and the desired state of the last pass, for the servers listed then, is settled if it can be reached; succeeds if nothing disturbs it, there is no deadline, and nothing speaks against the run. |
| Ensure.EnsureLoadBalancer | pkg/cloudscale_ccm/loadbalancer.go:408-486 | The same, and then returns the operations that annotate the service with the UUID and the zone of the load balancer, which is sure to be there. |
| Ensure.EnsureLoadBalancerDeleted | pkg/cloudscale_ccm/loadbalancer.go:578-598 | Touches nothing else; changes nothing if the configuration is bad; on success no load balancer of the service is found any more; succeeds if nothing disturbs it, there is no deadline, and the lookup succeeds. |
| Ensure.AnnotatedOnce | pkg/cloudscale_ccm/loadbalancer.go:466-473 | The operations annotate the service with the UUID of its load balancer, which no other one has, the version 1 and the zone, and leave all other annotations as they are; a second call makes none. |
| Ensure.QueryExactly | pkg/cloudscale_ccm/lb_mapper.go:20-40 | A service finds a load balancer exactly if it is the only one that it is annotated with or that has its name. |
| Ensure.ServiceCanEnd | pkg/cloudscale_ccm/loadbalancer.go:442-454 | What a caller can check for that: ports and addresses that differ, servers that stay the same, subnets and floating IPs that the cloud knows, words that keep pool names apart, and a load balancer that suits if one is found. |
| Example.WholeService | pkg/cloudscale_ccm/reconcile.go:55-219 | From a cloud without load balancers: a run that ends, and leaves the service its load balancer, one pool with its member, listener and monitor, and its floating IP. So the conditions of the main results can be met. |
| Example.WholeRun | pkg/cloudscale_ccm/reconcile.go:716-762 | Remark: a run of two turns written out, which creates a pool and then finds everything in place. |
| Example.FirstRound | pkg/cloudscale_ccm/reconcile.go:466-490 | Remark: its first round, which ends in a refetch. |
| Example.LastRound | pkg/cloudscale_ccm/reconcile.go:568-711 | Remark: its last round, which changes nothing and ends the run. |

## Left out

- ReconcileLbState: demands that the name of the service is not empty wherever a load balancer is wanted (see `CreatedIsFoundExactly`), and takes lookups whose errors are lost to have answered (see `LostErrors`). Without a deadline it takes one desired state that the cloud reports back, because other runs need not end (see `EndsExactly`).
- UpdateLoadBalancer: the same holds for it.
- TakeTurn: has a lookup by UUID answer; of the calls of lookups, only that of one by name alone is taken to fail.
- EndsExactly: says nothing about runs that wait for a changing load balancer, which may change for ever.
- KnownAlphabets: an instance for fixed words; the algorithm is free text, for which `NeverMissingExact` has the exact condition.
- RunTallies: counts by key; of resources that share a key, those that are not the last one keep the other fields they had, which is not stated.
- RunMirrors: for monitors, HTTP blocks are compared only where both sides have one, as the program does.
- AtMostThreeThenLast: counts turns for a fixed desired state.
- MemberNamesDiffer: prints numbers in decimal as `%d` does; names and types with a percent sign, which would act as formats in the keys of members, listeners and monitors, are not modelled, and these keys are tuples.
- DesiredLbState: takes annotations as parsed values; lower-casing listener names covers ASCII letters only.
- EnsureLoadBalancer: which nodes a selector keeps, and which servers they run on, is part of the request; the lock is the subject of `Locks`; the status for Kubernetes is not computed.
- NoFlapping: services and their IPs stay as they are during the history; outside changes to the cloud are not part of it.
- FindIPsAssignedElsewhere: the paged listing is one consistent list, and continue tokens are page numbers.
- AnnotateService: stops at the operations; sending them, and the encoding as JSON text, are not modelled.
- FindAtMostOne: the UUID annotation is a UUID or absent.
- AtMostOneLbEach: calls of a lookup answer, since a lost error can make a second load balancer (see `LostErrorsDuplicate`); a worker may leave at any step; mutexes are granted in any order, and no progress is claimed.
- Waiting between passes, sleeps, logging, events, contexts, HTTP transport and label selectors.
- Missing desired or actual states as nil pointers, and the listings kept under a nil pool, which are only shown to stay untouched.
- The status that is reported to Kubernetes, mapping of nodes to servers, provider identities, and version checks.
- Rules by which the real service may refuse requests, such as two listeners on one port.
