# IPMan: a verified model of its control logic

IPMan is a Kubernetes operator that runs strongSwan connections for pods. Most of it is calls to the
cluster, the daemon and the kernel; this project models the logic between those calls and proves what
it keeps and where it reaches.

| part | files | what is proved |
|---|---|---|
| VXLAN address allocator | `Allocator`, `ConnectionStatus`, `AllocatorProtocol`, `AllocatorCoherence`, `AllocatorRefresh`, `AllocatorLimits`, `AllocatorExact` | no address is given to two live pods of a child, over every interleaving of webhooks and reconcilers, and when exactly that holds; the free lists agree with recomputation; nothing leaks; how long reservations last |
| validating webhook | `Admission`, `Cidr` | what it accepts, both directions, and what acceptance guarantees |
| planner and executor | `Ordering`, `Routes`, `XfrmPod`, `XfrmEffect`, `XfrmPlan`, `XfrmRun`, `XfrmPasses`, `Cluster`, `ClusterPlan`, `ClusterRun`, `ClusterPasses` | executing a plan reaches the desired state exactly when stated; every action comes closer; any interruption can be replanned; when the plan of the whole cluster runs, and when repeated passes over it settle, with pods that change groups and pods whose group is gone |
| bookkeeping of connections | `Bookkeeping` | deleting from an array while ranging over it; edge-triggered overrides |
| connection health | `SwanStatus`, `Health` | the detector reports exactly what is missing; which states one pass and which repeated passes heal |
| configuration reload | `Reload` | every configuration is accounted for |

`Api` and `Lists` hold shared definitions. Loops, in-place edits and objects with fields are methods and
classes, proved against functions; the theorems are lemmas about those functions. A Go map is ranged over
by picking keys arbitrarily, so every such result holds for every order. Calls out of the program are
parameters or steps: the clock, pod listings, versioned reads and commits, what a running restctl pod
answers, which requests the daemon refuses, and `net.ParseCIDR` as a function from text to a network.
Beside the theorems, what each operation does is also said outright, field by field and place by place,
without the functions its loops are proved against (`Allocator.AllocateIs`, `Admission.VerdictIs`,
`XfrmPlan.RecreatedOrRerouted`, `Health.RestartPlannedIff`, `SwanStatus.FailedIff`, `Reload.LoadedIs`).

## Hypotheses

- Allocator: an address belongs to one child of one connection; a pod that was admitted appears in pod
  lists, and a refresh reads the clock after listing, together within 34 seconds of the reservation (the
  webhook's own timeout is 30 seconds); a pool that leaves the spec does not have its addresses listed
  under another pool of the child while its old list is still there. Each is a named predicate
  (`Timely`, `Sound` and `RetiredApart` in `AllocatorProtocol`). The lease is not relied on, nor
  is the key of a child being its name, except where the webhook's guarantees are stated.
- Planner: pod names are distinct, pods are recorded under their names, a desired pod has no IP yet; where
  stated, route lists hold no entry twice. IPs are assigned between passes only. The recorded state is
  the spec annotation. Deleting a pod is synchronous, a pod's IP identifies it, and a failed call
  ends the plan. All pods are in one namespace.
- Cluster: within each state group references and pod names are distinct, and the name of a pod tells its
  role (its prefix does, api/v1/constants.go:46-53). A name may be recorded in one group and desired in
  another, and a recorded pod may be of no group there is. For repeated passes the groups there are and
  what is desired stay the same, and a group lists all the recorded pods that carry its name (so it has
  one charon and one restctl pod at most).
- Bookkeeping: connection names are not empty.

## What the code does that its comments and tests would not suggest

- `DeleteRemoteRoute` looks the pod up only when its IP was unknown and otherwise fails on a nil pod, so a
  pod with a known IP never loses a remote route (`XfrmPasses.PassesSettleIff`). FDB actions directly after a
  creation carry no IP and fail; the next pass completes them.
- A route recorded twice and desired once is lost (`Routes.SurplusLosesEntry`).
- An update is checked for uniqueness without its added children, and replacing one child by another skips
  the check for dependent pods (`Admission.AddedAlwaysAccepted`, `Admission.AcceptedDropsUnusedIff`).
- Retired pools keep their free lists, and an address listed by two children can be granted twice
  (`AllocatorLimits.RetiredPoolRepeats`, `AllocatorExact.SharedAddressGrantedTwice`).
- A connection whose group is edited moves its xfrm pod, which keeps its name. If the group it leaves is no
  longer desired or sorts after the new one, creation is planned before deletion and every pass ends there
  (`ClusterRun.PlannedMove`, `ClusterRun.MoveAgainstOrderStays`, `ClusterRun.SortedOrderIff`,
  `ClusterPasses.ClusterSettlesIff`).
- Pods of a group whose CharonGroup object is gone are never deleted, and while one is there no pod of its
  name can be created (`ClusterRun.ClusterRunsIff`, `ClusterRun.OrphanStays`, `ClusterRun.GoneGroupBlocks`).
- An optimistic status update reports a connection up although a child that left its spec is recorded down
  (`Health.AllHonestIff`, `Health.StaleChildHidden`).
- One pass over the connection names drops at least half of the stale ones, not all.
- A connection that is "Down" restarts only its first child by name; with another child recorded down it
  never recovers. A connection without children never gets an empty plan. All others recover in two passes
  (`Health.PassesHealIff`).
- `NewConnectionRestartError` wraps its error, so the assertion in `Reconcile` never matches and a failed
  restart ends the pass like any other failure: connections planned after it get nothing done, and never
  do as long as it fails (`Health.FailedPassHeals`, `Health.Starved`).
- A reload that fails for a connection whose older version is loaded answers 200; a reload without
  configurations unloads nothing.

## Model

| member | source | states |
|---|---|---|
| `ConnectionStatus.Connection.UpdateStatus` | internal/controller/ipman_controller.go:549-643 | one refresh in place, loop by loop, leaves exactly the status that recomputation from spec, pod list and clock gives; the time it returns, counted from a second reading of the clock, is the first at which no reservation is over its 35 s and a nanosecond after which one is, or none iff nothing is reserved |
| `ConnectionStatus.Connection.RebuildFree` | internal/controller/ipman_controller.go:556-573 | removed children go, listed pools restart from the spec, a pool that left the spec keeps the list it had |
| `ConnectionStatus.Connection.ExpirePending` | internal/controller/ipman_controller.go:595-607 | keeps exactly the reservations whose stamp parses, is at most 35 s old and whose address no listed pod carries |
| `ConnectionStatus.Connection.SubtractTaken` | internal/controller/ipman_controller.go:614-627 | every free list loses exactly the reserved and the listed addresses, in order |
| `ConnectionStatus.Connection.NextDeadline` | internal/controller/ipman_controller.go:629-643 | the least time to an expiry over the reservations, attained by one of them, by a clock read later than the refresh's and so possibly negative; none iff nothing is reserved |
| `ConnectionStatus.Connection.Admit` | internal/webhook/v1/mutating_webhook.go:126-178 | the webhook's lookup, its three denials in order, and on success the head of the list taken out and stamped; which of them it is, is said outright in `Allocator.AllocateIs` and `Allocator.GrantedIs` |
| `Allocator.AllocateIs` | internal/webhook/v1/mutating_webhook.go:126-172 | an address is granted iff a child has that name, the pool's list is there and not empty and a non-empty gateway is recorded for the child; each denial is given iff its own condition fails and no earlier one does; a denial changes nothing |
| `Allocator.GrantedIs` | internal/webhook/v1/mutating_webhook.go:168-178 | a grant takes the head of the one list and stamps it with the clock's seconds; every other list, reservation and gateway stands |
| `Allocator.RefreshedIs` | internal/controller/ipman_controller.go:549-607 | a reservation is left iff its stamp parses and is at most 35 s old and no listed pod of a child of the spec has its address; the lists left are those of the spec's children, for the pools of the spec and those that had one |
| `Allocator.RefreshedListIs` | internal/controller/ipman_controller.go:562-627 | every list left is, in order, the spec's or for a retired pool its own, picked at exactly the places whose address is neither reserved nor held by a listed pod of a child of the spec |
| `Allocator.FreeOfRefreshed` | internal/controller/ipman_controller.go:556-627 | the exact content of any list of any child after a refresh |
| `Allocator.FreeOfAllocated` | internal/webhook/v1/mutating_webhook.go:168-178 | the exact content of any list after a granted request: the head of one list is gone, all others stand |
| `Allocator.ReservationBound` | internal/controller/ipman_controller.go:595-607 | with stamps truncated to seconds a reservation survives every refresh up to 34 s whose list lacks its address, and none later than 35 s |
| `Allocator.RefreshPartitions` | internal/controller/ipman_controller.go:587-627 | after a refresh each address of a spec pool is exactly one of free, reserved or held by a listed pod |
| `AllocatorProtocol.StepKeepsInv` | internal/controller/ipman_controller.go:1431-1455 | every step (request read, reserve, commit or conflict; refresh read, list, compute, commit or conflict; pod appearing or deleted; clock; edit) keeps the allocator invariant |
| `AllocatorProtocol.CommitNeedsGateway` | internal/webhook/v1/mutating_webhook.go:152-172 | whatever is stale, a request that admits a pod or writes the object read the current one, names a child of the spec with a non-empty gateway and a non-empty list there, and takes the head |
| `AllocatorProtocol.RunKeepsInv` | internal/controller/ipman_controller.go:1480-1493 | over any interleaving of any number of requests and refreshes with stale versions, the invariant holds at the end; only compare-and-swap on the version is relied on, not the lease |
| `AllocatorProtocol.NoDoubleAllocation` | internal/webhook/v1/mutating_webhook.go:112-187 | in every reachable state two live pods of a child hold different addresses and no free list of the child offers an address one of them holds |
| `AllocatorCoherence.QuietRunCoherent` | internal/webhook/v1/mutating_webhook.go:168-178 | admissions and pod appearances, in any number, keep the free lists equal to what recomputation would give |
| `AllocatorRefresh.RefreshCommits` | internal/controller/ipman_controller.go:549-643 | a refresh that goes through, whatever other steps interrupt it, read the object that is current throughout and writes what recomputing from it, the pods listed and the clock gives |
| `AllocatorRefresh.ListedIsHeld` | internal/controller/ipman_controller.go:585-627 | whatever is listed, a worker or another connection's pod under a child's name, is neither free nor reserved once the refresh has gone through |
| `AllocatorRefresh.RequestCommits` | internal/webhook/v1/mutating_webhook.go:112-187 | a request that has any effect, whatever other steps interrupt it, read the object that is current throughout, and takes the head of its list, stamped by the clock it read |
| `AllocatorRefresh.RecomputingChangesNothing` | internal/controller/ipman_controller.go:562-627 | after any run, a refresh that goes through with requests and appearances in between, and any further admissions and appearances, recomputing gives the same free lists in the same order |
| `AllocatorRefresh.NothingLeaks` | internal/controller/ipman_controller.go:562-627 | after any run a refresh that goes through, whatever interrupts it, returns every spec address no pod held when it listed them and no reservation unexpired by its clock covers |
| `AllocatorRefresh.ReservationStays` | internal/controller/ipman_controller.go:595-607 | over any run a reservation is in every status until a pod with its address is listed or 34 s after its stamp was taken, whatever commits, conflicts and edits happen; every admitted pod not yet listed is reserved |
| `AllocatorRefresh.ReservationGoes` | internal/controller/ipman_controller.go:595-607 | after any run a refresh that goes through leaves no reservation made more than 35 s before the clock it read |
| `AllocatorExact.AbandonedReturns` | internal/controller/ipman_controller.go:595-627 | from any state, an address reserved for a pod that never came is free again after 36 s and an uninterrupted refresh |
| `AllocatorExact.ForeignWithheld` | internal/controller/ipman_controller.go:585-627 | from any state, an address that a pod of another connection turns out to hold under a child's name is off every list from the next refresh on |
| `AllocatorExact.ForeignReturns` | internal/controller/ipman_controller.go:585-627 | and listed again from the refresh after that pod has gone, if the spec lists it and nobody holds or reserves it |
| `AllocatorLimits.GrantsDistinctIffNoRepeats` | internal/webhook/v1/mutating_webhook.go:139-178 | all request sequences for a child get distinct addresses iff its free lists repeat none, within a pool and across pools |
| `AllocatorLimits.FreshGrantsDistinctIff` | internal/webhook/v1/validating_webhook.go:86-95 | for a new spec: iff the child's pools together repeat no address, which is what the uniqueness check tests |
| `AllocatorLimits.RefreshedGrantsDistinctIff` | internal/controller/ipman_controller.go:556-627 | after any refresh under any edited spec: iff no address left over by reservations and pods is in two of the lists it starts from or twice in one, retired pools among them |
| `AllocatorLimits.RetiredPoolRepeats` | internal/controller/ipman_controller.go:556-573 | an accepted edit that moves an address to another pool offers it twice, because retired pools are not pruned |
| `AllocatorExact.NeverDoubledIff` | internal/webhook/v1/validating_webhook.go:82-103 | with a spec that is not edited, every reachable state is free of two live pods of one child with one address iff no address is listed twice within a child or by two children |
| `AllocatorExact.SharedAddressGrantedTwice` | internal/webhook/v1/validating_webhook.go:88 | an address listed by two children passes the uniqueness check, and a run of the protocol leads to two live pods of one child that hold it |
| `Cidr.ContainsIsInterval` | internal/webhook/v1/validating_webhook.go:267 | for IPv4 and IPv6 alike, a network contains the addresses of its own kind between its first and last, and no others |
| `Cidr.NetworkIs` | internal/webhook/v1/validating_webhook.go:267 | the addresses from a network's first to its last are the block of two to the number of host bits, starting at a multiple of its size, that holds the network's address |
| `Admission.ValidateUnique` | internal/webhook/v1/validating_webhook.go:82-103 | accepts iff every child's pools together repeat no address, equally named children share none and interface ids differ, whatever order maps are ranged over in |
| `Admission.UniqueIs` | internal/webhook/v1/validating_webhook.go:82-103 | what is accepted, place by place: no two places in the pools of children of one name hold one address, and no two children have one interface id |
| `Admission.CollectDependents` | internal/webhook/v1/validating_webhook.go:170-179 | a pod is filed under its child iff it names this connection and a child of the old or the new spec |
| `Admission.CheckDeletion` | internal/webhook/v1/validating_webhook.go:181-196 | refuses iff the number of children changes and a dropped child has a dependent pod |
| `Admission.DeletedAddresses` | internal/webhook/v1/validating_webhook.go:220-226 | exactly the addresses that are in an old pool and not in the new pool of that name |
| `Admission.CheckLocals` | internal/webhook/v1/validating_webhook.go:244-272 | accepts iff every dropped local network parses and covers no annotated pod, each of which must parse too |
| `Admission.CheckChild` | internal/webhook/v1/validating_webhook.go:211-272 | accepts a kept child iff name, remote networks, interface id, addresses and extras are the same and the changes of pools and local networks are harmless |
| `Admission.ValidateUpdate` | internal/webhook/v1/validating_webhook.go:167-276 | the whole verdict on an edit; what it comes to is said field by field in `Admission.VerdictIs` |
| `Admission.VerdictIs` | internal/webhook/v1/validating_webhook.go:167-276 | for children listed under their names, accepted iff: no pod names a dropped child (when the count changes); every child that stays has the same remote networks, interface id, addresses and extras; no address leaving its pools is held; every dropped local network parses and no annotated address lies in it; and those that stay repeat no address each and no interface id |
| `Admission.AcceptedKeepsFixed` | internal/webhook/v1/validating_webhook.go:213-216 | an accepted edit leaves name, remote networks, interface id, both addresses and extras of every child that stays as they were |
| `Admission.HarmlessAccepted` | internal/webhook/v1/validating_webhook.go:211-275 | an edit of the same children that changes only pools and local networks, with no held address and no covering network dropped and none repeated, is accepted |
| `Admission.AcceptedKeepsHeldAddresses` | internal/webhook/v1/validating_webhook.go:218-242 | an accepted edit takes no address held by a dependent pod out of any pool of a kept child |
| `Admission.AcceptedKeepsLocalNetworks` | internal/webhook/v1/validating_webhook.go:244-272 | a local network dropped by an accepted edit ends below or starts above the address of every annotated pod |
| `Admission.AcceptedDeletesUnused` | internal/webhook/v1/validating_webhook.go:181-196 | when the number of children changes, no dropped child has a dependent pod |
| `Admission.AcceptedDropsUnusedIff` | internal/webhook/v1/validating_webhook.go:181-196 | for an edit that is accepted when there are no pods: acceptance means no dropped child is in use, whatever the pods, iff the number of children changes or none is dropped |
| `Admission.SwapAlwaysAccepted` | internal/webhook/v1/validating_webhook.go:183 | replacing one child by another is accepted whoever uses the replaced one, since only the count is compared |
| `Admission.AddedAlwaysAccepted` | internal/webhook/v1/validating_webhook.go:197-209 | an added child is taken out before the uniqueness check and so accepted whatever it repeats |
| `Admission.AcceptedUniqueIff` | internal/webhook/v1/validating_webhook.go:197-275 | an accepted edit leaves a unique spec iff the added children are unique by themselves and against the rest |
| `Ordering.SortAscending` | internal/controller/ipman_controller.go:432-436 | sorting names yields an ascending list |
| `Ordering.BelowIs` | internal/controller/ipman_controller.go:1199-1204 | the order of names: they agree up to a place where the first ends and the second does not, or has the smaller character |
| `Ordering.AscendingUnique` | internal/controller/ipman_controller.go:998-999 | an ascending list is determined by its entries, so sorted slices compare as multisets |
| `Ordering.BinarySearch` | internal/controller/ipman_controller.go:1268 | the search loop finds what its halving window lands on |
| `Ordering.FoundIffMember` | internal/controller/ipman_controller.go:1267-1272 | on strictly ascending lists the search is membership |
| `Ordering.FindsAllIff` | internal/controller/ipman_controller.go:1267-1272 | on a list without duplicates the search is membership for every name iff the list is sorted |
| `Ordering.UnsortedMisses` | internal/controller/ipman_controller.go:1267-1272 | such an unsorted list, and the member that is missed |
| `Routes.LeftOver` | internal/controller/ipman_controller.go:1002 | the elements without a partner of their own on the other side, as a multiset difference |
| `Routes.DiffLists` | internal/controller/ipman_controller.go:1002 | old and new values of the changes are exactly the two multiset differences, however they are paired by index |
| `Routes.ListOps` | internal/controller/ipman_controller.go:1003-1044 | one removal per old value and one addition per new value, an update giving both |
| `Routes.DiffRouteList` | internal/controller/ipman_controller.go:997-1095 | the local or remote part of a plan: each surplus copy removed once, each missing copy added once, nothing else |
| `Routes.ApplyCount` | internal/controller/actions.go:176-214 | an executed addition adds one copy, an executed removal drops every copy, of that value only |
| `Routes.RunCount` | internal/controller/actions.go:176-214 | how often a value is recorded after any sequence of executed route actions that does not both add and remove it |
| `Routes.ReachedIff` | internal/controller/ipman_controller.go:997-1095 | executing the plan reaches the desired multiset iff no value that is to stay is recorded more often than desired |
| `Routes.SurplusLosesEntry` | internal/controller/actions.go:208-213 | a duplicated entry desired once is lost: removal drops every copy |
| `Routes.EmptyIff` | internal/controller/ipman_controller.go:1001 | no route action is planned iff the multisets agree |
| `Routes.ReachesSorted` | internal/controller/actions.go:176-177 | a plan that does anything leaves exactly the sorted desired list |
| `Routes.PlanIsMinimal` | internal/controller/ipman_controller.go:997-1095 | on duplicate-free lists the plan has one action per differing entry and no other action sequence that reaches the desired list is shorter |
| `Routes.EachStepCounts` | internal/controller/ipman_controller.go:997-1095 | after any k planned actions exactly the rest of the difference is left and the list is still duplicate-free |
| `Routes.DiffMaps` | internal/controller/ipman_controller.go:1097-1145 | the FDB part: in whatever order keys come, every action removes a wrong entry or adds a missing one where it is executed, and the end is the desired map |
| `Routes.SetAll` | internal/controller/ipman_controller.go:1162-1164 | the FDB entries of a new pod, likewise |
| `Routes.LeadsCounts` | internal/controller/ipman_controller.go:1097-1145 | after any k FDB actions exactly the rest of the difference is left |
| `Routes.LeadsIs` | internal/controller/ipman_controller.go:1097-1145 | an FDB entry is removed iff it is there and not desired, and added iff it is desired and not there |
| `XfrmPod.DiffRoutes` | internal/controller/ipman_controller.go:995-1147 | the plan of a kept pod: local, remote and FDB actions that transform its lists and map |
| `XfrmPod.CreateXfrmPod` | internal/controller/ipman_controller.go:1150-1166 | the plan of a new pod: creation without routes, then actions that build up all its routes |
| `XfrmPod.RecreatedIff` | internal/controller/ipman_controller.go:1243-1255 | a pod that is recorded and desired is deleted and created anew iff owner child, owner connection, interface id, xfrm IP, vxlan IP or node differ |
| `XfrmPod.KeptPlanIs` | internal/controller/ipman_controller.go:991-1147 | a pod that is kept gets of every local and remote route as many removals as there are too many and as many additions as there are too few, exactly the FDB entries that are wrong removed and those missing added, and nothing else; local routes first, then remote ones, then FDB entries |
| `XfrmPod.CreatedPlanIs` | internal/controller/ipman_controller.go:1150-1166 | a new pod is created with no routes and then gets every one of its routes and entries |
| `XfrmPod.DoneIff` | internal/controller/actions.go:116-377 | an action succeeds iff creation meets no pod and everything else meets one, no remote route is removed at a known IP and no FDB entry touched at an unknown one |
| `XfrmPod.DoneIs` | internal/controller/actions.go:116-377 | what an action leaves: one more copy of the route or none, in a sorted list, or the one entry of the map, and nothing else of the pod |
| `XfrmEffect.RunRoutes` | internal/controller/actions.go:155-377 | executing route actions gives the three composed list and map results, or fails iff a remote removal was planned for a known IP or an FDB action for an unknown one |
| `XfrmEffect.RunsIff` | internal/controller/actions.go:189-214 | a pod's plan runs to its end iff a new pod needs no FDB entries, a kept pod with a known IP loses no remote route and one without keeps its FDB map |
| `XfrmEffect.ReachesIff` | internal/controller/ipman_controller.go:1222-1264 | a plan that ran to its end leaves the pod as desired iff no desired route of a kept pod was recorded more often than desired |
| `XfrmEffect.NothingPlannedIff` | internal/controller/ipman_controller.go:1240-1264 | nothing is planned for a pod iff it is as desired (or absent and not desired) |
| `XfrmEffect.StepCloser` | internal/controller/ipman_controller.go:991-993 | every executed action of a pod's plan decreases its distance, also between the removal and the creation of a replacement |
| `XfrmEffect.ActionFits` | internal/controller/ipman_controller.go:1222-1264 | the next action of a partly executed plan creates the pod iff it is absent, so none meets a missing pod or creates over a present one |
| `XfrmEffect.DistanceZeroIff` | internal/controller/ipman_controller.go:1168-1188 | distance zero is being as desired |
| `XfrmPlan.SortNames` | internal/controller/ipman_controller.go:432-436 | sorting pods sorts their names |
| `XfrmPlan.PipelineSearchable` | internal/controller/ipman_controller.go:453-458 | for every pod list, sorting and filtering by group give a list on which the binary search is exact |
| `XfrmPlan.PlanPod` | internal/controller/ipman_controller.go:1223-1264 | for each desired pod the right one of nothing, creation, replacement or route changes, looked up by name |
| `XfrmPlan.PlanDesired` | internal/controller/ipman_controller.go:1221-1265 | over all desired pods: each pod's actions are a plan for it and no other pod is touched |
| `XfrmPlan.PlanLeftovers` | internal/controller/ipman_controller.go:1267-1272 | one deletion for each current pod whose name the search does not find |
| `XfrmPlan.AllSame` | internal/controller/ipman_controller.go:1193-1213 | the shortcut only fires when nothing is to be planned for any pod |
| `XfrmPlan.DiffXfrms` | internal/controller/ipman_controller.go:1190-1275 | for every input with distinct names and every pod name, its actions are a plan for it, followed by a deletion iff the search misses a desired name |
| `XfrmPlan.RecreatedOrRerouted` | internal/controller/ipman_controller.go:1223-1264 | of a pod both desired and recorded: the actions are its deletion and creation iff a property or the node differs, spelled out, and otherwise exactly the route actions needed; followed by a deletion iff the search misses its name |
| `XfrmPlan.SearchedPlan` | internal/controller/ipman_controller.go:1199-1213 | on sorted lists, and on any lists of equal length, no desired pod is deleted: the result is a plan for every pod |
| `XfrmPlan.ReturnsPlanIff` | internal/controller/ipman_controller.go:1190-1275 | the result is a plan for every pod iff the search finds every pod both desired and recorded |
| `XfrmPlan.SearchableIff` | internal/controller/ipman_controller.go:1267-1272 | whatever is recorded the search misses no desired pod, and so none is deleted, iff the desired pods are sorted by name |
| `XfrmPlan.UnsortedDeletesDesired` | internal/controller/ipman_controller.go:1267-1272 | such a list: a desired pod is planned for and then deleted |
| `XfrmRun.Executor.Perform` | internal/controller/actions.go:116-377 | the Do methods on the recorded pods: success or failure and the whole new state |
| `XfrmRun.Executor.Execute` | internal/controller/ipman_controller.go:1538-1551 | the execution loop runs the longest prefix that does not fail |
| `XfrmRun.Project` | internal/controller/ipman_controller.go:1538-1551 | executing a plan is executing on each pod by itself the actions on it |
| `XfrmRun.RunsToEndIff` | internal/controller/ipman_controller.go:1190-1275 | the plan runs to its end iff every pod's does |
| `XfrmRun.ReachesDesiredIff` | internal/controller/ipman_controller.go:1190-1275 | afterwards exactly the desired pods are recorded, each with the node and every property desired, route multisets and FDB map, iff no desired route of a kept pod was recorded more often than desired |
| `XfrmRun.EmptyPlanIff` | internal/controller/ipman_controller.go:1213-1275 | the plan is empty iff names, each property, nodes, route multisets and FDB maps all match |
| `XfrmRun.EveryStep` | internal/controller/ipman_controller.go:1538-1551 | the last executed action brought its pod closer and touched no other |
| `XfrmRun.ActionsFit` | internal/controller/ipman_controller.go:1190-1275 | no action of a partly executed plan targets an absent pod or creates over an existing one |
| `XfrmRun.StaysTidy` | internal/controller/ipman_controller.go:1538-1551 | after any executed part of a plan names and duplicate-freedom are intact |
| `XfrmRun.ReplanReaches` | internal/controller/ipman_controller.go:1538-1551 | failure tolerance: leave a plan after any action, plan again, and what is desired is reached; the total distance dropped with the executed action |
| `XfrmRun.TotalZeroIff` | internal/controller/ipman_controller.go:1168-1188 | total distance zero is being as desired |
| `XfrmPasses.ReconcileXfrms` | internal/controller/ipman_controller.go:1515-1551 | planning from a listing and executing is one pass |
| `XfrmPasses.EarlyEnd` | internal/controller/actions.go:330-332 | a pass that ends early, with no pod that has to lose a remote route at a known IP, came to a kept pod without an IP whose FDB map has to change, or got a pod with FDB entries created |
| `XfrmPasses.PassesSettleIff` | internal/controller/ipman_controller.go:1457-1561 | with IPs assigned between passes: from any pass that finds every pod with its IP, what is desired is reached, properties and nodes included, iff no kept pod has to lose a remote route then, at most one such pass after every pod with FDB entries got created; otherwise never |
| `Cluster.JoinPlans` | internal/controller/ipman_controller.go:1375-1403 | plans for disjoint pod names concatenate to a plan for all of them |
| `Cluster.ImmutableIsPlan` | internal/controller/ipman_controller.go:852-870 | charon and restctl pods are created, deleted, replaced when name or node differ, and otherwise left |
| `Cluster.DiffProxy` | internal/controller/ipman_controller.go:872-973 | the restctl plan; every creation is directly followed by a configuration override; a running pod gets one iff a connection is newly missing or one too many is loaded; every override goes to this pod and carries the names of exactly the connections of its group, in the order they are listed; it fails iff the pod cannot be asked |
| `Cluster.NamesInIs` | internal/controller/ipman_controller.go:880-887 | the connections of a group: ascending places in the list that hit exactly those whose group it is, read in order |
| `Cluster.DiffGroup` | internal/controller/ipman_controller.go:1380-1402 | a group's plan is a plan for all its pods: the equality shortcuts hide no pod action; only its own restctl pod is loaded, with the connections of its own group |
| `ClusterPlan.DeleteNode` | internal/controller/ipman_controller.go:1348-1361 | every pod of a removed group is deleted |
| `ClusterPlan.DiffStates` | internal/controller/ipman_controller.go:1364-1415 | the plan of the cluster: group after group, the shared ones in desired order and then the removed ones, a plan for that group's pods; restctl creations are followed by overrides, no override goes to a pod that is neither kept nor just created, and each carries exactly the connections of that pod's own group |
| `ClusterPlan.OrderAscends` | internal/controller/ipman_controller.go:1375-1412 | the order in which groups are dealt with: shared groups as desired lists them, removed ones last |
| `ClusterRun.PlannedAtHome` | internal/controller/ipman_controller.go:1375-1412 | what is planned for a pod that stays in its group, comes or goes: a plan from what is recorded of it to what is desired |
| `ClusterRun.PlannedMove` | internal/controller/ipman_controller.go:1375-1412 | what is planned for a pod recorded in one group and desired in another: its deletion and a creation, the deletion first iff the group it leaves is still desired and comes earlier |
| `ClusterRun.ClusterRunsIff` | internal/controller/ipman_controller.go:1538-1551 | the plan runs to its end iff every pod that moves leaves an earlier group that is still desired and needs no FDB entries, every other pod's plan runs, and no pod is desired under the name of a recorded one of no group; no override meets a missing pod |
| `ClusterRun.ExecutesIff` | internal/controller/actions.go:384-389 | for any actions in any state: execution runs to its end iff its pod actions do and every pod to be loaded is there where it comes to it |
| `ClusterRun.OrphanStays` | internal/controller/ipman_controller.go:412-428 | a recorded pod of no group there is is left as it was by whatever part of the plan is executed |
| `ClusterRun.GoneGroupBlocks` | internal/controller/ipman_controller.go:372-428 | a pod whose CharonGroup object is gone and that is desired in another group: its creation fails in every pass |
| `ClusterRun.ClusterReached` | internal/controller/ipman_controller.go:1364-1415 | executed to its end, moved pods included, it leaves every pod desired of a shared group as desired, every recorded pod of no group as it was, and no other pod: removed groups keep none, new groups get none yet |
| `ClusterRun.MoveAgainstOrderStays` | internal/controller/ipman_controller.go:1404-1412 | a pod that moves against the order is left as recorded by whatever part of the plan is executed, so the next pass meets the same move |
| `ClusterRun.SortedOrderIff` | internal/controller/ipman_controller.go:758-760 | with groups sorted by name, as they are planned: a pod moves in order iff the group it leaves is still desired and its name sorts before the other's |
| `ClusterPasses.ReconcileCluster` | internal/controller/ipman_controller.go:1515-1551 | planning from a listing and executing action by action is one pass over the whole cluster; nothing is done when a restctl pod does not answer |
| `ClusterPasses.NamePlanned` | internal/controller/ipman_controller.go:1364-1415 | what a pass has for a pod, by its recorded group, the groups there are and what is desired: a plan in place, a deletion before a creation, a creation over it, or nothing |
| `ClusterPasses.EarlyEnd` | internal/controller/actions.go:330-332 | a pass over known IPs that ends early with no pod misplaced or jammed got a pod with FDB entries created in its place |
| `ClusterPasses.ClusterSettlesIff` | internal/controller/ipman_controller.go:1457-1561 | repeated passes over all groups, with IPs assigned in between: from any pass that finds every pod with its IP, everything desired is reached in its group, with the node and every property desired, iff no pod then moves against the order, is desired under the name of one whose group is gone, or has to lose a remote route in its place; at most one such pass after every queued pod with FDB entries got created; otherwise never |
| `Bookkeeping.DeleteInPlace` | internal/controller/ipman_controller.go:925-927 | a deletion with its result dropped: the other names move up in order and the tail turns blank |
| `Bookkeeping.SweepStale` | internal/controller/ipman_controller.go:921-929 | ranging over the array while it is deleted from: what the sweep leaves, then blanks |
| `Bookkeeping.Reconciler.TrackConns` | internal/controller/ipman_controller.go:915-936 | the record after a check: new names appended, one sweep, blanks dropped; no duplicates |
| `Bookkeeping.WithNewIs` | internal/controller/ipman_controller.go:915-919 | what is appended: the names not recorded yet, each at its first place, in order |
| `Bookkeeping.SweepKeeps` | internal/controller/ipman_controller.go:921-936 | a sweep keeps every live name in order, invents none and keeps distinctness |
| `Bookkeeping.SweepHalves` | internal/controller/ipman_controller.go:921-936 | a sweep removes at least half of the stale names |
| `Bookkeeping.SweepsReachLive` | internal/controller/ipman_controller.go:921-936 | with fewer than 2^n stale names, n sweeps leave exactly the live ones |
| `Bookkeeping.OneSweepEnoughIff` | internal/controller/ipman_controller.go:921-936 | one sweep is enough iff no two stale names are neighbours |
| `Bookkeeping.TrackingReachesLive` | internal/controller/ipman_controller.go:915-936 | repeated checks with the same connections record exactly those |
| `Bookkeeping.Reconciler.CheckLoaded` | internal/controller/ipman_controller.go:938-972 | after a check the missing connections are noted exactly; an override is due iff one is newly missing or one too many is loaded |
| `Bookkeeping.TriggersOnEdge` | internal/controller/ipman_controller.go:940-956 | over any run of checks a missing connection triggers an override iff between any earlier miss and now a check saw it loaded |
| `Health.StoredStatus.Downgrade` | cmd/restctl/main.go:735-758 | the writes of one failure report |
| `Health.DownStays` | cmd/restctl/main.go:744-745 | a report on a whole connection makes it Down, with its children as recorded, and it stays so through further such reports and edits of the spec, until a child is reported or restarted or an update is taken |
| `Health.ReportIs` | cmd/restctl/main.go:746-752 | a report on a child makes the connection Degraded, also a Down one, and records that child down and no other differently |
| `Health.StoredStatus.RestartChild` | internal/controller/actions.go:586-590 | the writes after a child restart; without a stored map it fails and changes nothing |
| `Health.StoredStatus.AssumeUp` | internal/controller/actions.go:603-617 | the optimistic update of every child of the spec |
| `Health.RunConsistent` | cmd/restctl/main.go:735-758 | over any run of reports, restarts and updates with a fixed spec: UP means no recorded child is down and Degraded means one is |
| `Health.AllHonestIff` | internal/controller/actions.go:603-617 | over any run with edits of the spec too: every state has UP mean no recorded child is down and Degraded mean one is, iff no optimistic update is taken while a child outside the spec of that moment is recorded down |
| `Health.StaleChildHidden` | internal/controller/actions.go:611-617 | such a run: a child fails, leaves the spec, and the update reports UP with it recorded down |
| `Health.OnePassHealsIff` | internal/controller/ipman_controller.go:1295-1337 | from a reachable status one pass of successful actions leaves all up and an empty next plan, iff the status is curable: the connection has children and is not Down with a recorded child other than the first by name down or missing |
| `Health.PassesHealIff` | internal/controller/ipman_controller.go:1295-1337 | from a reachable status, two or more passes of successful actions, in any orders, leave a connection healthy with an empty next plan iff it has children and is not Down with a child other than the first by name recorded down; otherwise no number of passes does |
| `Health.DownStuck` | internal/controller/ipman_controller.go:1319-1328 | a Down connection with another child down stays Down with another child down through any number of passes |
| `Health.PlansNothingIff` | internal/controller/ipman_controller.go:1309-1336 | nothing is planned for a reachable status iff the connection is healthy |
| `Health.DiffIPSecs` | internal/controller/ipman_controller.go:1295-1337 | the plan over all connections is the concatenation of each one's, leaving out those without a custom resource; which actions are in it is said in `Health.RestartPlannedIff` and `Health.UpdatePlannedIff` |
| `Health.RestartPlannedIff` | internal/controller/ipman_controller.go:1319-1334 | for every connection and child: a restart is planned iff the connection is desired and recorded and, if it is Down, the child is the first of its desired children by name, and otherwise the state is known and the desired child recorded with a value other than UP |
| `Health.UpdatePlannedIff` | internal/controller/ipman_controller.go:1316-1332 | an optimistic update is planned iff the connection is desired and recorded and its state is unknown, its children were never recorded, or it is not Down and a desired child is not recorded |
| `Health.RestartedOnce` | internal/controller/ipman_controller.go:1308-1337 | no child is restarted twice in one plan, and none of a connection that is not desired |
| `Health.PassHealsEach` | internal/controller/ipman_controller.go:1295-1337 | one pass over all connections heals exactly the curable ones among them |
| `Health.FailedPassHeals` | internal/controller/ipman_controller.go:1538-1551 | a pass that ends at a failing action, a restart among them, heals exactly the curable connections planned before and leaves those planned after as they were |
| `Health.Starved` | internal/controller/ipman_controller.go:1538-1551 | as long as every pass ends at a failing action before a connection is reached, nothing is done for it, however many passes there are |
| `SwanStatus.ConnectionCollector.VisitAST` | pkg/swanparse/visitor.go:25-42 | the collected map holds exactly the listed connections and the children shown anywhere inside each, over repeated connections and nested blocks |
| `SwanStatus.ConnectionCollector.VisitBlock` | pkg/swanparse/visitor.go:76-109 | one block adds the children it shows and those nested in it, to its connection only |
| `SwanStatus.ShownBodyIff` | pkg/swanparse/visitor.go:60-109 | what the recursion gathers is what some block at any depth shows |
| `SwanStatus.StrongSwanVisitor.VisitAST` | cmd/restctl/visitor.go:29-46 | the missing connections and children are exactly the configured ones not collected |
| `SwanStatus.StrongSwanVisitor.VisitBlock` | cmd/restctl/visitor.go:81-108 | one block notes exactly its absent children and those nested in it |
| `SwanStatus.ListFailures` | cmd/restctl/main.go:568-589 | children of wholly missing connections are filtered out, everything else is reported |
| `SwanStatus.CheckStatus` | cmd/restctl/main.go:560-592 | for all pairs of listings: a connection is reported iff configured without an SA, a child iff its connection has an SA, it is configured and no block shows it |
| `SwanStatus.FailedIff` | cmd/restctl/main.go:560-592 | what is reported, by the blocks of the listings: a connection listed and not established, or of an established one a child that a children block at any depth lists and no children block of its SAs lists nor an inner block of a child-sas block names first |
| `SwanStatus.EstablishedNotReported` | pkg/swanparse/visitor.go:76-92 | a child named k by an inner block of a child-sas block, wherever in the SAs of its connection that is, is never reported |
| `SwanStatus.MoreSasFewerReports` | cmd/restctl/main.go:560-592 | further SAs add no report on a connection that has one |
| `SwanStatus.SelfCheckClean` | cmd/restctl/main.go:560-592 | a listing checked against itself reports nothing |
| `Reload.Daemon.UnloadUnwanted` | cmd/restctl/main.go:381-394 | exactly the connections no configuration names are unloaded, those that refuse staying; none without a configuration |
| `Reload.Daemon.LoadConfigs` | cmd/restctl/main.go:400-455 | what is loaded, what is listed as failed, and the status |
| `Reload.Daemon.ReloadConfig` | cmd/restctl/main.go:319-455 | the whole request: a missing list changes nothing and is refused |
| `Reload.LoadedIs` | cmd/restctl/main.go:381-428 | what is loaded afterwards: of every name the last configuration that could be translated, if secret and connection are taken; and of what was loaded, everything a configuration names or that refuses to go, or all of it without configurations |
| `Reload.AnswerIs` | cmd/restctl/main.go:400-455 | 200 iff every configuration was translated, no secret refused, and none refused to load except over an older one of its name; the lists name exactly the refused secrets and the refused connections of which nothing is loaded |
| `Reload.OnlyWantedIff` | cmd/restctl/main.go:381-394 | afterwards every loaded connection is named by a configuration iff every other one could be unloaded and there was a configuration |
| `Reload.Accounted` | cmd/restctl/main.go:400-455 | every configuration is loaded or makes the answer a refusal that names it or carries an error |
| `Reload.SuccessIsCurrentIff` | cmd/restctl/main.go:428-453 | an answer of 200 means everything is loaded as requested iff no refused configuration left a different older one of its name loaded |
| `Reload.StaleUnreported` | cmd/restctl/main.go:438-442 | such a failure is answered with 200 |

## Left out

- Netlink, namespaces and bridge calls, and what is installed in the kernel: the planner's results are about the recorded annotation.
- HTTP transport, JSON, admission responses and patches, the lease, and the Kubernetes client and cache, beyond versioned reads and commits and listings.
- The `swanctl` grammar: the detector starts from the parsed listing. `Prometheus` metrics, pod and job specs, `translate`, `SerializeToConf` and `HashSum` are field copying.
- Waiting for pods and jobs: a pod that does not become ready in time is a failed action.
- `validateIPSecConnectionCreation` and the deletion of whole connections, which only add checks of the same kind as the update's.
- The pod monitor and the health actions inside the cluster plan: `diffIPSecs` is modelled in `Health` by itself, and neither changes pods.
- Namespaces of groups: a group is identified by one reference (`FindPod` compares a namespace with itself).
- Slices are values: that sorting inside `diffRoutes` and `diffXfrms` also reorders the caller's slices is not modelled, and absent and empty slices are the same (neither yields an action).
- Routes.ListOps: states how often each operation is planned for a list, not in which order; what executing them reaches does not depend on it (`Routes.ReachedIff`).
- `diff.Diff` is not part of the repository: `Routes.DiffLists` and `Routes.DiffMaps` are written from its documented behaviour on slices of strings and maps of strings.
- ClusterPlan.DiffStates: a group's restctl pod that does not answer fails the whole plan, as in the source; that an earlier group's bookkeeping was already updated by then is in the contract of `Cluster.DiffProxy` only.
- XfrmPasses.PassesSettleIff: a kept pod without an IP may lose a remote route in one pass and not in the next, when its IP is known; the result starts at a pass that finds every pod with its IP, and which passes do is up to the cluster. An IP assigned during a pass counts from the next one on.
- ClusterPasses.ClusterSettlesIff: a pass that cannot be planned because a restctl pod does not answer does nothing (`ClusterPasses.ReconcileCluster`) and is not one of the passes counted; passes end only at actions that fail for the reasons modelled.
- Health.PassesHealIff: the actions of the passes are taken to succeed; what a failing one leaves is in `Health.FailedPassHeals`.
- AllocatorProtocol.NoDoubleAllocation: is about pods of one connection and child, as the hypotheses are.
