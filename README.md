# Distance-heuristic cache, route permutation and path diversity

A Dafny model of five pieces of a Core Lightning fork.

- **gossipd's priority queue** is a binary min-heap of (priority, item) entries.
- **The distance-heuristic cache (`dhcache`)** keeps two 32-bit slots per node.
  - Each slot holds a "visited" bit and a 31-bit distance to the local node.
  - A reader uses the slot last published; a writer fills the other one.
  - Readers turn those distances into an A* heuristic for routing towards a goal.
- **The cache refresher** recomputes every node's distance by a Dijkstra-like sweep over the channel graph.
  - It works in bursts of 16 steps.
  - It sleeps between bursts, and publishes the result by flipping the cache.
- **The `permuteroute` command of the `routetricks` plugin** repairs a route around a failing channel or node.
  - It splices in two hops through a node that neither the route nor the exclusions use.
  - It then raises the amounts and delays of the hops before the splice.
- **The path-diversity payment modifier** hands each payment a route that differs from those of earlier payments to the same destination.
  - It explores a tree of channel exclusions breadth first.
  - It uses a route cache to skip routes it has already produced.
  - It runs one payment per destination at a time.

Files and modules:

| file | modules | contents |
|---|---|---|
| `common.dfy` | `Wrappers`, `MachineInts` | Option/Result, and the `u32`/`u64` ranges with wrapping additions |
| `routing.dfy` | `Routing` | The routing state the cache lives in: node slots and outgoing channels |
| `route.dfy` | `Route` | Route hops as the plugins see them |
| `priority_queue.dfy` | `PriorityQueue` | The heap as a class over a sequence field, with the two sift loops |
| `dhcache.dfy` | `DistanceCache` | The slot encoding, reader, writer and the `DhCache` flip object |
| `sweep.dfy` | `Costing`, `Sweep` | The sweep as functions, its invariants, and the theorem that a finished sweep leaves exact shortest distances |
| `refresher.dfy` | `Refresher` | The refresh process and the refresher as classes, proved against the `Sweep` functions |
| `permuteroute.dfy` | `PermuteRoute` | The command as functions, plus the command object's loops proved against them |
| `pathdiversity.dfy` | `PathDiversity` | Tree edges, the edge queue, the route cache, exclusion discovery and one `getroute` attempt |
| `pathdiversity_queues.dfy` | `PaymentQueues` | The per-destination payment lists |

## Model

| member | source | states |
|---|---|---|
| PriorityQueue.Parent | gossipd/priority_queue.c:52-53 | the parent index `(i-1)/2` is below `i`, and `i` is one of its two children |
| PriorityQueue.RootIsMinimum | gossipd/priority_queue.c:67-84 | in a heap, the entry at index 0 has the least priority |
| PriorityQueue.SwapKeepsEntries | gossipd/priority_queue.c:57-59 | swapping two entries keeps the multiset of entries |
| PriorityQueue.RiseStep | gossipd/priority_queue.c:49-63 | swapping an entry with a parent of higher priority moves the only heap violation up to the parent |
| PriorityQueue.SiftUp | gossipd/priority_queue.c:49-63 | the upsift loop turns a heap with one new last entry into a heap with the same entries |
| PriorityQueue.SinkStep | gossipd/priority_queue.c:91-120 | swapping an entry with its smaller child moves the only heap violation down to the child |
| PriorityQueue.LastToRoot | gossipd/priority_queue.c:85-89 | moving the last entry to the root and dropping the last slot removes exactly the old root, and the heap is violated only at the root |
| PriorityQueue.SiftDown | gossipd/priority_queue.c:91-120 | the downsink loop turns a sequence violated only at its root into a heap with the same entries |
| PriorityQueue.PriorityQueue.constructor | gossipd/priority_queue.c:26-31 | a new queue is an empty heap |
| PriorityQueue.PriorityQueue.Add | gossipd/priority_queue.c:34-64 | adding keeps the heap and adds exactly one entry with the given priority and item |
| PriorityQueue.PriorityQueue.GetMin | gossipd/priority_queue.c:67-123 | an empty queue gives None; otherwise it returns an item of least priority, removes exactly that entry and keeps the heap |
| DistanceCache.MaskBridge | gossipd/dhcache.h:134-147 | on every 32-bit word, `DistanceBits` is `& DHCACHE_DISTANCE_MASK` and `VisitedBit` is `& DHCACHE_VISITED_MASK` being nonzero |
| DistanceCache.Pack | gossipd/dhcache.h:134-157 | packing a visited bit and a 31-bit distance gives a slot that unpacks to exactly that bit and distance |
| DistanceCache.PackOfBits | gossipd/dhcache.h:134-157 | every 32-bit slot is the packing of its own visited bit and distance |
| DistanceCache.NodeInit | gossipd/dhcache.h:176-181 | a new node's two slots are `0xFFFFFFFF`: visited, at the maximum distance |
| DistanceCache.InitNode | gossipd/dhcache.h:176-181 | only that node's slots change, to the initial value |
| DistanceCache.ReaderDistance | gossipd/dhcache.h:240-252 | the heuristic is the absolute difference between the node's and the goal's distances, and is 0 for a node as far as the goal |
| DistanceCache.HeuristicAtLandmark | gossipd/dhcache.h:240-252 | with the local node as goal (distance 0) the heuristic is the node's distance itself |
| DistanceCache.WriterGetDistance | gossipd/dhcache.h:328-334 | the writer reads at most the maximum distance, namely the low 31 bits of its own slot |
| DistanceCache.MarkedVisited | gossipd/dhcache.h:315-320 | marking sets the writer's visited bit, keeps its distance and leaves the reader's slot alone |
| DistanceCache.WriterMarkVisited | gossipd/dhcache.h:315-320 | only the one node's writer slot changes, as `MarkedVisited` |
| DistanceCache.DistanceSet | gossipd/dhcache.h:346-358 | setting stores the distance, keeps the visited bit and leaves the reader's slot alone |
| DistanceCache.WriterSetDistance | gossipd/dhcache.h:346-358 | only the one node's writer slot changes, as `DistanceSet` |
| DistanceCache.ClearedSlotsAreUnvisited | gossipd/dhcache.c:45-56 | after clearing, every node's writer slot is unvisited at the maximum distance, and its reader slot is unchanged |
| DistanceCache.WriterClearAllNodes | gossipd/dhcache.c:45-56 | the loop over all nodes leaves exactly the cleared slots, over the same nodes |
| DistanceCache.DhCache.constructor | gossipd/dhcache.c:8-16 | a new cache writes slot 0 and is not available |
| DistanceCache.DhCache.Flip | gossipd/dhcache.c:23-27 | flipping swaps the writer's slot and makes the cache available |
| DistanceCache.DhCache.ReaderInit | gossipd/dhcache.c:29-37 | a reader uses the slot the writer does not, and its goal distance is the goal's distance in that slot |
| DistanceCache.DhCache.WriterInit | gossipd/dhcache.c:39-43 | a writer uses the cache's writer slot |
| DistanceCache.ReaderUnaffectedByWriter | gossipd/dhcache.c:29-43 | reader and writer of one cache use different slots, so a writer's marking or setting never changes what a reader sees |
| Sweep.SatOfSat | gossipd/dhcache_refresher.c:328-331 | capping at the maximum distance before adding a cost gives the same result as capping after |
| Sweep.Candidate | gossipd/dhcache_refresher.c:328-331 | the candidate distance is the node's distance plus the channel cost, capped at the maximum distance; it is never below the node's distance |
| Sweep.CandidateAsWritten | gossipd/dhcache_refresher.c:328-331 | the 64-bit sum as written agrees with `Candidate` whenever it does not overflow |
| Sweep.CandidateAsWrittenWraps | gossipd/dhcache_refresher.c:328-331 | distance 1 plus cost `2^64-1` wraps to a candidate of 0, where the capped candidate is the maximum distance |
| Sweep.WalkExtend | gossipd/dhcache_refresher.c:320-326 | following a channel from a walk's end gives a walk that ends at the channel's peer and costs that channel's cost more |
| Sweep.WalkTruncate | gossipd/dhcache_refresher.c:320-326 | dropping a walk's last hop gives a walk ending where that hop starts |
| Sweep.RelaxChannel | gossipd/dhcache_refresher.c:333-341 | relaxing one channel keeps the set of nodes |
| Sweep.RelaxChannels | gossipd/dhcache_refresher.c:320-343 | relaxing a node's channels keeps the set of nodes |
| Sweep.RelaxChannelsSnoc | gossipd/dhcache_refresher.c:320-343 | relaxing one more channel extends the relaxation of the channels before it |
| Sweep.RelaxChannelsMonotone | gossipd/dhcache_refresher.c:333-341 | relaxation never unvisits a node and never raises a distance |
| Sweep.RelaxChannelsRelaxesAll | gossipd/dhcache_refresher.c:320-343 | after the loop, every peer is visited at most at its candidate distance through that node |
| Sweep.RelaxChannelsPushesChanges | gossipd/dhcache_refresher.c:333-341 | every queued entry is a visited node at most at the queued priority, and a node that was not queued keeps its slot |
| Sweep.SeedingStartsSweep | gossipd/dhcache_refresher.c:246-276 | clearing all slots and seeding the local node at distance 0 with one queue entry establishes the sweep invariant |
| Sweep.QueuedAfterRemoval | gossipd/dhcache_refresher.c:299-302 | removing an entry that is not the node's own keeps the node queued |
| Sweep.QueuedAfterAddition | gossipd/dhcache_refresher.c:338-340 | adding an entry keeps every queued node queued |
| Sweep.PopStartsRelaxing | gossipd/dhcache_refresher.c:299-318 | popping a queue entry of a visited node puts the sweep in the relaxing state for that node at its distance, from channel 0 |
| Sweep.RelaxKeepsWhenNotImproving | gossipd/dhcache_refresher.c:333-336 | a channel whose peer is visited and no farther than the candidate keeps the relaxing state, one channel further |
| Sweep.ImprovingKeepsWitnessed | gossipd/dhcache_refresher.c:333-341 | an improved peer gets a walk whose capped cost is its new distance |
| Sweep.ImprovingKeepsClosed | gossipd/dhcache_refresher.c:333-341 | improving a peer keeps every other node closed, and leaves the peer queued |
| Sweep.RelaxChannelKeepsRelaxing | gossipd/dhcache_refresher.c:320-342 | relaxing channel k either way keeps the relaxing state at channel k+1 |
| Sweep.RelaxingDoneKeepsSweep | gossipd/dhcache_refresher.c:320-346 | once all of a node's channels are relaxed, the sweep invariant holds again |
| Sweep.WalkEndReached | gossipd/dhcache_refresher.c:283-347 | when the sweep is done, every walk from the local node ends at a visited node no farther than the walk's capped cost |
| Sweep.CompletedSweepIsExact | gossipd/dhcache_refresher.c:283-347 | when the queue is empty, a node is visited iff it is reachable from the local node, and then its distance is the least capped cost of a walk to it |
| Sweep.LandmarkHeuristicIsExact | gossipd/dhcache.h:240-252 | after an exact sweep, a reader with the local node as goal sees every reachable node as reachable, with the least capped walk cost as heuristic |
| Refresher.Process.constructor | gossipd/dhcache_refresher.c:185-219 | a new process starts at the init step with an empty queue |
| Refresher.Process.StepInit | gossipd/dhcache_refresher.c:246-276 | without the local node it fails and changes nothing; otherwise it clears and seeds the slots, queues the local node at 0, moves to the loop step and makes the process sound |
| Refresher.Process.StepLoop | gossipd/dhcache_refresher.c:283-347 | an empty queue completes; otherwise one entry is popped and a vanished node is skipped; a present node's channels are relaxed as `Sweep.RelaxChannels`; soundness is kept, and completion of a sound process leaves exact distances |
| Refresher.Process.RelaxChannelsOf | gossipd/dhcache_refresher.c:320-343 | the loop over a node's channels leaves the slots and pushes the entries of `Sweep.RelaxChannels`, and keeps the relaxing state through to the sweep invariant |
| Refresher.Process.RelaxNext | gossipd/dhcache_refresher.c:320-343 | one iteration extends the relaxed prefix of the node's channels by one channel |
| Refresher.Process.RelaxOne | gossipd/dhcache_refresher.c:321-342 | one channel changes the slots and the queue exactly as `Sweep.RelaxChannel` says |
| Refresher.Process.Step | gossipd/dhcache_refresher.c:133-134 | the step function dispatches on the current step; failure happens only at init, and soundness is kept |
| Refresher.Process.Burst | gossipd/dhcache_refresher.c:133-161 | at most 16 steps, and exactly 16 when it returns to continue; on completion the queue is empty and a sound process has exact distances |
| Refresher.Process.Bursts | gossipd/dhcache_refresher.c:125-179 | bursts run until the process fails or completes, or the clock says the working time is over; the number of steps is bounded by the number of clock checks |
| Refresher.Process.Destroy | gossipd/dhcache_refresher.c:88-96 | destroying a process empties its queue |
| Refresher.Refresher.constructor | gossipd/dhcache_refresher.c:376-408 | a new refresher has the default sample amount, risk factor and defer time, an unset coster, and no process, timer or deferral |
| Refresher.Refresher.SetSampleAmount | gossipd/dhcache_refresher.c:418-423 | only the sample amount changes |
| Refresher.Refresher.SetSampleRiskfactor | gossipd/dhcache_refresher.c:431-436 | only the risk factor changes |
| Refresher.Refresher.SetDeferTime | gossipd/dhcache_refresher.c:444-449 | only the defer time changes |
| Refresher.Refresher.DeferredTrigger | gossipd/dhcache_refresher.c:362-374 | a deferred refresh is armed only when no process is running; nothing else changes |
| Refresher.Refresher.InstallRefreshProcess | gossipd/dhcache_refresher.c:185-219 | installs a fresh process at init, with a writer on the cache and a coster frozen from the current sample settings, and schedules a reawakening |
| Refresher.Refresher.ImmediateTrigger | gossipd/dhcache_refresher.c:349-360 | cancels a deferral; installs a process only when none is running |
| Refresher.Refresher.DropFailedProcess | gossipd/dhcache_refresher.c:138-144 | a failed process is dropped and a deferred refresh is armed |
| Refresher.Refresher.PublishCompletedProcess | gossipd/dhcache_refresher.c:145-159 | a completed process flips the cache, hands its coster to the refresher, is dropped and counts as one refresh |
| Refresher.Refresher.Reawaken | gossipd/dhcache_refresher.c:111-180 | a wakeup sleeps, drops a failed process or publishes a completed one; on publication of a sound process the newly readable slots hold exact distances |
| Refresher.Refresher.CosterInit | gossipd/dhcache_refresher.c:452-465 | requires, as the source asserts, an available cache and a coster that is not the unset one; returns the refresher's coster |
| PermuteRoute.Locate | plugins/routetricks/permuteroute.c:214-250 | rejects an empty route, a node failure at index 0 and an index past the end; otherwise the replaced hops are the failing hop, or the two hops around the failing node, and the break records the source and destination hop data |
| PermuteRoute.KeptSource | plugins/routetricks/permuteroute.c:439-471 | the kept source channels are exactly the listed ones that leave the source, carry the amount and avoid excluded nodes and half-channels |
| PermuteRoute.FirstMatch | plugins/routetricks/permuteroute.c:587-592 | the first kept source channel reaching the node, or none of them reaches it |
| PermuteRoute.FindSplice | plugins/routetricks/permuteroute.c:554-601 | a splice is a usable destination channel and a kept source channel meeting at a node; none is found iff no such pair exists |
| PermuteRoute.AddFee | plugins/routetricks/permuteroute.c:656-663 | fails iff the proportional product or the sum overflows 64 bits; otherwise adds the base fee plus amount times rate over a million |
| PermuteRoute.BaseFeeArgument | plugins/routetricks/permuteroute.c:656-663 | the base fee is passed as a 32-bit value, unchanged when it fits |
| PermuteRoute.SpliceOf | plugins/routetricks/permuteroute.c:641-747 | fails iff a fee overflows or the intermediate node has vanished, with `FeeOverflow` for a fee and `NodeDisappeared` when both fees fit; otherwise the second new hop carries the destination hop's amount, delay and style, and each earlier amount and delay adds its channel's fee and delay |
| PermuteRoute.AmountDelta | plugins/routetricks/permuteroute.c:787-792 | the least increase of the last prefix amount that reaches the amount the splice needs |
| PermuteRoute.DelayDelta | plugins/routetricks/permuteroute.c:793-796 | the least increase of the last prefix delay that reaches the delay the splice needs |
| PermuteRoute.Bumped | plugins/routetricks/permuteroute.c:806-831 | the adjusted prefix has one hop per original hop |
| PermuteRoute.CompletedPrefixDelivers | plugins/routetricks/permuteroute.c:763-834 | the completed prefix keeps channels, nodes and styles, never lowers an amount, keeps every hop's margin over the next, and delivers the amount and delay the splice needs |
| PermuteRoute.AdjustPrefix | plugins/routetricks/permuteroute.c:806-831 | the in-place loop over the prefix array succeeds iff no amount overflows, and then leaves exactly `Bumped` |
| PermuteRoute.Complete | plugins/routetricks/permuteroute.c:763-834 | `prc_complete` computes `CompletedPrefix` |
| PermuteRoute.PermutedParts | plugins/routetricks/permuteroute.c:170-870 | a successful command is a located break, a kept source channel and a usable destination channel meeting at a node, a splice, and a completed prefix, concatenated in that order |
| PermuteRoute.PermutedIsDetour | plugins/routetricks/permuteroute.c:170-870 | a returned route keeps the prefix's channels and nodes at no lower amounts, reaches the failing hop's destination with that hop's amount and delay, never pays less than the next hop, and keeps the rest of the route |
| PermuteRoute.PermutedAvoidsExcluded | plugins/routetricks/permuteroute.c:170-870 | the new intermediate node is off the route, is not the start node or an excluded node, is reached over a listed source channel, and neither new hop uses an excluded half-channel |
| PermuteRoute.Command.constructor | plugins/routetricks/permuteroute.c:170-212 | a new command holds the request's exclusions and no source channels |
| PermuteRoute.Command.ExcludeRoute | plugins/routetricks/permuteroute.c:252-263 | every node of the route and the start node are added to the excluded nodes |
| PermuteRoute.Command.IsExcludedChan | plugins/routetricks/permuteroute.c:288-299 | true iff the half-channel is excluded |
| PermuteRoute.Command.IsExcludedNode | plugins/routetricks/permuteroute.c:300-309 | true iff the node is excluded |
| PermuteRoute.Command.FilterSourceChannels | plugins/routetricks/permuteroute.c:439-482 | stores exactly `KeptSource`, and reports whether any channel is left |
| PermuteRoute.Command.CheckDestinationChannels | plugins/routetricks/permuteroute.c:554-601 | the loop over the destination listing finds exactly `FindSplice` |
| PermuteRoute.Command.SourceReaching | plugins/routetricks/permuteroute.c:587-592 | the scan of the kept source channels finds exactly `FirstMatch` |
| PermuteRoute.Command.Run | plugins/routetricks/permuteroute.c:170-870 | the whole command computes `Permuted` over the request's exclusions |
| Route.NodesOf | plugins/routetricks/permuteroute.c:261-262 | the node ids of a route, hop by hop |
| PathDiversity.Chain | plugins/libplugin-pathdiversity.c:190-197 | an edge's chain starts with the edge itself |
| PathDiversity.ScidsTo | plugins/libplugin-pathdiversity.c:476-504 | a channel id is kept iff a listed channel with that id reaches the destination |
| PathDiversity.ExclusionsOfChain | plugins/libplugin-pathdiversity.c:412-511 | a channel is excluded iff it joins the two nodes of the edge or of one of its ancestors |
| PathDiversity.ChannelsTo | plugins/libplugin-pathdiversity.c:476-504 | the loop over a `listchannels` answer keeps exactly `ScidsTo` |
| PathDiversity.GetExclusions | plugins/libplugin-pathdiversity.c:412-511 | the request-and-callback chain collects exactly `Exclusions` |
| PathDiversity.BothDirections | plugins/libplugin-pathdiversity.c:623-637 | both directions of exactly the given channels are banned |
| PathDiversity.BannedIffOnChain | plugins/libplugin-pathdiversity.c:605-646 | a half-channel is banned iff its channel joins the two nodes of the edge or of an ancestor |
| PathDiversity.EdgeQueue.constructor | plugins/libplugin-pathdiversity.c:231-239 | a new queue is empty |
| PathDiversity.EdgeQueue.Push | plugins/libplugin-pathdiversity.c:241-248 | the edge goes to the back |
| PathDiversity.EdgeQueue.Pop | plugins/libplugin-pathdiversity.c:250-259 | an empty queue gives None; otherwise the front edge is removed and returned |
| PathDiversity.EdgeQueue.Clear | plugins/libplugin-pathdiversity.c:261-268 | the queue becomes empty |
| PathDiversity.RouteEdges | plugins/libplugin-pathdiversity.c:749-760 | one edge per hop: from the local node to the first hop, then hop to hop, each with the tried edge as parent |
| PathDiversity.PushRouteEdges | plugins/libplugin-pathdiversity.c:749-760 | the loop appends exactly `RouteEdges` to the queue |
| PathDiversity.RouteCache.constructor | plugins/libplugin-pathdiversity.c:279-285 | a new cache is empty |
| PathDiversity.RouteCache.LookupOrInsert | plugins/libplugin-pathdiversity.c:288-326 | inserts iff the route's node sequence is not cached, and appends it then; afterwards it is cached |
| PathDiversity.RouteCache.Clear | plugins/libplugin-pathdiversity.c:328-332 | the cache becomes empty |
| PathDiversity.SameNodes | plugins/libplugin-pathdiversity.c:305-315 | the size check and the inner scan report whether the cached nodes are exactly the route's |
| PathDiversity.CopyNodeIds | plugins/libplugin-pathdiversity.c:319-323 | the copied array is the route's node ids |
| PathDiversity.CheckConstraints | plugins/libplugin-pathdiversity.c:701-720 | a route that pays less than the amount aborts; otherwise the fee is the excess of the first hop, and the route is within budget iff the fee and the first delay are within their budgets, the fee being checked first |
| PathDiversity.Attempt.constructor | plugins/libplugin-pathdiversity.c:555-568 | a new attempt starts at the tree root |
| PathDiversity.Attempt.Step | plugins/libplugin-pathdiversity.c:575-646 | takes the next edge from the queue, or restarts at the root and clears the cache; the exclusions are the payment's own plus both directions of the chain's channels |
| PathDiversity.Attempt.Failed | plugins/libplugin-pathdiversity.c:649-692 | a failure at the root fails the payment, and anywhere else retries |
| PathDiversity.Attempt.GotRoute | plugins/libplugin-pathdiversity.c:723-818 | a cached route retries unchanged; a new one is cached and its edges queued; over budget it fails at the root and otherwise empties the queue and retries; at the root with an empty cache it never retries |
| PaymentQueues.Without | plugins/libplugin-pathdiversity.c:943-944 | removing a payment keeps the others, in order and distinct |
| PaymentQueues.ForDestination | plugins/libplugin-pathdiversity.c:966-1002 | the payments bound for a destination, in order |
| PaymentQueues.Distributed | plugins/libplugin-pathdiversity.c:958-963 | handing payments to their destinations keeps every existing list |
| PaymentQueues.DistributedGet | plugins/libplugin-pathdiversity.c:958-963 | each destination's list grows by exactly the handed payments bound for it, in order |
| PaymentQueues.ReadyPrefix | plugins/libplugin-pathdiversity.c:958-960 | the loop stops at the first payment that should not start yet |
| PaymentQueues.Scheduler.constructor | plugins/libplugin-pathdiversity.c:909-913 | the root payment creates empty lists |
| PaymentQueues.Scheduler.OneRunningPerDestination | plugins/libplugin-pathdiversity.c:996-1001 | two running payments with the same destination are the same payment |
| PaymentQueues.Scheduler.DataInit | plugins/libplugin-pathdiversity.c:902-923 | a new payment joins the back of the common list, not yet ready |
| PaymentQueues.Scheduler.StartPaymentOf | plugins/libplugin-pathdiversity.c:966-1002 | the payment joins the back of its destination's list, and starts its search iff that list was empty |
| PaymentQueues.Scheduler.Drain | plugins/libplugin-pathdiversity.c:958-963 | the ready front of the common list is handed to the destinations, and exactly those that reach the front of their list start |
| PaymentQueues.Scheduler.HandFront | plugins/libplugin-pathdiversity.c:961-962 | one iteration hands the front payment to its destination |
| PaymentQueues.Scheduler.Leave | plugins/libplugin-pathdiversity.c:943-947 | a payment that moved on leaves whichever list holds it, and reports whether it was listed |
| PaymentQueues.Scheduler.StepCb | plugins/libplugin-pathdiversity.c:927-964 | an initialized payment becomes ready; a listed one that moved on leaves its list (`Without`); then the ready front of the common list is handed to the destinations (`Distributed`) and leaves the common list; an unlisted one that moved on changes nothing; every payment started is running at the front of its list |
| PaymentQueues.Scheduler.ProcessingDone | plugins/libplugin-pathdiversity.c:1006-1025 | the finished payment leaves the front of its list, and the next one there, if any, starts |

## Left out

- `dhcache_coster_get` (gossipd/dhcache_refresher.c:466-480) computes with doubles and has no return statement. The channel cost is a parameter of the model, a `u64` per channel.
- Refresher.Refresher.CosterInit: the model does not tie an available cache to a set coster. The setters (gossipd/dhcache_refresher.c:418-436) accept the unset values, and a refresh started after such a call publishes them, so the source's asserts are preconditions here rather than facts.
- The slots are 32-bit words, but the model treats the visited bit and the distance arithmetically (`>=` and `%` by `2^31`) rather than as `bv32` masks; `DistanceCache.MaskBridge` proves the two readings agree on every 32-bit word.
- Timers and the monotonic clock are out. The number of times the refresher finds it still has working time is a parameter.
- tal allocation, `free` and destructors are out. The refresh queue's failed allocation (gossipd/dhcache_refresher.c:232-236) is assumed not to happen.
- The graph may change between two steps of a refresh, but only the steps proved sound assume it did not. Distances are exact only for a sweep over an unchanged graph.
- The refresher's callback to the rest of gossipd is not modelled. Neither are the status log lines.
- Several names in gossipd/dhcache_refresher.c are not declared where they are used. The model reads each with its evident meaning:
  - `refresh_process_step_init` pushes an undeclared `node` where it means `self` (line 270).
  - `dhcachw_writer_set_distance` is a misspelling of `dhcache_writer_set_distance` (line 338).
  - `enum refresher_process_step_result` (line 126) means the `refresh_process_step_result` declared at line 82.
  - `priority_time` (line 93) means the `struct node_id` items the refresh queue holds.
  - `dhcache_coster_init` copies `dhcache->coster` (line 464), but no `dhcache` is in scope; `Refresher.Refresher.CosterInit` returns the refresher's coster, `refresher->coster`.
- `node_id_idx` and the channel maps are replaced by `Routing.RoutingState`: per-node slots and a sequence of outgoing channels per node.
- JSON-RPC parsing, the building of requests and `paymod_err`/`plugin_err` aborts are out. This covers the features parse failure at plugins/routetricks/permuteroute.c:736-740.
- The `listchannels` and `listnodes` answers are parameters.
  - The destination-side request (plugins/routetricks/permuteroute.c:518-523) passes the destination node as `source`.
  - The filter (plugins/routetricks/permuteroute.c:565) keeps channels whose `destination` is that node.
  - The model takes that listing as it is given and applies the filter as written.
- The hop style of the intermediate node comes from its feature bits. That decision is a parameter.
- `amount_msat_add_fee` lives in common/amount.c, which is not part of this model. `PermuteRoute.AddFee` follows section "Recommendations for Routing" of BOLT #7 and fails on a 64-bit overflow of the product or the sum.
- `payment_getroute_splice_excludes` is a parameter: the payment's own exclusions.
- `payment_exclude_most_expensive` and `payment_exclude_longest_delay` are out.
- The rest of the payment-modifier framework (`payment_continue`, `payment_fail`, steps) is out.
- Destination objects are not separate entities. Each destination's queue and route cache are created on demand by the caller of `PathDiversity.Attempt`. `PaymentQueues` keeps only the payment lists.
- PaymentQueues.Scheduler.StepCb: when the payment that moved on was the head of its destination's list, the payment behind it does not start a search, as in the source. The contract does not state this. It states the new lists and that every started payment runs at the front of its list.
- The other plugin files under plugins/ are not part of this model.

## Findings

| source | as written | input that shows it | evidently intended | confidence | as-written member | corrected member |
|---|---|---|---|---|---|---|
| gossipd/dhcache_refresher.c:328-331 | the candidate `(u64)node_total_cost + cost_num` is a 64-bit sum, then capped at the maximum distance | node distance 1 and a channel cost of `2^64-1` millisatoshi: the sum wraps to 0 and the neighbour is given distance 0 | the candidate is the node's distance plus the cost, saturated at the maximum distance | not executed | Sweep.CandidateAsWrittenWraps | Sweep.Candidate |
