# DGS in Dafny

DGS divides a three-dimensional world of chunks into zone boxes, each served by one node. A head server owns the
topology: it splits, merges, relocates and drains zones and routes every chunk to the zone that serves it. Entities
cross from zone to zone by an acknowledged handoff. Around that core stand a stream protocol, an anti-cheat filter, a
validator for player actions and a social plane that survives restarts. This project models those parts and proves
what they are for. `dafny verify dfyconfig.toml` checks all of it.

| file | contents |
|---|---|
| `Geometry.dfy` | chunks, boxes, the merge test, the cuts of a split, stretching |
| `Population.dfy` | the zone's histogram, the head's inverse of it, the population cut and the crowd cut |
| `Topology.dfy` | the head's record as a value: routing, drains and their bookkeeping, the lifecycle queue |
| `Orchestration.dfy`, `LifecycleRuns.dfy` | the orchestrator as a class over its own maps and lists, every method against that record; and what cooldown, settle time and idle window mean over runs of its queue |
| `Cluster.dfy`, `ClusterRuns.dfy` | head and zones with commands and reports in flight: what every step keeps, over whole runs, and runs that show the limits |
| `Roster.dfy` | the list of entities a zone keeps |
| `Handoff.dfy`, `HandoffProtocol.dfy`, `HandoffRuns.dfy` | the zone's side of a handoff and of a drain; the protocol with all interleavings; and that every request is answered once |
| `Joint.dfy`, `JointRuns.dfy` | topology and handoff together: the routing the handoff sees is the head's own record; and runs of both from a base zone that lose an entity |
| `Framing.dfy`, `Codec.dfy`, `Stream.dfy` | the packet framer, the entity codec, send and receive over short reads and writes |
| `MovementBudget.dfy`, `MovementRuns.dfy` | the S1 movement filter for as long as a player's baseline is kept, and in the zone, which also drops, restores and hands in players |
| `ActionGate.dfy`, `ActionRuns.dfy` | player actions between zone and validator; and who asked for what is done, answered, retried and given up in a run |
| `SocialPlane.dfy` | guilds, friends, bans and permissions in memory, in the store and after a restart |

State that the program updates in place is a class whose methods are proved against a specification function; the
theorems are about those functions and about runs built from them.

## Main results

* A step of the cluster keeps the zones in service a tiling of the world if and only if it is orderly. The head acts on
  its own copies of the boxes, up to date or not. A split of its copy, by population, around a crowd or in the geometric
  middle, is orderly if and only if what the parent is left with and what the child is given partition what the parent
  was responsible for; a drain if and only if the resize leaves the survivor exactly the union of the two; a time-out if
  and only if it changes nothing; an eviction if and only if the zone was out of service; a relocation if and only if it
  adds no chunk; acknowledgements, obeyed commands and reports always are (`Cluster.StepKeepsTilingIff`, over runs
  `Cluster.TilingOverRuns`). With up-to-date copies every population or crowd split is orderly, a geometric one exactly
  if the halves share no layer, and a drain exactly if the boxes can be merged (`Cluster.ProperSplitIsOrderly`,
  `Cluster.GeometricSplitIsOrderlyIff`, `Cluster.DrainIsOrderlyIff`). From any state the head can catch up
  (`Cluster.EveryoneCatchesUp`), and then every chunk of a tiled world is routed to its one owner
  (`Cluster.RoutingIsExact`).
* A step of the handoff loses nothing if and only if it is harmless: a new id is put into a zone while it serves or has
  a drain to answer, the head reads no last copy of an entity on a chunk it does not route, no zone is drained that
  would be left with a last copy it has no lease on, and none is evicted that keeps a last copy
  (`HandoffProtocol.StepLosesNothingIff`). So nothing is lost over any run of harmless steps, drains that time out and
  are opened again and evictions included (`HandoffProtocol.NeverLost`), and while coverage does not shrink the head
  need not care what it reads (`HandoffProtocol.SteadyCoverageLosesNothing`).
* The two hold together: every step of the topology, time-outs and evictions included, is a step of the handoff, an
  orderly one exactly if it keeps every routed chunk routed, retires no last copy without a lease and evicts none
  (`Joint.TopologyStepIsHandoffStep`, `Cluster.StepKeepsRoutesIff`); a confirmation closes the drain in both or in
  neither (`Joint.WireAgrees`); a move of the whole system loses nothing if and only if it is harmless
  (`Joint.MoveLosesNothingIff`), and nothing is lost over joint runs of such moves (`Joint.NeverLostTogether`).
* The population cut is the most even of all boundaries of all axes, the first of them on a tie
  (`Population.PopulationCutIsOptimal`), because the histogram and the cut are adjoint (`Population.BucketAdjoint`). The
  geometric cut halves the longest axis (`Population.GeometricCutsTheLongest`).
* The merge test is exact (`Geometry.MergeableCharacterised`). Two boxes are face neighbours if and only if a chunk of
  one and a chunk of the other differ by one on exactly one axis and agree on the others (`Geometry.FaceNeighboursIff`);
  a merge drains the smallest ready zone that shares such a face, a reassign drains into the largest
  (`Orchestration.MergeTakesTheSmallest`, `Orchestration.ReassignTakesTheLargest`).
* Over every run of the queue no zone is run within the settle time of an operation that acted on it, as its subject or
  as the other end of its drain, and nothing else makes it wait; no zone splits twice within the cooldown; and a merge
  acts only after an unbroken idle window, and does act after one (`LifecycleRuns.NoFlapping`,
  `LifecycleRuns.OnlyTheConcernedAreStamped`, `LifecycleRuns.SplitsAreApart`, `LifecycleRuns.MergeWasIdle`,
  `LifecycleRuns.IdleZoneMerges`).
* An entity that is outside its zone's box is offered again exactly when the retry time has passed since its last offer
  or the head has answered that one as routed (`Handoff.RetriedIff`); and in every run every request is answered exactly
  once (`HandoffRuns.AnsweredOnce`).
* The framer does not depend on how a well-formed stream is cut (`Framing.FragmentationIndependence`) and accounts for
  every byte of arbitrary input (`Framing.EveryByteAccounted`). One send is one receive on a connection with partial
  writes and short reads (`Stream.OneSendOneReceive`).
* Over runs with the zone's own sweeps and erasures, the movement filter accepts every packet of a player if and only if
  each stretch from the making of a baseline to its next drop conforms (`MovementRuns.ServedIffConforming`, with
  `MovementBudget.AcceptedIffConforming` for the stretch). It accepts a step longer than its cap if and only if the
  baseline was dropped in between (`MovementRuns.BeyondCapIff`, `MovementRuns.JumpAcceptedIff`). It never rejects an
  honest player, whenever the zone sweeps, if and only if the cap covers gap and jitter, and these are within the lease
  or there is no jitter or nothing moves (`MovementRuns.HonestServedIff`).
* Actions fail closed and apply at most once in every run (`ActionGate.ActionsFailClosed`). Every applied change was
  asked for by an actor who was not banned then, under an id that was new then, while the breaker let requests through
  (`ActionRuns.EveryChangeWasAskedFor`), and every answer goes back to the actor and request it belongs to
  (`ActionRuns.RepliesGoBack`).
* The social plane survives a restart (`SocialPlane.RestartRestores`) if and only if the record cap is large enough
  (`SocialPlane.PersistenceNode.AnswerSocialQuery`).

## Where the code does less than it seems to

Each of these is proved about the code as it is, with the exact condition under which it does what it should.

* A merge or reassign opens the drain even when the absorption is refused. Then no chunk of the victim has an owner
  (`Cluster.RefusedLeavesNobody`). Two splits from a base zone are enough to reach a zone whose largest partner cannot
  be merged with it (`ClusterRuns.LargestPartnerUnmergeable`).
* A merge asks only whether the partner is ready, not whether its copy is up to date. Right after a split the parent's
  copy is still whole, and a merge with its neighbour resizes that over the child: a run from the base zone
  (`ClusterRuns.StaleMergeBreaksTiling`); the exact condition is the union in `Cluster.StepKeepsTilingIff`.
* A report that was sent before a merge and is heard after it overwrites the union the head has recorded for the
  survivor. The next absorption starts from that copy and sends a resize that shrinks the survivor's target, so that a
  chunk has no owner: a run from the base zone (`ClusterRuns.StaleReportLosesChunk`). The same condition shuts it out,
  and `Cluster.StepKeepsCoverageIff` says which of these steps lose a chunk.
* Nobody takes over the chunks of a zone that is evicted: the tiling survives exactly if it was out of service already
  (`Cluster.EvictKeepsTilingIff`).
* A drain that times out breaks the tiling whenever it changes anything (`Cluster.ExpireKeepsTilingIff`); right after an
  orderly drain the two zones overlap on the victim's box (`Cluster.ExpiryOverlaps`).
* Between the report of a split parent and the registration of its child, no chunk of the child's half is routed
  (`ClusterRuns.SplitWindow`, `ClusterRuns.BaseSplitUnroutes`). An entity whose request the head reads before that
  window and whose state it reads in it is gone: a run of the whole system from a base zone
  (`JointRuns.SplitBetweenLoses`).
* An entity that is created in a zone after it has answered its drain is deleted with the zone, again as a run from a
  base zone (`JointRuns.LateCreationLoses`): neither an approved action nor the restore loop looks at the drain flag.
* A zone gives up its leases when it answers a drain and does not get them back when the drain times out. A second drain
  publishes only what is leased, so that an entity on a covered chunk can go down with the zone
  (`JointRuns.SecondDrainLoses`).
* The geometric cut shares a layer for some sums of bounds, and on a two-chunk axis with a negative odd sum the parent
  does not shrink at all (`Geometry.GeometricCut`).
* The crowd cut is missed when entities waiting outside the box dominate the last bucket of a box of fewer than 32
  chunks (`Population.OutsideCrowdIsMissed`, with the exact condition in `Population.CrowdCutExistsIff`).
* When a zone answers a drain, its entities stay covered exactly if each is covered elsewhere, stays in the zone without
  its lease or is leased on a covered chunk (`HandoffProtocol.DrainLosesNothingIff`).
* An attempt to hand over an entity leaves two copies exactly if its request is refused and its state routed to another
  zone, and none exactly if it is the other way round (`HandoffProtocol.AttemptIff`); two copies as a run from the start
  are `HandoffProtocol.CanDuplicate`.
* A resynchronising framer delivers a parked candidate exactly if it is not parked at the very start of its buffer,
  although the comment says it stays on it: `compact(0)` returns before it resets the scan
  (`Framing.ParkedIsDeliveredIff`, `Framing.ParkedAtStartIsAbandoned`, `Framing.ResyncDependsOnFragmentation`).
* A packet without a baseline is not judged, and the zone drops the baseline of a player whose last accepted packet is
  older than the lease (`MovementRuns.SweepDropsIff`). So a player who waits for the lease may go anywhere at all
  (`MovementRuns.WaitAndJump`), and an honest one who was dropped starts again with an empty budget and can be rejected
  (`MovementRuns.SweptHonestIsRejected`). A draining zone does not stamp and sweeps players who are active
  (`MovementRuns.DrainingSweepsTheActive`).
* A rejected position refills the budget without moving the timestamp. What is earned is the elapsed time and, once more
  for every rejection, the time since the last accepted packet (`MovementBudget.EarnedAgain`), so elapsed time bounds it
  exactly if there was no later rejection (`MovementBudget.ElapsedBoundsIff`, `MovementBudget.RejectionsRefillTwice`).
* A refused action evicts whatever has the uuid of the proposal (`ActionGate.RefusalChangesNothingIff`).
* The module sees neither the angle nor more than the first 4064 bytes of the payload: creations that agree in what it
  sees get one verdict and store different entities (`ActionGate.OneVerdictTwoEntities`); the verdict fixes the payload
  exactly if it is shorter than that (`ActionGate.PayloadFixedIff`).
* An acceptance does not clear away a second copy of a uuid, which the restore loop can leave behind
  (`ActionGate.AcceptanceIsExact`).
* A join with a rank, or a rank for a non-member, makes store and memory differ (`SocialPlane.RanksAgreeIff`). Bans are
  sent last, so 4096 guild members cost the only ban (`SocialPlane.FullGuildLosesBan`). A ban of 2^32 - 1 seconds that
  is replayed in the millisecond in which it was stored comes back as permanent (`SocialPlane.TermFitsUnlessLongest`).

## Model

| member | source | states |
|---|---|---|
| `Geometry.MergeableIsSound` | include/dgs/orchestrator.h:747-798 | when the merge test names an axis, the boxes are disjoint and the absorbed box is exactly their union, whichever of the two survives |
| `Geometry.MergeableIsComplete` | include/dgs/orchestrator.h:747-759 | every disjoint pair of non-empty boxes whose union is a box is found |
| `Geometry.MergeableCharacterised` | include/dgs/orchestrator.h:218-254 | the merge test holds if and only if the boxes partition some box; its axis is the only one; such a pair are face neighbours |
| `Geometry.AdjacentIff` | include/dgs/orchestrator.h:218-254 | boxes touch on at most so many axes if and only if a chunk of one and a chunk of the other are one apart on between one and so many axes and agree on the rest |
| `Geometry.FaceNeighboursIff` | include/dgs/orchestrator.h:232-247 | they are face neighbours if and only if two such chunks are one apart on exactly one axis |
| `Geometry.CutPartitions` | include/dgs/orchestrator.h:997-1019 | a proper cut gives two non-empty halves that partition the parent and merge back into it |
| `Geometry.CutShrinks` | include/dgs/orchestrator.h:997-1019 | the volumes of the halves add up and each is smaller, so splitting ends |
| `Geometry.GeometricCut` | include/dgs/orchestrator.h:997-1001 | the geometric cut leaves no gap; the halves share exactly one layer if and only if the sum of bounds is non-negative and even or negative and odd; the child always shrinks, the parent unless the box has two chunks and a negative sum |
| `Geometry.StretchAgrees` | nodes/zone_node.cpp:1761-1793 | head and zone compute the same stretched box unless the chunk is already inside a box beyond the limits; it has the chunk if and only if the chunk is within the limits, keeps every chunk within them, and within the limits is the least such box |
| `Population.BucketAdjoint` | nodes/zone_node.cpp:2229-2247 | for every coordinate, inside or outside the box, its bucket is at most b if and only if it is at most the head's end of bucket b |
| `Population.ReportPopulation` | nodes/zone_node.cpp:2236-2247 | the three saturating histograms the zone fills are the tallies of its entities' coordinates |
| `Population.CumIsLowSide` | include/dgs/orchestrator.h:924-946 | without saturation the head's running count at a boundary is the true number of entities on the low side, and the total is the population |
| `Population.ReportCountsAllIff` | nodes/zone_node.cpp:2229-2247 | a report counts no entity twice, and all of them if and only if no bucket holds more than 65535 |
| `Population.ScanAxis` | include/dgs/orchestrator.h:908-960 | extends the best boundary found so far by one axis: least cost, first among equals, none only if nothing scanned separates |
| `Population.PopulationCut` | include/dgs/orchestrator.h:908-960 | the scan of all three axes returns the first of the most even separating boundaries, or none if there is none |
| `Population.Heaviest` | include/dgs/orchestrator.h:962-980 | the first of the fullest buckets |
| `Population.CrowdAxis` | include/dgs/orchestrator.h:962-995 | the cut beside the fullest bucket of an axis, when there is one inside the box |
| `Population.CrowdPickExists` | include/dgs/orchestrator.h:975-990 | a bucket can be cut around exactly when it is the first or a chunk of the box can fall beyond its start, and then the cut is a bucket boundary |
| `Population.PlanSplit` | include/dgs/orchestrator.h:846-1001 | no plan exactly for a single chunk; otherwise population cut, else crowd cut, else geometric cut, as the rows below say of any such plan |
| `Population.PopulationCutIsOptimal` | include/dgs/orchestrator.h:908-960 | if any boundary of any axis has entities on both sides, the plan has, no boundary divides them more evenly, and none before it on an earlier axis or lower does as evenly |
| `Population.GeometricCutsTheLongest` | include/dgs/orchestrator.h:846-860 | a plan that is not by population cuts the longest axis, the first of them on a tie, and its halves differ by at most one chunk and are no longer than half and one |
| `Population.SingleChunkIff` | include/dgs/orchestrator.h:842-846 | a box is not cut exactly if any two of its chunks are the same |
| `Population.CrowdPickIsBeside` | include/dgs/orchestrator.h:975-990 | a crowd cut has chunks of the box on both sides and its bucket on one: low chunks in lower buckets if there are any, else high chunks in higher ones |
| `Population.CrowdCutIsFirst` | include/dgs/orchestrator.h:962-995 | the crowd cut is on the first axis that can be cut around its fullest bucket, around the first of these |
| `Population.PopulatedPlanIsProper` | include/dgs/orchestrator.h:908-1001 | every population or crowd plan leaves both halves at least one chunk |
| `Population.PlanIsInside` | include/dgs/orchestrator.h:846-1001 | both ends of every plan, geometric ones included, are chunks of the box, whatever the profile |
| `Population.CrowdCutKeepsTogether` | include/dgs/orchestrator.h:962-995 | when nothing divides the population, a crowd plan leaves every entity of the box inside one half |
| `Population.CrowdCutExistsIff` | include/dgs/orchestrator.h:962-995 | an indivisible population is cut around if and only if some axis of more than one chunk has its fullest bucket where a chunk of the box can fall |
| `Population.CrowdInsideIsCutAround` | include/dgs/orchestrator.h:962-995 | with all entities inside a box of more than one chunk it always is |
| `Population.OutsideCrowdIsMissed` | include/dgs/orchestrator.h:962-995 | a concrete population with entities outside the box for which it is not |
| `Topology.RouteIsServing` | include/dgs/orchestrator.h:150-161 | routing answers with a routable zone that contains the chunk, and with none only if there is none |
| `Topology.RouteIgnoresOrder` | include/dgs/orchestrator.h:150-180 | with disjoint boxes the answer does not depend on the order of registration |
| `Topology.RetiringIsNotRouted` | include/dgs/orchestrator.h:150-161 | a zone that is draining, dead or destroyed is never the answer, and a chunk stays without one only if no other zone has it |
| `Topology.QueueKeepsTheUrgent` | include/dgs/orchestrator.h:588-611 | after any enqueues the pending operation is an eviction if there was one, else a reassign, else the latest merge or split |
| `Topology.OpKeepsBooks` | include/dgs/orchestrator.h:325-337 | every operation keeps: a zone is draining if and only if it has an open request, deadline and target, ids are not reissued, gone zones are not listed |
| `Topology.BooksOverRuns` | include/dgs/orchestrator.h:527-561 | so do all runs of operations |
| `Topology.DestroyedOverRuns` | include/dgs/orchestrator.h:527-561 | in every run a zone that ends up destroyed was drained in that run and later acknowledged that very drain, by the id it was opened with, while it was open |
| `Topology.TimedOutAckIsIgnored` | include/dgs/orchestrator.h:325-337 | after a drain has timed out, whatever happens, its acknowledgement changes nothing |
| `Topology.DrainTimesOut` | include/dgs/orchestrator.h:325-337 | a drain times out only after its timeout, and then its zone is ready with nothing left of the drain and all else as it was |
| `Topology.LateAckIsIgnored` | include/dgs/orchestrator.h:527-543 | whatever happens in between, new drains of the same zone included, an acknowledgement with a stale id changes nothing |
| `Topology.AcceptedIff` | include/dgs/orchestrator.h:527-543 | an acknowledgement is accepted if and only if it carries the id of the open drain |
| `Topology.GoneIsForgotten` | include/dgs/orchestrator.h:811-821 | a zone that is destroyed or evicted is unlisted with its profile, drain and floor mark, and nothing else changes |
| `Topology.ReportIsTaken` | include/dgs/orchestrator.h:107-148 | the box, address, port and profile a routable zone reports are what the record says of it afterwards |
| `Topology.DrainKeepsReplicas` | include/dgs/orchestrator.h:519-524 | opening a drain lowers the routable count by exactly one, so a guarded one never goes below the minimum |
| `Topology.RelocationServesMiss` | include/dgs/orchestrator.h:192-216 | after a miss on a chunk within the limits it is routed to the stretched zone with the box the zone itself computes, beyond them it stays a miss; every routed chunk within the limits stays routed; nothing changes only if no zone is routable |
| `Topology.RelocationIsLevel` | include/dgs/orchestrator.h:192-216 | a routable zone level with the chunk on the two other axes is preferred, the first of them, and is stretched along X alone |
| `Topology.OverwriteKeepsRoutesIff` | include/dgs/orchestrator.h:116-125 | overwriting a zone's copy keeps every routed chunk routed if and only if each chunk it loses has another routable copy |
| `Orchestration.Orchestrator.UpdateNodeTopology` | include/dgs/orchestrator.h:107-148 | a report overwrites a known zone's entry, registers an unknown one unless it is retiring or gone, and stores the profile; nothing else |
| `Orchestration.Orchestrator.FindTargetNode` | include/dgs/orchestrator.h:150-161 | the first routable zone that contains the chunk |
| `Orchestration.Orchestrator.FindZoneResponse` | include/dgs/orchestrator.h:163-180 | the address of that same zone |
| `Orchestration.Orchestrator.RelocateZoneTo` | include/dgs/orchestrator.h:192-216 | the chosen zone's copy is stretched to the chunk and no other entry changes |
| `Orchestration.Orchestrator.HandleZoneQuery` | nodes/head_server_node.cpp:58-97 | an answer with an address and a port is given as it is; any other, an empty address or port included, relocates, tells the zone and answers again from the new record |
| `Orchestration.MissIff` | nodes/head_server_node.cpp:58-97 | a query is answered at once if and only if a zone is routed with an address and a port; with addresses known, if and only if a routable zone has the chunk |
| `Orchestration.Orchestrator.FindNeighbours` | include/dgs/orchestrator.h:218-254 | the routable zones that touch on the allowed number of axes, in order; what touching means is in the next row |
| `Orchestration.NeighbourModes` | include/dgs/orchestrator.h:218-254 | face neighbours share a face; in the edge mode chunks may be one apart on two axes, in the corner mode on three |
| `Orchestration.Orchestrator.RoutableZoneCount` | include/dgs/orchestrator.h:519-524 | the number of listed zones that are routable |
| `Orchestration.Orchestrator.HandleZoneLifecycle` | include/dgs/orchestrator.h:527-561 | an acknowledgement with the open id destroys the zone, closes its drain and sends the deletion; any other is ignored |
| `Orchestration.Orchestrator.CheckDrainTimeout` | include/dgs/orchestrator.h:325-337 | an overdue drain is closed and the zone is ready again |
| `Orchestration.Orchestrator.NoteLoad` | include/dgs/orchestrator.h:351-359 | a low load report opens the idle window unless it is open, a high one closes it |
| `Orchestration.Orchestrator.EvictStaleZone` | include/dgs/orchestrator.h:811-821 | the zone is dead, unlisted, and its drain closed |
| `Orchestration.Orchestrator.AbsorbRegionInto` | include/dgs/orchestrator.h:761-798 | the survivor's box becomes the union and it is told so, exactly if the two can be merged |
| `Orchestration.Orchestrator.BeginDrain` | include/dgs/orchestrator.h:1067-1083 | request, deadline, target and states of the drain, the settle stamp of both zones, the absorption, and the messages in their order |
| `Orchestration.Orchestrator.PickPartner` | include/dgs/orchestrator.h:1048-1055 | the smallest or largest ready zone that shares a face, none only if there is none |
| `Orchestration.PartnerIff` | include/dgs/orchestrator.h:1048-1055 | a partner is another listed zone that is ready and shares a face |
| `Orchestration.MergeTakesTheSmallest` | include/dgs/orchestrator.h:1048-1083 | a merge that acts drains into the zone one of its partners of least volume |
| `Orchestration.ReassignTakesTheLargest` | include/dgs/orchestrator.h:1108-1138 | a reassign that acts drains the zone into one of its partners of greatest volume |
| `Orchestration.Orchestrator.TryMergeDown` | include/dgs/orchestrator.h:1030-1089 | merges if and only if there are replicas to spare, the zone is ready, settled and idle for a window and has a partner; then the smallest partner is drained into it; otherwise only the idle window changes |
| `Orchestration.Orchestrator.TryReassign` | include/dgs/orchestrator.h:1096-1143 | drains the zone into its largest partner if and only if there are replicas to spare, it is ready and has a partner; otherwise changes nothing |
| `Orchestration.Orchestrator.TrySplitDown` | include/dgs/orchestrator.h:826-1026 | splits if and only if the zone is ready, cooled down, larger than a chunk and the child starts; the child gets the upper half of a plan and the parent is told to keep the lower |
| `Orchestration.FloorIsSingle` | include/dgs/orchestrator.h:842-846 | a zone is marked as being at the floor exactly if its copy is a single chunk |
| `Orchestration.Orchestrator.EnqueueLifecycle` | include/dgs/orchestrator.h:588-611 | one pending operation a zone; a more urgent one or a fresh scaling decision replaces it |
| `Orchestration.Orchestrator.NextOperation` | include/dgs/orchestrator.h:631-660 | a settled operation of maximal priority, the lowest descriptor among equals |
| `Orchestration.NextIsUrgent` | include/dgs/orchestrator.h:631-660 | what runs next was last acted on at least the settle time ago; no settled eviction waits behind anything else, no reassign behind a merge or split, no merge behind a split |
| `Orchestration.Orchestrator.ProcessLifecycleQueue` | include/dgs/orchestrator.h:631-678 | runs at most one operation, that one, and nothing only if no zone is settled; its zone is stamped exactly if it acted |
| `Orchestration.MergeIsLegal` | include/dgs/orchestrator.h:1030-1089 | a merge keeps the drain books and the minimum of replicas |
| `Orchestration.ReassignIsLegal` | include/dgs/orchestrator.h:1096-1143 | so does a reassign |
| `Orchestration.ExecutedKeepsBooks` | include/dgs/orchestrator.h:631-678 | every operation the queue can run keeps the drain books |
| `LifecycleRuns.NoFlapping` | include/dgs/orchestrator.h:631-678 | in every run of enqueues, reports, queries, acknowledgements, time-outs and queue runs, a zone the queue runs was last acted on, as subject, victim or survivor, at least the settle time before, and at least the merge window before if it merges |
| `LifecycleRuns.OnlyTheConcernedAreStamped` | include/dgs/orchestrator.h:631-678 | in every step a zone that no operation acted on, drained or drained into keeps its stamp, a turn that did nothing included |
| `LifecycleRuns.DrainUnsettles` | include/dgs/orchestrator.h:1067-1083 | after a drain neither victim nor survivor is settled until the settle time, nor can merge until the window |
| `LifecycleRuns.SplitsAreApart` | include/dgs/orchestrator.h:829-835 | in every run two splits of a zone are at least the cooldown apart |
| `LifecycleRuns.MergeWasIdle` | include/dgs/orchestrator.h:1030-1064 | in every run a merge acts only at the end of a whole merge window that began with a low load report or a merge that had to wait, and in which the load was never high, the zone did not merge and was never without a partner |
| `LifecycleRuns.IdleZoneMerges` | include/dgs/orchestrator.h:351-359 | after a low load report and such a window, however many low reports follow, a merge that has replicas and a partner acts |
| `Cluster.StepKeepsTiling` | include/dgs/orchestrator.h:997-1019 | each orderly step keeps the tiling of the world, whatever copies the head acts on |
| `Cluster.StepKeepsTilingIff` | include/dgs/orchestrator.h:997-1083 | with any copies, a step keeps the tiling if and only if it is an acknowledgement, obeyed command or report, a split whose two parts partition the parent's target, a drain whose resize leaves the survivor the union of both targets, a time-out that changes nothing, an eviction of a zone out of service or a relocation that adds no chunk |
| `Cluster.ExpireKeepsTilingIff` | include/dgs/orchestrator.h:325-337 | in any tiled state a time-out keeps the tiling if and only if it changes no state |
| `Cluster.EvictKeepsTilingIff` | include/dgs/orchestrator.h:811-821 | in any tiled state an eviction keeps the tiling if and only if the zone was out of service |
| `Cluster.MissKeepsTilingIff` | include/dgs/orchestrator.h:192-216 | a relocation keeps the tiling if and only if the chosen zone's target already has what it is stretched to |
| `Cluster.TilingOverRuns` | include/dgs/orchestrator.h:761-798 | every run of orderly steps, in any interleaving with commands and reports, keeps the tiling |
| `Cluster.RoutingIsExact` | include/dgs/orchestrator.h:150-161 | with up-to-date copies every chunk of the world has exactly one owner and is routed to it, and no other chunk is routed |
| `Cluster.CoverageOverRuns` | include/dgs/orchestrator.h:325-337 | what is served stays served over every run in which no split, drain or eviction loses a chunk, time-outs and relocations included |
| `Cluster.StepKeepsCoverageIff` | include/dgs/orchestrator.h:811-821 | with any copies, a step leaves every served chunk served if and only if it is no split, drain or eviction that takes a chunk from the zones it is about without giving it to one of them or leaving it to another |
| `Cluster.StepKeepsRoutesIff` | include/dgs/orchestrator.h:116-125 | with any copies, a step keeps every chunk the head routes routed if and only if it is no report or relocation that overwrites a copy some chunk of which has no other, and no refused drain or eviction of such a zone |
| `Cluster.ProperSplitIsOrderly` | include/dgs/orchestrator.h:997-1019 | a population or crowd split of an up-to-date copy leaves parent and child a partition |
| `Cluster.GeometricSplitIsOrderlyIff` | include/dgs/orchestrator.h:997-1001 | a geometric one does if and only if the halves do not share the middle layer |
| `Cluster.DrainIsOrderlyIff` | include/dgs/orchestrator.h:761-798 | a drain between up-to-date copies of disjoint boxes leaves the survivor the union if and only if the boxes can be merged |
| `Cluster.RefusedLeavesNobody` | include/dgs/orchestrator.h:1067-1083 | after a drain whose absorption is refused no chunk of the victim has an owner |
| `Cluster.ExpiryOverlaps` | include/dgs/orchestrator.h:325-337 | a time-out right after an orderly drain leaves victim and survivor overlapping on exactly the victim's box, so that no world is tiled |
| `Cluster.CatchUp` | include/dgs/orchestrator.h:116-125 | from any state, obeying, reporting and being heard brings the head's copy of a zone up to date with nothing left on its link, and touches nothing else |
| `Cluster.EveryoneCatchesUp` | include/dgs/orchestrator.h:116-125 | and so for all zones at once, with nobody's responsibility changing |
| `Cluster.MergeIsStep` | include/dgs/orchestrator.h:1030-1089 | every merge, of whatever copies and refused or not, is the drain step of the cluster, record and messages alike |
| `Cluster.ReassignIsStep` | include/dgs/orchestrator.h:1124-1138 | so is a reassign |
| `Cluster.SplitIsStep` | include/dgs/orchestrator.h:997-1026 | every split, the geometric one included and of whatever copy, is the split step: the record keeps its boxes, states and drains, the parent is told and the child started |
| `Cluster.BaseZoneTiles` | include/dgs/orchestrator.h:107-148 | the base zone alone tiles its own box |
| `ClusterRuns.SplitWindow` | include/dgs/orchestrator.h:997-1019 | after every split of a caught-up cluster there is a run, in which only the parent obeys and reports, to a state in which the child is in service but no zone the head routes to has any given chunk of its half |
| `ClusterRuns.WindowCloses` | include/dgs/orchestrator.h:107-148 | from there the child's registration routes the chunk to it |
| `ClusterRuns.BaseSplitUnroutes` | include/dgs/orchestrator.h:107-148 | the same as a run from a base zone of two chunks |
| `ClusterRuns.LargestPartnerUnmergeable` | include/dgs/orchestrator.h:1108-1138 | a run from the base zone to a tiled state in which a zone's largest partner is not mergeable with it, so that its reassign breaks the tiling |
| `ClusterRuns.StaleMergeBreaksTiling` | include/dgs/orchestrator.h:1048-1083 | a run from the base zone to a tiled state in which a zone's smallest partner has just split, the copies are mergeable and the merge breaks the tiling |
| `ClusterRuns.StaleReportLosesChunk` | include/dgs/orchestrator.h:116-125 | a run from the base zone to a tiled state in which a report has overwritten a recorded union and a reassign to the largest partner, whose copy is mergeable, leaves a chunk without an owner |
| `Handoff.ZoneNode.CheckAndTransfer` | nodes/zone_node.cpp:169-225 | offers what the round makes due, request first and state right behind it, and keeps everything; the throttle after it is the round's |
| `Handoff.RoundIsExact` | nodes/zone_node.cpp:169-225 | in a round an id is offered if and only if an entity of it is outside the box and it was never tried or at least the retry time ago; exactly those ids are stamped; with a positive retry time each is offered once, even if the list holds it twice |
| `Handoff.RetriedIff` | nodes/zone_node.cpp:169-225 | over any rounds, after an offer, the next is in the first round that finds the entity outside and comes at least the retry time later or after the answer that it was routed |
| `Handoff.OfferedAtOnce` | nodes/zone_node.cpp:184-192 | an entity that was never tried is offered in the very round that finds it outside |
| `Handoff.OfferedAreHeld` | nodes/zone_node.cpp:169-225 | what is offered is held and outside the box |
| `Handoff.ZoneNode.OnEntity` | nodes/zone_node.cpp:1714-1744 | the state becomes the first one held under that uuid, in place of the one before or added, and is leased; all others stay |
| `Handoff.ZoneNode.OnAnswer` | nodes/zone_node.cpp:1852-1880 | only a routed answer releases the entity, every copy of it and its lease, and nothing else |
| `Handoff.ZoneNode.OnNamedOwner` | nodes/zone_node.cpp:1882-1898 | being named the owner leases what is held already, and nothing else |
| `Handoff.ZoneNode.OnDrain` | nodes/zone_node.cpp:1940-1962 | every lease is given up, exactly the first copies held under one are published, and the confirmation with the id of the drain follows them |
| `Handoff.ConfirmationIsLast` | nodes/zone_node.cpp:1940-1962 | a publication is the states in the zone's order and, behind all of them, the confirmation |
| `HandoffProtocol.HeadServer.OnReassign` | nodes/head_server_node.cpp:213-241 | a request for a chunk another zone covers is passed on and answered routed; any other is answered keep it |
| `HandoffProtocol.HeadServer.OnEntity` | nodes/head_server_node.cpp:268-295 | the state goes to the zone that covers its chunk, or is dropped |
| `HandoffProtocol.HeadServer.OnDrained` | nodes/head_server_node.cpp:254-266 | the confirmation of the open drain closes it and tells the zone to exit; any other changes nothing |
| `HandoffRuns.RequestDecides` | nodes/head_server_node.cpp:213-241 | reading a request for a chunk another zone covers takes the entity from the asking zone and leases it to that one if it holds it already; it changes nobody else's part in it and no other entity |
| `HandoffRuns.StateIsLeased` | nodes/head_server_node.cpp:268-295 | reading a state on a covered chunk leases it to the zone that covers it, and changes nothing else |
| `HandoffRuns.AnsweredOnce` | nodes/head_server_node.cpp:213-241 | in every run the requests a zone has made about an entity are the answers it has read and those in flight; when the links are quiet each is answered |
| `HandoffProtocol.StepOk` | nodes/head_server_node.cpp:213-295 | every step keeps each request next to its state and only genuine states in flight; the open drain is the newest, confirmations are older than the drains still on their way, and a zone that is told to exit has answered every drain it was sent |
| `HandoffProtocol.SafeAfterStep` | nodes/zone_node.cpp:1852-1962 | a safe copy gives one after any step but the head reading that very copy on an uncovered chunk, the drain of a zone that holds it without a lease or the eviction of its zone; and a covered one if the step is orderly |
| `HandoffProtocol.StepLosesNothingIff` | nodes/head_server_node.cpp:213-295 | from a state in which nothing is lost, a step loses nothing if and only if a new id comes while the zone serves or has a drain to answer, the head reads a state on a covered chunk or not the last copy, a zone is drained only if what it will hold without a lease is safe elsewhere, and evicted only if all it would keep is |
| `HandoffProtocol.NeverLost` | nodes/zone_node.cpp:169-225 | in every run of harmless steps, with any interleaving, routing, retries, stale answers, hand-backs, drains that time out, second drains and evictions, every live entity has a safe copy |
| `HandoffProtocol.OkOverRuns` | nodes/zone_node.cpp:169-225 | in every run whatever is held or in flight is genuine, requests stay next to their states and drains keep their order |
| `HandoffProtocol.SteadyCoverageLosesNothing` | nodes/head_server_node.cpp:213-295 | while routed chunks do not shrink, drains are answered on covered chunks and opened with last copies leased, and new ids come in time, every step is harmless, time-outs included |
| `HandoffProtocol.StartIsOk` | nodes/zone_node.cpp:169-225 | the empty system satisfies the invariant |
| `HandoffProtocol.HeldWhenQuiet` | nodes/zone_node.cpp:1714-1744 | whenever the links are quiet every live entity is held by a zone in service, in a state it really had |
| `HandoffProtocol.SafeIsGenuine` | nodes/zone_node.cpp:1714-1744 | a safe copy carries the right uuid and a state some zone gave it |
| `HandoffProtocol.DrainLosesNothingIff` | nodes/zone_node.cpp:1940-1962 | when a zone answers a drain, every live entity stays covered if and only if each is covered elsewhere, is kept by the zone without its lease, or is leased on a covered chunk |
| `HandoffProtocol.AttemptIff` | nodes/head_server_node.cpp:213-295 | one attempt of a zone that alone has an entity, under any routing for its request and any other for its state, ends with two copies if and only if the request was refused and the state routed to another zone, and with none if and only if the request was routed and the state was not |
| `HandoffProtocol.CanDuplicate` | nodes/head_server_node.cpp:213-295 | a run from the start that ends with two zones holding the same entity and quiet links |
| `Joint.TopologyStepIsHandoffStep` | nodes/head_server_node.cpp:213-295 | every step of the topology but an acknowledgement, which is a packet of the handoff itself, is a legal step of the handoff, time-outs that put a zone back and evictions included, and it keeps routing, phases and drain ids in agreement with the record; it is orderly if and only if it keeps every routed chunk routed, retires no last copy without a lease and evicts none |
| `Joint.WireAgrees` | nodes/head_server_node.cpp:254-266 | every packet of the handoff keeps them in agreement; a confirmation the record accepts is that of the drain the handoff has open |
| `Joint.MoveLosesNothingIff` | nodes/head_server_node.cpp:213-295 | from a state in which nothing is lost, a move of topology or handoff loses nothing if and only if it is a harmless packet, a drain that retires no last copy without a lease, an eviction of a zone that keeps none, or any other step of the topology |
| `Joint.NeverLostTogether` | nodes/head_server_node.cpp:213-295 | over every joint run of such moves, with stale copies, refused drains, time-outs and evictions, nothing is lost |
| `Joint.SteadyTogether` | nodes/head_server_node.cpp:213-295 | over every joint run in which the topology keeps routed chunks routed and the handoff is orderly, all moves are harmless |
| `JointRuns.SplitBetweenLoses` | nodes/head_server_node.cpp:213-295 | a joint run from a base zone: the head routes a request, the owner splits, and the state behind the request is read in the window of that split; nothing was lost before, and afterwards no zone holds the entity and no link carries it |
| `JointRuns.LateCreationLoses` | nodes/zone_node.cpp:1942-1970 | a joint run from a base zone: a zone is merged into its neighbour and answers its drain, then an entity is created in it, and it exits; the same loss |
| `JointRuns.SecondDrainLoses` | nodes/zone_node.cpp:1942-1954 | a joint run from a base zone: a drain is answered and times out, its publication is dropped, the chunk becomes covered, and a second drain publishes nothing; the same loss |
| `JointRuns.ReachedTogether` | include/dgs/orchestrator.h:107-148 | every state the topology reaches from a base zone by splits, commands and reports is a state of the whole system with all zones joined and idle |
| `Framing.ToFramed` | include/dgs/packet.h:216-229 | over the limit it refuses; otherwise the length in network order and then the payload |
| `Framing.PacketFramer.Feed` | include/dgs/packet.h:256-260 | appends the bytes and changes nothing else |
| `Framing.PacketFramer.CompactTo` | include/dgs/packet.h:336-342 | drops and counts the bytes before the position; at position zero it changes nothing, the scan included |
| `Framing.PacketFramer.Deliver` | include/dgs/packet.h:345-352 | hands out the payload, counts what was before the frame and removes the frame |
| `Framing.PacketFramer.TakeNext` | include/dgs/packet.h:264-320 | one call of next is the specification step, for every state |
| `Framing.ResyncIsExact` | include/dgs/packet.h:264-320 | out of step, the first frame is taken that has a legal length and ends the buffer or has another legal length behind it; without one, all is dropped before the first that may still turn out to be one |
| `Framing.InStepIsExact` | include/dgs/packet.h:264-320 | in step, the next frame is taken as soon as it is complete, and a length that no packet has puts the framer out of step |
| `Framing.FragmentationIndependence` | include/dgs/packet.h:264-352 | for every list of packets and every way of cutting their framed concatenation, draining after each piece yields exactly those packets, nothing discarded, nothing left |
| `Framing.EveryByteAccounted` | include/dgs/packet.h:264-352 | for any bytes in any mixture of feeds and calls, the input is the delivered frames in order with discarded stretches between them and the pending bytes behind; the byte counts add up |
| `Framing.ParkedAtStartIsAbandoned` | include/dgs/packet.h:311-342 | in every continuation of feeds and calls the input that begins with a candidate parked at the start is untouched or begins with a discarded segment, so no frame that begins there is ever delivered |
| `Framing.ParkedIsDeliveredIff` | include/dgs/packet.h:291-342 | once its bytes have arrived and verify it, the next call delivers a parked candidate if and only if it was not parked at the very start |
| `Framing.ResyncDependsOnFragmentation` | include/dgs/packet.h:311-342 | the same bytes in two pieces deliver a packet and in three pieces none |
| `Codec.PacketBuffer.Pack` | src/packet.cpp:9-28 | the buffer is the layout of the entity, field by field |
| `Codec.PacketBuffer.Unpack` | src/packet.cpp:30-60 | the sequence of reads is the decoding by position; a short buffer or a data size over the limit is an error |
| `Codec.PacketBuffer.TryUnpack` | src/packet.cpp:65-71 | the same, and nothing for a packet of another type |
| `Codec.DecodeEncode` | src/packet.cpp:9-60 | unpacking a packed entity recovers it up to its unused data bytes, whatever follows in the buffer |
| `Codec.EncodeDecode` | src/packet.cpp:30-71 | accepted bytes are the packing of what they decode to |
| `Codec.FieldOffsets` | src/packet.cpp:9-71 | where each field of an encoding stands |
| `Codec.AcceptedIffEncoded` | src/packet.cpp:65-71 | a buffer is accepted if and only if it begins with the packing of some entity |
| `Stream.Connection.Advance` | src/network.cpp:1083-1093 | skipping the written bytes leaves exactly the unwritten ones, and nothing when all were written |
| `Stream.Connection.WritevAll` | src/network.cpp:1076-1096 | success means all bytes are on the wire once and in order; failure leaves a prefix of them; it cannot fail unless a call does |
| `Stream.Connection.Send` | src/network.cpp:1098-1127 | the same for one frame: length and payload |
| `Stream.Connection.RecvAll` | src/network.cpp:1138-1151 | all bytes asked for, in order and in place, however short the reads; or the code of the call that failed |
| `Stream.Connection.Receive` | src/network.cpp:1187-1236 | a positive result is exactly the message at the head of the wire; a whole frame is consumed whether it fits or not (-1); an empty or impossible length or the end is a close (0); a time-out at a frame boundary takes nothing |
| `Stream.FrameAtHead` | src/network.cpp:1187-1236 | the wire begins with the frame of a message if and only if its length and content say so |
| `Stream.OneSendOneReceive` | src/network.cpp:1076-1236 | for every schedule of partial writes and short reads and every order of sends and receives on a connection, the i-th receive yields the i-th message or reports it as oversized, and the wire always holds exactly the frames not yet received |
| `Stream.TalkIsInOrder` | src/network.cpp:1098-1236 | the same for the conversation as a value, frame by frame |
| `Stream.Carry` | src/network.cpp:1098-1236 | over any reliable schedule of partial writes and short reads a message that fits is received as sent and the wire is empty |
| `Stream.Ship` | src/packet.cpp:9-71 | an entity packed, sent, received and unpacked comes back up to its unused data bytes |
| `MovementRuns.MovementGate.Plausible` | nodes/zone_node.cpp:445-476 | refills by speed and time up to the cap, rejects a longer step keeping the refill, else takes the step out |
| `MovementRuns.MovementGate.OnPosition` | nodes/zone_node.cpp:1348-1458 | a packet without a baseline is accepted and makes one with an empty budget; an accepted one moves the baseline and keeps the budget; a rejected one moves nothing but the budget; an accepted one is stamped as activity unless the zone drains; others are untouched |
| `MovementRuns.MovementGate.OnHandIn` | nodes/zone_node.cpp:1739-1742 | an entity handed in counts as active and has no baseline |
| `MovementRuns.HandInDefersSweep` | nodes/zone_node.cpp:1739-1742 | an entity handed in is not swept until the lease is over |
| `MovementRuns.MovementGate.OnForget` | nodes/zone_node.cpp:1519-1540 | a refused verdict or an approved removal erases the baseline and leaves the stamp |
| `MovementRuns.MovementGate.OnRestore` | nodes/zone_node.cpp:886-899 | a restored entity gets stamp and baseline unless it has a stamp |
| `MovementRuns.ErasedIsNotRestored` | nodes/zone_node.cpp:886-899 | a player whose baseline was erased keeps its stamp, and so gets no baseline from a restore |
| `MovementRuns.MovementGate.SweepSilent` | nodes/zone_node.cpp:2085-2115 | exactly the players whose stamp is older than the lease and whose first entity is not the world's lose baseline, stamp and every entity; the others stay in order |
| `MovementRuns.BudgetsOverRuns` | nodes/zone_node.cpp:464-475 | in every run of packets, hand-ins, erasures, restorations and sweeps every budget stays between zero and the cap |
| `MovementRuns.PlayersAreIndependent` | nodes/zone_node.cpp:1348-1458 | a player's baseline and stamp are the run of what concerns it, its own packets and the sweeps |
| `MovementRuns.VerdictsAreIndependent` | nodes/zone_node.cpp:1349-1358 | and so is the verdict on each of its packets |
| `MovementRuns.BaseIffNotDropped` | nodes/zone_node.cpp:2100-2112 | a player who stood somewhere has a baseline if and only if it was not dropped since, and it is where it stood last |
| `MovementRuns.BeyondCapIff` | nodes/zone_node.cpp:1349-1358 | in every run a step longer than the cap, from where the player stood last, is accepted if and only if the baseline was dropped in between |
| `MovementRuns.SweepDropsIff` | nodes/zone_node.cpp:2090-2112 | of a player whose packets the zone claims and nobody hands in, a sweep drops the baseline if and only if it is older than the lease and the entity is not the world's |
| `MovementRuns.JumpAcceptedIff` | nodes/zone_node.cpp:1349-1358 | for such a player, a step longer than the cap is accepted if and only if, since the packet accepted last, it was erased or swept more than a lease after that packet |
| `MovementRuns.WaitAndJump` | nodes/zone_node.cpp:2090-2112 | a packet beyond the cap that is rejected just before the lease is over is accepted after the sweep a millisecond later |
| `MovementRuns.DrainingSweepsTheActive` | nodes/zone_node.cpp:1414-1458 | in a draining zone a sweep drops a player whose packet was accepted in the same millisecond |
| `MovementRuns.ServedIffConforming` | nodes/zone_node.cpp:445-476 | in every run all packets of a player are accepted if and only if every stretch from the making of a baseline to its next drop keeps to the allowances of its windows, starting with an empty budget |
| `MovementRuns.ServedWayIsBounded` | nodes/zone_node.cpp:464-475 | over such a stretch of acceptances the way is at most top speed times elapsed time |
| `MovementBudget.JudgeKeepsWithin` | nodes/zone_node.cpp:464-475 | against a baseline no accepted step is longer than the cap |
| `MovementBudget.AheadIsLongAgo` | nodes/zone_node.cpp:466-471 | a baseline stamped ahead of the clock is judged with a full budget |
| `MovementBudget.BudgetIsTightestRoom` | nodes/zone_node.cpp:464-475 | while all is accepted the budget is what the tightest of all windows has left |
| `MovementBudget.AcceptedIffConforming` | nodes/zone_node.cpp:445-476 | while a baseline is kept, all packets are accepted if and only if every window of them keeps to its allowance |
| `MovementBudget.StretchIsBounded` | nodes/zone_node.cpp:464-475 | while a baseline is kept, over a stretch of acceptances the way is at most the starting budget plus top speed times elapsed time |
| `MovementBudget.SpentWasEarned` | nodes/zone_node.cpp:464-475 | in every run, rejections included, what is spent and left was in the budget or earned since the last accepted packet, packet by packet |
| `MovementBudget.EarnedIsElapsed` | nodes/zone_node.cpp:1400-1410 | without rejections what is earned is elapsed time at top speed and what is spent the whole way |
| `MovementBudget.EarnedAgain` | nodes/zone_node.cpp:464-475 | in every run what is earned is the elapsed time at top speed plus, for each packet before the last, the time it came after the last accepted one |
| `MovementBudget.ElapsedBoundsIff` | nodes/zone_node.cpp:464-475 | elapsed time bounds what is earned if and only if no packet before the last was rejected at a later time than the last accepted one |
| `MovementBudget.RejectionsRefillTwice` | nodes/zone_node.cpp:464-475 | a concrete run in which rejections let a longer way through than elapsed time allows |
| `MovementBudget.HonestIsAccepted` | nodes/zone_node.cpp:445-476 | while its baseline is kept, a player within top speed, gap and jitter is never rejected if the cap covers what is walked in gap and jitter |
| `MovementBudget.BurstCoversHonest` | nodes/zone_node.cpp:458-467 | in particular if gap and jitter together are within the burst |
| `MovementBudget.UncoveredHonestIsRejected` | nodes/zone_node.cpp:458-475 | if the cap does not cover them, an honest stream that is rejected exists |
| `MovementRuns.PacedIsServed` | nodes/zone_node.cpp:464-475 | a player whose every step is within what is earned between two arrivals, and within the cap, is never rejected, whenever the zone sweeps |
| `MovementRuns.SweptHonestIsRejected` | nodes/zone_node.cpp:2090-2112 | if gap and jitter exceed the lease, there is jitter and something moves, an honest player can be swept and rejected |
| `MovementRuns.HonestServedIff` | nodes/zone_node.cpp:445-476 | no honest player is ever rejected, whenever the zone sweeps, if and only if the cap covers what is walked in gap and jitter, and these are within the lease or there is no jitter or nothing moves |
| `Roster.Erase` | nodes/zone_node.cpp:1525-1527 | removes every entity of that uuid and keeps the others in order |
| `Roster.Store` | nodes/zone_node.cpp:1549-1553 | replaces the first entity of that uuid or appends |
| `Roster.FindTarget` | nodes/zone_node.cpp:1149-1150 | the first entity of that uuid |
| `ActionGate.ZoneActions.OnAction` | nodes/zone_node.cpp:1120-1274 | a banned actor, an unknown verb, a missing or foreign target or an open breaker asks nothing; otherwise a request under a fresh id whose proposal waits; the world does not change |
| `ActionGate.ZoneActions.OnMove` | nodes/zone_node.cpp:1360-1391 | a plausible movement is put to the validator if there is room, the breaker lets it through and the entity was not asked about just before |
| `ActionRuns.AskedIff` | nodes/zone_node.cpp:1120-1205 | a request goes out if and only if the actor is not banned, the verb is known and its target, where it has one, the world's, the breaker lets it through and the write succeeds; otherwise nothing but the id may change |
| `ActionRuns.AskedIsRequested` | nodes/zone_node.cpp:1205-1274 | what then waits is what was asked for, under the id and for the actor of the request, due in half a second; the module is shown the verb, the target and the first 4064 bytes of the payload |
| `ActionRuns.MoveAskedIff` | nodes/zone_node.cpp:1360-1391 | a movement check goes out if and only if the breaker lets it through, fewer than 64 requests wait, the entity was not asked about within 30 milliseconds and the write succeeds; nothing waits to be applied |
| `ActionRuns.FewMovesWait` | nodes/zone_node.cpp:1360-1391 | in no run do more than 64 movement checks wait |
| `ActionRuns.ChecksAreSpaced` | nodes/zone_node.cpp:1364-1388 | in every run two checks about the same entity are at least 30 milliseconds apart |
| `ActionGate.ZoneActions.OnAck` | nodes/zone_node.cpp:1485-1572 | an unknown id changes nothing; a refusal evicts the proposal's uuid; an approval applies a waiting action and closes the breaker; the actor is answered |
| `ActionRuns.ReplyIsExact` | nodes/zone_node.cpp:1500-1572 | exactly a waiting action is answered, to its actor, request and verb, as accepted if and only if the verdict is not 0 |
| `ActionRuns.VerdictCloses` | nodes/zone_node.cpp:1485-1572 | exactly an approval of a waiting request closes the breaker |
| `ActionGate.ZoneActions.OnOverdue` | nodes/zone_node.cpp:1628-1691 | an overdue request is asked again under a fresh unrecorded id at most twice, then forgotten and the breaker tripped |
| `ActionRuns.OverdueIsExact` | nodes/zone_node.cpp:1628-1691 | a request is asked again, under a fresh id, exactly if it is overdue, was retried less than twice and the write succeeds; else, if overdue, it is given up and the breaker opened for two seconds, or shut off at the third time or if a reconnect failed |
| `ActionRuns.RetriesOverRuns` | nodes/zone_node.cpp:1636-1656 | in no run is a request retried more than twice |
| `ActionGate.Arbitrate` | nodes/validador_node.cpp:444-468 | an action is approved if and only if a loaded, unsuspected module with action rules says 1 |
| `ActionGate.StepKeeps` | nodes/zone_node.cpp:1485-1572 | every event keeps the invariant that ties waiting proposals, requests, approvals and applied changes together |
| `ActionGate.ActionsFailClosed` | nodes/zone_node.cpp:1205-1274 | in every run each applied action goes back to an action request of that id that proposed exactly it and was approved by the module; no id applies twice; the world is the outcome of the logged changes |
| `ActionRuns.EveryChangeWasAskedFor` | nodes/zone_node.cpp:1120-1274 | in every run each applied change has the event that asked for it: by the actor the module was asked about, not banned, sent under that id, with the breaker letting requests through and the entity the one requested |
| `ActionRuns.RepliesGoBack` | nodes/zone_node.cpp:1500-1572 | in every run an answer goes to the actor and request id of an event that asked, and says accepted exactly if it was applied |
| `ActionGate.OnlyAVerdictApplies` | nodes/zone_node.cpp:1485-1572 | the world changes only on a verdict for a waiting request, after the approval, and as recorded |
| `ActionGate.GoneStaysGone` | nodes/zone_node.cpp:1485-1500 | a request that is no longer waiting never waits or applies again, so late verdicts are ignored |
| `ActionGate.RetriesAreInert` | nodes/zone_node.cpp:1636-1656 | the answer to a retry changes nothing, in any run |
| `ActionGate.BreakerOverRuns` | nodes/zone_node.cpp:1674-1687 | the breaker is open only after one or two unanswered requests in a row |
| `ActionRuns.ProbeIsExact` | nodes/zone_node.cpp:1598-1602 | a probe closes or shuts off the breaker only when it is due, according to the connection |
| `ActionGate.RefusalChangesNothingIff` | nodes/zone_node.cpp:1519-1528 | a refusal changes nothing if and only if no entity has the proposal's uuid |
| `ActionGate.AcceptanceIsExact` | nodes/zone_node.cpp:1533-1562 | an acceptance leaves the approved entity as the first under its uuid, or none after a removal, and all others as they were; it makes no second copy and clears none away |
| `ActionGate.OneVerdictTwoEntities` | nodes/zone_node.cpp:1222-1239 | creations that differ only in angle and unseen payload are the same request, get the same ruling from every module, and each stores its own entity |
| `ActionGate.PayloadFixedIff` | nodes/zone_node.cpp:1222-1239 | no other payload leads to the same request if and only if the payload is shorter than 4064 bytes |
| `ActionGate.ProposalIsProposed` | nodes/zone_node.cpp:1178-1238 | the module is asked about the verb, place and payload of the very entity that waits; a moved or removed one is the world's own and the one asked about |
| `SocialPlane.SocialNode.ApplyDelta` | nodes/social_node.cpp:176-189 | the memory after each kind of delta |
| `SocialPlane.SocialNode.HandleAccount` | nodes/social_node.cpp:244-253 | the memory after a ban, its lifting or a change of permissions |
| `SocialPlane.AccountAfter` | nodes/social_node.cpp:244-253 | whose ban and permissions change, to what deadline, and that all others stay |
| `SocialPlane.SocialNode.Restore` | nodes/social_node.cpp:396-432 | the merge loop leaves the fold of the records onto whatever the node knew |
| `SocialPlane.PersistenceNode.StoreSocial` | nodes/persistance_node.cpp:207-261 | the store after each kind of delta |
| `SocialPlane.PersistenceNode.StoreAccount` | nodes/persistance_node.cpp:263-301 | the account document after each action; a lifted ban keeps the permissions |
| `SocialPlane.DocAfter` | nodes/persistance_node.cpp:263-301 | whose document changes, to what deadline or mark, and that permissions and bans do not touch each other |
| `SocialPlane.PersistenceNode.AnswerSocialQuery` | nodes/persistance_node.cpp:304-375 | at most the cap of records; in whatever order the documents come, replaying them rebuilds the store's state if and only if the cap covers two records a member and one a friendship and an account with an active ban or permissions; when members and friends use it up no ban is sent |
| `SocialPlane.Restart` | nodes/social_node.cpp:396-432 | a fresh node that asks and merges holds the store's state if and only if the cap covers it |
| `SocialPlane.FullGuildLosesBan` | nodes/persistance_node.cpp:320-375 | with 4096 members stored and the cap of 8192 the node restarts without the one permanent ban |
| `SocialPlane.RanksAgreeIff` | nodes/social_node.cpp:178-182 | a delta keeps memory and store in agreement on guilds if and only if a join carries rank zero and a rank is for a member |
| `SocialPlane.StoreMirrorsMemory` | nodes/persistance_node.cpp:207-301 | over every well-formed history the store has the same ranks, friendships, bans up to the clocks, and permissions |
| `SocialPlane.RestoredDeadline` | nodes/persistance_node.cpp:345-361 | the replayed deadline is after the stored one by at most a second and the delay, unless the seconds overflow 32 bits, exactly when it becomes permanent |
| `SocialPlane.TermFitsUnlessLongest` | nodes/persistance_node.cpp:361-361 | they overflow only for the longest term asked for in the millisecond it was stored |
| `SocialPlane.RestartRestores` | nodes/social_node.cpp:402-432 | after a restart: the same members, ranks and friendships, every active ban with its reason ending no earlier and at most a second and the delays later, no lifted or expired ban, and the permissions of accounts not under an active ban |

## Left out

- TLS, sealing, authentication, sockets, polling, reconnecting and name resolution: a connection is a FIFO of bytes whose calls move as much as a schedule says.
- Starting and deleting nodes: whether a child could be started is an input.
- The rules module: its verdict on an action is an arbitrary function, and the rule for moves an arbitrary answer.
- Load averages, thresholds, the sweep for stale zones and the fork between splitting and merging: a load report is low or high at will, and operations are enqueued at will.
- MongoDB: three collections keyed as the upserts key them, enumerated in an arbitrary order; write-through is reliable.
- Viewer, command line, load tools, login stub, client, logger, chat, parties, ghosts, interest and the other packet types: they would only add easy members.
- 32-bit wrap-around of request ids, drain ids and uuids: these are unbounded, so an id is never reissued. Chunk bounds stay within the coordinate limit.
- Floating point: the imbalance of a cut, positions, speeds and budgets are exact reals; in the codec floats are opaque 32-bit patterns.
- Reuse of a descriptor by a new connection: a child joins the cluster with one that was never used. The code keeps the state of a gone zone, and a new zone that is given its descriptor is refused.
- HandoffProtocol.NeverLost: leaves out the sweep of silent entities, removals by an approved action and failed writes. A crash is the eviction it leads to: until then the zone counts as slow. The region blob a draining module may serialise is not modelled either.
- Joint.TopologyStepIsHandoffStep: a zone joins the handoff when it connects, so that only a zone that has joined is heard or evicted.
- Joint.NeverLostTogether: commands of the topology and packets of the handoff travel on one link in the code; here each kind is in order, and the two are interleaved at will.
- Stream.OneSendOneReceive: is about messages of 1 to 65536 bytes on a link whose calls do not fail; what the code does with others is in `Stream.Connection.Receive`.
- Orchestration.Orchestrator.HandleZoneQuery: the rewriting of a loopback or own-host address to the one the client came by is not modelled.
- SocialPlane.Restart: the deadline of the restore, after which the node serves without the stored state, is not modelled.
- MovementRuns.MovementGate.OnRestore: a restored entity is judged at the speed stored with it; here there is one top speed, the ceiling the zone writes into every packet.
- MovementRuns.HonestServedIff: is about a zone that claims its players and does not erase them; a draining one drops them as in `MovementRuns.DrainingSweepsTheActive`.
- The filtering of what a client claims about its own kind, state and speed, and the keeping of its payload in an update that brings none: they would only add easy members.
- MovementRuns.MovementGate.Plausible: the length of a step is any non-negative function of two points, not the square root of a sum.
- ActionGate.ZoneActions.OnOverdue: is one turn of the loop over the waiting requests; the loop itself and the reconnect spacing are not modelled.
- SocialPlane.RestartRestores: all records are applied at one instant, and the two clocks differ by a constant and the delays.
