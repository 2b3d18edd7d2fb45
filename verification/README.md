# Etha: a verified model

Etha moves sharded tensors between two groups of ranks. It plans which local cell of which rank
feeds which other, cuts tensors into chunks, packs chunks into buckets, runs the buckets, and lets
long-lived agents agree, through a shared store, on which pairs and which sync rounds to run.

This project models that machinery in Dafny and proves what it promises. It has four parts.

**Planning.** `Layouts`, `Routing`, `RouteTables`, `Slices` and `Chunks` follow a pair of layouts
through the common grid, the stamped tags, the merged dictionary, the route table and the chunks of
every rank. A layout numbers the shards of a tensor dimension in mixed radix over the mesh
dimensions that shard it (`Radix`), which is how nested cutting numbers them (`NestedShards`);
gathering the stamped tensor may pick any holder of each grid cell, a different one for every target
(`Stamp`), and `ReplicaStamp` is the choice a gather over shards makes. `ChunkRegions` says what
every chunk knows of the tensors it moves. `TagCodec` holds the tags themselves, stored as float32.
`TraceMessages` and `ProcessGroups` cover the messages and process groups that planning needs.

**Partial sources.** `PartialGroups`, `Shadows`, `Lockstep` and `PartialReduce` cover sub-groups,
the union-find closure of reduce-only entries, the order of the all-reduces and what they compute;
`PartialBatches` carries this to batches that mix Partial and other tensors. `MeshPlaces`,
`MeshOrder`, `OrderedRendezvous`, `CircularWaits`, `PartialSequential`, `MeshDeadlock` and
`CrossedMesh` say on which meshes reductions and transfers together cannot deadlock. `Coalescing` says
when shipping chunks of one rank may share a bucket; `AlikeBuckets`, `BucketOrder`,
`CoalescedLockstep`, `OnePairLockstep`, `ShippingPeers` and `LockstepExample` say what that does to the
order of the all-reduces. `Planner` runs the planning steps from end to end.

**Execution.** `Buckets`, `BucketBoundaries`, `Relabelling`, `NoCoalescing`, `BucketBytes`,
`ChunkLists`, `Rendezvous`, `Sequential`, `SignatureExample`, `Redistribution`, `Pipeline`,
`PipelineTiming` and `PipelineRuns` cover bucketing, byte layout, the sequential mode as a
rendezvous of all ranks, the pipelined mode on one rank, and the meaning of a complete transfer.

**Agents.** `PairLog`, `PairOrder`, `PairKeys`, `PairWaiters`, `PairAgents`, `PairPasses` and
`PairRepeats` model N agents that complete pairs through a store-backed log, step by step under
every interleaving. `DualBatch`, `DualRounds`, `DualSignals`, `DualOutcomes`, `DualReuse` and
`DualAgents` model a colocated batch: registration, the two-role round handshake, parked callers,
generations and signals. `CommandQueue` models the semaphore-guarded ring, with `clear` as the
several steps it is. `PairExamples` and `DualExamples` hold the runs that break a promise.

Where the source changes state step by step the model has a class or a loop proved equal to a
function of the old state (`DualAgents.DualAgent`, `PairAgents.Agents`, `CommandQueues.CommandQueue`,
`ProcessGroups.GroupCache`, `Shadows.Forest`); the properties are then proved of those functions,
over whole runs.

## Main results

- A complete run of every rank's buckets leaves each target tensor equal to the target layout of the
  global tensor the sources held, writes every target element exactly once and leaves the sources
  as they were: any bucket size, any number of tensors, overlapping meshes included
  (`Redistribution.RedistributionPreservesMeaning`). It is stated for route tables that deliver
  every target cell from a holder of it. The planner builds such a table from any two layouts with
  a non-Partial target if every tag it stamps is exact in float32
  (`Sequential.PlannedTensorIsGood`, `PartialBatches.PlannedPartialIsFit`), which is so whenever
  (rank+1)·base^n is at most 2^24 (`TagCodec.TagsSurviveBelowBound`). The sides of a tensor are
  multiples of the grid. What a Partial source holds is what its chunks read after reducing, and
  its batch must have one signature per address, as the third result below says.
- Sequential mode without Partial sources never deadlocks, because every rank's bucket list is its
  projection of one global list (`Sequential.SequentialNeverDeadlocks`,
  `Buckets.BucketingCommutesWithFiltering`).
- With Partial sources a receiver cuts its chunks at the boundaries its senders use, at every bucket
  size, if and only if whatever reaches it from one source with one set of destinations is reduced
  over the same groups there (`Sequential.BucketListsProjectIff`); renaming keys keeps the
  boundaries if and only if it is one-to-one on the list (`Relabelling.BoundariesAgreeIff`).
- With Partial sources, one chunk per bucket and targets that read their own replica where they have
  one, transfers and all-reduces together never deadlock if on every source mesh the ranks of a replica
  stand in the same order whatever their Partial coordinates (`PartialSequential.PartialNeverDeadlocks`).
  For tensors replicated to their own ranks this is exact: they never get stuck if and only if the
  meshes are in that order, and in a batch with one that is not no run ever finishes
  (`MeshDeadlock.NeverStuckIff`, `MeshDeadlock.DisorderNeverFinishes`). Ranks that grow along the mesh
  are in it (`MeshPlaces.GrowingAgrees`).
- Bucketing cuts where the bytes say: of the buckets of one key all but the last reach the size, full
  buckets come out in the order of the chunks that filled them, and what is left over follows in the
  order in which the keys first appeared (`BucketBoundaries.OnlyTheLastIsShort`,
  `BucketBoundaries.FullBucketsStream`, `BucketBoundaries.ShortBucketsInFirstOrder`).
- Every chunk has the shape of the region it is read from or written to; one that does both has the
  shape of both if and only if the two tensors are cut into blocks of one shape, as in every routed
  tensor (`ChunkRegions.ChunksFitTheirRegions`, `ChunkRegions.RoutedChunksFit`).
- The pipelined mode ends, runs each bucket through each stage once, in list order per channel and
  inside the window at every moment; it asks for completion only when every window is full and launched,
  and finalizes a bucket exactly when it is reported complete. On disjoint regions both modes leave every
  copied value in its place and everything else as it was (`PipelineRuns.RunPipelined`,
  `Pipeline.RunSequential`).
- Reducing along one Partial mesh dimension after another, in any interleaving, gives every rank the
  reduction over its whole component; the components are the ranks that agree off the Partial
  dimensions, and union-find with path halving computes exactly them
  (`PartialReduce.AxisWiseIsFullReduction`, `PartialGroups.LinkedIffAgree`, `Shadows.ExpandShadows`).
- Any two ranks issue the all-reduces they share in one order, once per tensor and cell, whatever
  else the batch holds, in the chunk lists and in one-chunk bucket lists
  (`PartialBatches.PartialLockstep`, `PartialBatches.BucketedLockstep`). In coalesced buckets two peers
  in two or more tensors of one pair do so at every bucket size if and only if, of cells that share a
  target shard, both ship the same ones (`ShippingPeers.PeersInLockstepIff`); always, where no dimension
  is cut on both sides (`ShippingPeers.OneSidedInLockstep`).
- All agents complete the pairs they share in one order, and no InitPair caller is lost
  (`PairOrder.CompletionOrderAgrees`, `PairWaiters.NoCallerIsLost`). A poll of the leader logs exactly
  the unlogged pairs whose sides have as many registered ranks as each of them wrote, a retried pair
  again (`PairPasses.PassLogs`, `PairPasses.LoggedSidesAreComplete`, `PairPasses.RetryIsLogged`); a poll
  of any rank completes exactly the logged pairs it waits for that are still complete and whose
  completion succeeds (`PairPasses.ReadingSettles`). In every run what a rank remembers of a pair agrees
  with its own keys, so a repeated InitPair is accepted if and only if it says what they say
  (`PairRepeats.RepetitionAcceptedIff`).
- Rounds of a colocated batch run in increasing order, once, in one direction and only after both
  roles asked; a caller woken without an error got what it waited for (`DualRounds`). From every
  reachable state the two commands do run the round, in either order (`DualOutcomes.RoundRuns`); a query
  sees a round as done if and only if it or a later one has run, and hears of requests that were made and
  no others (`DualOutcomes.CompletionHeardIff`, `DualOutcomes.RequestIsHeard`,
  `DualOutcomes.HeardRequestsWereMade`).

## Where the code does not keep a promise

Each of these names a lemma with a failing run or input, and the lemma or lemmas that say when the
promise holds; where that is an if-and-only-if the text says so.

- Tags are stored in float32. A tag survives if and only if it is a multiple of the spacing of
  float32 at its size (`TagCodec.TagSurvivesIff`), so always below 2^24 and not in general above
  (`TagCodec.TagsLostAboveBound`).
- A registration for other pairs on a live colocated batch drops the batch and forgets the transfers
  parked on it (src/etha/tensor_bus/agent.py:1453-1459). `DualSignals.WaitersConserved` gives the
  exact condition, `DualExamples.AbortForgets` a run. The same path leaves the completion key behind,
  so the next generation answers that an old round is done (`DualSignals.SignalKeptIff`,
  `DualSignals.LeavesSignalIff`, `DualExamples.AbortMisleads`).
- A rejected round resets the request key although a later round may be parked, and completion can
  then pass the request (`DualSignals.OrderKeptIff`, `DualExamples.RequestOvertaken`). The docstring
  at src/etha/tensor_bus/agent.py:993 calls the request key "never reset".
- The comment at src/etha/tensor_bus/agent.py:1107-1108 says reusing a batch id in the opposite
  direction fails closed. Within a generation it does (`DualReuse.OppositeIsRefused`). The pin is
  filed under the generation, though: from every reachable state whose batch has run a round, cleaning
  up and registering again leads to a run in which the same batch id runs the opposite direction
  (`DualReuse.ReuseRunsTheOppositeDirection`).
- The comment at src/etha/tensor_bus/agent.py:510-519 says a rank whose keys are visible has its
  InitPair pending. A rank caught between writing its keys and having that InitPair rejected is
  counted and then skips the entry, for every size that differs from the one its side has
  (`PairExamples.CountedButSkipped`). `PairKeys.SkipsAreSafe` shows there is no other way, and
  `PairKeys.AgreeingSizesLoseNothing` that it cannot happen in a run whose InitPairs give each side
  one size.
- A client's identical retry for a matched pair is meant to be idempotent
  (src/etha/tensor_bus/agent.py:323-356). An InitPair with only one of the two layout payloads stores neither, so its
  repetition is refused (`PairRepeats.HalfLayoutIsRefused`); `PairRepeats.RepetitionAcceptedIff` gives the
  exact condition.
- src/etha/comm/ir.py:160-161 says shipping chunks differ by destination ranks across cells. Two cells
  of one source rank have the same destinations if and only if some tensor dimension is cut in two
  ways that do not divide each other (`Coalescing.ClashesIff`): two source and three target shards,
  for one (`Coalescing.CellsMayShareTargets`). Then they share a bucket key
  (`Coalescing.ClashSharesKey`). The same lines say that keying reduce-only chunks by cell keeps peers'
  all-reduces in sync. It does not where one peer ships two such cells and the other only reduces them:
  from two tensors on, some bucket size lets the peers run their all-reduces in different orders
  (`ShippingPeers.OneSideBreaksLockstep`), as in a plan for halves summed over two rows of ranks and
  sent as thirds elsewhere (`LockstepExample.PlanRowsToThirds`). `ShippingPeers.PeersInLockstepIff` gives
  the exact condition.
- The reduction groups are part of a sender's bucket key and not of a receiver's. Of a
  tensor that is reduced and one that is not, between the same ranks, the receiver makes fewer buckets
  than it is sent (`SignatureExample.ReceiverMerges`); `Sequential.BucketListsProjectIff` gives the
  exact condition.
- Sequential mode with Partial sources relies on the order of ranks in the mesh. Where two ranks of a
  replica stand in one order for some Partial coordinates and in the other for others, replicating the
  tensor to its own ranks never finishes; with one order there is always a next step
  (`MeshDeadlock.DisorderNeverFinishes`, `MeshDeadlock.NeverStuckIff`,
  `PartialSequential.PartialNeverDeadlocks`). With rows 0, 3 and 2, 1, summed along the columns, no rank
  can take its first step (`CrossedMesh.CrossedMeshDeadlocks`); `CrossedMesh.PlanCrossed` plans such a
  tensor. The agent numbers its meshes in growing order (src/etha/tensor_bus/agent.py:606-612).
- `bucket_size=1` gives one chunk per bucket if and only if no two empty chunks share a key
  (`NoCoalescing.UnitBucketsIff`, `NoCoalescing.EmptiesShareABucket`).
- `max_in_flight <= 0` with buckets to run never makes progress (`PipelineRuns.NoWindowNoProgress`).
- `clear` on the command queue empties the ring in one transaction and its semaphores in three loops
  after it. It leaves the books right if and only if no space permit is outside the semaphore when
  the drain of the space semaphore ends (`CommandQueues.ClearIsSafeIffQuiet`); alone, that is when
  none is held or owed at the call (`CommandQueues.ClearAloneIsSafeIff`). A producer in between mints
  a permit (`CommandQueues.ClearRaceMintsPermit`, `CommandQueues.ClearRaceOverwrites`) or loses the
  wake-up of its message (`CommandQueues.ClearRaceLosesWakeUp`).
- A corrupt message taken singly loses one unit of capacity (`CommandQueues.LeakIsCorruptSingles`).

## Model

| member | source | states |
|---|---|---|
| `TagCodec.EncodeTag` | src/etha/comm/get_m2m_map.py:186-188 | The encoding loop computes the base-N number of rank and coordinates. |
| `TagCodec.DecodeTag` | src/etha/comm/get_m2m_map.py:227-237 | The decoding loop computes `Decode`, coordinates in their original order. |
| `TagCodec.TagInjective` | src/etha/comm/get_m2m_map.py:183-189 | Different endpoints with coordinates below the base have different tags. |
| `TagCodec.DecodeInvertsEncode` | src/etha/comm/get_m2m_map.py:183-237 | Decoding returns rank and coordinates for every rank, dimension count and in-range coordinate. |
| `TagCodec.Float32ExactIff` | src/etha/comm/get_m2m_map.py:180-205 | A tag is stored exactly if and only if it is a multiple of the float32 spacing at its size. |
| `TagCodec.UlpIsSpacing` | src/etha/comm/get_m2m_map.py:180-189 | The spacing of float32 at a tag is the power of two that leaves a 24-bit significand. |
| `TagCodec.Float32IsNearest` | src/etha/comm/get_m2m_map.py:189-205 | The stored tag is a multiple of the spacing, none is nearer, and of two equally near ones it is the even one. |
| `TagCodec.TagSurvivesIff` | src/etha/comm/get_m2m_map.py:180-237 | The round trip through the stored tensor returns the endpoint if and only if the tag is exact. |
| `TagCodec.TagsSurviveBelowBound` | src/etha/comm/get_m2m_map.py:180-237 | The round trip holds whenever (rank+1)·base^n is at most 2^24. |
| `TagCodec.TagsLostAboveBound` | src/etha/comm/get_m2m_map.py:180-237 | From 2^24 on, of any two neighbouring cells at least one is read back wrong. |
| `Layouts.TensorNdim` | src/etha/comm/get_m2m_map.py:40-51 | One more than the largest sharded dimension, and at least one. |
| `Layouts.GetShardShape` | src/etha/comm/get_m2m_map.py:54-60 | The loop yields, per tensor dimension, the product of the mesh dimensions that shard it. |
| `Layouts.CommonGrid` | src/etha/comm/get_m2m_map.py:162-172 | The grid is the per-dimension least common multiple, and either side's cuts multiply its shards up to it. |
| `NestedShards.ShardsNest` | src/etha/comm/get_m2m_map.py:177-178 | The block of a rank's shard number is what is left when each mesh dimension in turn cuts what the earlier ones left into equal parts. |
| `Layouts.GlobalCellInjective` | src/etha/comm/get_m2m_map.py:177-178 | Equal grid cells come from equal local cells and equal shard numbers. |
| `Layouts.GridCovered` | src/etha/comm/get_m2m_map.py:177-192 | Inside every replica some rank holds each grid cell. |
| `Layouts.HolderIsUnique` | src/etha/comm/get_m2m_map.py:177-192 | And only one: whoever has the wanted shards and the viewer's other coordinates is the holder the viewer sees. |
| `Routing.PlanGrid` | src/etha/comm/get_m2m_map.py:137-172 | A Partial target is refused, nothing else is; the problem that results is valid and its grid is the least common multiple. |
| `Routing.TagBaseIsLeast` | src/etha/comm/get_m2m_map.py:183 | The tag base is the least number above every extent of the grid. |
| `Routing.TraceIsRight` | src/etha/comm/get_m2m_map.py:218-240 | A target cell decodes to a source endpoint that holds the same grid cell, whichever holder was stamped. |
| `Routing.ReplicaStampIsValid` | src/etha/comm/get_m2m_map.py:191-192 | What a gather gives a viewer is a valid stamp for every viewer. |
| `Routing.LocalMap` | src/etha/comm/get_m2m_map.py:224-240 | One target rank's loop collects all its readings in row-major order. |
| `Routing.GatherMaps` | src/etha/comm/get_m2m_map.py:249-258 | Merging the gathered dictionaries equals collecting all readings in gather order. |
| `RouteTables.DictToRoutes` | src/etha/comm/get_m2m_map.py:19-37 | One route per entry, in strictly increasing (rank, cell) order, with the transport its destinations call for. |
| `RouteTables.TableIsCanonical` | src/etha/comm/get_m2m_map.py:19-37 | A dictionary has only one such table, so every rank builds the same. |
| `RouteTables.TableIsRight` | src/etha/comm/get_m2m_map.py:218-262 | Any table that lists the readings delivers every target cell exactly once, from a holder of its grid cell. |
| `RouteTables.RoutesAreRight` | src/etha/comm/get_m2m_map.py:218-262 | The planner's table does, and each of its routes ships. |
| `RouteTables.RouteRanksDistinct` | src/etha/comm/get_chunks.py:94 | A route feeds no rank twice. |
| `TraceMessages.SendTargets` | src/etha/comm/get_m2m_map.py:194-202 | The strided loop sends, once each, exactly to its targets outside the source mesh. |
| `TraceMessages.TraceMessagesMatch` | src/etha/comm/get_m2m_map.py:194-210 | A source sends to a rank if and only if that rank is outside the source mesh and receives from it. |
| `TraceMessages.EveryReceiveIsServed` | src/etha/comm/get_m2m_map.py:194-210 | Every receive has exactly one sender. |
| `Slices.GetSlicerTuples` | src/etha/comm/utils.py:41-57 | The loop and the product list every block of the tensor in row-major order. |
| `Slices.LinearIndex` | src/etha/comm/utils.py:73-77 | The reversed loop computes the row-major number of a cell. |
| `Slices.GetSliceFromMultiIndex` | src/etha/comm/utils.py:60-78 | The tuple found is the cell's own block. |
| `Slices.InBlockIff` | src/etha/comm/utils.py:53-55 | On divisible sides a block contains an element if and only if the element's quotient is the cell. |
| `Chunks.BuildRoute` | src/etha/comm/get_chunks.py:90-182 | One pass of the route loop yields the route's chunks on this rank; the `ChunkRegions` and `ChunkLists` rows say what they are. |
| `Chunks.M2mToChunks` | src/etha/comm/get_chunks.py:60-183 | The chunk list is the concatenation over the routes. |
| `ChunkRegions.ChunksAreAddressed` | src/etha/comm/get_chunks.py:90-182 | Every chunk of a route carries the route's source, destination ranks and element size; it reads the route's cell of the rank's source tensor, or writes a destination on the rank in its target tensor, or both, and holds no other region. |
| `ChunkRegions.ChunksFitTheirRegions` | src/etha/comm/ir.py:251-262 | A chunk that only reads or only writes has the shape of its region, dimension by dimension; one that does both has the shape of both regions if and only if the rank's two tensors are cut into blocks of one shape. |
| `ChunkRegions.RoutedChunksFit` | src/etha/comm/get_chunks.py:107-170 | In every chunk list of a routed tensor all chunks have the shape of all their regions, one block, and its bytes. |
| `ChunkRegions.RoutedJobsFit` | src/etha/comm/get_chunks.py:60-89 | On every rank a routed tensor only names cells its local tensors have. |
| `ChunkLists.RouteChunksCases` | src/etha/comm/get_chunks.py:90-182 | A rank has at most a source chunk and one chunk that writes per route. |
| `ChunkLists.RolesFollowKey` | src/etha/comm/ir.py:205-211 | Source and target role are functions of the bucket key, so reading them from a bucket's first chunk is right. |
| `ChunkLists.SourceChunkReads` | src/etha/comm/get_chunks.py:96-166 | Every chunk on the source rank reads the source tensor at the route's source cell. |
| `ChunkLists.TargetChunkServes` | src/etha/comm/get_chunks.py:123-182 | Every chunk that writes covers the block of one destination of its route; it is a local copy if and only if it is on the source rank and nothing shipped carries the reduced value. |
| `ChunkLists.RouteProjects` | src/etha/comm/get_chunks.py:90-182 | A rank's chunks of a route are the route's operations that involve it, sizes included, keyed as the rank sees them, for Partial and other sources. |
| `ChunkLists.RouteReducesOnce` | src/etha/comm/get_chunks.py:102-166 | With Partial groups a route reduces once on its source rank, shipping or not, and nowhere else. |
| `ChunkLists.ReductionsFollowTable` | src/etha/comm/get_chunks.py:90-166 | A rank's reductions come in the order of its cells in the table. |
| `ProcessGroups.GroupCache.GetOrCreate` | src/etha/pg_utils.py:9-19 | The handle is cached under the sorted rank set; a hit creates nothing. |
| `ProcessGroups.GroupCache.GroupRanks` | src/etha/comm/get_chunks.py:14-26 | The loop collects the sorted memberships of all broadcast routes. |
| `ProcessGroups.GroupCache.Prewarm` | src/etha/comm/get_chunks.py:29-47 | Groups are created for the union of all maps, in one sorted pass. |
| `ProcessGroups.PrewarmIgnoresMapOrder` | src/etha/comm/get_chunks.py:29-47 | From equal caches the calls and handles do not depend on the order of the maps. |
| `ProcessGroups.ChunkBuildingHits` | src/etha/comm/get_chunks.py:86-87 | After prewarming, building chunks of any of the maps creates no group. |
| `ProcessGroups.BroadcastHits` | src/etha/comm/transfer.py:39-41 | And every broadcast finds its group. |
| `ProcessGroups.FirstTouchDiverges` | src/etha/comm/get_chunks.py:32-40 | Without the pass, first touches in opposite orders name a group differently. |
| `PartialGroups.EnumerateSubGroups` | src/etha/comm/utils.py:17-38 | The lines of the mesh along the dimension, in row-major order; out-of-range dimensions are refused. |
| `PartialGroups.TogetherIff` | src/etha/comm/utils.py:21-26 | Two ranks share a sub-group if and only if they agree on every other coordinate. |
| `PartialGroups.LinkedIffAgree` | src/etha/comm/get_m2m_map.py:72-98 | Chains of sub-groups connect two ranks if and only if they agree on every coordinate that is not Partial. |
| `Shadows.HalvingKeepsForest` | src/etha/comm/get_m2m_map.py:87-91 | Pointing a node at its grandparent keeps all roots and shortens the way. |
| `Shadows.LinkingKeepsForest` | src/etha/comm/get_m2m_map.py:96-98 | Hanging one root under another merges exactly their two trees. |
| `Shadows.Forest.Find` | src/etha/comm/get_m2m_map.py:87-91 | Terminates, returns the root and keeps the partition. |
| `Shadows.Forest.JoinAll` | src/etha/comm/get_m2m_map.py:93-98 | The partition is the smallest equivalence that joins the members of every sub-group. |
| `Shadows.Forest.Components` | src/etha/comm/get_m2m_map.py:100-102 | Every rank is filed under its root, and only there. |
| `Shadows.ExpandShadows` | src/etha/comm/get_m2m_map.py:63-114 | A rank has an entry at a cell if and only if it had one or a member of its component did; old entries are kept, added ones are empty. |
| `Lockstep.ExpandedRoutesAreRight` | src/etha/comm/get_m2m_map.py:256-262 | With the reduce-only entries the table still delivers every target cell exactly once. |
| `Lockstep.RankReduces` | src/etha/comm/get_chunks.py:90-166 | A rank reduces the cells of its component, sorted, each exactly once, split or colocated. |
| `PartialBatches.PlannedPartialIsFit` | src/etha/comm/get_m2m_map.py:117-269 | With the reduce-only entries added, what the planner builds meets the executor's assumptions. |
| `PartialBatches.PartialLockstep` | src/etha/comm/get_m2m_map.py:19-37 | Two ranks issue the all-reduces of the tensors whose Partial groups join them in the same (tensor, cell) order, without repetition, in any batch. |
| `PartialBatches.BucketedLockstep` | src/etha/comm/get_buckets.py:26-29 | The same holds in the order of the bucket lists when every chunk reaches the bucket size. |
| `PartialBatches.OneChunkBuckets` | src/etha/comm/get_buckets.py:26-29 | Then a rank's bucket list is its chunk list, one chunk each. |
| `Coalescing.SingleCellTargetsDiffer` | src/etha/comm/ir.py:157-161 | If every target rank has one cell, two routes never feed the same rank. |
| `Coalescing.OneSidedCellsDiffer` | src/etha/comm/ir.py:157-161 | In every right table, if no dimension is cut into cells on both sides, two cells of one source rank never feed a common rank. |
| `Coalescing.CellsShareTargetsIff` | src/etha/comm/ir.py:157-161 | In a planned table two shipping cells of one source rank have the same destination ranks if they lie in one target shard, and none in common if they do not. |
| `Coalescing.CrossCutIff` | src/etha/comm/get_m2m_map.py:162-172 | A dimension is cut into cells on both sides if and only if neither shard count divides the other. |
| `Coalescing.ClashesIff` | src/etha/comm/ir.py:157-161 | Two shipping cells of one rank have the same destination ranks somewhere in a planned table if and only if some dimension's shard counts divide each other in neither direction. |
| `Coalescing.ClashSharesKey` | src/etha/comm/ir.py:148-169 | Then their chunks have the same bucket key. |
| `Coalescing.HalvesToThirdsIsValid` | src/etha/comm/get_m2m_map.py:155-172 | Two source shards and three target shards with the grid of six form a valid problem. |
| `Coalescing.CellsMayShareTargets` | src/etha/comm/ir.py:157-161 | From halves to thirds two cells of one source rank have the same destination ranks in every planned table. |
| `AlikeBuckets.AlikeOrder` | src/etha/comm/get_buckets.py:12-43 | Two lists with the same chunk sizes in which the same chunks share a key run their chunks in the same order at every bucket size. |
| `BucketOrder.SplitKeyShows` | src/etha/comm/get_buckets.py:12-43 | Where three chunks share a key in one list and the middle one does not in the other, the orders differ at every size above all bytes. |
| `CoalescedLockstep.LockstepIff` | src/etha/comm/ir.py:152-161 | Two ranks run the all-reduces they share in one order at a bucket size if and only if the chunks of each that reduce, bucketed by themselves, run in one order. |
| `OnePairLockstep.OnePairLockstepIff` | src/etha/comm/ir.py:152-161 | Peers in two or more tensors of one pair are in lockstep at every bucket size if and only if they put the same cells under a common key. |
| `ShippingPeers.GroupsAlikeIff` | src/etha/comm/ir.py:152-169 | They do if and only if, of different cells in one target shard, both ship the same ones. |
| `ShippingPeers.PeersInLockstepIff` | src/etha/comm/ir.py:152-161 | So in a planned table the peers are in lockstep at every bucket size if and only if they ship those cells alike. |
| `ShippingPeers.OneSidedInLockstep` | src/etha/comm/ir.py:152-161 | Where no dimension is cut into cells on both sides they are, for any number of tensors. |
| `ShippingPeers.OneSideBreaksLockstep` | src/etha/comm/ir.py:152-161 | Where a target wants two cells of a rank and no target that wants them looks at the replica of its peer, some bucket size puts the two out of lockstep. |
| `LockstepExample.PlanRowsToThirds` | src/etha/comm/get_m2m_map.py:117-269 | The planner, with the views its trace messages give, builds such a batch: halves summed over two rows of ranks, sent as thirds to three others. |
| `PartialReduce.ReducePermute` | src/etha/comm/ir.py:128-129 | One commutative, associative operation gives the same result for every order of contributions. |
| `PartialReduce.ReductionsProgress` | src/etha/comm/ir.py:128-129 | As long as a rank is not finished, some group has all its members at the same all-reduce. |
| `PartialReduce.FireShrinks` | src/etha/comm/ir.py:128-129 | Every all-reduce leaves strictly less to do. |
| `PartialReduce.AxisWiseIsFullReduction` | src/etha/comm/ir.py:121-129 | After any finished interleaving every rank holds the reduction over its component, in any order of its ranks. |
| `PartialReduce.CreatePartialGroups` | src/etha/tensor_bus/agent.py:62-86 | A mesh rank gets one group per Partial dimension, its own line; the group-creating calls do not depend on the rank that makes them. |
| `Buckets.ChunkToBucketOps` | src/etha/comm/get_buckets.py:12-43 | The two loops compute `Bucketize`; the next rows say what its buckets hold, where they end and in which order they come. |
| `Buckets.BucketsAreSound` | src/etha/comm/get_buckets.py:24-42 | Buckets are not empty, have one key each, and with several chunks stay below twice the size. |
| `Buckets.BucketsKeepEveryChunk` | src/etha/comm/get_buckets.py:24-42 | Big chunks keep their order, and the small chunks of each key keep theirs. |
| `Buckets.BucketsPartition` | src/etha/comm/get_buckets.py:24-42 | No chunk is lost or doubled. |
| `BucketBoundaries.OnlyTheLastIsShort` | src/etha/comm/get_buckets.py:34-38 | Of the buckets of one key, all but the last reach the size. |
| `BucketBoundaries.FullBucketsStream` | src/etha/comm/get_buckets.py:24-38 | One more chunk keeps the full buckets and adds one exactly if it is big or fills what its key has left over. |
| `BucketBoundaries.FullBucketsFirst` | src/etha/comm/get_buckets.py:40-42 | Buckets that reach the size come before those that do not. |
| `BucketBoundaries.ShortBucketsInFirstOrder` | src/etha/comm/get_buckets.py:40-42 | The others come in the order in which their keys first had a small chunk. |
| `Buckets.BucketingCommutesWithFiltering` | src/etha/comm/get_buckets.py:12-43 | For every predicate on keys, bucketing then filtering equals filtering then bucketing. |
| `Relabelling.RelabelKeepsBoundaries` | src/etha/comm/get_buckets.py:12-43 | Renaming keys one-to-one does not move a bucket boundary. |
| `Relabelling.BoundariesAgreeIff` | src/etha/comm/get_buckets.py:12-43 | The boundaries agree at every bucket size if and only if the renaming is one-to-one on the list. |
| `NoCoalescing.LargeStayAlone` | src/etha/comm/get_buckets.py:26-29 | Chunks that reach the size become one-chunk buckets in list order. |
| `NoCoalescing.UnitBucketsIff` | src/etha/comm/get_buckets.py:18-20 | Size 1 gives one chunk per bucket if and only if no two empty chunks share a key. |
| `NoCoalescing.EmptiesShareABucket` | src/etha/comm/get_buckets.py:18-42 | Any two empty chunks of one key end up in one bucket at size 1. |
| `BucketBytes.Offsets` | src/etha/comm/ir.py:194-199 | Offsets are the prefix sums, and the total is the last offset plus the last size. |
| `BucketBytes.OneChunkHolds` | src/etha/comm/ir.py:194-227 | No byte belongs to two chunks, and none lies outside the buffer. |
| `BucketBytes.SomeChunkHolds` | src/etha/comm/ir.py:194-227 | Every byte below the total belongs to a chunk. |
| `BucketBytes.Pack` | src/etha/comm/ir.py:251-262 | The copy loop leaves every chunk at its offset. |
| `BucketBytes.RoundTrip` | src/etha/comm/ir.py:251-264 | What the receiver takes out of the buffer is what the sender put in. |
| `Rendezvous.RunKeepsProjection` | src/etha/comm/comm_methods.py:68-72 | While lists are projections of one common list, every rendezvous keeps them so. |
| `Rendezvous.NoDeadlock` | src/etha/comm/comm_methods.py:68-72 | Such lists never block: some operation is at the head for all its ranks, or all lists are empty and every operation ran once. |
| `OrderedRendezvous.StepNeverDeadlocks` | src/etha/comm/comm_methods.py:68-72 | Lists that rise in one key, with each operation in the list of everyone it needs, never block in any reachable state. |
| `Sequential.PlannedTensorIsGood` | src/etha/comm/get_m2m_map.py:117-269 | What the planner builds meets the executor's assumptions, whichever replica each target reads. |
| `Sequential.BucketListsProject` | src/etha/comm/get_buckets.py:12-43 | Without Partial sources every rank's bucket list is its projection of one global bucket list, boundaries and byte counts included. |
| `Sequential.BucketListsProjectIff` | src/etha/comm/ir.py:148-169 | With any sources a rank's bucket list is that projection, keyed as the rank sees it, at every bucket size, if and only if what it receives has one signature per source and destination set. |
| `Sequential.SharedBucketsAgree` | src/etha/comm/ir.py:148-169 | Under that condition two ranks list the buckets they share in one order with the same chunks and bytes, signatures erased. |
| `SignatureExample.TwoSignaturesMerge` | src/etha/comm/ir.py:163-169 | Where it fails, a rank builds fewer buckets than it is sent, at every size above what it receives. |
| `SignatureExample.ReducedTwin` | src/etha/tensor_bus/agent.py:76-86 | A tensor replicated along a source dimension and the same tensor summed along it have one table and differ in what is reduced at every source that feeds another rank. |
| `SignatureExample.ReceiverMerges` | src/etha/comm/ir.py:163-169 | It fails for one byte sent from rank 0 to rank 1 from a Replicate and from a Partial source, with reductions set up exactly for the Partial one. |
| `Sequential.WireNeverDeadlocks` | src/etha/comm/comm_methods.py:68-75 | Under that condition the transfers alone never block, and a finished run executed each global bucket once. |
| `Sequential.SequentialNeverDeadlocks` | src/etha/comm/comm_methods.py:68-75 | Without Partial sources, in every reachable state some bucket can run, or all lists are empty and each global bucket ran exactly once. |
| `MeshPlaces.PlacesRise` | src/etha/comm/get_m2m_map.py:19-37 | Where the ranks of a replica stand in the same order whatever their Partial coordinates, it is the order of the ranks at the same places with Partial coordinates zero. |
| `MeshPlaces.GrowingAgrees` | src/etha/tensor_bus/agent.py:606-612 | Ranks that grow along the mesh stand in the same order in every replica. |
| `PartialSequential.InvolvedAgree` | src/etha/comm/get_m2m_map.py:191-240 | All sources of the routes that involve a rank are in one replica: they share their Partial and Replicate coordinates. |
| `PartialSequential.SeenOnHolder` | src/etha/comm/get_m2m_map.py:191-216 | A viewer in the replica of a source rank sees each of its cells on that rank. |
| `PartialSequential.RankStepsAre` | src/etha/comm/ir.py:105-137 | With one chunk per bucket a rank's steps are, route by route, its reductions and then its transfer. |
| `PartialSequential.PartialNeverDeadlocks` | src/etha/comm/comm_methods.py:68-72 | With one chunk per bucket, own-replica reads and replicas whose ranks stand in the same order whatever their Partial coordinates, all-reduces and transfers together never block in any reachable state. |
| `PartialSequential.FinishedRanksRanAll` | src/etha/comm/comm_methods.py:68-72 | A rank whose list is empty has run exactly its list, in order. |
| `CircularWaits.CircleNeverRuns` | src/etha/comm/comm_methods.py:68-72 | Steps of a run that each have to come after the one before, in a circle, are not in the run. |
| `CircularWaits.CanFinish` | src/etha/comm/comm_methods.py:68-72 | Lists that block in no reachable state have a run that finishes them. |
| `MeshOrder.DisorderCrosses` | src/etha/comm/get_m2m_map.py:19-37 | On a mesh whose replicas disagree, two ranks of a replica and their peers along one Partial dimension stand in opposite orders. |
| `MeshDeadlock.ReplicaIsFed` | src/etha/comm/get_m2m_map.py:191-240 | Replicated to its own ranks, the first cell of every source rank feeds everyone in its replica. |
| `MeshDeadlock.DisorderNeverFinishes` | src/etha/comm/comm_methods.py:68-72 | With one chunk per bucket, no run of a batch finishes that holds a tensor replicated to its own ranks from a mesh whose replicas disagree. |
| `MeshDeadlock.NeverStuckIff` | src/etha/comm/comm_methods.py:68-72 | A batch of tensors replicated to their own ranks blocks in no reachable state if and only if on each source mesh the ranks of a replica stand in the same order whatever their Partial coordinates. |
| `Planner.PlanTensor` | src/etha/comm/get_m2m_map.py:117-269 | Grid, stamps, gather, reduce-only entries and table, run one after the other, give a tensor fit for execution. A target that is a source reads its own replica, any other that of the source its trace message comes from, and each cell is fed from a rank of that replica. |
| `CrossedMesh.CrossedTable` | src/etha/comm/get_m2m_map.py:218-262 | On the mesh with rows 0, 3 and 2, 1, summed along columns, sharded along rows and replicated to the same ranks, the first two routes are broadcasts from 0 and 1 within their rows. |
| `CrossedMesh.CrossedMeshDeadlocks` | src/etha/comm/comm_methods.py:68-72 | There no step can go first, whatever view, gather and dictionary the plan used. |
| `CrossedMesh.CrossedDisagrees` | src/etha/comm/get_m2m_map.py:19-37 | Its rows stand in opposite orders. |
| `CrossedMesh.CrossedMeshNeverFinishes` | src/etha/comm/comm_methods.py:68-72 | Whatever else the batch holds and however many cells a rank has, no run with such a tensor finishes. |
| `CrossedMesh.PlanCrossed` | src/etha/comm/get_m2m_map.py:117-269 | The planner builds a tensor that meets the conditions of the two results above. |
| `Redistribution.OneWriter` | src/etha/comm/get_chunks.py:89-183 | Exactly one operation writes each target element. |
| `Redistribution.ElementArrives` | src/etha/comm/get_chunks.py:89-183 | It is written once and receives the global element its layout puts there. |
| `Redistribution.RedistributionPreservesMeaning` | src/etha/comm/comm_methods.py:68-72 | Every complete run leaves all target tensors equal to the target layout of the global tensor, and all sources untouched; a Partial source holds its reduced values. |
| `Pipeline.RunSequential` | src/etha/comm/comm_methods.py:68-72 | Sequential mode applies the buckets one after the other. On disjoint regions, whatever is copied from where, every written place ends with the value its origin had at the start, and every other place is untouched. |
| `Pipeline.EachBucketCopies` | src/etha/comm/comm_methods.py:68-72 | On any plan, overlapping or not, a bucket copies what the buckets before it have left. |
| `PipelineRuns.RunPipelined` | src/etha/comm/comm_methods.py:77-132 | The loops end; each stage sees every bucket once, in list order per channel, within the window at every prefix. Completion is asked for only when every channel's window is full and launched, only of the oldest bucket in flight, and a bucket is finalized exactly when it is reported complete. On disjoint regions memory equals sequential mode, with every copied value in its place and all else untouched. |
| `PipelineRuns.EverythingDone` | src/etha/comm/comm_methods.py:124-132 | With all queues empty the memory is that of sequential mode. |
| `PipelineRuns.WorkIsInFlight` | src/etha/comm/comm_methods.py:96-122 | When nothing can be prepared or launched, work left means something is in flight. |
| `PipelineTiming.AllBlockedIsRipe` | src/etha/comm/comm_methods.py:96-122 | When no channel can prepare and nothing waits to be launched, every channel has launched a full window or all it has. |
| `PipelineRuns.NoWindowNoProgress` | src/etha/comm/comm_methods.py:105 | With a window of zero or less nothing is ever prepared, launched or finalized. |
| `PairAgents.Agents.CheckSideReady` | src/etha/tensor_bus/agent.py:424-440 | It returns a list exactly if the list holds all registered ranks of the side in rising order, at least one, and every one of them wrote the length of the list as the size; so none without such a list. |
| `PairAgents.Agents.HandleInitPair` | src/etha/tensor_bus/agent.py:299-422 | Repeats of a matched pair are answered at once if the layouts agree and refused if not; otherwise keys and layouts are written, sizes compared, the size published and the caller parked, each refusal recorded and released. |
| `PairAgents.Agents.AppendReadyPairs` | src/etha/tensor_bus/agent.py:477-495 | The leader looks at each pending pair once, in order, and logs those ready and not marked. |
| `PairAgents.Agents.ConsumeCompletionLog` | src/etha/tensor_bus/agent.py:497-537 | Entries are read to the end; each pending pair whose sides are both still ready completes and wakes its callers, or fails, wakes them with the error and stays; what a completed pair learned of its peers is kept. |
| `PairAgents.Agents.PollPendingPairs` | src/etha/tensor_bus/agent.py:442-467 | Nothing happens without a pending pair; else the leader appends and every rank consumes, as the steps of the protocol do. |
| `PairPasses.LoggedSidesAreComplete` | src/etha/tensor_bus/agent.py:424-440 | In every run, when a step adds to the log, each side of the pair has exactly as many registered ranks as every one of them wrote, and the entry counts all of them. |
| `PairPasses.PassLogs` | src/etha/tensor_bus/agent.py:477-495 | A pass of the leader logs exactly the unmarked pairs it waits for whose sides are both complete, each once, in rising order, and marks them. |
| `PairPasses.MarksFollowTheLog` | src/etha/tensor_bus/agent.py:384-386 | A pair is marked when it is logged, and until an InitPair retries it. |
| `PairPasses.RetryIsLogged` | src/etha/tensor_bus/agent.py:384-386 | After a retry by any rank, the leader's next poll logs a complete pair it waits for once more. |
| `PairPasses.ReadingSettles` | src/etha/tensor_bus/agent.py:497-537 | Reading the log to its end completes exactly the pending pairs that an unread entry names, whose sides are complete and whose completion succeeds, and remembers their names and head counts; others stay, without callers if an entry named them. |
| `PairPasses.ReadingWakes` | src/etha/tensor_bus/agent.py:521-537 | All callers parked on a pair that an unread entry names are woken. |
| `PairRepeats.RunRemembers` | src/etha/tensor_bus/agent.py:322-387 | In every run the sizes a rank remembers of matched and pending pairs are those it wrote under its own keys. |
| `PairRepeats.RepetitionAcceptedIff` | src/etha/tensor_bus/agent.py:322-359 | For a matched pair, an InitPair of a side the rank registered is accepted if and only if it names the two peers and repeats the size and readable layout of the rank's own keys; either way it only settles its caller. |
| `PairRepeats.RefusedBeforeWritingIff` | src/etha/tensor_bus/agent.py:361-375 | For a pending pair, an InitPair is refused before it writes if and only if it names a foreign peer or another size for a side this rank has joined. |
| `PairRepeats.DisagreeingInit` | src/etha/tensor_bus/agent.py:398-410 | Undisturbed, an InitPair whose size differs from the shared one leaves its registration and own size, changes nothing else and fails its caller. |
| `PairRepeats.AgreeingInit` | src/etha/tensor_bus/agent.py:375-411 | Undisturbed, any other leaves registration and sizes in the store, its caller parked on the pair, and the mark cleared if the pair was pending already. |
| `PairRepeats.LayoutIsWritten` | src/etha/tensor_bus/agent.py:413-422 | It stores its layout if it has both payloads, and touches no layout otherwise. |
| `PairRepeats.HalfLayoutIsRefused` | src/etha/tensor_bus/agent.py:343-355 | With one payload and nothing stored, a repetition is refused. |
| `PairOrder.LogOnlyGrows` | src/etha/tensor_bus/agent.py:492-494 | No step rewrites an entry. |
| `PairOrder.EveryRankReadsThePrefix` | src/etha/tensor_bus/agent.py:499-504 | In every run what a rank has read is a prefix of the one log. |
| `PairOrder.RunOrder` | src/etha/tensor_bus/agent.py:442-537 | With outcomes uniform per entry, a pair completes at one entry only, and the leader has read all it logged when it is idle. |
| `PairOrder.CompletionOrderAgrees` | src/etha/tensor_bus/agent.py:442-463 | Any two ranks complete the pairs they have in common in the same order. |
| `PairKeys.ReadyAreBacked` | src/etha/tensor_bus/agent.py:424-440 | Everyone counted for a ready side is waiting, has matched, or is still writing its keys. |
| `PairKeys.SplitSideNeverReady` | src/etha/tensor_bus/agent.py:398-440 | Two ranks of a side that both passed the comparison with different sizes keep the side from ever being ready. |
| `PairKeys.SkipsAreSafe` | src/etha/tensor_bus/agent.py:499-520 | A rank that skips an entry was not counted, has completed the pair, or was caught mid-InitPair and then rejected. |
| `PairKeys.AgreeingSizesLoseNothing` | src/etha/tensor_bus/agent.py:503-520 | In a run whose InitPairs give each side one size nothing is rejected, and every entry a rank skips did not count it or names a pair it has completed. |
| `PairWaiters.NoCallerIsLost` | src/etha/tensor_bus/agent.py:521-537 | Every InitPair caller is parked or woken, and without an error only when its pair is matched. |
| `PairExamples.CountedButSkipped` | src/etha/tensor_bus/agent.py:398-411 | For every disagreeing size, a run in which a counted rank is rejected after the check, polls, and reads past the entry with the pair neither pending nor matched. |
| `DualAgents.DualAgent.ExecuteCommand` | src/etha/tensor_bus/agent.py:255-297 | Dispatching a command and settling its semaphore equals one step of the state machine. |
| `DualAgents.DualAgent.HandleTransfer` | src/etha/tensor_bus/agent.py:749-766 | Refuse, acknowledge, park, run or fail a direction-round. |
| `DualAgents.DualAgent.Join` | src/etha/tensor_bus/agent.py:910-990 | The second role's command runs the round, or fails it for everyone parked on it. |
| `DualAgents.DualAgent.PinDirection` | src/etha/tensor_bus/agent.py:887-891 | The first transfer of a generation pins its direction in the store. |
| `DualAgents.DualAgent.PublishTransferRequest` | src/etha/tensor_bus/agent.py:992-1014 | The request key only grows. |
| `DualAgents.DualAgent.HandleRegister` | src/etha/tensor_bus/agent.py:1122-1250 | Refuse, abort, park the first role or complete with the second. |
| `DualAgents.DualAgent.RegisterDualRole` | src/etha/tensor_bus/agent.py:1384-1440 | Both roles complete the registration and wake everybody parked on it. |
| `DualAgents.DualAgent.AbortDualRegistration` | src/etha/tensor_bus/agent.py:1453-1459 | Parked registrations fail and the batch is dropped. |
| `DualAgents.DualAgent.HandleCleanup` | src/etha/tensor_bus/agent.py:1064-1120 | Everybody parked fails, the signals are reset and the batch is dropped, unless the command is stale. |
| `DualAgents.DualAgent.HandleQuery` | src/etha/tensor_bus/agent.py:1016-1062 | Missing batches and unknown states answer nothing, stale queries -1 or false, live ones the stored round or the flag; without a semaphore the answer goes to the store under the state's name. |
| `DualRounds.RunKeepsInv` | src/etha/tensor_bus/agent.py:828-990 | Every run of commands keeps the invariant the next four rows read off. |
| `DualRounds.RoundsIncrease` | src/etha/tensor_bus/agent.py:892-908 | Within a generation executed rounds strictly increase and keep one direction. |
| `DualRounds.RoundsNeedBothRoles` | src/etha/tensor_bus/agent.py:836-844 | A round runs only after the source's send and the destination's recv for it were accepted. |
| `DualRounds.ParkedHoldOneRole` | src/etha/tensor_bus/agent.py:910-927 | Between commands every parked entry holds exactly one role. |
| `DualRounds.WakeUpsAreEarned` | src/etha/tensor_bus/agent.py:977-985 | A caller woken without an error has a completed registration or a round at or past its own. |
| `DualSignals.StepLoses` | src/etha/tensor_bus/agent.py:1453-1459 | Exactly which waiters a command loses: those parked on rounds of a batch it aborts. |
| `DualSignals.WaitersConserved` | src/etha/tensor_bus/agent.py:1076-1092 | Over a run no waiter is lost if and only if no batch with parked transfers was aborted. |
| `DualSignals.SignalKeptIff` | src/etha/tensor_bus/agent.py:977-983 | A command keeps the completion key equal to the last executed round if and only if it does not abort a batch that ran one. |
| `DualSignals.LeavesSignalIff` | src/etha/tensor_bus/agent.py:1240-1248 | Such an abort is exactly an otherwise acceptable registration with another layout. |
| `DualSignals.RunKeepsSignal` | src/etha/tensor_bus/agent.py:977-983 | Over runs without such an abort the completion key is right. |
| `DualSignals.OrderKeptIff` | src/etha/tensor_bus/agent.py:929-944 | A command keeps the request at or above completion and every parked round if and only if it does not reject a round while a later one is parked. |
| `DualSignals.CompletionWithinRequest` | src/etha/tensor_bus/agent.py:992-1014 | Over such runs the completion key never passes the request key. |
| `DualSignals.StaleIsHarmless` | src/etha/tensor_bus/agent.py:762-766 | A command for another generation changes nothing but its own semaphore. |
| `DualOutcomes.RoundRuns` | src/etha/tensor_bus/agent.py:828-990 | In every reachable state, for a registered direction and a round not run or asked for, the first role's command parks with the request published and the second's runs the round, sets the signal and wakes both, in either order. |
| `DualOutcomes.SecondFails` | src/etha/tensor_bus/agent.py:929-960 | Without buckets for the direction the second command fails both callers, runs nothing and resets the request to the last round. |
| `DualOutcomes.OldRoundIsAcknowledged` | src/etha/tensor_bus/agent.py:898-908 | A command for a round at or below the last wakes its caller and anyone parked on it, and changes nothing else. |
| `DualOutcomes.HopelessIsHarmless` | src/etha/tensor_bus/agent.py:864-896 | A transfer without batch, peer role or valid round, or against the direction, changes nothing but its own semaphore. |
| `DualOutcomes.RegistrationCompletes` | src/etha/tensor_bus/agent.py:1384-1440 | From any state without a batch the two roles' registrations open the next generation, complete it and wake both callers. |
| `DualOutcomes.RegistrationAcceptedIff` | src/etha/tensor_bus/agent.py:1122-1250 | A registration is taken up if and only if all ranks gathered the same, it names a peer and some pair, and there is no batch or one waiting for just this role and layout; any other fails its caller and completes nothing. |
| `DualOutcomes.CompletionHeardIff` | src/etha/tensor_bus/agent.py:1040-1045 | Over runs without the abort above, a query for the live generation hears a round as done if and only if it ran that round or a later one. |
| `DualOutcomes.RequestIsHeard` | src/etha/tensor_bus/agent.py:1046-1053 | Over runs that reject no round with a later one parked, a query hears as requested every parked round and the last one run. |
| `DualOutcomes.HeardRequestsWereMade` | src/etha/tensor_bus/agent.py:1046-1053 | In every run, a round heard as requested was asked for in that direction. |
| `DualOutcomes.StaleQueryHearsNothing` | src/etha/tensor_bus/agent.py:1027-1035 | A query for another generation hears -1 or false. |
| `DualOutcomes.CleanupResets` | src/etha/tensor_bus/agent.py:1064-1120 | Cleanup drops the batch, resets the signal and the request of every direction with buckets or a pin and of no other, and fails exactly the parked callers. |
| `DualSignals.QueryIsSound` | src/etha/tensor_bus/agent.py:1026-1045 | A query sees a round done only if its generation ran a round at or past it. |
| `DualExamples.ReachableIff` | src/etha/tensor_bus/agent.py:255-297 | The reachable states are exactly the ends of runs of commands with fresh semaphores. |
| `DualReuse.OppositeIsRefused` | src/etha/tensor_bus/agent.py:887-896 | Within a generation a transfer against the pinned direction fails and changes nothing else. |
| `DualReuse.ReuseRunsTheOppositeDirection` | src/etha/tensor_bus/agent.py:1104-1120 | From every reachable state whose batch has run a round, some run executes the opposite direction in the next generation of the batch id. |
| `DualExamples.RequestOvertaken` | src/etha/tensor_bus/agent.py:936-943 | A run in which completion passes the request key. |
| `DualExamples.AbortMisleads` | src/etha/tensor_bus/agent.py:1245-1248 | In every reachable state with a live batch, a registration for other pairs loses all parked transfers and lets the next generation report the old round. |
| `DualExamples.AbortForgets` | src/etha/tensor_bus/agent.py:1453-1459 | A run that does so after round 5 with a transfer parked on round 6. |
| `CommandQueues.RunKeepsSound` | src/etha/tensor_bus/command_queue.py:158-306 | In every run in which each `clear` ends its space drain quiet (no space permit outside the semaphore), a `clear` in progress included, free, held, owed and leaked permits plus size match what the phase of `clear` calls for, and every unread message is in its slot. |
| `CommandQueues.NeverOverwritesUnread` | src/etha/tensor_bus/command_queue.py:129-132 | A commit never lands on an unread slot, across wrap-around. |
| `CommandQueues.NoLostWakeUp` | src/etha/tensor_bus/command_queue.py:194-208 | In such a run, outside a drain a waiting message has an item permit, or a reader that took one, even when other readers skip the semaphore. |
| `CommandQueues.RunIsFifo` | src/etha/tensor_bus/command_queue.py:158-255 | In such a run what was taken plus what is left is what was there plus what was sent, in order. |
| `CommandQueues.LeakIsCorruptSingles` | src/etha/tensor_bus/command_queue.py:215-220 | Over such a run capacity is lost one unit per corrupt message taken singly, and in no other way. |
| `CommandQueues.ClearIsSafeIffQuiet` | src/etha/tensor_bus/command_queue.py:276-306 | Whatever runs meanwhile, a `clear` leaves the books right if and only if no space permit is outside the semaphore when its space drain ends. |
| `CommandQueues.ClearAlone` | src/etha/tensor_bus/command_queue.py:276-306 | Its steps, run without interference, end with an empty ring, no item permits and a full space semaphore. |
| `CommandQueues.ClearAloneIsSafeIff` | src/etha/tensor_bus/command_queue.py:276-306 | Alone, if and only if none is held or owed when it is called. |
| `CommandQueues.ClearRaceMintsPermit` | src/etha/tensor_bus/command_queue.py:276-306 | On every quiet queue with room, a producer that takes its permit after the transaction leaves one permit too many. |
| `CommandQueues.ClearRaceLosesWakeUp` | src/etha/tensor_bus/command_queue.py:276-306 | A whole enqueue there leaves a message that no reader is woken for. |
| `CommandQueues.ClearRaceOverwrites` | src/etha/tensor_bus/command_queue.py:276-306 | With a producer mid-enqueue it lets an unread message be overwritten. |
| `CommandQueues.CommandQueue.Enqueue` | src/etha/tensor_bus/command_queue.py:158-196 | Appends at the tail, or refuses when full, and returns the position. |
| `CommandQueues.CommandQueue.Dequeue` | src/etha/tensor_bus/command_queue.py:198-222 | Takes the head, or nothing when empty; a corrupt message is dropped. |
| `CommandQueues.CommandQueue.DequeueBatch` | src/etha/tensor_bus/command_queue.py:224-255 | Takes the first messages, as many as asked for or all there are, skipping corrupt ones, and frees their space. |
| `CommandQueues.CommandQueue.Clear` | src/etha/tensor_bus/command_queue.py:276-306 | Empties the ring and the semaphores, refills the space one, and drops the payloads if asked to; the books are right if and only if no permit was held or owed. |

## Left out

- PyTorch, NCCL, gloo, CUDA events and IPC: collectives are rendezvous, `distribute_tensor` is even sharding, `full_tensor` any choice of one holder per grid cell.
- Values are opaque, or elements with one commutative, associative operation: rounding of casts and reductions, `avg`, and mixed operations over several Partial dimensions are not modelled.
- Tensor sides that the grid does not divide, because the code cuts with floor division, and tensors with fewer dimensions than the layouts shard.
- Redistribution.RedistributionPreservesMeaning: for a Partial source the reduced values are a hypothesis on what its chunks read; `PartialReduce.AxisWiseIsFullReduction` proves them element by element.
- PartialBatches.BucketedLockstep: bucket lists whose chunks all reach the size; for coalesced buckets `ShippingPeers.PeersInLockstepIff` covers batches of one pair, and pipelined preparation is not covered.
- OnePairLockstep.OnePairLockstepIff: all tensors of the batch follow one table; with several pairs `CoalescedLockstep.LockstepIff` gives the condition on the chunk lists.
- PartialSequential.PartialNeverDeadlocks: bucket lists whose chunks all reach the size; the order of the mesh is proved necessary for tensors replicated to their own ranks.
- MeshDeadlock.NeverStuckIff: tensors replicated to their own ranks, one chunk per bucket.
- PartialReduce.CreatePartialGroups: takes reductions whose dimensions exist, as the planner builds them.
- PipelineRuns.RunPipelined: every launched operation reports completion after finitely many polls; a non-positive window with buckets is excluded because the loop does not end.
- PairOrder.CompletionOrderAgrees: a readiness check sees one snapshot of the store, and the outcome of an entry is the same on every rank that completes it.
- `_complete_pair` beyond its outcome and its check that both sides are still ready: peer-name publication, mesh collection and map generation are an ok-or-failed result.
- DualAgents.DualAgent.ExecuteCommand: one batch id on its leader; what other ranks put into a gather, and what bucket generation yields, arrive with the command; all pairs of a batch share their two peer names; recording an error always succeeds; a transport failure during a round stops the agent and is not modelled.
- CommandQueues.RunKeepsSound: one `clear` runs at a time; two at once are not modelled.
- Split (single-role) batches, the send/recv fallback and one batch id used for both kinds.
- Store backends, LMDB and POSIX calls, heartbeats, timeouts, expiry of error records, client-side waiting and bootstrap.
- `gather_broadcast_comm`, benchmarks, examples and recipes.
