/** Materializing routes on one rank's tensors (src/etha/comm/get_chunks.py, src/etha/comm/ir.py). */
module Chunks {
  import opened Base
  import opened IR
  import opened Radix
  import opened Sorting
  import opened Slices

  datatype Side = SourceTensor | TargetTensor

  /** One tensor region and its role; `partials` are the reductions run before it is shipped. */
  datatype Chunk = Chunk(
    transport: Transport, isSource: bool, isTarget: bool, srcRank: nat, dstRanks: seq<nat>,
    srcIdx: seq<nat>, dstIdx: Option<seq<nat>>, srcSlice: seq<Slice>, dstSlice: seq<Slice>,
    tensor: Side, srcTensor: Option<Side>, chunkShape: seq<nat>, itemsize: nat, partials: seq<PartialGroup>)

  /** A map with the local tensors it is materialized on; an absent shape is an absent tensor. */
  datatype Job = Job(
    routes: seq<Route>, sourceCuts: seq<nat>, targetCuts: seq<nat>,
    sourceShape: Option<seq<nat>>, targetShape: Option<seq<nat>>, itemsize: nat, partials: seq<PartialGroup>)

  function SourceShape(job: Job): seq<nat> {
    if job.sourceShape.Some? then job.sourceShape.value else []
  }

  function TargetShape(job: Job): seq<nat> {
    if job.targetShape.Some? then job.targetShape.value else []
  }

  function SourceCutsOf(job: Job): seq<nat> {
    Extended(job.sourceCuts, |SourceShape(job)|)
  }

  function TargetCutsOf(job: Job): seq<nat> {
    Extended(job.targetCuts, |TargetShape(job)|)
  }

  /** The cells a rank touches exist in its tensors. */
  ghost predicate RouteFits(job: Job, rank: nat, r: Route) {
    && (r.src.rank == rank && job.sourceShape.Some? ==> CellFits(SourceCutsOf(job), r.src.cell))
    && forall d :: d in r.dsts && d.rank == rank && job.targetShape.Some? ==> CellFits(TargetCutsOf(job), d.cell)
  }

  ghost predicate JobFits(job: Job, rank: nat) {
    && Positive(SourceCutsOf(job)) && Positive(TargetCutsOf(job))
    && forall r :: r in job.routes ==> RouteFits(job, rank, r)
  }

  /** `calculate_chunk_shape` */
  function ChunkShape(cuts: seq<nat>, shape: seq<nat>): (r: seq<nat>)
    requires |cuts| == |shape| && Positive(cuts)
    ensures |r| == |shape| && forall d :: 0 <= d < |shape| ==> r[d] == shape[d] / cuts[d]
  {
    seq(|shape|, d requires 0 <= d < |shape| => shape[d] / cuts[d])
  }

  ghost function DstRanks(r: Route): seq<nat> {
    SortedNats(set d | d in r.dsts :: d.rank)
  }

  ghost predicate SelfP2p(r: Route, rank: nat) {
    r.kind == P2P && DstRanks(r) == [rank]
  }

  // ------------------------------------------------------------------------------------------
  // The chunks of one route on one rank

  ghost function SourceChunk(job: Job, rank: nat, r: Route): Chunk
    requires Positive(SourceCutsOf(job)) && CellFits(SourceCutsOf(job), r.src.cell)
  {
    Chunk(r.kind, true, false, rank, DstRanks(r), r.src.cell, None,
          CellSlices(SourceShape(job), SourceCutsOf(job), r.src.cell), [], SourceTensor, None,
          ChunkShape(SourceCutsOf(job), SourceShape(job)), job.itemsize, job.partials)
  }

  ghost function LocalChunk(job: Job, rank: nat, r: Route, dst: Endpoint): Chunk
    requires Positive(SourceCutsOf(job)) && CellFits(SourceCutsOf(job), r.src.cell)
    requires Positive(TargetCutsOf(job)) && CellFits(TargetCutsOf(job), dst.cell)
  {
    Chunk(Local, true, true, r.src.rank, DstRanks(r), r.src.cell, Some(dst.cell),
          CellSlices(SourceShape(job), SourceCutsOf(job), r.src.cell),
          CellSlices(TargetShape(job), TargetCutsOf(job), dst.cell), TargetTensor, Some(SourceTensor),
          ChunkShape(TargetCutsOf(job), TargetShape(job)), job.itemsize,
          if SelfP2p(r, rank) then job.partials else [])
  }

  ghost function RecvChunk(job: Job, r: Route, dst: Endpoint): Chunk
    requires Positive(TargetCutsOf(job)) && CellFits(TargetCutsOf(job), dst.cell)
  {
    Chunk(r.kind, false, true, r.src.rank, DstRanks(r), r.src.cell, Some(dst.cell), [],
          CellSlices(TargetShape(job), TargetCutsOf(job), dst.cell), TargetTensor, None,
          ChunkShape(TargetCutsOf(job), TargetShape(job)), job.itemsize, [])
  }

  /** The reduced buffer of a source chunk is also written to the local target. */
  function AlsoTarget(c: Chunk, dst: Endpoint, slices: seq<Slice>): Chunk {
    c.(isTarget := true, srcTensor := Some(SourceTensor), tensor := TargetTensor, dstIdx := Some(dst.cell),
       dstSlice := slices)
  }

  ghost predicate Ships(job: Job, rank: nat, r: Route) {
    r.src.rank == rank && job.sourceShape.Some? && !(SelfP2p(r, rank) && job.targetShape.Some?)
  }

  ghost function RouteHead(job: Job, rank: nat, r: Route): (h: seq<Chunk>)
    requires Positive(SourceCutsOf(job)) && RouteFits(job, rank, r)
    ensures h != [] <==> Ships(job, rank, r)
  {
    if Ships(job, rank, r) then [SourceChunk(job, rank, r)] else []
  }

  ghost function AddDst(job: Job, rank: nat, r: Route, acc: seq<Chunk>, dst: Endpoint): (a: seq<Chunk>)
    requires Positive(SourceCutsOf(job)) && Positive(TargetCutsOf(job)) && RouteFits(job, rank, r) && dst in r.dsts
    requires Ships(job, rank, r) ==> acc != []
    ensures |a| >= |acc|
  {
    if dst.rank != rank || job.targetShape.None? then acc
    else if r.src.rank == rank && job.sourceShape.Some? then
      if job.partials != [] && !SelfP2p(r, rank)
      then acc[0 := AlsoTarget(acc[0], dst, CellSlices(TargetShape(job), TargetCutsOf(job), dst.cell))]
      else acc + [LocalChunk(job, rank, r, dst)]
    else acc + [RecvChunk(job, r, dst)]
  }

  ghost function AddDsts(job: Job, rank: nat, r: Route, n: nat): (a: seq<Chunk>)
    requires Positive(SourceCutsOf(job)) && Positive(TargetCutsOf(job)) && RouteFits(job, rank, r) && n <= |r.dsts|
    ensures Ships(job, rank, r) ==> a != []
  {
    if n == 0 then RouteHead(job, rank, r) else AddDst(job, rank, r, AddDsts(job, rank, r, n - 1), r.dsts[n - 1])
  }

  ghost function RouteChunks(job: Job, rank: nat, r: Route): seq<Chunk>
    requires Positive(SourceCutsOf(job)) && Positive(TargetCutsOf(job)) && RouteFits(job, rank, r)
  {
    AddDsts(job, rank, r, |r.dsts|)
  }

  ghost function ChunksUpTo(job: Job, rank: nat, n: nat): seq<Chunk>
    requires JobFits(job, rank) && n <= |job.routes|
  {
    if n == 0 then [] else ChunksUpTo(job, rank, n - 1) + RouteChunks(job, rank, job.routes[n - 1])
  }

  ghost function ChunksFor(job: Job, rank: nat): seq<Chunk>
    requires JobFits(job, rank)
  {
    ChunksUpTo(job, rank, |job.routes|)
  }

  /** `m2m_to_chunks`, one route. */
  method BuildRoute(job: Job, rank: nat, r: Route, sourceTuples: seq<seq<Slice>>, targetTuples: seq<seq<Slice>>)
    returns (chunks: seq<Chunk>)
    requires Positive(SourceCutsOf(job)) && Positive(TargetCutsOf(job)) && RouteFits(job, rank, r)
    requires sourceTuples == Product(SlicersPerDim(SourceShape(job), SourceCutsOf(job)))
    requires targetTuples == Product(SlicersPerDim(TargetShape(job), TargetCutsOf(job)))
    ensures chunks == RouteChunks(job, rank, r)
  {
    OrdersAreTotal();
    var dstRanks := SortSet(NatLess, set d | d in r.dsts :: d.rank);
    chunks := [];
    var srcSlices: seq<Slice> := [];
    var selfP2p := r.kind == P2P && dstRanks == [rank];
    if r.src.rank == rank && job.sourceShape.Some? {
      srcSlices := GetSliceFromMultiIndex(r.src.cell, SourceShape(job), SourceCutsOf(job), sourceTuples);
      if !(selfP2p && job.targetShape.Some?) {
        chunks := [Chunk(r.kind, true, false, rank, dstRanks, r.src.cell, None, srcSlices, [], SourceTensor, None,
                         ChunkShape(SourceCutsOf(job), SourceShape(job)), job.itemsize, job.partials)];
      }
    }
    assert chunks == RouteHead(job, rank, r);
    for n := 0 to |r.dsts|
      invariant chunks == AddDsts(job, rank, r, n)
    {
      var dst := r.dsts[n];
      assert AddDsts(job, rank, r, n + 1) == AddDst(job, rank, r, chunks, dst);
      if dst.rank != rank || job.targetShape.None? {
        continue;
      }
      var dstSlices := GetSliceFromMultiIndex(dst.cell, TargetShape(job), TargetCutsOf(job), targetTuples);
      if r.src.rank == rank && job.sourceShape.Some? {
        if job.partials != [] && !selfP2p {
          chunks := chunks[0 := AlsoTarget(chunks[0], dst, dstSlices)];
          continue;
        }
        chunks := chunks + [Chunk(Local, true, true, r.src.rank, dstRanks, r.src.cell, Some(dst.cell), srcSlices,
                                  dstSlices, TargetTensor, Some(SourceTensor),
                                  ChunkShape(TargetCutsOf(job), TargetShape(job)), job.itemsize,
                                  if selfP2p then job.partials else [])];
      } else {
        chunks := chunks + [Chunk(r.kind, false, true, r.src.rank, dstRanks, r.src.cell, Some(dst.cell), [], dstSlices,
                                  TargetTensor, None, ChunkShape(TargetCutsOf(job), TargetShape(job)),
                                  job.itemsize, [])];
      }
    }
  }

  method M2mToChunks(job: Job, rank: nat) returns (chunks: seq<Chunk>)
    requires JobFits(job, rank)
    ensures chunks == ChunksFor(job, rank)
  {
    var sourceTuples := GetSlicerTuples(SourceShape(job), SourceCutsOf(job));
    var targetTuples := GetSlicerTuples(TargetShape(job), TargetCutsOf(job));
    chunks := [];
    for n := 0 to |job.routes|
      invariant chunks == ChunksUpTo(job, rank, n)
    {
      assert job.routes[n] in job.routes;
      var block := BuildRoute(job, rank, job.routes[n], sourceTuples, targetTuples);
      chunks := chunks + block;
    }
  }
}
