/**
 What a chunk says about the tensors it moves (src/etha/comm/get_chunks.py): its address, its regions, and that its
 shape is the shape of the regions it is viewed on (src/etha/comm/ir.py).
*/
module ChunkRegions {
  import opened Base
  import opened IR
  import opened Radix
  import opened Slices
  import opened Routing
  import opened Chunks
  import opened ChunkLists
  import opened Sequential

  /** A buffer of this shape can be copied to or from the region. */
  ghost predicate ShapedAs(shape: seq<nat>, region: seq<Slice>) {
    |shape| == |region| && forall d :: 0 <= d < |shape| ==> shape[d] == region[d].hi - region[d].lo
  }

  ghost predicate Buildable(job: Job, rank: nat, r: Route) {
    Positive(SourceCutsOf(job)) && Positive(TargetCutsOf(job)) && RouteFits(job, rank, r)
  }

  /** A rank with both tensors cuts both into blocks of one shape. */
  ghost predicate SameBlocks(job: Job)
    requires Positive(SourceCutsOf(job)) && Positive(TargetCutsOf(job))
  {
    job.sourceShape.Some? && job.targetShape.Some? ==>
      ChunkShape(SourceCutsOf(job), SourceShape(job)) == ChunkShape(TargetCutsOf(job), TargetShape(job))
  }

  lemma BlockExtent(extent: nat, cuts: nat, c: nat)
    requires cuts > 0
    ensures Block(extent, cuts, c).hi - Block(extent, cuts, c).lo == extent / cuts
  {
    var size := extent / cuts;
    assert (c + 1) * size == c * size + size;
  }

  /** The region of any cell has the extents of a chunk, and no other shape fits it. */
  lemma CellIsShaped(shape: seq<nat>, cuts: seq<nat>, cell: seq<nat>, s: seq<nat>)
    requires |cell| <= |cuts| == |shape| && Positive(cuts)
    ensures ShapedAs(s, CellSlices(shape, cuts, cell)) <==> s == ChunkShape(cuts, shape)
  {
    var region := CellSlices(shape, cuts, cell);
    forall d | 0 <= d < |shape| ensures region[d].hi - region[d].lo == ChunkShape(cuts, shape)[d] {
      BlockExtent(shape[d], cuts[d], if d < |cell| then cell[d] else 0);
    }
  }

  // ------------------------------------------------------------------------------------------
  // Addresses

  /** The route is read from the rank's own source cell. */
  ghost predicate ReadsRoute(job: Job, rank: nat, r: Route, c: Chunk) {
    && rank == r.src.rank && job.sourceShape.Some? && ReadSide(c) == SourceTensor
    && CellFits(SourceCutsOf(job), r.src.cell) && Positive(SourceCutsOf(job))
    && c.srcSlice == CellSlices(SourceShape(job), SourceCutsOf(job), r.src.cell)
  }

  /** The route is written to one of its destinations on the rank. */
  ghost predicate WritesRoute(job: Job, rank: nat, r: Route, c: Chunk) {
    && job.targetShape.Some? && c.tensor == TargetTensor && c.dstIdx.Some?
    && Endpoint(rank, c.dstIdx.value) in r.dsts
    && CellFits(TargetCutsOf(job), c.dstIdx.value) && Positive(TargetCutsOf(job))
    && c.dstSlice == CellSlices(TargetShape(job), TargetCutsOf(job), c.dstIdx.value)
  }

  ghost predicate Addressed(job: Job, rank: nat, r: Route, c: Chunk) {
    && c.srcRank == r.src.rank && c.srcIdx == r.src.cell && c.dstRanks == DstRanks(r) && c.itemsize == job.itemsize
    && (c.transport == r.kind || (c.transport == Local && c.isSource && c.isTarget))
    && (c.isSource || c.isTarget)
    && (if c.isSource then ReadsRoute(job, rank, r, c) else c.srcSlice == [])
    && (if c.isTarget then WritesRoute(job, rank, r, c) else c.dstSlice == [] && c.dstIdx == None)
  }

  /** A shape is read off the side the chunk was built for. */
  ghost predicate Shaped(job: Job, c: Chunk) {
    && Positive(SourceCutsOf(job)) && Positive(TargetCutsOf(job))
    && (!c.isSource ==> c.chunkShape == ChunkShape(TargetCutsOf(job), TargetShape(job)))
    && (!c.isTarget ==> c.chunkShape == ChunkShape(SourceCutsOf(job), SourceShape(job)))
    && (c.chunkShape == ChunkShape(SourceCutsOf(job), SourceShape(job)) ||
        c.chunkShape == ChunkShape(TargetCutsOf(job), TargetShape(job)))
  }

  ghost predicate Right(job: Job, rank: nat, r: Route, c: Chunk) {
    Addressed(job, rank, r, c) && Shaped(job, c)
  }

  ghost predicate AllRight(job: Job, rank: nat, r: Route, chunks: seq<Chunk>) {
    forall i :: 0 <= i < |chunks| ==> Right(job, rank, r, chunks[i])
  }

  /** The chunk that also writes the local target: it ships the route, in the shape of its source region. */
  ghost predicate IsHead(job: Job, r: Route, c: Chunk)
    requires Positive(SourceCutsOf(job))
  {
    c.isSource && c.transport == r.kind && c.chunkShape == ChunkShape(SourceCutsOf(job), SourceShape(job))
  }

  ghost predicate HeadIsSource(job: Job, rank: nat, r: Route, chunks: seq<Chunk>)
    requires Positive(SourceCutsOf(job))
  {
    Ships(job, rank, r) ==> chunks != [] && IsHead(job, r, chunks[0])
  }

  lemma SourceChunkIsRight(job: Job, rank: nat, r: Route)
    requires Buildable(job, rank, r) && r.src.rank == rank && job.sourceShape.Some?
    ensures Right(job, rank, r, SourceChunk(job, rank, r)) && IsHead(job, r, SourceChunk(job, rank, r))
  {
  }

  ghost predicate WritesTo(job: Job, rank: nat, r: Route, dst: Endpoint) {
    Buildable(job, rank, r) && dst in r.dsts && dst.rank == rank && job.targetShape.Some?
  }

  lemma LocalChunkIsRight(job: Job, rank: nat, r: Route, dst: Endpoint)
    requires WritesTo(job, rank, r, dst) && r.src.rank == rank && job.sourceShape.Some?
    ensures Right(job, rank, r, LocalChunk(job, rank, r, dst))
  {
    assert dst == Endpoint(rank, dst.cell);
  }

  lemma RecvChunkIsRight(job: Job, rank: nat, r: Route, dst: Endpoint)
    requires WritesTo(job, rank, r, dst)
    ensures Right(job, rank, r, RecvChunk(job, r, dst))
  {
    assert dst == Endpoint(rank, dst.cell);
  }

  lemma AlsoTargetIsRight(job: Job, rank: nat, r: Route, c: Chunk, dst: Endpoint)
    requires WritesTo(job, rank, r, dst) && Right(job, rank, r, c) && IsHead(job, r, c)
    ensures var both := AlsoTarget(c, dst, CellSlices(TargetShape(job), TargetCutsOf(job), dst.cell));
            Right(job, rank, r, both) && IsHead(job, r, both)
  {
    assert dst == Endpoint(rank, dst.cell);
  }

  lemma AddDstIsRight(job: Job, rank: nat, r: Route, acc: seq<Chunk>, dst: Endpoint)
    requires Buildable(job, rank, r) && dst in r.dsts && AllRight(job, rank, r, acc)
    requires HeadIsSource(job, rank, r, acc)
    ensures AllRight(job, rank, r, AddDst(job, rank, r, acc, dst))
    ensures HeadIsSource(job, rank, r, AddDst(job, rank, r, acc, dst))
  {
    if dst.rank == rank && job.targetShape.Some? {
      if r.src.rank != rank || job.sourceShape.None? {
        RecvChunkIsRight(job, rank, r, dst);
      } else if job.partials != [] && !SelfP2p(r, rank) {
        AlsoTargetIsRight(job, rank, r, acc[0], dst);
      } else {
        LocalChunkIsRight(job, rank, r, dst);
      }
    }
  }

  lemma {:induction false} AddDstsAreRight(job: Job, rank: nat, r: Route, n: nat)
    requires Buildable(job, rank, r) && n <= |r.dsts|
    ensures AllRight(job, rank, r, AddDsts(job, rank, r, n)) && HeadIsSource(job, rank, r, AddDsts(job, rank, r, n))
  {
    if n == 0 {
      if Ships(job, rank, r) {
        SourceChunkIsRight(job, rank, r);
      }
    } else {
      AddDstsAreRight(job, rank, r, n - 1);
      AddDstIsRight(job, rank, r, AddDsts(job, rank, r, n - 1), r.dsts[n - 1]);
    }
  }

  /** Every chunk of a route reads the route's cell of its own tensor, or writes one of its destinations, or both. */
  lemma ChunksAreAddressed(job: Job, rank: nat, r: Route, c: Chunk)
    requires Buildable(job, rank, r) && c in RouteChunks(job, rank, r)
    ensures Addressed(job, rank, r, c) && Shaped(job, c)
  {
    AddDstsAreRight(job, rank, r, |r.dsts|);
  }

  /**
   A chunk has the shape of the region it reads or writes. One that does both fits both exactly if the two tensors
   are cut into blocks of one shape.
   */
  lemma ChunksFitTheirRegions(job: Job, rank: nat, r: Route, c: Chunk)
    requires Buildable(job, rank, r) && c in RouteChunks(job, rank, r)
    ensures c.isSource && !c.isTarget ==> ShapedAs(c.chunkShape, c.srcSlice)
    ensures c.isTarget && !c.isSource ==> ShapedAs(c.chunkShape, c.dstSlice)
    ensures c.isSource && c.isTarget ==>
      ((ShapedAs(c.chunkShape, c.srcSlice) && ShapedAs(c.chunkShape, c.dstSlice)) <==> SameBlocks(job))
  {
    ChunksAreAddressed(job, rank, r, c);
    if c.isSource {
      CellIsShaped(SourceShape(job), SourceCutsOf(job), r.src.cell, c.chunkShape);
    }
    if c.isTarget {
      CellIsShaped(TargetShape(job), TargetCutsOf(job), c.dstIdx.value, c.chunkShape);
    }
  }

  // ------------------------------------------------------------------------------------------
  // Routed tensors

  lemma RoutedBlocksAgree(x: Tensor, rank: nat)
    requires ValidProblem(x.problem)
    ensures Positive(SourceCutsOf(JobFor(x, rank))) && Positive(TargetCutsOf(JobFor(x, rank)))
    ensures SameBlocks(JobFor(x, rank))
  {
    BlockIsChunk(x.problem.sourceCuts, x.block);
    BlockIsChunk(x.problem.targetCuts, x.block);
  }

  lemma {:induction false} ChunkOfRoute(job: Job, rank: nat, n: nat, c: Chunk) returns (i: nat)
    requires JobFits(job, rank) && n <= |job.routes| && c in ChunksUpTo(job, rank, n)
    ensures i < n && job.routes[i] in job.routes && c in RouteChunks(job, rank, job.routes[i])
  {
    assert job.routes[n - 1] in job.routes;
    if c in RouteChunks(job, rank, job.routes[n - 1]) {
      i := n - 1;
    } else {
      i := ChunkOfRoute(job, rank, n - 1, c);
    }
  }

  /** In every chunk list of a routed tensor, on every rank, all chunks have the shape of all their regions. */
  lemma RoutedChunksFit(x: Tensor, rank: nat, c: Chunk)
    requires FitTensor(x) && JobFits(JobFor(x, rank), rank) && c in ChunksFor(JobFor(x, rank), rank)
    ensures c.isSource ==> ShapedAs(c.chunkShape, c.srcSlice)
    ensures c.isTarget ==> ShapedAs(c.chunkShape, c.dstSlice)
    ensures c.chunkShape == x.block && NBytes(c) == BytesOf(x)
  {
    var job := JobFor(x, rank);
    var i := ChunkOfRoute(job, rank, |job.routes|, c);
    RoutedBlocksAgree(x, rank);
    ChunksFitTheirRegions(job, rank, x.routes[i], c);
    ChunksAreAddressed(job, rank, x.routes[i], c);
    BlockIsChunk(x.problem.sourceCuts, x.block);
    BlockIsChunk(x.problem.targetCuts, x.block);
  }

  /** The lists exist: every routed tensor fits its rank's job. */
  lemma RoutedJobsFit(x: Tensor, rank: nat)
    requires FitTensor(x)
    ensures JobFits(JobFor(x, rank), rank)
  {
    RoutedBlocksAgree(x, rank);
    forall r | r in x.routes ensures RouteFits(JobFor(x, rank), rank, r) {
      var i :| 0 <= i < |x.routes| && x.routes[i] == r;
      RouteFitsJob(x, i, rank);
    }
  }
}
