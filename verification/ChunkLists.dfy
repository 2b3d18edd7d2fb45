/**
 What every rank's chunk list has in common with every other's: roles are read off the bucket key,
 each list is a projection of one global list, and Partial reductions come in one order.
*/
module ChunkLists {
  import opened Base
  import opened IR
  import opened Radix
  import opened Sorting
  import opened Slices
  import opened Chunks
  import opened Buckets
  import opened Relabelling

  /** Chunk.bucket_key */
  function BucketKeyOf(c: Chunk): BucketKey {
    BucketKey(c.srcRank, c.dstRanks, c.partials, if c.partials != [] && c.dstRanks == [] then c.srcIdx else [],
              c.transport)
  }

  /** Chunk.nbytes */
  function NBytes(c: Chunk): nat {
    Prod(c.chunkShape) * c.itemsize
  }

  ghost predicate OneDstPerRank(r: Route) {
    forall j, k :: 0 <= j < |r.dsts| && 0 <= k < |r.dsts| && r.dsts[j].rank == r.dsts[k].rank ==> j == k
  }

  /** A rank that a route reads from has a source tensor, one it writes to a target tensor. */
  ghost predicate Equipped(job: Job, rank: nat, r: Route) {
    && (r.src.rank == rank ==> job.sourceShape.Some?)
    && forall d :: d in r.dsts && d.rank == rank ==> job.targetShape.Some?
  }

  ghost predicate Ready(job: Job, rank: nat, r: Route) {
    && Positive(SourceCutsOf(job)) && Positive(TargetCutsOf(job)) && RouteFits(job, rank, r)
    && OneDstPerRank(r) && Equipped(job, rank, r) && r.kind != Local
  }

  ghost predicate Feeds(r: Route, rank: nat) {
    exists j :: 0 <= j < |r.dsts| && r.dsts[j].rank == rank
  }

  lemma DstRanksHas(r: Route, rank: nat)
    ensures rank in DstRanks(r) <==> Feeds(r, rank)
  {
    OrdersAreTotal();
    var ranks := set d | d in r.dsts :: d.rank;
    SortedEnumerates(NatLess, ranks);
    if rank in ranks {
      var d :| d in r.dsts && d.rank == rank;
      var j :| 0 <= j < |r.dsts| && r.dsts[j] == d;
    }
    if Feeds(r, rank) {
      var j :| 0 <= j < |r.dsts| && r.dsts[j].rank == rank;
      assert r.dsts[j] in r.dsts;
    }
  }

  lemma {:induction false} NoDstHere(job: Job, rank: nat, r: Route, n: nat)
    requires Ready(job, rank, r) && n <= |r.dsts| && forall j :: 0 <= j < n ==> r.dsts[j].rank != rank
    ensures AddDsts(job, rank, r, n) == RouteHead(job, rank, r)
  {
    if n > 0 {
      NoDstHere(job, rank, r, n - 1);
    }
  }

  lemma {:induction false} OneDstHere(job: Job, rank: nat, r: Route, j: nat, n: nat)
    requires Ready(job, rank, r) && j < n <= |r.dsts| && r.dsts[j].rank == rank
    ensures AddDsts(job, rank, r, n) == AddDst(job, rank, r, RouteHead(job, rank, r), r.dsts[j])
    decreases n
  {
    if n == j + 1 {
      NoDstHere(job, rank, r, j);
    } else {
      OneDstHere(job, rank, r, j, n - 1);
      assert r.dsts[n - 1].rank != rank;
    }
  }

  /** The chunks of a route on one rank: at most a source chunk and one chunk that writes. */
  lemma RouteChunksCases(job: Job, rank: nat, r: Route) returns (j: nat)
    requires Ready(job, rank, r)
    ensures Feeds(r, rank) ==>
      && j < |r.dsts| && r.dsts[j].rank == rank
      && RouteChunks(job, rank, r) == AddDst(job, rank, r, RouteHead(job, rank, r), r.dsts[j])
    ensures !Feeds(r, rank) ==> RouteChunks(job, rank, r) == RouteHead(job, rank, r)
  {
    j := 0;
    if Feeds(r, rank) {
      j :| 0 <= j < |r.dsts| && r.dsts[j].rank == rank;
      OneDstHere(job, rank, r, j, |r.dsts|);
    } else {
      NoDstHere(job, rank, r, |r.dsts|);
    }
  }

  // ------------------------------------------------------------------------------------------
  // Roles

  predicate SourceRole(rank: nat, key: BucketKey) {
    key.srcRank == rank
  }

  predicate TargetRole(rank: nat, hasTarget: bool, key: BucketKey) {
    key.transport == Local || key.srcRank != rank || (hasTarget && key.partialSig != [] && rank in key.dstRanks)
  }

  lemma HeadRoles(job: Job, rank: nat, r: Route)
    requires Ready(job, rank, r) && r.src.rank == rank
    ensures forall c :: c in RouteHead(job, rank, r) ==>
      c.isSource && !c.isTarget && c.srcRank == rank && c.transport == r.kind && c.partials == job.partials &&
        c.dstRanks == DstRanks(r)
  {
  }

  lemma SourceRoles(job: Job, rank: nat, r: Route, c: Chunk)
    requires Ready(job, rank, r) && r.src.rank == rank && c in RouteChunks(job, rank, r)
    ensures c.isSource && c.srcRank == rank
    ensures c.isTarget <==> c.transport == Local || (job.targetShape.Some? && c.partials != [] && rank in c.dstRanks)
  {
    var j := RouteChunksCases(job, rank, r);
    DstRanksHas(r, rank);
    HeadRoles(job, rank, r);
    if Feeds(r, rank) {
      assert r.dsts[j] in r.dsts;
    }
  }

  lemma ReceiverRoles(job: Job, rank: nat, r: Route, c: Chunk)
    requires Ready(job, rank, r) && r.src.rank != rank && c in RouteChunks(job, rank, r)
    ensures !c.isSource && c.isTarget && c.srcRank != rank
  {
    var j := RouteChunksCases(job, rank, r);
  }

  /** Chunks that may share a bucket agree on their roles, so reading them from the first chunk is right. */
  lemma RolesFollowKey(job: Job, rank: nat, r: Route, c: Chunk)
    requires Ready(job, rank, r) && c in RouteChunks(job, rank, r)
    ensures c.isSource == SourceRole(rank, BucketKeyOf(c))
    ensures c.isTarget == TargetRole(rank, job.targetShape.Some?, BucketKeyOf(c))
  {
    if r.src.rank == rank {
      SourceRoles(job, rank, r, c);
    } else {
      ReceiverRoles(job, rank, r, c);
    }
  }

  /** The tensor a source chunk reads. */
  function ReadSide(c: Chunk): Side {
    if c.srcTensor.Some? then c.srcTensor.value else c.tensor
  }

  lemma SourceHeadReads(job: Job, rank: nat, r: Route)
    requires Ready(job, rank, r) && r.src.rank == rank
    ensures CellFits(SourceCutsOf(job), r.src.cell)
    ensures forall c :: c in RouteHead(job, rank, r) ==>
      c.isSource && c.srcTensor == None && c.tensor == SourceTensor &&
        c.srcSlice == CellSlices(SourceShape(job), SourceCutsOf(job), r.src.cell)
  {
  }

  /** Every chunk on the source rank reads the source tensor at the route's source cell. */
  lemma SourceChunkReads(job: Job, rank: nat, r: Route, c: Chunk)
    requires Ready(job, rank, r) && r.src.rank == rank && c in RouteChunks(job, rank, r)
    ensures CellFits(SourceCutsOf(job), r.src.cell) && c.isSource && ReadSide(c) == SourceTensor
    ensures c.srcSlice == CellSlices(SourceShape(job), SourceCutsOf(job), r.src.cell)
  {
    var j := RouteChunksCases(job, rank, r);
    SourceHeadReads(job, rank, r);
    var head := RouteHead(job, rank, r);
    if c !in head {
      assert Feeds(r, rank) && r.dsts[j] in r.dsts;
      if job.partials != [] && !SelfP2p(r, rank) {
        assert head[0] in head;
      }
    }
  }

  // ------------------------------------------------------------------------------------------
  // Partial reductions

  /** The cells reduced by a chunk list, in order. */
  function ReducedCells(chunks: seq<Chunk>): seq<seq<nat>> {
    if chunks == [] then []
    else
      var c, rest := chunks[|chunks| - 1], ReducedCells(chunks[..|chunks| - 1]);
      if c.partials != [] then rest + [c.srcIdx] else rest
  }

  lemma {:induction false} ReducedCellsConcat(a: seq<Chunk>, b: seq<Chunk>)
    ensures ReducedCells(a + b) == ReducedCells(a) + ReducedCells(b)
  {
    if b == [] {
      assert a + b == a;
    } else {
      ReducedCellsConcat(a, b[..|b| - 1]);
      assert (a + b)[..|a + b| - 1] == a + b[..|b| - 1];
    }
  }

  lemma ReducedCellsOne(c: Chunk)
    ensures ReducedCells([c]) == if c.partials != [] then [c.srcIdx] else []
  {
    assert [c][..0] == [];
  }

  /** With Partial groups a rank has at most one chunk per route. */
  lemma PartialRouteShape(job: Job, rank: nat, r: Route)
    requires Ready(job, rank, r) && job.partials != []
    ensures var cs := RouteChunks(job, rank, r);
            if r.src.rank == rank then |cs| == 1 && cs[0].partials == job.partials && cs[0].srcIdx == r.src.cell
            else if Feeds(r, rank) then |cs| == 1 && cs[0].partials == []
            else cs == []
  {
    var j := RouteChunksCases(job, rank, r);
    DstRanksHas(r, rank);
    if Feeds(r, rank) {
      assert r.dsts[j] in r.dsts;
    } else {
      assert !SelfP2p(r, rank);
    }
  }

  /** A route reduces exactly once on its source rank, whatever it ships, and nowhere else. */
  lemma RouteReducesOnce(job: Job, rank: nat, r: Route)
    requires Ready(job, rank, r) && job.partials != []
    ensures ReducedCells(RouteChunks(job, rank, r)) == if r.src.rank == rank then [r.src.cell] else []
  {
    PartialRouteShape(job, rank, r);
    var cs := RouteChunks(job, rank, r);
    if |cs| == 1 {
      ReducedCellsOne(cs[0]);
      assert cs == [cs[0]];
    }
  }

  /** The cells of a table's routes out of one rank, in table order. */
  function CellsFrom(routes: seq<Route>, rank: nat): seq<seq<nat>> {
    if routes == [] then []
    else
      var r, rest := routes[|routes| - 1], CellsFrom(routes[..|routes| - 1], rank);
      if r.src.rank == rank then rest + [r.src.cell] else rest
  }

  /** A rank's reductions follow its cells in the route table. */
  lemma {:induction false} ReductionsFollowTable(job: Job, rank: nat, n: nat)
    requires JobFits(job, rank) && n <= |job.routes| && job.partials != []
    requires forall r :: r in job.routes ==> Ready(job, rank, r)
    ensures ReducedCells(ChunksUpTo(job, rank, n)) == CellsFrom(job.routes[..n], rank)
  {
    if n > 0 {
      var r := job.routes[n - 1];
      assert r in job.routes;
      ReductionsFollowTable(job, rank, n - 1);
      RouteReducesOnce(job, rank, r);
      ReducedCellsConcat(ChunksUpTo(job, rank, n - 1), RouteChunks(job, rank, r));
      CellsFromSnoc(job.routes, rank, n);
    }
  }

  lemma CellsFromSnoc(routes: seq<Route>, rank: nat, n: nat)
    requires 0 < n <= |routes|
    ensures CellsFrom(routes[..n], rank) ==
            CellsFrom(routes[..n - 1], rank) + if routes[n - 1].src.rank == rank then [routes[n - 1].src.cell] else []
  {
    assert routes[..n][..n - 1] == routes[..n - 1];
  }

  // ------------------------------------------------------------------------------------------
  // One global list

  /** Which ranks a chunk with this key involves. */
  function Participants(key: BucketKey): set<nat> {
    if key.transport == Local || key.transport == NoWire then {key.srcRank}
    else {key.srcRank} + set d | d in key.dstRanks
  }

  function TakesPart(rank: nat): BucketKey -> bool {
    key => rank in Participants(key)
  }

  /** How a rank keys an operation: only the source rank knows the reductions that come before it. */
  function Seen(rank: nat): BucketKey -> BucketKey {
    (key: BucketKey) => if key.srcRank == rank then key else key.(partialSig := [])
  }

  ghost function WireItem(r: Route, sig: seq<PartialGroup>, nb: nat, op: nat): Item {
    Item(BucketKey(r.src.rank, DstRanks(r), sig, if sig != [] && DstRanks(r) == [] then r.src.cell else [], r.kind),
         nb, op)
  }

  ghost function LocalItem(r: Route, sig: seq<PartialGroup>, nb: nat, op: nat): Item {
    Item(BucketKey(r.src.rank, DstRanks(r), sig, [], Local), nb, op + 1)
  }

  /** The reduced buffer that is shipped also serves the own rank; otherwise that takes a copy of its own. */
  ghost predicate CopiesLocally(r: Route, sig: seq<PartialGroup>) {
    Feeds(r, r.src.rank) && (sig == [] || SelfP2p(r, r.src.rank))
  }

  /** The operations of a route: a wire transfer unless it only feeds its own rank, and perhaps a local copy. */
  ghost function RouteItems(r: Route, sig: seq<PartialGroup>, nb: nat, op: nat): seq<Item> {
    (if SelfP2p(r, r.src.rank) then [] else [WireItem(r, sig, nb, op)]) +
    (if CopiesLocally(r, sig) then [LocalItem(r, sig, nb, op)] else [])
  }

  function ItemOf(c: Chunk, op: nat): Item {
    Item(BucketKeyOf(c), NBytes(c), if c.transport == Local then op + 1 else op)
  }

  function ItemsOf(chunks: seq<Chunk>, op: nat): (r: seq<Item>)
    ensures |r| == |chunks| && forall i :: 0 <= i < |r| ==> r[i] == ItemOf(chunks[i], op)
  {
    seq(|chunks|, i requires 0 <= i < |chunks| => ItemOf(chunks[i], op))
  }

  /** Both sides cut the tensor into blocks of the same size. */
  ghost predicate SameBytes(job: Job, nb: nat)
    requires Positive(SourceCutsOf(job)) && Positive(TargetCutsOf(job))
  {
    && (job.sourceShape.Some? ==> Prod(ChunkShape(SourceCutsOf(job), SourceShape(job))) * job.itemsize == nb)
    && (job.targetShape.Some? ==> Prod(ChunkShape(TargetCutsOf(job), TargetShape(job))) * job.itemsize == nb)
  }

  lemma KeepOne(keep: BucketKey -> bool, a: seq<Item>)
    requires |a| <= 1
    ensures KeepItems(keep, a) == if |a| == 1 && keep(a[0].key) then a else []
  {
    if |a| == 1 {
      assert a[..0] == [];
      assert a == [] + [a[0]];
    }
  }

  lemma KeepTwo(keep: BucketKey -> bool, a: seq<Item>, b: seq<Item>)
    requires |a| <= 1 && |b| <= 1
    ensures KeepItems(keep, a + b) ==
            (if |a| == 1 && keep(a[0].key) then a else []) + (if |b| == 1 && keep(b[0].key) then b else [])
  {
    KeepItemsConcat(keep, a, b);
    KeepOne(keep, a);
    KeepOne(keep, b);
  }

  /** The kind a table gives a route. */
  ghost predicate Kinded(r: Route) {
    r.kind == if r.dsts == [] then NoWire else if |r.dsts| > 1 then Broadcast else P2P
  }

  /** A route on a rank with tensors for it, whatever is reduced before. */
  ghost predicate Sized(job: Job, rank: nat, r: Route, nb: nat) {
    Ready(job, rank, r) && SameBytes(job, nb) && Kinded(r)
  }

  lemma SelfP2pFeeds(r: Route, rank: nat)
    requires SelfP2p(r, rank)
    ensures Feeds(r, rank) && forall k :: Feeds(r, k) ==> k == rank
  {
    DstRanksHas(r, rank);
    forall k | Feeds(r, k) ensures k == rank {
      DstRanksHas(r, k);
    }
  }

  lemma HeadItems(job: Job, r: Route, nb: nat, op: nat)
    requires Sized(job, r.src.rank, r, nb)
    ensures SelfP2p(r, r.src.rank) ==> Feeds(r, r.src.rank)
    ensures ItemsOf(RouteHead(job, r.src.rank, r), op) ==
            if SelfP2p(r, r.src.rank) then [] else [WireItem(r, job.partials, nb, op)]
  {
    if SelfP2p(r, r.src.rank) {
      SelfP2pFeeds(r, r.src.rank);
      var j :| 0 <= j < |r.dsts| && r.dsts[j].rank == r.src.rank;
      assert r.dsts[j] in r.dsts;
    }
  }

  lemma LocalItems(job: Job, r: Route, nb: nat, op: nat, dst: Endpoint)
    requires Sized(job, r.src.rank, r, nb) && dst in r.dsts && dst.rank == r.src.rank && CopiesLocally(r, job.partials)
    ensures AddDst(job, r.src.rank, r, RouteHead(job, r.src.rank, r), dst) ==
            RouteHead(job, r.src.rank, r) + [LocalChunk(job, r.src.rank, r, dst)]
    ensures ItemOf(LocalChunk(job, r.src.rank, r, dst), op) == LocalItem(r, job.partials, nb, op)
  {
  }

  /** The shipped buffer that is also written here keeps its key and size. */
  lemma AlsoTargetItems(job: Job, r: Route, op: nat, dst: Endpoint)
    requires Ready(job, r.src.rank, r) && dst in r.dsts && dst.rank == r.src.rank && !CopiesLocally(r, job.partials)
    ensures ItemsOf(AddDst(job, r.src.rank, r, RouteHead(job, r.src.rank, r), dst), op) ==
            ItemsOf(RouteHead(job, r.src.rank, r), op)
  {
    var j :| 0 <= j < |r.dsts| && r.dsts[j] == dst;
    assert Feeds(r, r.src.rank);
  }

  lemma ProjectSource(job: Job, rank: nat, r: Route, nb: nat, op: nat)
    requires Sized(job, rank, r, nb) && r.src.rank == rank
    ensures ItemsOf(RouteChunks(job, rank, r), op) == RouteItems(r, job.partials, nb, op)
  {
    var j := RouteChunksCases(job, rank, r);
    HeadItems(job, r, nb, op);
    if CopiesLocally(r, job.partials) {
      assert r.dsts[j] in r.dsts;
      LocalItems(job, r, nb, op, r.dsts[j]);
      assert ItemsOf(RouteChunks(job, rank, r), op) ==
             ItemsOf(RouteHead(job, rank, r), op) + [LocalItem(r, job.partials, nb, op)];
    } else if Feeds(r, rank) {
      assert r.dsts[j] in r.dsts;
      AlsoTargetItems(job, r, op, r.dsts[j]);
    }
  }

  lemma ProjectOther(job: Job, rank: nat, r: Route, nb: nat, op: nat)
    requires Sized(job, rank, r, nb) && r.src.rank != rank
    ensures ItemsOf(RouteChunks(job, rank, r), op) == if Feeds(r, rank) then [WireItem(r, [], nb, op)] else []
  {
    var j := RouteChunksCases(job, rank, r);
    if Feeds(r, rank) {
      assert r.dsts[j] in r.dsts;
    }
  }

  /** What of a route's operations a rank takes part in. */
  lemma KeptOperations(r: Route, sig: seq<PartialGroup>, rank: nat, nb: nat, op: nat)
    requires Kinded(r)
    ensures KeepItems(TakesPart(rank), RouteItems(r, sig, nb, op)) ==
            if r.src.rank == rank then RouteItems(r, sig, nb, op)
            else if Feeds(r, rank) then [WireItem(r, sig, nb, op)] else []
  {
    var wire := if SelfP2p(r, r.src.rank) then [] else [WireItem(r, sig, nb, op)];
    var local := if CopiesLocally(r, sig) then [LocalItem(r, sig, nb, op)] else [];
    KeepTwo(TakesPart(rank), wire, local);
    DstRanksHas(r, rank);
    if SelfP2p(r, r.src.rank) {
      SelfP2pFeeds(r, r.src.rank);
    }
  }

  lemma SeenHere(r: Route, sig: seq<PartialGroup>, nb: nat, op: nat)
    ensures Relabel(Seen(r.src.rank), RouteItems(r, sig, nb, op)) == RouteItems(r, sig, nb, op)
  {
  }

  lemma SeenThere(r: Route, sig: seq<PartialGroup>, rank: nat, nb: nat, op: nat)
    requires r.src.rank != rank && Feeds(r, rank)
    ensures Relabel(Seen(rank), [WireItem(r, sig, nb, op)]) == [WireItem(r, [], nb, op)]
  {
    DstRanksHas(r, rank);
  }

  /**
   A rank's chunks of a route are the route's operations that involve the rank, sizes included and
   keyed as the rank sees them; `sig` is what the source rank reduces.
   */
  lemma RouteProjects(job: Job, rank: nat, r: Route, sig: seq<PartialGroup>, nb: nat, op: nat)
    requires Sized(job, rank, r, nb) && (r.src.rank == rank ==> job.partials == sig)
    ensures ItemsOf(RouteChunks(job, rank, r), op) ==
            Relabel(Seen(rank), KeepItems(TakesPart(rank), RouteItems(r, sig, nb, op)))
  {
    KeptOperations(r, sig, rank, nb, op);
    if r.src.rank == rank {
      ProjectSource(job, rank, r, nb, op);
      SeenHere(r, sig, nb, op);
    } else {
      ProjectOther(job, rank, r, nb, op);
      if Feeds(r, rank) {
        SeenThere(r, sig, rank, nb, op);
      }
    }
  }

  /** A chunk that writes does so for one destination of its route. */
  lemma TargetChunkServes(job: Job, rank: nat, r: Route, c: Chunk) returns (j: nat)
    requires Ready(job, rank, r) && c in RouteChunks(job, rank, r) && c.isTarget
    ensures j < |r.dsts| && r.dsts[j].rank == rank && job.targetShape.Some?
    ensures CellFits(TargetCutsOf(job), r.dsts[j].cell)
    ensures c.dstSlice == CellSlices(TargetShape(job), TargetCutsOf(job), r.dsts[j].cell) && c.tensor == TargetTensor
    ensures c.transport == Local <==> rank == r.src.rank && (job.partials == [] || SelfP2p(r, rank))
  {
    j := RouteChunksCases(job, rank, r);
    if Feeds(r, rank) {
      assert r.dsts[j] in r.dsts;
    }
  }

  /** An operation that reaches some rank has a chunk on the source rank that feeds it. */
  lemma SenderChunk(job: Job, r: Route, dst: nat) returns (c: Chunk)
    requires Ready(job, r.src.rank, r) && Feeds(r, dst)
    ensures c in RouteChunks(job, r.src.rank, r) && c.isSource
    ensures c.transport == Local <==> dst == r.src.rank && (job.partials == [] || SelfP2p(r, dst))
  {
    var rank := r.src.rank;
    var j := RouteChunksCases(job, rank, r);
    var cs := RouteChunks(job, rank, r);
    if dst == rank {
      assert r.dsts[j] in r.dsts;
      c := cs[|cs| - 1];
    } else {
      if SelfP2p(r, rank) {
        SelfP2pFeeds(r, rank);
      }
      assert Ships(job, rank, r);
      c := cs[0];
    }
  }

  /** Every destination of a route has a chunk on its rank that writes it. */
  lemma DestinationIsWritten(job: Job, rank: nat, r: Route, j: nat) returns (c: Chunk)
    requires Ready(job, rank, r) && j < |r.dsts| && r.dsts[j].rank == rank
    ensures job.targetShape.Some? && CellFits(TargetCutsOf(job), r.dsts[j].cell)
    ensures c in RouteChunks(job, rank, r) && c.isTarget && c.tensor == TargetTensor
    ensures c.transport == Local <==> rank == r.src.rank && (job.partials == [] || SelfP2p(r, rank))
    ensures c.dstSlice == CellSlices(TargetShape(job), TargetCutsOf(job), r.dsts[j].cell)
  {
    var k := RouteChunksCases(job, rank, r);
    assert Feeds(r, rank);
    assert k == j && r.dsts[j] in r.dsts;
    var cs := RouteChunks(job, rank, r);
    c := cs[|cs| - 1];
  }
}
