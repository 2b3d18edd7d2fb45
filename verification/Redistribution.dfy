/**
 The meaning of a transfer: after any complete run of every rank's chunks, each target rank holds
 exactly its piece of the global tensor.
*/
module Redistribution {
  import opened Base
  import opened IR
  import opened Radix
  import opened Layouts
  import opened Routing
  import opened RouteTables
  import opened Slices
  import opened Chunks
  import opened Buckets
  import opened Relabelling
  import opened ChunkLists
  import opened Rendezvous
  import opened Sequential

  /** One element of one rank's local tensor, on the source or the target side of tensor `tensor`. */
  datatype Loc = Loc(side: Side, tensor: nat, rank: nat, idx: seq<nat>)

  // ------------------------------------------------------------------------------------------
  // What an even layout means, with no reference to the grid

  /** Which element of the global tensor sits at local index `idx` of mesh position `pos`. */
  function ElementOf(l: Layout, pl: seq<Placement>, pos: nat, shape: seq<nat>, idx: seq<nat>): (r: seq<nat>)
    requires Positive(l.mesh.shape) && |pl| == |l.mesh.shape| && |idx| == |shape|
    ensures |r| == |idx|
    ensures forall d :: 0 <= d < |idx| ==>
      r[d] == ShardIndex(l.mesh.shape, pl, Digits(l.mesh.shape, pos), d) * shape[d] + idx[d]
  {
    seq(|idx|, d requires 0 <= d < |idx| =>
      ShardIndex(l.mesh.shape, pl, Digits(l.mesh.shape, pos), d) * shape[d] + idx[d])
  }

  ghost predicate SourcesHold<V>(x: Tensor, j: nat, mem: Loc -> V, whole: (nat, seq<nat>) -> V)
    requires ValidProblem(x.problem)
  {
    var src, shape := x.problem.source, ShapeOf(x.problem.sourceCuts, x.block);
    forall s: nat, idx :: s < |src.mesh.ranks| && InRange(shape, idx) ==>
      mem(Loc(SourceTensor, j, src.mesh.ranks[s], idx)) ==
        whole(j, ElementOf(src, Effective(src.placements), s, shape, idx))
  }

  ghost predicate TargetsHold<V>(x: Tensor, j: nat, mem: Loc -> V, whole: (nat, seq<nat>) -> V)
    requires ValidProblem(x.problem)
  {
    var dst, shape := x.problem.target, ShapeOf(x.problem.targetCuts, x.block);
    forall t: nat, idx :: t < |dst.mesh.ranks| && InRange(shape, idx) ==>
      mem(Loc(TargetTensor, j, dst.mesh.ranks[t], idx)) == whole(j, ElementOf(dst, dst.placements, t, shape, idx))
  }

  // ------------------------------------------------------------------------------------------
  // Executing an operation

  ghost predicate InSlices(idx: seq<nat>, slices: seq<Slice>) {
    |idx| == |slices| && forall d :: 0 <= d < |idx| ==> slices[d].lo <= idx[d] < slices[d].hi
  }

  function Shift(idx: seq<nat>, from: seq<Slice>, to: seq<Slice>): (r: seq<nat>)
    requires |to| == |from| == |idx| && forall d :: 0 <= d < |idx| ==> from[d].lo <= idx[d]
    ensures |r| == |idx| && forall d :: 0 <= d < |idx| ==> r[d] == idx[d] - from[d].lo + to[d].lo
  {
    seq(|idx|, d requires 0 <= d < |idx| => idx[d] - from[d].lo + to[d].lo)
  }

  ghost predicate IsOp(xs: seq<Tensor>, op: nat) {
    op / 2 < |Tasks(xs)| && IsTask(xs, Tasks(xs)[op / 2])
  }

  ghost function TaskOf(xs: seq<Tensor>, op: nat): Task
    requires IsOp(xs, op)
  {
    Tasks(xs)[op / 2]
  }

  /** The rank's own piece of a route comes by a local copy, not with the shipped buffer. */
  ghost predicate OwnCopy(xs: seq<Tensor>, k: Task, rank: nat)
    requires IsTask(xs, k)
  {
    rank == RouteOf(xs, k).src.rank && (TaskSig(xs, k) == [] || SelfP2p(RouteOf(xs, k), rank))
  }

  /** Chunk `c` is the one through which operation `op` writes `loc`. */
  ghost predicate WritesThrough(xs: seq<Tensor>, op: nat, loc: Loc, c: Chunk)
    requires AllFit(xs) && IsOp(xs, op)
  {
    && loc.tensor == TaskOf(xs, op).tensor
    && c in TaskChunks(xs, loc.rank, TaskOf(xs, op)) && c.isTarget && loc.side == c.tensor
    && (c.transport == Local <==> op % 2 == 1)
    && InSlices(loc.idx, c.dstSlice)
  }

  ghost predicate Hits(xs: seq<Tensor>, op: nat, loc: Loc)
    requires AllFit(xs)
  {
    IsOp(xs, op) && exists c :: WritesThrough(xs, op, loc, c)
  }

  /** The source region of a local cell. */
  ghost function SrcSlices(x: Tensor, cell: seq<nat>): (r: seq<Slice>)
    requires ValidProblem(x.problem) && |x.block| >= |x.problem.grid| && InRange(x.problem.sourceCuts, cell)
    ensures |r| == |x.block|
  {
    BlockIsChunk(x.problem.sourceCuts, x.block);
    CellSlices(ShapeOf(x.problem.sourceCuts, x.block), Extended(x.problem.sourceCuts, |x.block|), cell)
  }

  ghost function DstSlices(x: Tensor, cell: seq<nat>): (r: seq<Slice>)
    requires ValidProblem(x.problem) && |x.block| >= |x.problem.grid| && InRange(x.problem.targetCuts, cell)
    ensures |r| == |x.block|
  {
    BlockIsChunk(x.problem.targetCuts, x.block);
    CellSlices(ShapeOf(x.problem.targetCuts, x.block), Extended(x.problem.targetCuts, |x.block|), cell)
  }

  /** Chunk `s` on the source rank is the one operation `op` reads from. */
  ghost predicate ReadsThrough(xs: seq<Tensor>, op: nat, s: Chunk)
    requires AllFit(xs) && IsOp(xs, op)
  {
    && s in TaskChunks(xs, RouteOf(xs, TaskOf(xs, op)).src.rank, TaskOf(xs, op)) && s.isSource
    && (s.transport == Local <==> op % 2 == 1)
  }

  /** Every source chunk of an operation reads the route's source cell. */
  lemma SenderReads(xs: seq<Tensor>, k: Task, s: Chunk)
    requires AllFit(xs) && IsTask(xs, k) && s in TaskChunks(xs, RouteOf(xs, k).src.rank, k)
    ensures InRange(xs[k.tensor].problem.sourceCuts, RouteOf(xs, k).src.cell) && ReadSide(s) == SourceTensor
    ensures s.srcSlice == SrcSlices(xs[k.tensor], RouteOf(xs, k).src.cell)
  {
    var x, r := xs[k.tensor], RouteOf(xs, k);
    RouteOnMeshes(x, k.route);
    JobIsSized(x, r.src.rank, k.route);
    SourceChunkReads(JobFor(x, r.src.rank), r.src.rank, r, s);
  }

  /** A chunk that writes does so for one destination of its route. */
  lemma WriterServes(xs: seq<Tensor>, k: Task, rank: nat, c: Chunk) returns (j: nat)
    requires AllFit(xs) && IsTask(xs, k) && c in TaskChunks(xs, rank, k) && c.isTarget
    ensures var r, x := RouteOf(xs, k), xs[k.tensor];
            && j < |r.dsts| && r.dsts[j].rank == rank && InRange(x.problem.targetCuts, r.dsts[j].cell)
            && c.dstSlice == DstSlices(x, r.dsts[j].cell) && (c.transport == Local <==> OwnCopy(xs, k, rank))
            && c.tensor == TargetTensor
  {
    var x, r := xs[k.tensor], RouteOf(xs, k);
    RouteOnMeshes(x, k.route);
    JobIsSized(x, rank, k.route);
    j := TargetChunkServes(JobFor(x, rank), rank, r, c);
  }

  /** Every destination of a route has a chunk that writes it. */
  lemma WriterExists(xs: seq<Tensor>, k: Task, j: nat) returns (c: Chunk)
    requires AllFit(xs) && IsTask(xs, k) && j < |RouteOf(xs, k).dsts|
    ensures var r, x := RouteOf(xs, k), xs[k.tensor];
            && c in TaskChunks(xs, r.dsts[j].rank, k) && c.isTarget && c.tensor == TargetTensor
            && InRange(x.problem.targetCuts, r.dsts[j].cell)
            && c.dstSlice == DstSlices(x, r.dsts[j].cell) && (c.transport == Local <==> OwnCopy(xs, k, r.dsts[j].rank))
  {
    var x, r := xs[k.tensor], RouteOf(xs, k);
    var rank := r.dsts[j].rank;
    RouteOnMeshes(x, k.route);
    JobIsSized(x, rank, k.route);
    c := DestinationIsWritten(JobFor(x, rank), rank, r, j);
  }

  // ------------------------------------------------------------------------------------------
  // Geometry of one block

  /** The cell that contains element `e`. */
  function CellAt(block: seq<nat>, n: nat, e: seq<nat>): (r: seq<nat>)
    requires n <= |block| == |e|
    ensures |r| == n && forall d :: 0 <= d < n ==> block[d] > 0 ==> r[d] == e[d] / block[d]
  {
    seq(n, d requires 0 <= d < n => if block[d] == 0 then 0 else e[d] / block[d])
  }

  lemma DimCell(cuts: nat, b: nat, e: nat)
    requires e < cuts * b
    ensures b > 0 && cuts > 0 && e / b < cuts
  {
    DivBelow(e, cuts, b);
  }

  lemma CellAtInRange(x: Tensor, e: seq<nat>)
    requires ValidProblem(x.problem) && |x.block| >= |x.problem.grid|
    requires InRange(ShapeOf(x.problem.targetCuts, x.block), e)
    ensures InRange(x.problem.targetCuts, CellAt(x.block, |x.problem.targetCuts|, e))
  {
    forall d | 0 <= d < |x.problem.targetCuts|
      ensures CellAt(x.block, |x.problem.targetCuts|, e)[d] < x.problem.targetCuts[d]
    {
      DimCell(x.problem.targetCuts[d], x.block[d], e[d]);
    }
  }

  /** An element lies in the slices of exactly one cell. */
  lemma InDstSlicesIff(x: Tensor, cell: seq<nat>, e: seq<nat>)
    requires ValidProblem(x.problem) && |x.block| >= |x.problem.grid| && InRange(x.problem.targetCuts, cell)
    requires InRange(ShapeOf(x.problem.targetCuts, x.block), e)
    ensures InSlices(e, DstSlices(x, cell)) <==> cell == CellAt(x.block, |x.problem.targetCuts|, e)
  {
    var cuts, n := Extended(x.problem.targetCuts, |x.block|), |x.problem.targetCuts|;
    var slices, at := DstSlices(x, cell), CellAt(x.block, n, e);
    forall d | 0 <= d < |e|
      ensures slices[d].lo <= e[d] < slices[d].hi <==> (d < n ==> cell[d] == at[d])
    {
      DimCell(cuts[d], x.block[d], e[d]);
      InBlockIff(x.block[d], cuts[d], if d < n then cell[d] else 0, e[d]);
    }
  }

  lemma DimOrigin(shS: nat, cS: nat, c: nat, shT: nat, cT: nat, ce: nat, b: nat, e: nat)
    requires b > 0 && e / b == ce && c < cS && shS * cS + c == shT * cT + ce
    ensures e >= ce * b && e - ce * b + c * b < cS * b
    ensures shS * (cS * b) + (e - ce * b + c * b) == shT * (cT * b) + e
  {
    Recompose(e, b);
    MulMonotone(c + 1, cS, b);
    assert (c + 1) * b == c * b + b;
    MulAssoc(shS, cS, b);
    MulAssoc(shT, cT, b);
    assert (shS * cS + c) * b == (shS * cS) * b + c * b;
    assert (shT * cT + ce) * b == (shT * cT) * b + ce * b;
  }

  lemma {:induction false} UnshardedDim(shape: seq<nat>, pl: seq<Placement>, coords: seq<nat>, d: nat)
    requires |coords| == |pl| == |shape| && forall i :: 0 <= i < |pl| ==> pl[i] != Shard(d)
    ensures ShardIndex(shape, pl, coords, d) == 0
  {
    if shape != [] {
      var n := |shape| - 1;
      UnshardedDim(shape[..n], pl[..n], coords[..n], d);
    }
  }

  ghost predicate SameElementAt(x: Tensor, s: nat, c: seq<nat>, t: nat, e: seq<nat>, d: nat)
    requires ValidProblem(x.problem) && |x.block| >= |x.problem.grid| && InRange(x.problem.sourceCuts, c)
    requires d < |e| == |x.block| && InRange(x.problem.targetCuts, CellAt(x.block, |x.problem.targetCuts|, e))
  {
    var p, ce := x.problem, CellAt(x.block, |x.problem.targetCuts|, e);
    var o := e[d] - DstSlices(x, ce)[d].lo + SrcSlices(x, c)[d].lo;
    && DstSlices(x, ce)[d].lo <= e[d]
    && o < ShapeOf(p.sourceCuts, x.block)[d]
    && ShardIndex(p.source.mesh.shape, Effective(p.source.placements), Digits(p.source.mesh.shape, s), d)
         * ShapeOf(p.sourceCuts, x.block)[d] + o ==
       ShardIndex(p.target.mesh.shape, p.target.placements, Digits(p.target.mesh.shape, t), d)
         * ShapeOf(p.targetCuts, x.block)[d] + e[d]
  }

  lemma SameDim(x: Tensor, s: nat, c: seq<nat>, t: nat, e: seq<nat>, d: nat)
    requires ValidProblem(x.problem) && |x.block| >= |x.problem.grid| && InRange(x.problem.sourceCuts, c)
    requires InRange(ShapeOf(x.problem.targetCuts, x.block), e) && d < |e|
    requires InRange(x.problem.targetCuts, CellAt(x.block, |x.problem.targetCuts|, e))
    requires SourceCell(x.problem, s, c) == TargetCell(x.problem, t, CellAt(x.block, |x.problem.targetCuts|, e))
    ensures SameElementAt(x, s, c, t, e, d)
  {
    var p, n, b := x.problem, |x.problem.targetCuts|, x.block[d];
    var ce := CellAt(x.block, n, e);
    var cutsT, cutsS := Extended(p.targetCuts, |x.block|), Extended(p.sourceCuts, |x.block|);
    DimCell(cutsT[d], b, e[d]);
    InBlockIff(b, cutsT[d], if d < n then ce[d] else 0, e[d]);
    InBlockIff(b, cutsS[d], if d < n then c[d] else 0, e[d]);
    var shS := ShardIndex(p.source.mesh.shape, Effective(p.source.placements), Digits(p.source.mesh.shape, s), d);
    var shT := ShardIndex(p.target.mesh.shape, p.target.placements, Digits(p.target.mesh.shape, t), d);
    if d < n {
      assert SourceCell(p, s, c)[d] == TargetCell(p, t, ce)[d];
      DimOrigin(shS, cutsS[d], c[d], shT, cutsT[d], ce[d], b, e[d]);
    } else {
      UnshardedDim(p.source.mesh.shape, Effective(p.source.placements), Digits(p.source.mesh.shape, s), d);
      UnshardedDim(p.target.mesh.shape, p.target.placements, Digits(p.target.mesh.shape, t), d);
    }
  }

  ghost predicate Meets(x: Tensor, s: nat, c: seq<nat>, t: nat, e: seq<nat>) {
    && ValidProblem(x.problem) && |x.block| >= |x.problem.grid| && InRange(x.problem.sourceCuts, c)
    && InRange(ShapeOf(x.problem.targetCuts, x.block), e)
    && InRange(x.problem.targetCuts, CellAt(x.block, |x.problem.targetCuts|, e))
    && SourceCell(x.problem, s, c) == TargetCell(x.problem, t, CellAt(x.block, |x.problem.targetCuts|, e))
  }

  /** The source element behind target element `e` of a block fed by source cell `c`. */
  ghost function OriginIdx(x: Tensor, s: nat, c: seq<nat>, t: nat, e: seq<nat>): (o: seq<nat>)
    requires Meets(x, s, c, t, e)
    ensures |o| == |e|
    ensures forall d :: 0 <= d < |e| ==> DstSlices(x, CellAt(x.block, |x.problem.targetCuts|, e))[d].lo <= e[d]
    ensures o == Shift(e, DstSlices(x, CellAt(x.block, |x.problem.targetCuts|, e)), SrcSlices(x, c))
  {
    InDstSlicesIff(x, CellAt(x.block, |x.problem.targetCuts|, e), e);
    Shift(e, DstSlices(x, CellAt(x.block, |x.problem.targetCuts|, e)), SrcSlices(x, c))
  }

  /** Corresponding elements of two blocks that cover the same grid cell are the same global element. */
  lemma SameElement(x: Tensor, s: nat, c: seq<nat>, t: nat, e: seq<nat>)
    requires Meets(x, s, c, t, e)
    ensures var p, o := x.problem, OriginIdx(x, s, c, t, e);
            && InRange(ShapeOf(p.sourceCuts, x.block), o)
            && ElementOf(p.source, Effective(p.source.placements), s, ShapeOf(p.sourceCuts, x.block), o) ==
               ElementOf(p.target, p.target.placements, t, ShapeOf(p.targetCuts, x.block), e)
  {
    var p, o := x.problem, OriginIdx(x, s, c, t, e);
    var shape := ShapeOf(p.sourceCuts, x.block);
    var a := ElementOf(p.source, Effective(p.source.placements), s, shape, o);
    var b := ElementOf(p.target, p.target.placements, t, ShapeOf(p.targetCuts, x.block), e);
    forall d | 0 <= d < |e| ensures o[d] < shape[d] && a[d] == b[d] {
      SameDim(x, s, c, t, e, d);
      assert SameElementAt(x, s, c, t, e, d);
    }
  }

  // ------------------------------------------------------------------------------------------
  // Which operation writes an element

  /** Element `e` of target position `t` of tensor `j`. */
  ghost predicate TargetLoc(xs: seq<Tensor>, j: nat, t: nat, e: seq<nat>)
    requires AllFit(xs)
  {
    && j < |xs| && t < |xs[j].problem.target.mesh.ranks|
    && InRange(ShapeOf(xs[j].problem.targetCuts, xs[j].block), e)
  }

  ghost function LocOf(xs: seq<Tensor>, j: nat, t: nat, e: seq<nat>): Loc
    requires AllFit(xs) && TargetLoc(xs, j, t, e)
  {
    Loc(TargetTensor, j, xs[j].problem.target.mesh.ranks[t], e)
  }

  /** The target cell that contains it. */
  ghost function WantedCell(xs: seq<Tensor>, j: nat, t: nat, e: seq<nat>): Endpoint
    requires AllFit(xs) && TargetLoc(xs, j, t, e)
  {
    Endpoint(xs[j].problem.target.mesh.ranks[t], CellAt(xs[j].block, |xs[j].problem.targetCuts|, e))
  }

  lemma HitFinds(xs: seq<Tensor>, op: nat, j: nat, t: nat, e: seq<nat>, c: Chunk) returns (m: nat)
    requires AllFit(xs) && TargetLoc(xs, j, t, e) && IsOp(xs, op) && WritesThrough(xs, op, LocOf(xs, j, t, e), c)
    ensures var k := TaskOf(xs, op);
            && k.tensor == j && m < |RouteOf(xs, k).dsts| && RouteOf(xs, k).dsts[m] == WantedCell(xs, j, t, e)
            && (op % 2 == 1 <==> OwnCopy(xs, k, WantedCell(xs, j, t, e).rank))
            && InRange(xs[j].problem.targetCuts, WantedCell(xs, j, t, e).cell)
            && c.dstSlice == DstSlices(xs[j], WantedCell(xs, j, t, e).cell)
  {
    var k, loc := TaskOf(xs, op), LocOf(xs, j, t, e);
    m := WriterServes(xs, k, loc.rank, c);
    InDstSlicesIff(xs[j], RouteOf(xs, k).dsts[m].cell, e);
  }

  lemma DeliveryHits(xs: seq<Tensor>, op: nat, j: nat, t: nat, e: seq<nat>, m: nat)
    requires AllFit(xs) && TargetLoc(xs, j, t, e) && IsOp(xs, op) && TaskOf(xs, op).tensor == j
    requires m < |RouteOf(xs, TaskOf(xs, op)).dsts| && RouteOf(xs, TaskOf(xs, op)).dsts[m] == WantedCell(xs, j, t, e)
    requires op % 2 == 1 <==> OwnCopy(xs, TaskOf(xs, op), WantedCell(xs, j, t, e).rank)
    ensures Hits(xs, op, LocOf(xs, j, t, e))
  {
    var c := WriterExists(xs, TaskOf(xs, op), m);
    InDstSlicesIff(xs[j], WantedCell(xs, j, t, e).cell, e);
    assert WritesThrough(xs, op, LocOf(xs, j, t, e), c);
  }

  /** Exactly one operation writes each target element. */
  lemma OneWriter(xs: seq<Tensor>, j: nat, t: nat, e: seq<nat>) returns (op: nat)
    requires AllFit(xs) && TargetLoc(xs, j, t, e)
    ensures Hits(xs, op, LocOf(xs, j, t, e))
    ensures forall op' :: Hits(xs, op', LocOf(xs, j, t, e)) ==> op' == op
  {
    var x, want, loc := xs[j], WantedCell(xs, j, t, e), LocOf(xs, j, t, e);
    CellAtInRange(x, e);
    assert InTarget(x.problem, t, want.cell);
    assert Delivered(x.routes, want);
    var i, m :| 0 <= i < |x.routes| && 0 <= m < |x.routes[i].dsts| && x.routes[i].dsts[m] == want;
    op := OperationOf(xs, j, i, want.rank);
    DeliveryHits(xs, op, j, t, e, m);
    forall op' | Hits(xs, op', loc) ensures op' == op {
      SameWriter(xs, j, t, e, op, op');
    }
  }

  /** The number of the operation of a route that reaches `rank`. */
  lemma OperationOf(xs: seq<Tensor>, j: nat, i: nat, rank: nat) returns (op: nat)
    requires AllFit(xs) && IsTask(xs, Task(j, i))
    ensures IsOp(xs, op) && TaskOf(xs, op) == Task(j, i) && (op % 2 == 1 <==> OwnCopy(xs, Task(j, i), rank))
  {
    TasksAreTasks(xs);
    assert Task(j, i) in Tasks(xs);
    var k :| 0 <= k < |Tasks(xs)| && Tasks(xs)[k] == Task(j, i);
    op := 2 * k + (if OwnCopy(xs, Task(j, i), rank) then 1 else 0);
  }

  lemma SameWriter(xs: seq<Tensor>, j: nat, t: nat, e: seq<nat>, op: nat, op': nat)
    requires AllFit(xs) && TargetLoc(xs, j, t, e) && Hits(xs, op, LocOf(xs, j, t, e))
    requires Hits(xs, op', LocOf(xs, j, t, e))
    ensures op == op'
  {
    var loc := LocOf(xs, j, t, e);
    var c :| WritesThrough(xs, op, loc, c);
    var c' :| WritesThrough(xs, op', loc, c');
    var m := HitFinds(xs, op, j, t, e, c);
    var m' := HitFinds(xs, op', j, t, e, c');
    SameDelivery(xs[j], TaskOf(xs, op).route, m, TaskOf(xs, op').route, m');
    SameTaskSameOp(xs, op, op');
  }

  lemma SameTaskSameOp(xs: seq<Tensor>, op: nat, op': nat)
    requires IsOp(xs, op) && IsOp(xs, op') && TaskOf(xs, op) == TaskOf(xs, op') && op % 2 == op' % 2
    ensures op == op'
  {
    TasksAreTasks(xs);
    assert Tasks(xs)[op' / 2] == Tasks(xs)[op / 2];
  }

  lemma SameDelivery(x: Tensor, i: nat, m: nat, i': nat, m': nat)
    requires FitTensor(x) && i < |x.routes| && m < |x.routes[i].dsts| && i' < |x.routes| && m' < |x.routes[i'].dsts|
    requires x.routes[i].dsts[m] == x.routes[i'].dsts[m']
    ensures i == i' && m == m'
  {
  }

  // ------------------------------------------------------------------------------------------
  // Running operations

  /** An operation that writes has a chunk that reads, with slices of the same rank. */
  lemma SenderExists(xs: seq<Tensor>, op: nat, loc: Loc, c: Chunk) returns (s: Chunk)
    requires AllFit(xs) && IsOp(xs, op) && WritesThrough(xs, op, loc, c)
    ensures ReadsThrough(xs, op, s)
  {
    var k := TaskOf(xs, op);
    var x, r := xs[k.tensor], RouteOf(xs, k);
    var j := WriterServes(xs, k, loc.rank, c);
    JobIsSized(x, r.src.rank, k.route);
    assert Feeds(r, loc.rank);
    s := SenderChunk(JobFor(x, r.src.rank), r, loc.rank);
  }

  lemma SlicesAlign(xs: seq<Tensor>, op: nat, loc: Loc, c: Chunk, s: Chunk)
    requires AllFit(xs) && IsOp(xs, op) && WritesThrough(xs, op, loc, c) && ReadsThrough(xs, op, s)
    ensures |s.srcSlice| == |c.dstSlice| == |loc.idx| && ReadSide(s) == SourceTensor && loc.side == TargetTensor
    ensures forall d :: 0 <= d < |loc.idx| ==> c.dstSlice[d].lo <= loc.idx[d]
  {
    var k := TaskOf(xs, op);
    var j := WriterServes(xs, k, loc.rank, c);
    SenderReads(xs, k, s);
  }

  /** Where the value written to `loc` is read: the same place within the slice of the chunk that reads. */
  ghost function Origin(xs: seq<Tensor>, op: nat, loc: Loc): Loc
    requires AllFit(xs) && Hits(xs, op, loc)
  {
    var c := WriterOf(xs, op, loc);
    var found := SenderOf(xs, op, loc, c);
    SlicesAlign(xs, op, loc, c, found);
    Loc(ReadSide(found), loc.tensor, RouteOf(xs, TaskOf(xs, op)).src.rank, Shift(loc.idx, c.dstSlice, found.srcSlice))
  }

  ghost function WriterOf(xs: seq<Tensor>, op: nat, loc: Loc): (c: Chunk)
    requires AllFit(xs) && Hits(xs, op, loc)
    ensures WritesThrough(xs, op, loc, c)
  {
    var c :| WritesThrough(xs, op, loc, c);
    c
  }

  ghost function SenderOf(xs: seq<Tensor>, op: nat, loc: Loc, c: Chunk): (s: Chunk)
    requires AllFit(xs) && IsOp(xs, op) && WritesThrough(xs, op, loc, c)
    ensures ReadsThrough(xs, op, s)
  {
    SenderIsThere(xs, op, loc, c);
    var s :| ReadsThrough(xs, op, s);
    s
  }

  lemma SenderIsThere(xs: seq<Tensor>, op: nat, loc: Loc, c: Chunk)
    requires AllFit(xs) && IsOp(xs, op) && WritesThrough(xs, op, loc, c)
    ensures exists s :: ReadsThrough(xs, op, s)
  {
    var s := SenderExists(xs, op, loc, c);
  }

  lemma OriginIs(xs: seq<Tensor>, op: nat, loc: Loc) returns (c: Chunk)
    requires AllFit(xs) && Hits(xs, op, loc)
    ensures WritesThrough(xs, op, loc, c) && loc.side == TargetTensor
    ensures var k := TaskOf(xs, op);
            && InRange(xs[k.tensor].problem.sourceCuts, RouteOf(xs, k).src.cell)
            && |c.dstSlice| == |loc.idx| == |xs[k.tensor].block|
            && (forall d :: 0 <= d < |loc.idx| ==> c.dstSlice[d].lo <= loc.idx[d])
            && Origin(xs, op, loc) == Loc(SourceTensor, loc.tensor, RouteOf(xs, k).src.rank,
                                          Shift(loc.idx, c.dstSlice, SrcSlices(xs[k.tensor], RouteOf(xs, k).src.cell)))
  {
    c := WriterOf(xs, op, loc);
    var found := SenderOf(xs, op, loc, c);
    SlicesAlign(xs, op, loc, c, found);
    SenderReads(xs, TaskOf(xs, op), found);
  }

  lemma OnlyTargetsHit(xs: seq<Tensor>, op: nat, loc: Loc)
    requires AllFit(xs) && Hits(xs, op, loc)
    ensures loc.side == TargetTensor
  {
    var c :| WritesThrough(xs, op, loc, c);
    var j := WriterServes(xs, TaskOf(xs, op), loc.rank, c);
  }

  ghost function Deliver<V>(xs: seq<Tensor>, mem: Loc -> V, op: nat): Loc -> V
    requires AllFit(xs)
  {
    loc => if Hits(xs, op, loc) then mem(Origin(xs, op, loc)) else mem(loc)
  }

  ghost function Execute<V>(xs: seq<Tensor>, mem: Loc -> V, ops: seq<Item>): Loc -> V
    requires AllFit(xs)
  {
    if ops == [] then mem else Deliver(xs, Execute(xs, mem, ops[..|ops| - 1]), ops[|ops| - 1].op)
  }

  lemma {:induction false} UnhitStays<V>(xs: seq<Tensor>, mem: Loc -> V, ops: seq<Item>, loc: Loc)
    requires AllFit(xs) && forall i :: 0 <= i < |ops| ==> !Hits(xs, ops[i].op, loc)
    ensures Execute(xs, mem, ops)(loc) == mem(loc)
  {
    if ops != [] {
      UnhitStays(xs, mem, ops[..|ops| - 1], loc);
    }
  }

  lemma SourcesUnhit(xs: seq<Tensor>, ops: seq<Item>, loc: Loc)
    requires AllFit(xs) && loc.side == SourceTensor
    ensures forall i :: 0 <= i < |ops| ==> !Hits(xs, ops[i].op, loc)
  {
    forall i | 0 <= i < |ops| && Hits(xs, ops[i].op, loc) ensures false {
      OnlyTargetsHit(xs, ops[i].op, loc);
    }
  }

  lemma {:induction false} HitOnce<V>(xs: seq<Tensor>, mem: Loc -> V, ops: seq<Item>, loc: Loc, i: nat)
    requires AllFit(xs) && i < |ops| && Hits(xs, ops[i].op, loc)
    requires forall k :: 0 <= k < |ops| && k != i ==> !Hits(xs, ops[k].op, loc)
    ensures Execute(xs, mem, ops)(loc) == mem(Origin(xs, ops[i].op, loc))
  {
    var n := |ops| - 1;
    if i == n {
      var o := Origin(xs, ops[i].op, loc);
      var c := OriginIs(xs, ops[i].op, loc);
      SourcesUnhit(xs, ops[..n], o);
      UnhitStays(xs, mem, ops[..n], o);
    } else {
      HitOnce(xs, mem, ops[..n], loc, i);
    }
  }

  // ------------------------------------------------------------------------------------------
  // Complete runs

  ghost predicate OpsIncrease(items: seq<Item>) {
    forall i, j :: 0 <= i < j < |items| ==> items[i].op < items[j].op
  }

  /** Block `i` has the numbers `2i` and `2i + 1` only, in order. */
  ghost predicate Numbered(blocks: seq<seq<Item>>) {
    forall i :: 0 <= i < |blocks| ==>
      OpsIncrease(blocks[i]) && forall x :: x in blocks[i] ==> 2 * i <= x.op < 2 * i + 2
  }

  lemma {:induction false} FlatOpsIncrease(blocks: seq<seq<Item>>)
    requires Numbered(blocks)
    ensures OpsIncrease(Flatten(blocks)) && forall x :: x in Flatten(blocks) ==> x.op < 2 * |blocks|
  {
    if blocks != [] {
      var n := |blocks| - 1;
      FlatOpsIncrease(blocks[..n]);
      var a, b := Flatten(blocks[..n]), blocks[n];
      forall i, j | 0 <= i < |a| && 0 <= j < |b| ensures a[i].op < b[j].op {
        assert a[i] in a && b[j] in b;
      }
    }
  }

  lemma RouteItemsNumbered(r: Route, sig: seq<PartialGroup>, nb: nat, op: nat)
    ensures OpsIncrease(RouteItems(r, sig, nb, op))
    ensures forall x :: x in RouteItems(r, sig, nb, op) ==> op <= x.op < op + 2
  {
  }

  lemma AllOpsIncrease(xs: seq<Tensor>)
    ensures OpsIncrease(AllItems(xs))
  {
    var blocks := Blocks(xs);
    forall i | 0 <= i < |blocks|
      ensures OpsIncrease(blocks[i]) && forall x: Item :: x in blocks[i] ==> 2 * i <= x.op < 2 * i + 2
    {
      var k := Tasks(xs)[i];
      RouteItemsNumbered(RouteOf(xs, k), TaskSig(xs, k), BytesOf(xs[k.tensor]), 2 * i);
    }
    FlatOpsIncrease(blocks);
  }

  /** The operation of a route that reaches destination `m`. */
  lemma RouteServes(r: Route, sig: seq<PartialGroup>, nb: nat, op: nat, m: nat) returns (x: Item)
    requires m < |r.dsts|
    ensures x in RouteItems(r, sig, nb, op)
    ensures x.op == op + (if r.dsts[m].rank == r.src.rank && (sig == [] || SelfP2p(r, r.src.rank)) then 1 else 0)
  {
    assert Feeds(r, r.dsts[m].rank);
    var items := RouteItems(r, sig, nb, op);
    if r.dsts[m].rank == r.src.rank && (sig == [] || SelfP2p(r, r.src.rank)) {
      x := items[|items| - 1];
    } else {
      if SelfP2p(r, r.src.rank) {
        SelfP2pFeeds(r, r.src.rank);
      }
      x := items[0];
    }
  }

  /** The operation that serves a destination is in the global list. */
  lemma OperationListed(xs: seq<Tensor>, k: nat, m: nat) returns (i: nat)
    requires k < |Tasks(xs)| && IsTask(xs, Tasks(xs)[k]) && m < |RouteOf(xs, Tasks(xs)[k]).dsts|
    ensures i < |AllItems(xs)|
    ensures var r := RouteOf(xs, Tasks(xs)[k]);
            AllItems(xs)[i].op == 2 * k + (if OwnCopy(xs, Tasks(xs)[k], r.dsts[m].rank) then 1 else 0)
  {
    var task := Tasks(xs)[k];
    var x := RouteServes(RouteOf(xs, task), TaskSig(xs, task), BytesOf(xs[task.tensor]), 2 * k, m);
    assert x in Blocks(xs)[k];
    InFlatten(Blocks(xs), Blocks(xs)[k], x);
    i :| 0 <= i < |AllItems(xs)| && AllItems(xs)[i] == x;
  }

  lemma {:induction false} CountIndex<T>(s: seq<T>, x: T)
    ensures x in s ==> multiset(s)[x] >= 1
    ensures Distinct(s) ==> multiset(s)[x] <= 1
  {
    if s != [] {
      var n := |s| - 1;
      CountIndex(s[..n], x);
      assert s == s[..n] + [s[n]];
      if Distinct(s) && s[n] == x {
        assert x !in s[..n];
      }
    }
  }

  lemma TwoCopies<T>(s: seq<T>, i: nat, j: nat)
    requires i < j < |s| && s[i] == s[j]
    ensures multiset(s)[s[i]] >= 2
  {
    assert s == s[..j] + [s[j]] + s[j + 1..];
    assert s[..j][i] == s[i];
    CountIndex(s[..j], s[i]);
  }

  lemma PermutationDistinct<T>(a: seq<T>, b: seq<T>)
    requires Distinct(a) && multiset(a) == multiset(b)
    ensures Distinct(b)
  {
    forall i, j | 0 <= i < j < |b| ensures b[i] != b[j] {
      if b[i] == b[j] {
        TwoCopies(b, i, j);
        CountIndex(a, b[i]);
      }
    }
  }

  lemma BagMiddle<T>(f: seq<T>, x: seq<T>, b: seq<T>)
    ensures multiset(f + (x + b)) == multiset(f + b) + multiset(x)
  {
    assert multiset(f + (x + b)) == multiset(f) + multiset(x) + multiset(b);
  }

  lemma FlattenMiddle<T>(f: seq<seq<T>>, x: seq<T>, b: seq<seq<T>>)
    ensures Flatten(f + ([x] + b)) == Flatten(f) + (x + Flatten(b))
  {
    FlattenConcat(f, [x] + b);
    FlattenConcat([x], b);
    FlattenOne(x);
  }

  lemma FlattenTakeOut<T>(f: seq<seq<T>>, x: seq<T>, b: seq<seq<T>>)
    ensures multiset(Flatten(f + ([x] + b))) == multiset(Flatten(f + b)) + multiset(x)
  {
    FlattenMiddle(f, x, b);
    FlattenConcat(f, b);
    BagMiddle(Flatten(f), x, Flatten(b));
  }

  lemma SplitAt<T>(s: seq<T>, j: nat)
    requires j < |s|
    ensures s == s[..j] + ([s[j]] + s[j + 1..])
  {
  }

  /** Taking out one inner sequence takes out its elements. */
  lemma FlattenWithout<T>(ss: seq<seq<T>>, j: nat)
    requires j < |ss|
    ensures multiset(ss) == multiset(Without(ss, j)) + multiset{ss[j]}
    ensures multiset(Flatten(ss)) == multiset(Flatten(Without(ss, j))) + multiset(ss[j])
  {
    SplitAt(ss, j);
    BagMiddle(ss[..j], [ss[j]], ss[j + 1..]);
    FlattenTakeOut(ss[..j], ss[j], ss[j + 1..]);
  }

  lemma {:induction false} FlattenPermutes<T>(a: seq<seq<T>>, b: seq<seq<T>>)
    requires multiset(a) == multiset(b)
    ensures multiset(Flatten(a)) == multiset(Flatten(b))
  {
    if a == [] {
      assert |b| == |multiset(b)| == 0;
    } else {
      assert a[0] in multiset(b);
      var j :| 0 <= j < |b| && b[j] == a[0];
      FlattenWithout(a, 0);
      FlattenWithout(b, j);
      SameRest(multiset(Without(a, 0)), multiset(Without(b, j)), a[0]);
      FlattenPermutes(Without(a, 0), Without(b, j));
    }
  }

  lemma SameRest<T>(m: multiset<T>, n: multiset<T>, x: T)
    requires m + multiset{x} == n + multiset{x}
    ensures m == n
  {
    assert m == (m + multiset{x}) - multiset{x};
    assert n == (n + multiset{x}) - multiset{x};
  }

  lemma {:induction false} RelabelPermutes(f: BucketKey -> BucketKey, a: seq<Item>, b: seq<Item>)
    requires multiset(a) == multiset(b)
    ensures multiset(Relabel(f, a)) == multiset(Relabel(f, b))
  {
    if a == [] {
      assert |b| == |multiset(b)| == 0;
    } else {
      assert a[0] in multiset(b);
      var j :| 0 <= j < |b| && b[j] == a[0];
      BagWithout(a, 0);
      BagWithout(b, j);
      SameRest(multiset(Without(a, 0)), multiset(Without(b, j)), a[0]);
      RelabelPermutes(f, Without(a, 0), Without(b, j));
      RelabelWithout(f, a, 0);
      RelabelWithout(f, b, j);
    }
  }

  lemma BagWithout<T>(s: seq<T>, j: nat)
    requires j < |s|
    ensures multiset(s) == multiset(Without(s, j)) + multiset{s[j]}
  {
    SplitAt(s, j);
    BagMiddle(s[..j], [s[j]], s[j + 1..]);
  }

  lemma RelabelWithout(f: BucketKey -> BucketKey, s: seq<Item>, j: nat)
    requires j < |s|
    ensures multiset(Relabel(f, s)) == multiset(Relabel(f, Without(s, j))) + multiset{Renamed(f, s[j])}
  {
    assert Without(Relabel(f, s), j) == Relabel(f, Without(s, j));
    BagWithout(Relabel(f, s), j);
  }

  /** What a complete run executes: the operations of the batch, once each. */
  ghost predicate Complete(xs: seq<Tensor>, ops: seq<Item>) {
    multiset(ops) == multiset(Relabel(Erased(), AllItems(xs)))
  }

  lemma CompleteRun(xs: seq<Tensor>, size: int, trace: seq<seq<Item>>)
    requires multiset(trace) == multiset(CommonBuckets(xs, size))
    ensures Complete(xs, Flatten(trace))
  {
    FlattenPermutes(trace, CommonBuckets(xs, size));
    FlattenRelabel(Erased(), Bucketize(AllItems(xs), size));
    BucketsPartition(AllItems(xs), size);
    RelabelPermutes(Erased(), Flatten(Bucketize(AllItems(xs), size)), AllItems(xs));
  }

  /** Each operation of the global list occurs once in what a complete run executed. */
  lemma RunCoversOnce(xs: seq<Tensor>, ops: seq<Item>)
    requires Complete(xs, ops)
    ensures forall i, j :: 0 <= i < j < |ops| ==> ops[i].op != ops[j].op
    ensures forall i :: 0 <= i < |AllItems(xs)| ==> Renamed(Erased(), AllItems(xs)[i]) in ops
  {
    AllOpsIncrease(xs);
    var all := Relabel(Erased(), AllItems(xs));
    assert OpsIncrease(all);
    PermutationDistinct(all, ops);
    forall x | x in ops ensures x in all {
      assert x in multiset(ops);
    }
    forall i, j | 0 <= i < j < |ops| ensures ops[i].op != ops[j].op {
      assert ops[i] in all && ops[j] in all;
    }
    forall i | 0 <= i < |all| ensures all[i] in ops {
      assert all[i] in multiset(all);
    }
  }

  /** A target element ends up with the global element its layout puts there. */
  lemma ElementArrives<V>(
    xs: seq<Tensor>, mem: Loc -> V, whole: (nat, seq<nat>) -> V, ops: seq<Item>, j: nat, t: nat, e: seq<nat>)
    requires AllFit(xs) && Complete(xs, ops) && TargetLoc(xs, j, t, e)
    requires SourcesHold(xs[j], j, mem, whole)
    ensures exists i :: 0 <= i < |ops| && Hits(xs, ops[i].op, LocOf(xs, j, t, e)) &&
              forall k :: 0 <= k < |ops| && k != i ==> !Hits(xs, ops[k].op, LocOf(xs, j, t, e))
    ensures Execute(xs, mem, ops)(LocOf(xs, j, t, e)) ==
            whole(j, ElementOf(xs[j].problem.target, xs[j].problem.target.placements, t,
                               ShapeOf(xs[j].problem.targetCuts, xs[j].block), e))
  {
    var loc := LocOf(xs, j, t, e);
    RunCoversOnce(xs, ops);
    var op := OneWriter(xs, j, t, e);
    var i := WriterRuns(xs, ops, op, j, t, e);
    HitOnce(xs, mem, ops, loc, i);
    OriginHolds(xs, op, mem, whole, j, t, e);
  }

  lemma WriterRuns(xs: seq<Tensor>, ops: seq<Item>, op: nat, j: nat, t: nat, e: seq<nat>) returns (i: nat)
    requires AllFit(xs) && TargetLoc(xs, j, t, e) && Hits(xs, op, LocOf(xs, j, t, e))
    requires forall i :: 0 <= i < |AllItems(xs)| ==> Renamed(Erased(), AllItems(xs)[i]) in ops
    ensures i < |ops| && ops[i].op == op
  {
    var c :| WritesThrough(xs, op, LocOf(xs, j, t, e), c);
    var m := HitFinds(xs, op, j, t, e, c);
    var a := OperationListed(xs, op / 2, m);
    assert AllItems(xs)[a].op == op;
    i :| 0 <= i < |ops| && ops[i] == Renamed(Erased(), AllItems(xs)[a]);
  }

  lemma OriginHolds<V>(
    xs: seq<Tensor>, op: nat, mem: Loc -> V, whole: (nat, seq<nat>) -> V, j: nat, t: nat, e: seq<nat>)
    requires AllFit(xs) && TargetLoc(xs, j, t, e) && Hits(xs, op, LocOf(xs, j, t, e))
    requires SourcesHold(xs[j], j, mem, whole)
    ensures mem(Origin(xs, op, LocOf(xs, j, t, e))) ==
            whole(j, ElementOf(xs[j].problem.target, xs[j].problem.target.placements, t,
                               ShapeOf(xs[j].problem.targetCuts, xs[j].block), e))
  {
    var loc, x, want := LocOf(xs, j, t, e), xs[j], WantedCell(xs, j, t, e);
    var c := OriginIs(xs, op, loc);
    var m := HitFinds(xs, op, j, t, e, c);
    var r := RouteOf(xs, TaskOf(xs, op));
    var s := HolderPosition(x, TaskOf(xs, op).route, m, t);
    SameElement(x, s, r.src.cell, t, e);
  }

  lemma HolderPosition(x: Tensor, i: nat, m: nat, t: nat) returns (s: nat)
    requires FitTensor(x) && i < |x.routes| && m < |x.routes[i].dsts| && t < |x.problem.target.mesh.ranks|
    requires x.routes[i].dsts[m].rank == x.problem.target.mesh.ranks[t]
    ensures s < |x.problem.source.mesh.ranks| && x.problem.source.mesh.ranks[s] == x.routes[i].src.rank
    ensures InRange(x.problem.sourceCuts, x.routes[i].src.cell)
    ensures InRange(x.problem.targetCuts, x.routes[i].dsts[m].cell)
    ensures SourceCell(x.problem, s, x.routes[i].src.cell) == TargetCell(x.problem, t, x.routes[i].dsts[m].cell)
  {
    var r := x.routes[i];
    assert RightDelivery(x.problem, r.src, r.dsts[m]);
    var t' :| Serves(x.problem, r.src, r.dsts[m], t');
    assert t' == t;
    s :| 0 <= s < |x.problem.source.mesh.ranks| && x.problem.source.mesh.ranks[s] == r.src.rank &&
      SourceCell(x.problem, s, r.src.cell) == TargetCell(x.problem, t, r.dsts[m].cell);
  }

  /**
   The main theorem. Whatever order the ranks' buckets met in, a complete run leaves every target
   tensor equal to the target layout of the global tensor the sources held, leaves every source
   untouched, and wrote each target element exactly once (`ElementArrives`). For a Partial source
   `mem` holds what its chunks read after their reductions.
  */
  lemma RedistributionPreservesMeaning<V>(
    xs: seq<Tensor>, world: set<nat>, size: int, trace: seq<seq<Item>>, end: Lists<seq<Item>>,
    mem: Loc -> V, whole: (nat, seq<nat>) -> V)
    requires AllFit(xs) && OneSigned(xs, world) && InWorld(xs, world)
    requires Run(BucketParts, StartLists(xs, world, size), trace, end) && forall r :: r in end ==> end[r] == []
    requires forall j :: 0 <= j < |xs| ==> SourcesHold(xs[j], j, mem, whole)
    ensures forall j :: 0 <= j < |xs| ==> TargetsHold(xs[j], j, Execute(xs, mem, Flatten(trace)), whole)
    ensures forall loc: Loc :: loc.side == SourceTensor ==> Execute(xs, mem, Flatten(trace))(loc) == mem(loc)
  {
    var ops := Flatten(trace);
    FinishedRunIsComplete(xs, world, size, trace, end);
    CompleteRun(xs, size, trace);
    forall j | 0 <= j < |xs| ensures TargetsHold(xs[j], j, Execute(xs, mem, ops), whole) {
      TensorArrives(xs, mem, whole, ops, j);
    }
    forall loc: Loc | loc.side == SourceTensor ensures Execute(xs, mem, ops)(loc) == mem(loc) {
      SourcesUnhit(xs, ops, loc);
      UnhitStays(xs, mem, ops, loc);
    }
  }

  lemma TensorArrives<V>(xs: seq<Tensor>, mem: Loc -> V, whole: (nat, seq<nat>) -> V, ops: seq<Item>, j: nat)
    requires AllFit(xs) && Complete(xs, ops) && j < |xs| && SourcesHold(xs[j], j, mem, whole)
    ensures TargetsHold(xs[j], j, Execute(xs, mem, ops), whole)
  {
    var x := xs[j];
    forall t: nat, e | t < |x.problem.target.mesh.ranks| && InRange(ShapeOf(x.problem.targetCuts, x.block), e)
      ensures Execute(xs, mem, ops)(Loc(TargetTensor, j, x.problem.target.mesh.ranks[t], e)) ==
              whole(j, ElementOf(x.problem.target, x.problem.target.placements, t,
                                 ShapeOf(x.problem.targetCuts, x.block), e))
    {
      ElementArrives(xs, mem, whole, ops, j, t, e);
    }
  }

  lemma FinishedRunIsComplete(
    xs: seq<Tensor>, world: set<nat>, size: int, trace: seq<seq<Item>>, end: Lists<seq<Item>>)
    requires AllFit(xs) && OneSigned(xs, world) && InWorld(xs, world)
    requires Run(BucketParts, StartLists(xs, world, size), trace, end) && forall r :: r in end ==> end[r] == []
    ensures multiset(trace) == multiset(CommonBuckets(xs, size))
  {
    StartIsProjected(xs, world, size);
    NoDeadlock(BucketParts, StartLists(xs, world, size), CommonBuckets(xs, size), trace, end);
    if b :| b in CommonBuckets(xs, size) && Enabled(BucketParts, end, b) {
      var r :| r in BucketParts(b);
    }
  }
}
