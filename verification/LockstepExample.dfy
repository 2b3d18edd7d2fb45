/**
 Peers out of lockstep (src/etha/comm/ir.py, src/etha/comm/get_m2m_map.py): halves, summed over two rows of ranks
 and sent as thirds to three other ranks. Of the first third the first row ships the cells and the second only
 reduces them, and the bucket keys of the two rows differ.
*/
module LockstepExample {
  import opened Base
  import opened IR
  import opened Radix
  import opened TagCodec
  import opened Layouts
  import opened Routing
  import opened RouteTables
  import opened Sequential
  import opened PartialBatches
  import opened MeshPlaces
  import opened PartialSequential
  import opened CoalescedLockstep
  import opened OnePairLockstep
  import opened ShippingPeers
  import opened Planner
  import opened CrossedMesh
  import PartialGroups
  import Coalescing

  /** The rows 0, 1 and 2, 3 hold halves; 4, 5 and 6 want thirds. */
  ghost predicate RowsToThirds(p: Problem) {
    && TwoByTwo(p.source) && p.source.mesh.ranks == [0, 1, 2, 3]
    && p.target == Layout(Mesh([3], [4, 5, 6]), [Shard(0)]) && p.grid == [6] && p.sourceCuts == [3]
    && p.targetCuts == [2]
  }

  lemma RowsToThirdsIsValid(p: Problem)
    requires RowsToThirds(p)
    ensures ValidProblem(p)
  {
    ProdTwo(p.source.mesh.shape);
    TwoShards(p.source);
    assert Distinct([0, 1, 2, 3]) && Distinct([4, 5, 6]);
    Coalescing.LineIsValid(p.target, 3, 2);
  }

  lemma FirstColumn(p: Problem, row: nat)
    requires RowsToThirds(p) && ValidProblem(p) && row < 2
    ensures 2 * row in p.source.mesh.ranks && Coords(p.source.mesh, 2 * row) == [row, 0]
  {
    ValueTwo(p.source.mesh.shape, [row, 0]);
    assert InRange(p.source.mesh.shape, [row, 0]);
    CoordsAre(p.source.mesh, 2 * row, [row, 0]);
  }

  lemma ColumnPeers(p: Problem)
    requires RowsToThirds(p) && ValidProblem(p)
    ensures PartialGroups.Linked(GroupsOf(p), 0, 2)
  {
    FirstColumn(p, 0);
    FirstColumn(p, 1);
    PartialGroups.LinkedIffAgree(p.source, [0, 0], [1, 0]);
  }

  lemma FirstCells(p: Problem, c: nat)
    requires RowsToThirds(p) && ValidProblem(p) && c < 2
    ensures 0 in p.source.mesh.ranks && InRange(p.sourceCuts, [c]) && CellOf(p, 0, [c]) == [c]
  {
    FirstColumn(p, 0);
    LastDigit(p.source);
    assert CellOf(p, 0, [c])[0] == 0 * 3 + c;
  }

  /** The first two cells of rank 0 are the first third. */
  lemma FirstThird(p: Problem, c: nat)
    requires RowsToThirds(p) && ValidProblem(p) && c < 2
    ensures Coalescing.Wants(p, 0, [c])
  {
    Coalescing.Cut(3, 0, 2, c);
    HalfOf(c);
    Coalescing.ShardWants(p, 0, [c]);
  }

  lemma HalfOf(c: nat)
    requires c < 2
    ensures Quotients([c], [2]) == [0]
  {
  }

  lemma LastDigit(l: Layout)
    requires TwoByTwo(l)
    ensures ShardIndex(l.mesh.shape, Effective(l.placements), [0, 0], 0) == 0
  {
    var shape, pl := l.mesh.shape, Effective(l.placements);
    assert shape[..1][..0] == [] && pl[..1][..0] == [] && [0, 0][..1][..0] == [];
    assert ShardIndex(shape[..1], pl[..1], [0, 0][..1], 0) ==
           ShardIndex(shape[..1][..0], pl[..1][..0], [0, 0][..1][..0], 0);
  }

  /** The first target receives the traced tensor from rank 0. */
  lemma FirstRow(p: Problem, view: nat -> nat)
    requires RowsToThirds(p) && ValidProblem(p) && TracedViews(p, view)
    ensures Digits(p.source.mesh.shape, view(0)) == [0, 0]
  {
    assert SeenBy(p, 0) == p.source.mesh.ranks[0];
    ValueTwo(p.source.mesh.shape, [0, 0]);
    DigitsOfValue(p.source.mesh.shape, [0, 0]);
  }

  /** And nobody else wants the first third. */
  lemma FirstWantsFirst(p: Problem, t: nat)
    requires RowsToThirds(p) && ValidProblem(p) && Coalescing.Wants(p, t, [0])
    ensures t == 0
  {
    Coalescing.WantsShard(p, t, [0]);
    Coalescing.Cut(3, t, 2, 0);
    HalfOf(0);
  }

  lemma OtherRow(p: Problem, viewer: seq<nat>)
    requires RowsToThirds(p) && ValidProblem(p) && |viewer| == 2 && viewer[0] == 0
    ensures 2 in p.source.mesh.ranks && !InReplicaOf(p.source, 2, viewer)
  {
    FirstColumn(p, 1);
    assert ReplicaOf(p.source.placements, [1, 0])[0] == 1 && ReplicaOf(p.source.placements, viewer)[0] == 0;
  }

  lemma SecondRowCell(p: Problem)
    requires RowsToThirds(p) && ValidProblem(p)
    ensures 2 in p.source.mesh.ranks && InRange(p.sourceCuts, [0]) && CellOf(p, 2, [0]) == [0]
  {
    FirstColumn(p, 1);
    FirstCells(p, 0);
    ColumnPeers(p);
    PeersHoldAlike(p, 0, 2, [0]);
  }

  lemma SecondRowUnread(x: Tensor, s: Setting)
    requires RowsToThirds(x.problem) && ValidProblem(x.problem) && TracedViews(x.problem, s.view)
    ensures OnRank(x, 2, [0]) && Unread(x, s, 2, [0])
  {
    SecondRowCell(x.problem);
    FirstRow(x.problem, s.view);
    OtherRow(x.problem, [0, 0]);
    forall t: nat | Coalescing.Wants(x.problem, t, CellOf(x.problem, 2, [0]))
      ensures !InReplicaOf(x.problem.source, 2, Digits(x.problem.source.mesh.shape, s.view(t)))
    {
      FirstWantsFirst(x.problem, t);
    }
  }

  lemma RowsReadOnOneSide(x: Tensor, s: Setting)
    requires RowsToThirds(x.problem) && ValidProblem(x.problem) && TracedViews(x.problem, s.view)
    ensures ReadOnOneSide(x, s, 0, 2, 0, [0], [1])
  {
    FirstCells(x.problem, 0);
    FirstCells(x.problem, 1);
    FirstThird(x.problem, 0);
    FirstThird(x.problem, 1);
    FirstColumn(x.problem, 0);
    FirstRow(x.problem, s.view);
    SecondRowUnread(x, s);
  }

  lemma RowsTagsFit(p: Problem)
    requires RowsToThirds(p)
    ensures TagsFit(p)
  {
    assert p.grid[..0] == [] && MaxOf(p.grid) == Larger(MaxOf(p.grid[..0]), 6);
    assert Power(7, 1) == Power(7, 0) * 7;
  }

  lemma TwiceIsOnePair(x: Tensor, s: Setting, xs: seq<Tensor>)
    requires FitTensor(x) && Settled(x, s) && |xs| == 2 && xs[0] == x && xs[1] == x
    ensures OnePair(xs, s)
  {
  }

  lemma RowsOutOfLockstep(xs: seq<Tensor>, s: Setting)
    requires |xs| == 2 && OnePair(xs, s) && RowsToThirds(xs[0].problem) && TracedViews(xs[0].problem, s.view)
    ensures Peers(xs[0], 0, 2) && exists size :: !InLockstep(xs, Everywhere(), 0, 2, size)
  {
    ColumnPeers(xs[0].problem);
    RowsReadOnOneSide(xs[0], s);
    OneSideBreaksLockstep(xs, s, 0, 2, 0, [0], [1]);
  }

  /** Two tensors planned this way: at some bucket size the peers 0 and 2 reduce in different orders. */
  method PlanRowsToThirds() returns (xs: seq<Tensor>, ghost s: Setting)
    ensures |xs| == 2 && AllFit(xs) && OneTable(xs) && RowsToThirds(xs[0].problem) && Peers(xs[0], 0, 2)
    ensures exists size :: !InLockstep(xs, Everywhere(), 0, 2, size)
    ensures OnePair(xs, s)
  {
    var p := Problem(Layout(Mesh([2, 2], [0, 1, 2, 3]), [Partial(SumOp), Shard(0)]),
                     Layout(Mesh([3], [4, 5, 6]), [Shard(0)]), [6], [3], [2]);
    RowsToThirdsIsValid(p);
    RowsTagsFit(p);
    var columns := map[0 := [PartialGroup(0, SumOp)], 1 := [PartialGroup(1, SumOp)],
                       2 := [PartialGroup(0, SumOp)], 3 := [PartialGroup(1, SumOp)]];
    assert p.source.placements[0].Partial?;
    var x;
    MeshOrderGathers(p);
    x, s := PlanTensor(p, InMeshOrder(p), [1], 1, columns);
    xs := [x, x];
    TwiceIsOnePair(x, s, xs);
    RowsOutOfLockstep(xs, s);
  }
}
