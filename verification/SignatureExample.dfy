/** Two tensors between the same two ranks, one reduced before it is sent: the receiver cannot tell them apart. */
module SignatureExample {
  import opened Base
  import opened IR
  import opened Radix
  import opened Layouts
  import opened Routing
  import opened RouteTables
  import opened Chunks
  import opened Buckets
  import opened Relabelling
  import opened ChunkLists
  import opened Sequential

  /**
   A rank that receives two signatures from one address builds fewer buckets than it is sent, once the size
   allows.
   */
  lemma TwoSignaturesMerge(xs: seq<Tensor>, rank: nat, size: int)
    requires AllFit(xs) && !OneSignature(xs, rank) && size > Bytes(MyItems(xs, rank))
    ensures |RankBuckets(xs, rank, size)| < |KeepBuckets(TakesPart(rank), Bucketize(AllItems(xs), size))|
  {
    OneToOneIffOneSignature(xs, rank);
    MergingMovesBoundary(Seen(rank), MyItems(xs, rank), size);
    RankItemsProject(xs, rank);
    BucketingCommutesWithFiltering(TakesPart(rank), AllItems(xs), size);
  }

  /** Two tensors with one table, reduced differently at the source of a route that reaches the rank from elsewhere. */
  ghost predicate Twins(xs: seq<Tensor>, i: nat, rank: nat) {
    && |xs| == 2 && FitTensor(xs[0]) && FitTensor(xs[1]) && xs[0].routes == xs[1].routes && i < |xs[0].routes|
    && xs[0].routes[i].src.rank != rank && Feeds(xs[0].routes[i], rank)
    && SigOf(xs[0], xs[0].routes[i].src.rank) != SigOf(xs[1], xs[0].routes[i].src.rank)
  }

  lemma TwinsDiffer(xs: seq<Tensor>, i: nat, rank: nat)
    requires Twins(xs, i, rank)
    ensures AllFit(xs) && !OneSignature(xs, rank)
  {
    TwoTasks(xs, i, rank);
  }

  // ------------------------------------------------------------------------------------------
  // Routing does not see whether a dimension is Partial

  /** The same mesh, summed along a dimension it was replicated along. */
  function Summed(l: Layout, d: nat, op: ReduceOp): Layout
    requires d < |l.placements|
  {
    l.(placements := l.placements[d := Partial(op)])
  }

  ghost predicate RoutedAlike(p: Problem, p': Problem) {
    && p' == p.(source := p'.source) && p'.source.mesh == p.source.mesh
    && Effective(p'.source.placements) == Effective(p.source.placements)
  }

  lemma SummedIsRoutedAlike(p: Problem, d: nat, op: ReduceOp)
    requires d < |p.source.placements| && p.source.placements[d] == Replicate
    ensures RoutedAlike(p, p.(source := Summed(p.source, d, op)))
  {
    assert Effective(Summed(p.source, d, op).placements) == Effective(p.source.placements);
  }

  lemma AlikeIsValid(p: Problem, p': Problem)
    requires ValidProblem(p) && RoutedAlike(p, p')
    ensures ValidProblem(p')
  {
    var pl, pl' := p.source.placements, p'.source.placements;
    assert |pl| == |Effective(pl)| == |pl'|;
    forall i | 0 <= i < |pl'| && pl'[i].Shard? ensures pl'[i].dim < |p.grid| {
      assert Effective(pl)[i] == Effective(pl')[i];
    }
  }

  lemma AlikeDelivers(p: Problem, p': Problem, src: Endpoint, dst: Endpoint)
    requires ValidProblem(p) && ValidProblem(p') && RoutedAlike(p, p') && RightDelivery(p, src, dst)
    ensures RightDelivery(p', src, dst)
  {
    var t :| Serves(p, src, dst, t);
    var g := TargetCell(p, t, dst.cell);
    var s :| 0 <= s < |p.source.mesh.ranks| && p.source.mesh.ranks[s] == src.rank && SourceCell(p, s, src.cell) == g;
    assert SourceCell(p', s, src.cell) == g && TargetCell(p', t, dst.cell) == g;
    assert Serves(p', src, dst, t);
  }

  lemma AlikeIsRight(p: Problem, p': Problem, routes: seq<Route>)
    requires ValidProblem(p) && ValidProblem(p') && RoutedAlike(p, p') && RightRoutes(p, routes)
    ensures RightRoutes(p', routes)
  {
    forall i, j | 0 <= i < |routes| && 0 <= j < |routes[i].dsts|
      ensures RightDelivery(p', routes[i].src, routes[i].dsts[j])
    {
      AlikeDelivers(p, p', routes[i].src, routes[i].dsts[j]);
    }
    forall t: nat, cell | InTarget(p', t, cell) ensures Delivered(routes, Endpoint(p'.target.mesh.ranks[t], cell)) {
      assert InTarget(p, t, cell);
    }
  }

  lemma FitAlike(x: Tensor, y: Tensor)
    requires FitTensor(x) && RoutedAlike(x.problem, y.problem) && y.routes == x.routes && y.block == x.block
    ensures FitTensor(y)
  {
    AlikeIsValid(x.problem, y.problem);
    AlikeIsRight(x.problem, y.problem, x.routes);
    forall i | 0 <= i < |y.routes| ensures Kinded(y.routes[i]) && StartsOn(y.problem, y.routes[i]) {
      assert StartsOn(x.problem, x.routes[i]);
    }
  }

  /** The tensor with a replicated source dimension summed before it is sent, over groups `sig`. */
  function SummedTwin(x: Tensor, d: nat, op: ReduceOp, sig: seq<PartialGroup>): Tensor
    requires d < |x.problem.source.placements|
  {
    x.(problem := x.problem.(source := Summed(x.problem.source, d, op)),
       partials := map r | r in x.problem.source.mesh.ranks :: sig)
  }

  lemma SummedIsSetUp(x: Tensor, d: nat, op: ReduceOp, sig: seq<PartialGroup>)
    requires d < |x.problem.source.placements| && sig != []
    ensures SetUp(SummedTwin(x, d, op, sig).problem.source, SummedTwin(x, d, op, sig).partials)
  {
    assert SummedTwin(x, d, op, sig).problem.source.placements[d].Partial?;
  }

  lemma SummedIsFit(x: Tensor, d: nat, op: ReduceOp, sig: seq<PartialGroup>)
    requires FitTensor(x) && d < |x.problem.source.placements| && x.problem.source.placements[d] == Replicate
    ensures FitTensor(SummedTwin(x, d, op, sig))
  {
    SummedIsRoutedAlike(x.problem, d, op);
    FitAlike(x, SummedTwin(x, d, op, sig));
  }

  lemma SummedAtSource(x: Tensor, d: nat, op: ReduceOp, sig: seq<PartialGroup>, i: nat)
    requires FitTensor(x) && d < |x.problem.source.placements| && i < |x.routes|
    ensures SigOf(SummedTwin(x, d, op, sig), x.routes[i].src.rank) == sig
  {
    RouteOnMeshes(x, i);
  }

  ghost predicate AllSetUp(xs: seq<Tensor>) {
    forall j :: 0 <= j < |xs| ==> SetUp(xs[j].problem.source, xs[j].partials)
  }

  /** Every tensor replicated along a source dimension, with a route to another rank, has such a twin. */
  lemma ReducedTwin(xs: seq<Tensor>, d: nat, op: ReduceOp, sig: seq<PartialGroup>, i: nat, rank: nat)
    requires |xs| == 2 && FitTensor(xs[0]) && d < |xs[0].problem.source.placements|
    requires xs[0].problem.source.placements[d] == Replicate && sig != []
    requires i < |xs[0].routes| && xs[0].routes[i].src.rank != rank && Feeds(xs[0].routes[i], rank)
    requires SigOf(xs[0], xs[0].routes[i].src.rank) != sig && xs[1] == SummedTwin(xs[0], d, op, sig)
    ensures Twins(xs, i, rank)
  {
    SummedIsFit(xs[0], d, op, sig);
    SummedAtSource(xs[0], d, op, sig, i);
  }

  lemma TwinsAreSetUp(xs: seq<Tensor>, d: nat, op: ReduceOp, sig: seq<PartialGroup>)
    requires |xs| == 2 && d < |xs[0].problem.source.placements| && sig != [] && xs[1] == SummedTwin(xs[0], d, op, sig)
    requires SetUp(xs[0].problem.source, xs[0].partials)
    ensures AllSetUp(xs)
  {
    SummedIsSetUp(xs[0], d, op, sig);
  }

  lemma TwoTasks(xs: seq<Tensor>, i: nat, rank: nat)
    requires Twins(xs, i, rank)
    ensures !OneSignature(xs, rank)
  {
    var k, k' := Task(0, i), Task(1, i);
    assert RouteOf(xs, k) == RouteOf(xs, k');
    assert Receives(xs, k, rank) && Receives(xs, k', rank) && SameAddress(RouteOf(xs, k), RouteOf(xs, k'));
  }

  // ------------------------------------------------------------------------------------------
  // The smallest tensor

  ghost predicate OneRank(l: Layout, rank: nat) {
    |l.mesh.shape| == 1 && l.mesh.shape[0] == 1 && l.mesh.ranks == [rank] && |l.placements| == 1 &&
      l.placements[0] == Replicate
  }

  /** One rank holds the tensor, another wants it. */
  ghost predicate OneToOneRank(p: Problem, a: nat, b: nat) {
    OneRank(p.source, a) && OneRank(p.target, b) && p.grid == p.sourceCuts == p.targetCuts && |p.grid| == 1 &&
      p.grid[0] == 1
  }

  lemma Uncut(l: Layout, rank: nat, cuts: seq<nat>, cell: seq<nat>)
    requires OneRank(l, rank) && |cuts| == 1 && cuts[0] == 1 && |cell| == 1 && cell[0] == 0
    ensures ValidLayout(l) && ShardCount(l.mesh.shape, l.placements, 0) == 1
    ensures Refines(l.mesh.shape, l.placements, cuts, cuts)
    ensures GlobalCell(l.mesh.shape, l.placements, Digits(l.mesh.shape, 0), cuts, cell) == cell
  {
    var shape, pl, coords := l.mesh.shape, l.placements, Digits(l.mesh.shape, 0);
    assert shape[..0] == [] && pl[..0] == [] && coords[..0] == [];
    assert Prod(shape) == Prod(shape[..0]) * shape[0];
    assert ShardCount(shape, pl, 0) == ShardCount(shape[..0], pl[..0], 0) * 1;
    assert ShardIndex(shape, pl, coords, 0) == ShardIndex(shape[..0], pl[..0], coords[..0], 0);
    var g := GlobalCell(shape, pl, coords, cuts, cell);
    assert g[0] == cell[0];
  }

  lemma UnitProblem(p: Problem, a: nat, b: nat)
    requires OneToOneRank(p, a, b)
    ensures ValidProblem(p) && Effective(p.source.placements) == p.source.placements
  {
    var cell := [0];
    Uncut(p.source, a, p.sourceCuts, cell);
    Uncut(p.target, b, p.targetCuts, cell);
    assert Effective(p.source.placements) == p.source.placements;
  }

  lemma UnitDelivery(p: Problem, a: nat, b: nat, cell: seq<nat>)
    requires OneToOneRank(p, a, b) && ValidProblem(p) && Effective(p.source.placements) == p.source.placements
    requires |cell| == 1 && cell[0] == 0
    ensures RightDelivery(p, Endpoint(a, cell), Endpoint(b, cell))
  {
    Uncut(p.source, a, p.sourceCuts, cell);
    Uncut(p.target, b, p.targetCuts, cell);
    assert SourceCell(p, 0, cell) == cell && TargetCell(p, 0, cell) == cell;
    assert p.source.mesh.ranks[0] == a && p.target.mesh.ranks[0] == b;
    assert Holds(p, Endpoint(a, cell), cell);
    assert Serves(p, Endpoint(a, cell), Endpoint(b, cell), 0);
  }

  lemma UnitTensorFits(x: Tensor, a: nat, b: nat, cell: seq<nat>)
    requires OneToOneRank(x.problem, a, b) && |x.block| == 1 && |cell| == 1 && cell[0] == 0
    requires x.routes == [Route(Endpoint(a, cell), [Endpoint(b, cell)], P2P)]
    ensures FitTensor(x)
  {
    var p := x.problem;
    UnitProblem(p, a, b);
    UnitDelivery(p, a, b, cell);
    forall t: nat, c | InTarget(p, t, c) ensures Delivered(x.routes, Endpoint(p.target.mesh.ranks[t], c)) {
      assert t == 0 && c == cell;
      assert x.routes[0].dsts[0] == Endpoint(b, cell);
    }
    assert RightRoutes(p, x.routes);
    assert p.source.mesh.ranks[0] == a;
  }

  /**
   A byte from rank 0 to rank 1, once as it is and once summed first: rank 1 expects fewer buckets than it is
   sent.
   */
  lemma ReceiverMerges(size: int) returns (xs: seq<Tensor>)
    ensures AllFit(xs) && !OneSignature(xs, 1)
    ensures AllSetUp(xs)
    ensures size > Bytes(MyItems(xs, 1)) ==>
      |RankBuckets(xs, 1, size)| < |KeepBuckets(TakesPart(1), Bucketize(AllItems(xs), size))|
  {
    var one, cell: seq<nat> := [1], [0];
    var p := Problem(Layout(Mesh(one, [0]), [Replicate]), Layout(Mesh(one, [1]), [Replicate]), one, one, one);
    var x := Tensor(p, [Route(Endpoint(0, cell), [Endpoint(1, cell)], P2P)], one, 1, map[]);
    xs := UnitTwins(x, cell);
    if size > Bytes(MyItems(xs, 1)) {
      TwoSignaturesMerge(xs, 1, size);
    }
  }

  lemma UnitIsPlain(p: Problem)
    requires OneToOneRank(p, 0, 1)
    ensures SetUp(p.source, map[])
  {
  }

  /** The twin of a tensor nothing is reduced for. */
  lemma PlainTwin(x: Tensor, op: ReduceOp, sig: seq<PartialGroup>, rank: nat) returns (xs: seq<Tensor>)
    requires FitTensor(x) && |x.problem.source.placements| > 0 && x.problem.source.placements[0] == Replicate
    requires sig != []
    requires |x.routes| > 0 && x.routes[0].src.rank != rank && Feeds(x.routes[0], rank)
    requires x.partials == map[] && SetUp(x.problem.source, x.partials)
    ensures AllFit(xs) && !OneSignature(xs, rank)
    ensures AllSetUp(xs)
  {
    xs := [x, SummedTwin(x, 0, op, sig)];
    ReducedTwin(xs, 0, op, sig, 0, rank);
    TwinsAreSetUp(xs, 0, op, sig);
    TwinsDiffer(xs, 0, rank);
  }

  lemma UnitTwins(x: Tensor, cell: seq<nat>) returns (xs: seq<Tensor>)
    requires OneToOneRank(x.problem, 0, 1) && |x.block| == 1 && |cell| == 1 && cell[0] == 0 && x.partials == map[]
    requires x.routes == [Route(Endpoint(0, cell), [Endpoint(1, cell)], P2P)]
    ensures AllFit(xs) && !OneSignature(xs, 1)
    ensures AllSetUp(xs)
  {
    UnitTensorFits(x, 0, 1, cell);
    UnitIsPlain(x.problem);
    assert x.routes[0].dsts[0].rank == 1;
    xs := PlainTwin(x, SumOp, [PartialGroup(7, SumOp)], 1);
  }
}
