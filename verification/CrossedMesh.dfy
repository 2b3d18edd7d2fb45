/**
 A mesh whose replicas disagree: on a two by two mesh whose rows are 0, 3 and 2, 1, summed along the columns
 and sharded along the rows, sequential mode stops before its first step. The planner builds such a plan.
*/
module CrossedMesh {
  import opened Base
  import opened IR
  import opened Radix
  import opened Layouts
  import opened Sorting
  import opened Routing
  import opened RouteTables
  import opened Chunks
  import opened ChunkLists
  import opened PartialGroups
  import opened Sequential
  import opened PartialBatches
  import opened MeshPlaces
  import opened PartialSequential
  import Coalescing
  import PartialReduce
  import opened MeshDeadlock
  import opened TagCodec
  import opened Planner
  import CircularWaits
  import Rendezvous

  /** Two by two, summed along the columns and sharded along the rows. */
  ghost predicate TwoByTwo(l: Layout) {
    && |l.mesh.shape| == 2 && l.mesh.shape[0] == 2 && l.mesh.shape[1] == 2
    && |l.placements| == 2 && l.placements[0].Partial? && l.placements[1] == Shard(0)
  }

  ghost predicate Crossed(l: Layout) {
    TwoByTwo(l) && l.mesh.ranks == [0, 3, 2, 1]
  }

  function Seat(row: nat, col: nat): nat {
    if row == 0 then (if col == 0 then 0 else 3) else if col == 0 then 2 else 1
  }

  /** Each row feeds itself, lower ranks first: 0 its neighbour 3, then 1 its neighbour 2. */
  ghost predicate RowsFeedRows(x: Tensor) {
    && |x.routes| >= 2 && x.routes[0].src.rank == 0 && x.routes[1].src.rank == 1
    && Feeds(x.routes[0], 3) && !Feeds(x.routes[0], 1) && !Feeds(x.routes[0], 2) && x.routes[0].kind == Broadcast
    && Feeds(x.routes[1], 2) && x.routes[1].kind == Broadcast
  }

  lemma ValueTwo(shape: seq<nat>, c: seq<nat>)
    requires |shape| == |c| == 2
    ensures Value(shape, c) == c[0] * shape[1] + c[1]
  {
    assert shape[..1][..0] == [] && c[..1][..0] == [];
    assert Value(shape[..1], c[..1]) == Value(shape[..1][..0], c[..1][..0]) * shape[..1][0] + c[..1][0];
  }

  lemma RankOn(l: Layout, row: nat, col: nat, rank: nat)
    requires ValidLayout(l) && Crossed(l) && row < 2 && col < 2 && rank == Seat(row, col)
    ensures InRange(l.mesh.shape, [row, col]) && rank in l.mesh.ranks && Coords(l.mesh, rank) == [row, col]
  {
    ValueTwo(l.mesh.shape, [row, col]);
    CoordsAre(l.mesh, rank, [row, col]);
  }

  lemma SameColumn(l: Layout, a: nat, b: nat)
    requires ValidLayout(l) && |l.mesh.shape| > 0 && a in l.mesh.ranks && b in l.mesh.ranks
    requires Without(Coords(l.mesh, a), 0) == Without(Coords(l.mesh, b), 0)
    ensures b in OwnLine(l.mesh, 0, a)
  {
    WithoutInRange(l.mesh.shape, 0, Coords(l.mesh, a));
    InLineIff(l.mesh, 0, Without(Coords(l.mesh, a), 0), Coords(l.mesh, b));
  }

  /** 0 and 2 share a column, and so do 1 and 3. */
  lemma ColumnNeighbour(l: Layout, rank: nat)
    requires ValidLayout(l) && Crossed(l) && rank < 2
    ensures rank in l.mesh.ranks && rank + 2 in OwnLine(l.mesh, 0, rank)
  {
    RankOn(l, rank, rank, rank);
    RankOn(l, 1 - rank, rank, rank + 2);
    assert Without([rank, rank], 0) == Without([1 - rank, rank], 0);
    SameColumn(l, rank, rank + 2);
  }

  lemma OneDim(l: Layout)
    requires Crossed(l)
    ensures PartialReduce.PartialDims(l.placements) == [0]
  {
    var pl := l.placements;
    assert pl[..1][..0] == [] && PartialReduce.PartialDims(pl[..1][..0]) == [];
    assert PartialReduce.PartialDims(pl[..1]) == [] + [0];
  }

  /** A source that reduces starts with its column. */
  lemma ReduceHead(l: Layout, r: Route, sig: seq<PartialGroup>)
    requires ValidLayout(l) && Crossed(l) && r.src.rank in l.mesh.ranks && sig != []
    ensures var ops := TaskSteps(l, 0, r, sig, r.src.rank);
            ops != [] && ops[0].AllReduce? && ops[0].members == OwnLine(l.mesh, 0, r.src.rank)
  {
    OneDim(l);
    assert TaskSteps(l, 0, r, sig, r.src.rank)[0] == AllReduces(l, 0, r.src)[0];
  }

  /** A receiver starts with the transfer. */
  lemma ShipHead(l: Layout, r: Route, sig: seq<PartialGroup>, rank: nat)
    requires ValidLayout(l) && r.src.rank in l.mesh.ranks && r.src.rank != rank && Feeds(r, rank) && r.kind == Broadcast
    ensures var ops := TaskSteps(l, 0, r, sig, rank); ops != [] && ops[0].Ship? && r.src.rank in ops[0].ranks
  {
    assert !SelfP2p(r, r.src.rank);
  }

  lemma {:induction false} HeadOfFlat<T>(blocks: seq<seq<T>>, i: nat)
    requires i < |blocks| && blocks[i] != [] && forall j :: 0 <= j < i ==> blocks[j] == []
    ensures Flatten(blocks) != [] && Flatten(blocks)[0] == blocks[i][0]
  {
    var n := |blocks| - 1;
    if i < n {
      HeadOfFlat(blocks[..n], i);
    } else {
      AllEmpty(blocks[..n]);
    }
  }

  lemma {:induction false} AllEmpty<T>(blocks: seq<seq<T>>)
    requires forall j :: 0 <= j < |blocks| ==> blocks[j] == []
    ensures Flatten(blocks) == []
  {
    if blocks != [] {
      AllEmpty(blocks[..|blocks| - 1]);
    }
  }

  /** The first step of a rank is that of the first route that involves it. */
  lemma FirstStep(xs: seq<Tensor>, rank: nat, i: nat)
    requires AllFit(xs) && |xs| == 1 && i < |xs[0].routes| && TaskBlock(xs, rank, Task(0, i)) != []
    requires forall j :: 0 <= j < i ==> !Involves(xs[0].routes[j], rank)
    ensures Flatten(OpBlocks(xs, rank)) != [] && Flatten(OpBlocks(xs, rank))[0] == TaskBlock(xs, rank, Task(0, i))[0]
  {
    OneTensorTasks(xs);
    var blocks := OpBlocks(xs, rank);
    forall j | 0 <= j < i ensures blocks[j] == [] {
      assert Tasks(xs)[j] == Task(0, j) && RouteOf(xs, Task(0, j)) == xs[0].routes[j];
    }
    HeadOfFlat(blocks, i);
  }

  lemma OneTensorTasks(xs: seq<Tensor>)
    requires |xs| == 1
    ensures |Tasks(xs)| == |xs[0].routes| && forall j :: 0 <= j < |xs[0].routes| ==> Tasks(xs)[j] == Task(0, j)
  {
    assert xs[..0] == [] && Tasks(xs[..0]) == [];
  }

  // ------------------------------------------------------------------------------------------
  // The table of that mesh, replicated to the same ranks

  /** One cell per source rank, and every target wants both shards. */
  ghost predicate ToEveryone(p: Problem) {
    Crossed(p.source) && ToSources(p) && |p.grid| == 1 && |p.sourceCuts| == 1 && p.sourceCuts[0] == 1
  }

  lemma TwoShards(l: Layout)
    requires TwoByTwo(l)
    ensures ShardCount(l.mesh.shape, Effective(l.placements), 0) == 2
  {
    var shape, pl := l.mesh.shape, Effective(l.placements);
    assert shape[..1][..0] == [] && pl[..1][..0] == [];
    assert ShardCount(shape[..1], pl[..1], 0) == ShardCount(shape[..1][..0], pl[..1][..0], 0) * 1;
  }

  lemma EveryoneWants(p: Problem, t: nat, col: nat)
    requires ValidProblem(p) && ToEveryone(p) && t < |p.target.mesh.ranks| && col < 2
    ensures InRange(p.grid, [col]) && Coalescing.Wants(p, t, [col])
  {
    TwoShards(p.source);
    assert p.grid[0] == 2;
    EveryCellIsWanted(p, t, [col]);
  }

  /** The last mesh dimension picks the shard. */
  lemma ColumnOfShard(l: Layout, viewer: seq<nat>, want: seq<nat>)
    requires Crossed(l) && Positive(l.mesh.shape) && |viewer| == 2 && |want| == 1 && want[0] < 2
    ensures HolderCoords(l.mesh.shape, Effective(l.placements), viewer, want) == [viewer[0], want[0]]
  {
    var shape, pl := l.mesh.shape, Effective(l.placements);
    HolderStep(shape, pl, viewer, want);
    HolderKeepsReplica(shape, pl, viewer, want, 0);
    DivModOf(0, want[0], 2);
  }

  lemma OneCell(p: Problem, col: nat)
    requires ValidProblem(p) && ToEveryone(p)
    ensures |p.sourceCuts| == 1 && Positive(p.sourceCuts) && Quotients([col], p.sourceCuts) == [col]
    ensures Remainders([col], p.sourceCuts) == [0]
  {
    DivModOf(col, 0, 1);
  }

  /** Who a viewer at `[row, c]` sees shard `col` on. */
  lemma SeenOn(p: Problem, view: nat -> nat, t: nat, row: nat, col: nat, c: nat)
    requires ValidProblem(p) && ToEveryone(p) && InRange(p.grid, [col]) && row < 2 && col < 2
    requires Digits(p.source.mesh.shape, view(t)) == [row, c]
    ensures ReplicaStamp(p, view, t, [col]) == Endpoint(Seat(row, col), [0])
  {
    OneCell(p, col);
    StampCoords(p, view, t, [col]);
    ColumnOfShard(p.source, [row, c], [col]);
    RankOn(p.source, row, col, Seat(row, col));
    SameCoordsSameRank(p.source, ReplicaStamp(p, view, t, [col]).rank, Seat(row, col));
  }

  /** Who a target in row `row` reads shard `col` from. */
  lemma StampOn(x: Tensor, s: Setting, t: nat, row: nat, col: nat, c: nat)
    requires Settled(x, s) && ToEveryone(x.problem) && t < |x.problem.target.mesh.ranks| && row < 2 && col < 2 && c < 2
    requires x.problem.target.mesh.ranks[t] == Seat(row, c) && InRange(x.problem.grid, [col])
    ensures s.stamp(t, [col]) == Endpoint(Seat(row, col), [0])
  {
    RankOn(x.problem.source, row, c, Seat(row, c));
    OwnViewCoords(x.problem, s.view, t);
    SeenOn(x.problem, s.view, t, row, col, c);
  }

  lemma SameCoordsSameRank(l: Layout, a: nat, b: nat)
    requires ValidLayout(l) && a in l.mesh.ranks && b in l.mesh.ranks && Coords(l.mesh, a) == Coords(l.mesh, b)
    ensures a == b
  {
  }

  /** A rank feeds its row. */
  lemma RowIsFed(x: Tensor, s: Setting, row: nat, col: nat, c: nat, src: nat, rank: nat) returns (k: nat)
    requires Settled(x, s) && ToEveryone(x.problem) && row < 2 && col < 2 && c < 2
    requires rank == Seat(row, c) && src == Seat(row, col)
    ensures k < |x.routes| && x.routes[k].src == Endpoint(src, [0]) && Feeds(x.routes[k], rank)
  {
    RankOn(x.problem.source, row, c, rank);
    var t :| 0 <= t < |x.problem.target.mesh.ranks| && x.problem.target.mesh.ranks[t] == rank;
    EveryoneWants(x.problem, t, col);
    StampOn(x, s, t, row, col, c);
    SettledIsPlanned(x, s);
    k := Coalescing.WantedIsFed(x.problem, s.stamp, s.view, s.gather, s.expanded, x.routes, t, [col]);
  }

  lemma RowsDiffer(l: Layout, a: nat, b: nat)
    requires ValidLayout(l) && Crossed(l) && a in [0, 3] && b in [2, 1]
    ensures a in l.mesh.ranks && b in l.mesh.ranks && !SameReplica(l, a, b)
  {
    RankOn(l, 0, if a == 0 then 0 else 1, a);
    RankOn(l, 1, if b == 2 then 0 else 1, b);
    assert ReplicaOf(l.placements, Coords(l.mesh, a))[0] == 0 && ReplicaOf(l.placements, Coords(l.mesh, b))[0] == 1;
  }

  /** And nobody in the other row. */
  lemma OtherRowUnfed(x: Tensor, s: Setting, k: nat, src: nat, rank: nat)
    requires Settled(x, s) && ToEveryone(x.problem) && k < |x.routes| && x.routes[k].src.rank == src && src in [0, 3]
    requires rank in [2, 1]
    ensures !Feeds(x.routes[k], rank)
  {
    RowsDiffer(x.problem.source, src, rank);
    if Feeds(x.routes[k], rank) {
      var t := FedIsTarget(x, s, k, rank);
      OwnViewCoords(x.problem, s.view, t);
      FeederInReplica(x, s, k, t);
    }
  }

  lemma OneSmallCell(cuts: seq<nat>, cell: seq<nat>)
    requires |cuts| == 1 && cuts[0] == 1 && InRange(cuts, cell)
    ensures cell == [0]
  {
  }

  lemma OnlyCell(x: Tensor, k: nat)
    requires FitTensor(x) && ToEveryone(x.problem) && k < |x.routes|
    ensures x.routes[k].src.cell == [0]
  {
    RouteOnMeshes(x, k);
    OneSmallCell(x.problem.sourceCuts, x.routes[k].src.cell);
  }

  /** With one cell per rank, the table starts with the lowest ranks. */
  lemma LowestFirst(routes: seq<Route>, i: nat, j: nat)
    requires KeysIncrease(routes) && i < |routes| && j < |routes| && forall k :: 0 <= k < |routes| ==>
      routes[k].src.cell == [0]
    requires routes[i].src.rank == 0 && routes[j].src.rank == 1
    ensures i == 0 && j == 1
  {
    if i > 0 {
      KeyOrder(routes, 0, i);
    }
    if j > 1 {
      KeyOrder(routes, 1, j);
      KeyOrder(routes, 0, 1);
    }
  }

  lemma KeyOrder(routes: seq<Route>, i: nat, j: nat)
    requires KeysIncrease(routes) && i < j < |routes| && routes[i].src.cell == routes[j].src.cell
    ensures routes[i].src.rank < routes[j].src.rank
  {
    assert LexLess(KeyOf(routes[i].src), KeyOf(routes[j].src));
    assert KeyOf(routes[i].src)[1..] == routes[i].src.cell && KeyOf(routes[j].src)[1..] == routes[j].src.cell;
    LexIrreflexive(routes[i].src.cell);
  }

  lemma TwoFedBroadcasts(r: Route, a: nat, b: nat)
    requires Kinded(r) && Feeds(r, a) && Feeds(r, b) && a != b
    ensures r.kind == Broadcast
  {
  }

  /** The first two routes are those of the ranks 0 and 1. */
  lemma TableStart(x: Tensor, s: Setting)
    requires FitTensor(x) && Settled(x, s) && ToEveryone(x.problem)
    ensures |x.routes| >= 2 && x.routes[0].src == Endpoint(0, [0]) && x.routes[1].src == Endpoint(1, [0])
  {
    var i := RowIsFed(x, s, 0, 0, 0, 0, 0);
    var j := RowIsFed(x, s, 1, 1, 1, 1, 1);
    forall k | 0 <= k < |x.routes| ensures x.routes[k].src.cell == [0] {
      OnlyCell(x, k);
    }
    LowestFirst(x.routes, i, j);
  }

  lemma RowFeedsAt(x: Tensor, s: Setting, m: nat, row: nat, col: nat, c: nat, src: nat, rank: nat)
    requires Settled(x, s) && ToEveryone(x.problem) && row < 2 && col < 2 && c < 2 && m < |x.routes|
    requires rank == Seat(row, c) && src == Seat(row, col) && x.routes[m].src == Endpoint(src, [0])
    ensures Feeds(x.routes[m], rank)
  {
    var k := RowIsFed(x, s, row, col, c, src, rank);
    Coalescing.SourcesDistinct(x.routes, k, m);
  }

  /** A rank's route goes to both of its row. */
  lemma RowIsBroadcast(x: Tensor, s: Setting, m: nat, row: nat, col: nat)
    requires Settled(x, s) && ToEveryone(x.problem) && m < |x.routes| && row < 2 && col < 2
    requires x.routes[m].src == Endpoint(Seat(row, col), [0]) && Kinded(x.routes[m])
    ensures Feeds(x.routes[m], Seat(row, 0)) && Feeds(x.routes[m], Seat(row, 1)) && x.routes[m].kind == Broadcast
  {
    RowFeedsAt(x, s, m, row, col, 0, Seat(row, col), Seat(row, 0));
    RowFeedsAt(x, s, m, row, col, 1, Seat(row, col), Seat(row, 1));
    TwoFedBroadcasts(x.routes[m], Seat(row, 0), Seat(row, 1));
  }

  /** The route of rank 0 ships to its row, and to it only. */
  lemma FirstRoute(x: Tensor, s: Setting, m: nat)
    requires Settled(x, s) && ToEveryone(x.problem) && m < |x.routes| && x.routes[m].src == Endpoint(0, [0])
    ensures !Feeds(x.routes[m], 1) && !Feeds(x.routes[m], 2)
  {
    OtherRowUnfed(x, s, m, 0, 1);
    OtherRowUnfed(x, s, m, 0, 2);
  }

  lemma RoutesKinded(x: Tensor, m: nat)
    requires FitTensor(x) && m < |x.routes|
    ensures Kinded(x.routes[m])
  {
  }

  /** What the planner builds for this mesh. */
  lemma CrossedTable(x: Tensor, s: Setting)
    requires FitTensor(x) && Settled(x, s) && ToEveryone(x.problem)
    ensures RowsFeedRows(x)
  {
    TableStart(x, s);
    RoutesKinded(x, 0);
    RoutesKinded(x, 1);
    RowIsBroadcast(x, s, 0, 0, 0);
    RowIsBroadcast(x, s, 1, 1, 1);
    FirstRoute(x, s, 0);
  }

  // ------------------------------------------------------------------------------------------
  // The first step of every rank

  /** Such a tensor alone, with both its first sources reducing. */
  ghost predicate Stuck(xs: seq<Tensor>) {
    && |xs| == 1 && AllFit(xs) && Crossed(xs[0].problem.source) && RowsFeedRows(xs[0])
    && SigOf(xs[0], 0) != [] && SigOf(xs[0], 1) != []
  }

  /** What the first step of each rank still needs. */
  ghost predicate Waits(r: nat, op: Op) {
    if r == 0 then op.AllReduce? && 2 in op.members
    else if r == 1 then op.AllReduce? && 3 in op.members
    else if r == 2 then op.Ship? && 1 in op.ranks
    else op.Ship? && 0 in op.ranks
  }

  ghost predicate StartsWaiting(xs: seq<Tensor>, r: nat)
    requires AllFit(xs)
  {
    Flatten(OpBlocks(xs, r)) != [] && Waits(r, Flatten(OpBlocks(xs, r))[0])
  }

  lemma BlockOf(xs: seq<Tensor>, i: nat, rank: nat)
    requires |xs| == 1 && AllFit(xs) && i < |xs[0].routes|
    ensures ValidLayout(xs[0].problem.source) && xs[0].routes[i].src.rank in xs[0].problem.source.mesh.ranks
    ensures var r := xs[0].routes[i];
            TaskBlock(xs, rank, Task(0, i)) == TaskSteps(xs[0].problem.source, 0, r, SigOf(xs[0], r.src.rank), rank)
  {
    assert FitTensor(xs[0]) && StartsOn(xs[0].problem, xs[0].routes[i]);
  }

  lemma ColumnWaits(l: Layout, rank: nat, op: Op)
    requires ValidLayout(l) && Crossed(l) && rank < 2 && rank in l.mesh.ranks
    requires op.AllReduce? && op.members == OwnLine(l.mesh, 0, rank)
    ensures Waits(rank, op)
  {
    ColumnNeighbour(l, rank);
  }

  lemma ReduceWaits(l: Layout, r: Route, sig: seq<PartialGroup>)
    requires ValidLayout(l) && Crossed(l) && r.src.rank < 2 && r.src.rank in l.mesh.ranks && sig != []
    ensures var ops := TaskSteps(l, 0, r, sig, r.src.rank); ops != [] && Waits(r.src.rank, ops[0])
  {
    ReduceHead(l, r, sig);
    ColumnWaits(l, r.src.rank, TaskSteps(l, 0, r, sig, r.src.rank)[0]);
  }

  lemma ShipWaits(l: Layout, r: Route, sig: seq<PartialGroup>, rank: nat)
    requires ValidLayout(l) && r.src.rank in l.mesh.ranks && r.src.rank < 2 && r.src.rank + rank == 3
    requires Feeds(r, rank) && r.kind == Broadcast
    ensures var ops := TaskSteps(l, 0, r, sig, rank); ops != [] && Waits(rank, ops[0])
  {
    ShipHead(l, r, sig, rank);
  }

  lemma FirstStepWaits(xs: seq<Tensor>, rank: nat, i: nat, ops: seq<Op>)
    requires AllFit(xs) && |xs| == 1 && i < |xs[0].routes| && TaskBlock(xs, rank, Task(0, i)) == ops && ops != []
    requires Waits(rank, ops[0])
    requires forall j :: 0 <= j < i ==> !Involves(xs[0].routes[j], rank)
    ensures StartsWaiting(xs, rank)
  {
    FirstStep(xs, rank, i);
  }

  lemma SourceFirst(xs: seq<Tensor>, rank: nat)
    requires |xs| == 1 && AllFit(xs) && Crossed(xs[0].problem.source) && rank < 2 && rank < |xs[0].routes|
    requires xs[0].routes[rank].src.rank == rank && SigOf(xs[0], rank) != []
    requires forall j :: 0 <= j < rank ==> !Involves(xs[0].routes[j], rank)
    ensures StartsWaiting(xs, rank)
  {
    BlockOf(xs, rank, rank);
    ReduceWaits(xs[0].problem.source, xs[0].routes[rank], SigOf(xs[0], rank));
    FirstStepWaits(xs, rank, rank, TaskBlock(xs, rank, Task(0, rank)));
  }

  lemma ReceiverFirst(xs: seq<Tensor>, src: nat, rank: nat)
    requires |xs| == 1 && AllFit(xs) && src < 2 && src + rank == 3 && src < |xs[0].routes|
    requires xs[0].routes[src].src.rank == src && Feeds(xs[0].routes[src], rank) && xs[0].routes[src].kind == Broadcast
    requires forall j :: 0 <= j < src ==> !Involves(xs[0].routes[j], rank)
    ensures StartsWaiting(xs, rank)
  {
    BlockOf(xs, src, rank);
    ShipWaits(xs[0].problem.source, xs[0].routes[src], SigOf(xs[0], src), rank);
    FirstStepWaits(xs, rank, src, TaskBlock(xs, rank, Task(0, src)));
  }

  lemma SourcesStartWaiting(xs: seq<Tensor>, r: nat)
    requires Stuck(xs) && r < 2
    ensures StartsWaiting(xs, r)
  {
    SourceFirst(xs, r);
  }

  lemma ReceiversStartWaiting(xs: seq<Tensor>, src: nat, r: nat)
    requires Stuck(xs) && src < 2 && src + r == 3
    ensures StartsWaiting(xs, r)
  {
    ReceiverFirst(xs, src, r);
  }

  lemma HeadWaits(xs: seq<Tensor>, op: Op, r: nat)
    requires Stuck(xs) && r < 4 && Flatten(OpBlocks(xs, r)) != [] && Flatten(OpBlocks(xs, r))[0] == op
    ensures Waits(r, op)
  {
    if r < 2 {
      SourcesStartWaiting(xs, r);
    } else {
      ReceiversStartWaiting(xs, 3 - r, r);
    }
  }

  lemma EnabledAt<T>(parts: T -> set<nat>, left: Rendezvous.Lists<T>, op: T, r: nat)
    requires Rendezvous.Enabled(parts, left, op) && r in parts(op)
    ensures r in left && left[r] != [] && left[r][0] == op
  {
  }

  lemma EnabledWaits(xs: seq<Tensor>, world: set<nat>, op: Op, r: nat)
    requires Stuck(xs) && (forall q :: q in world ==> q < 4) && r in Needs()(op)
    requires Rendezvous.Enabled(Needs(), StepsInWorld(xs, world), op)
    ensures r < 4 && Waits(r, op)
  {
    EnabledAt(Needs(), StepsInWorld(xs, world), op, r);
    StepsAt(xs, world, r);
    HeadWaits(xs, op, r);
  }

  /** Everyone waits for someone who waits for another. */
  lemma Circle(op: Op)
    requires forall r :: r in Needs()(op) ==> r < 4 && Waits(r, op)
    ensures Needs()(op) == {}
  {
    forall r ensures r !in Needs()(op) {
      var q := if r == 0 then 2 else if r == 1 then 3 else if r == 2 then 1 else 0;
      assert r in Needs()(op) ==> q in Needs()(op);
    }
  }

  /**
   0 and 1 start with a sum along their columns, which needs 2 and 3; these start with a row's transfer,
   which needs 1 and 0: no step can ever go.
   */
  lemma CrossedMeshIsStuck(xs: seq<Tensor>, world: set<nat>, size: int, op: Op)
    requires Stuck(xs) && AllLarge(xs, size) && forall r :: r in world ==> r < 4
    ensures !Rendezvous.Enabled(Needs(), StartSteps(xs, world, size), op)
  {
    StartIsTables(xs, world, size);
    if Rendezvous.Enabled(Needs(), StepsInWorld(xs, world), op) {
      forall r | r in Needs()(op) ensures r < 4 && Waits(r, op) {
        EnabledWaits(xs, world, op, r);
      }
      Circle(op);
    }
  }

  lemma BothReduce(x: Tensor, s: Setting)
    requires Settled(x, s) && Crossed(x.problem.source)
    ensures SigOf(x, 0) != [] && SigOf(x, 1) != []
  {
    var l := x.problem.source;
    assert l.placements[0].Partial? && l.mesh.ranks[0] == 0 && l.mesh.ranks[3] == 1;
    assert HasPartial(l.placements);
  }

  lemma OneIsFit(xs: seq<Tensor>)
    requires |xs| == 1 && FitTensor(xs[0])
    ensures AllFit(xs)
  {
  }

  lemma ZeroHasSteps(xs: seq<Tensor>, size: int)
    requires Stuck(xs) && AllLarge(xs, size)
    ensures RankSteps(xs, 0, size) != []
  {
    SourcesStartWaiting(xs, 0);
    RankStepsAre(xs, 0, size);
  }

  /** Whatever the planner makes of this mesh, replicated to the same ranks, is stuck from the start. */
  lemma CrossedMeshDeadlocks(xs: seq<Tensor>, s: Setting, world: set<nat>, size: int, op: Op)
    requires |xs| == 1 && FitTensor(xs[0]) && Settled(xs[0], s) && ToEveryone(xs[0].problem) && AllLarge(xs, size)
    requires forall r: nat :: r in world <==> r < 4
    ensures AllFit(xs) && RankSteps(xs, 0, size) != []
    ensures !Rendezvous.Enabled(Needs(), StartSteps(xs, world, size), op)
  {
    OneIsFit(xs);
    CrossedTable(xs[0], s);
    BothReduce(xs[0], s);
    ZeroHasSteps(xs, size);
    CrossedMeshIsStuck(xs, world, size, op);
  }

  // ------------------------------------------------------------------------------------------
  // There is such a plan, and none of its kind ever finishes

  lemma CrossedIsValid(l: Layout)
    requires Crossed(l)
    ensures ValidLayout(l)
  {
    ProdTwo(l.mesh.shape);
  }

  lemma ProdTwo(shape: seq<nat>)
    requires |shape| == 2
    ensures Prod(shape) == shape[0] * shape[1]
  {
    assert shape[..1][..0] == [];
    assert Prod(shape[..1]) == Prod(shape[..1][..0]) * shape[0];
  }

  /** Its first row stands in the order 0, 3 and its second in the order 2, 1. */
  lemma CrossedDisagrees(l: Layout)
    requires Crossed(l)
    ensures ValidLayout(l) && !OrderAgrees(l)
  {
    CrossedIsValid(l);
    RankOn(l, 0, 0, 0);
    RankOn(l, 0, 1, 3);
    RankOn(l, 1, 0, 2);
    RankOn(l, 1, 1, 1);
    assert Parallel(l, 0, 3, 2, 1);
  }

  /** Whatever is sent beside it. */
  lemma CrossedMeshNeverFinishes(
    xs: seq<Tensor>, j: nat, s: Setting, world: set<nat>, size: int, trace: seq<Op>, end: Rendezvous.Lists<Op>)
    requires AllFit(xs) && j < |xs| && Settled(xs[j], s) && ToSources(xs[j].problem) && Crossed(xs[j].problem.source)
    requires InWorld(xs, world) && AllLarge(xs, size)
    requires Rendezvous.Run(Needs(), StartSteps(xs, world, size), trace, end)
    ensures !CircularWaits.Finished(end)
  {
    CrossedDisagrees(xs[j].problem.source);
    DisorderNeverFinishes(xs, j, s, world, size, trace, end);
  }

  lemma OnFourRanks(l: Layout)
    requires |l.mesh.shape| == 1 && l.mesh.shape[0] == 4 && l.mesh.ranks == [0, 1, 2, 3] && l.placements == [Replicate]
    ensures ValidLayout(l) && !HasPartial(l.placements) && TensorNdim(l.placements) == 1
    ensures ShardCount(l.mesh.shape, l.placements, 0) == 1
  {
    assert l.mesh.shape[..0] == [] && l.placements[..0] == [];
    assert Prod(l.mesh.shape) == Prod(l.mesh.shape[..0]) * 4;
    Unsharded(l.mesh.shape, l.placements, [0], 0);
  }

  lemma CrossedNdim(l: Layout)
    requires Crossed(l)
    ensures TensorNdim(Effective(l.placements)) == 1
  {
  }

  lemma LcmOfTwo()
    ensures Lcm(2, 1) == 2
  {
    assert CommonMultiple(2, 1, 2);
  }

  lemma CrossedGrid(p: Problem)
    requires ValidProblem(p) && Crossed(p.source) && |p.grid| == 1 && p.grid[0] == 2
    ensures p.sourceCuts[0] == 1 && TagsFit(p)
  {
    TwoShards(p.source);
    assert p.grid[..0] == [] && MaxOf(p.grid) == Larger(MaxOf(p.grid[..0]), 2);
    assert Power(3, 1) == Power(3, 0) * 3;
  }

  /** Planned for four ranks that want everything. */
  method PlanCrossed() returns (x: Tensor, ghost s: Setting)
    ensures FitTensor(x) && ToEveryone(x.problem) && AllLarge([x], 1)
    ensures Settled(x, s)
  {
    var source := Layout(Mesh([2, 2], [0, 3, 2, 1]), [Partial(SumOp), Shard(0)]);
    var target := Layout(Mesh([4], [0, 1, 2, 3]), [Replicate]);
    CrossedIsValid(source);
    OnFourRanks(target);
    CrossedNdim(source);
    TwoShards(source);
    LcmOfTwo();
    var p := PlanGrid(source, target);
    CrossedGrid(p.value);
    MeshOrderGathers(p.value);
    var columns := map[0 := [PartialGroup(0, SumOp)], 2 := [PartialGroup(0, SumOp)],
                       3 := [PartialGroup(1, SumOp)], 1 := [PartialGroup(1, SumOp)]];
    assert source.placements[0].Partial?;
    x, s := PlanTensor(p.value, InMeshOrder(p.value), [1], 1, columns);
    assert [1][..0] == [] && Prod([1]) == Prod([1][..0]) * 1;
  }
}
