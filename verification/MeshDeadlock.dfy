/**
 Which source meshes sequential mode can run (src/etha/comm/comm_methods.py, src/etha/comm/ir.py,
 src/etha/comm/get_m2m_map.py). Buckets follow the order of the source ranks, so the ranks of a replica must
 stand in the same order whatever their Partial coordinates. Where they do not, replicating the tensor to
 its own ranks leaves two reductions and two transfers waiting in a circle.
*/
module MeshDeadlock {
  import opened Base
  import opened IR
  import opened Radix
  import opened Layouts
  import opened Sorting
  import opened Routing
  import opened RouteTables
  import opened Chunks
  import opened ChunkLists
  import PartialGroups
  import opened Sequential
  import opened PartialBatches
  import opened MeshPlaces
  import opened MeshOrder
  import opened PartialSequential
  import opened CircularWaits
  import PartialReduce
  import Coalescing
  import Rendezvous

  // ------------------------------------------------------------------------------------------
  // Replicating to the source ranks: everyone hears its whole replica

  /** Every source rank is also a target, and targets want everything. */
  ghost predicate ToSources(p: Problem) {
    && (forall i :: 0 <= i < |p.target.placements| ==> p.target.placements[i] == Replicate)
    && forall r :: r in p.source.mesh.ranks ==> r in p.target.mesh.ranks
  }

  lemma {:induction false} Unsharded(shape: seq<nat>, pl: seq<Placement>, coords: seq<nat>, d: nat)
    requires |coords| == |pl| == |shape| && forall i :: 0 <= i < |pl| ==> pl[i] == Replicate
    ensures ShardIndex(shape, pl, coords, d) == 0 && ShardCount(shape, pl, d) == 1
  {
    if shape != [] {
      var n := |shape| - 1;
      Unsharded(shape[..n], pl[..n], coords[..n], d);
    }
  }

  lemma EveryCellIsWanted(p: Problem, t: nat, g: seq<nat>)
    requires ValidProblem(p) && ToSources(p) && t < |p.target.mesh.ranks| && InRange(p.grid, g)
    ensures Coalescing.Wants(p, t, g)
  {
    var coords := Digits(p.target.mesh.shape, t);
    forall d | 0 <= d < |g| ensures Quotients(g, p.targetCuts)[d] == Coalescing.ShardOf(p, t)[d] {
      Unsharded(p.target.mesh.shape, p.target.placements, coords, d);
      DivModOf(0, g[d], p.targetCuts[d]);
    }
    Coalescing.ShardWants(p, t, g);
  }

  function Zeros(n: nat): (r: seq<nat>)
    ensures |r| == n && forall i :: 0 <= i < n ==> r[i] == 0
  {
    seq(n, _ => 0)
  }

  /** A source rank's route with its first cell feeds everyone in its replica. */
  lemma ReplicaIsFed(x: Tensor, s: Setting, a: nat, b: nat) returns (k: nat)
    requires Settled(x, s) && ToSources(x.problem) && a in x.problem.source.mesh.ranks
    requires b in x.problem.source.mesh.ranks
    requires SameReplica(x.problem.source, a, b)
    ensures k < |x.routes| && x.routes[k].src == Endpoint(a, Zeros(|x.problem.sourceCuts|)) && Feeds(x.routes[k], b)
  {
    var p := x.problem;
    var t :| 0 <= t < |p.target.mesh.ranks| && p.target.mesh.ranks[t] == b;
    var g := CellOf(p, a, Zeros(|p.sourceCuts|));
    OwnViewCoords(p, s.view, t);
    SeenOnHolder(p, s.view, t, a, Zeros(|p.sourceCuts|));
    EveryCellIsWanted(p, t, g);
    SettledIsPlanned(x, s);
    k := Coalescing.WantedIsFed(p, s.stamp, s.view, s.gather, s.expanded, x.routes, t, g);
  }

  // ------------------------------------------------------------------------------------------
  // What a list puts first

  lemma {:induction false} TaskPosition(xs: seq<Tensor>, k: Task) returns (i: nat)
    requires IsTask(xs, k)
    ensures i < |Tasks(xs)| && Tasks(xs)[i] == k
  {
    TasksAreTasks(xs);
    assert k in Tasks(xs);
    i :| 0 <= i < |Tasks(xs)| && Tasks(xs)[i] == k;
  }

  /** The source of a step, as the rank that has it in its list knows it. */
  function SourceIn(rank: nat, op: Op): Endpoint {
    Endpoint(if op.AllReduce? then rank else op.src, op.cell)
  }

  lemma StepSource(l: Layout, tensor: nat, r: Route, sig: seq<PartialGroup>, rank: nat, op: Op)
    requires ValidLayout(l) && r.src.rank in l.mesh.ranks && op in TaskSteps(l, tensor, r, sig, rank)
    ensures r.src == SourceIn(rank, op) && op.tensor == tensor
  {
    var n := StepCases(l, tensor, r, sig, rank, op);
  }

  lemma TaskSource(xs: seq<Tensor>, rank: nat, k: Task, op: Op)
    requires AllFit(xs) && IsTask(xs, k) && op in TaskBlock(xs, rank, k)
    ensures RouteOf(xs, k).src == SourceIn(rank, op) && op.tensor == k.tensor
  {
    assert FitTensor(xs[k.tensor]) && StartsOn(xs[k.tensor].problem, RouteOf(xs, k));
    StepSource(xs[k.tensor].problem.source, k.tensor, RouteOf(xs, k), TaskSig(xs, k), rank, op);
  }

  lemma SameSource(xs: seq<Tensor>, k: Task, k': Task)
    requires IsTask(xs, k) && IsTask(xs, k') && k.tensor == k'.tensor && RouteOf(xs, k).src == RouteOf(xs, k').src
    requires KeysIncrease(xs[k.tensor].routes)
    ensures k == k'
  {
    Coalescing.SourcesDistinct(xs[k.tensor].routes, k.route, k'.route);
  }

  /** A step belongs to one route only. */
  lemma StepHasOneTask(xs: seq<Tensor>, rank: nat, k: Task, k': Task, op: Op)
    requires AllFit(xs) && IsTask(xs, k) && IsTask(xs, k') && KeysIncrease(xs[k.tensor].routes)
    requires op in TaskBlock(xs, rank, k) && op in TaskBlock(xs, rank, k')
    ensures k == k'
  {
    TaskSource(xs, rank, k, op);
    TaskSource(xs, rank, k', op);
    SameSource(xs, k, k');
  }

  lemma OnlyBlock(xs: seq<Tensor>, rank: nat, j: nat, op: Op)
    requires AllFit(xs) && j < |Tasks(xs)| && IsTask(xs, Tasks(xs)[j]) && op in OpBlocks(xs, rank)[j]
    requires KeysIncrease(xs[Tasks(xs)[j].tensor].routes)
    ensures forall m :: 0 <= m < |OpBlocks(xs, rank)| && op in OpBlocks(xs, rank)[m] ==> m == j
  {
    forall m | 0 <= m < |OpBlocks(xs, rank)| && op in OpBlocks(xs, rank)[m] ensures m == j {
      StepHasOneTask(xs, rank, Tasks(xs)[j], Tasks(xs)[m], op);
      if m < j {
        TaskOrder(xs, m, j);
      } else if j < m {
        TaskOrder(xs, j, m);
      }
    }
  }

  /** The steps of an earlier route of a tensor come before those of a later one. */
  lemma EarlierRouteFirst(xs: seq<Tensor>, rank: nat, k: Task, k': Task, op: Op, op': Op)
    requires AllFit(xs) && IsTask(xs, k) && IsTask(xs, k') && k.tensor == k'.tensor && k.route < k'.route
    requires op in TaskBlock(xs, rank, k) && op' in TaskBlock(xs, rank, k') && KeysIncrease(xs[k.tensor].routes)
    ensures Precedes(Flatten(OpBlocks(xs, rank)), op, op')
  {
    var i := TaskPosition(xs, k);
    var j := TaskPosition(xs, k');
    if j < i {
      TaskOrder(xs, j, i);
    }
    OnlyBlock(xs, rank, j, op');
    BlocksOrder(OpBlocks(xs, rank), i, j, op, op');
  }

  lemma SameRouteFirst(xs: seq<Tensor>, rank: nat, k: Task, op: Op, op': Op)
    requires AllFit(xs) && IsTask(xs, k) && op' in TaskBlock(xs, rank, k) && Precedes(TaskBlock(xs, rank, k), op, op')
    requires KeysIncrease(xs[k.tensor].routes)
    ensures Precedes(Flatten(OpBlocks(xs, rank)), op, op')
  {
    var j := TaskPosition(xs, k);
    OnlyBlock(xs, rank, j, op');
    BlocksOrder(OpBlocks(xs, rank), j, j, op, op');
  }

  /** A route's reductions come before its transfer. */
  lemma ReduceThenShip(l: Layout, tensor: nat, r: Route, sig: seq<PartialGroup>, n: nat)
    requires ValidLayout(l) && r.src.rank in l.mesh.ranks && sig != [] && Wired(r) && n < |AllReduces(l, tensor, r.src)|
    ensures var block := TaskSteps(l, tensor, r, sig, r.src.rank);
            && AllReduces(l, tensor, r.src)[n] in block && ShipOf(l, tensor, r) in block
            && Precedes(block, AllReduces(l, tensor, r.src)[n], ShipOf(l, tensor, r))
  {
    var reduces, ship := AllReduces(l, tensor, r.src), ShipOf(l, tensor, r);
    var block := TaskSteps(l, tensor, r, sig, r.src.rank);
    assert block == reduces + [ship] && reduces[n] in reduces;
    forall j | 0 <= j < |block| && block[j] == ship ensures reduces[n] in block[..j] {
      assert j == |reduces|;
      assert block[..j] == reduces;
    }
  }

  // ------------------------------------------------------------------------------------------
  // The circle

  /** Two peers along a Partial line share their reductions along it. */
  lemma SharedReduce(l: Layout, tensor: nat, e: Endpoint, e': Endpoint, n: nat)
    requires ValidLayout(l) && e.rank in l.mesh.ranks && e'.cell == e.cell && n < |AllReduces(l, tensor, e)|
    requires e'.rank in OwnLine(l.mesh, PartialReduce.PartialDims(l.placements)[n], e.rank)
    ensures e'.rank in l.mesh.ranks && AllReduces(l, tensor, e')[n] == AllReduces(l, tensor, e)[n]
  {
    LineIsShared(l, PartialReduce.PartialDims(l.placements)[n], e.rank, e'.rank);
  }

  /** Which of the reductions runs along a Partial dimension. */
  lemma ReductionAlong(l: Layout, i: nat) returns (n: nat)
    requires ValidLayout(l) && i < |l.placements| && l.placements[i].Partial?
    ensures n < |PartialReduce.PartialDims(l.placements)| && PartialReduce.PartialDims(l.placements)[n] == i
    ensures HasPartial(l.placements)
  {
    assert i in PartialReduce.PartialDims(l.placements);
    n :| 0 <= n < |PartialReduce.PartialDims(l.placements)| && PartialReduce.PartialDims(l.placements)[n] == i;
  }

  /** What two routes of a tensor do about each other: the earlier feeds the source of the later. */
  ghost predicate FeedsNext(xs: seq<Tensor>, k: Task, k': Task) {
    && AllFit(xs) && IsTask(xs, k) && IsTask(xs, k') && k.tensor == k'.tensor && k.route < k'.route
    && Feeds(RouteOf(xs, k), RouteOf(xs, k').src.rank) && RouteOf(xs, k).src.rank != RouteOf(xs, k').src.rank
    && TaskSig(xs, k) != [] && TaskSig(xs, k') != [] && KeysIncrease(xs[k.tensor].routes)
  }

  ghost function ReduceOf(xs: seq<Tensor>, k: Task, n: nat): Op
    requires AllFit(xs) && IsTask(xs, k) && n < |PartialReduce.PartialDims(xs[k.tensor].problem.source.placements)|
  {
    assert FitTensor(xs[k.tensor]) && StartsOn(xs[k.tensor].problem, RouteOf(xs, k));
    AllReduces(xs[k.tensor].problem.source, k.tensor, RouteOf(xs, k).src)[n]
  }

  ghost function TransferOf(xs: seq<Tensor>, k: Task): Op
    requires AllFit(xs) && IsTask(xs, k)
  {
    assert FitTensor(xs[k.tensor]) && StartsOn(xs[k.tensor].problem, RouteOf(xs, k));
    ShipOf(xs[k.tensor].problem.source, k.tensor, RouteOf(xs, k))
  }

  lemma FeedingIsWired(r: Route, rank: nat)
    requires Feeds(r, rank) && rank != r.src.rank
    ensures Wired(r)
  {
    DstRanksHas(r, rank);
  }

  /** The source of the earlier route ships after it reduced. */
  lemma FirstHalf(xs: seq<Tensor>, k: Task, k': Task, n: nat)
    requires FeedsNext(xs, k, k') && n < |PartialReduce.PartialDims(xs[k.tensor].problem.source.placements)|
    ensures Precedes(Flatten(OpBlocks(xs, RouteOf(xs, k).src.rank)), ReduceOf(xs, k, n), TransferOf(xs, k))
  {
    var x, r := xs[k.tensor], RouteOf(xs, k);
    assert FitTensor(x) && StartsOn(x.problem, r);
    FeedingIsWired(r, RouteOf(xs, k').src.rank);
    ReduceThenShip(x.problem.source, k.tensor, r, TaskSig(xs, k), n);
    SameRouteFirst(xs, r.src.rank, k, ReduceOf(xs, k, n), TransferOf(xs, k));
  }

  /** The source of the later one reduces after it was served. */
  lemma SecondHalf(xs: seq<Tensor>, k: Task, k': Task, n: nat)
    requires FeedsNext(xs, k, k') && n < |PartialReduce.PartialDims(xs[k.tensor].problem.source.placements)|
    ensures Precedes(Flatten(OpBlocks(xs, RouteOf(xs, k').src.rank)), TransferOf(xs, k), ReduceOf(xs, k', n))
  {
    var x, r, r' := xs[k.tensor], RouteOf(xs, k), RouteOf(xs, k');
    assert FitTensor(x) && StartsOn(x.problem, r) && StartsOn(x.problem, r');
    FeedingIsWired(r, r'.src.rank);
    var reduces := AllReduces(x.problem.source, k.tensor, r'.src);
    assert reduces[n] in reduces;
    EarlierRouteFirst(xs, r'.src.rank, k, k', TransferOf(xs, k), ReduceOf(xs, k', n));
  }

  /** In a finished run every rank has run its list. */
  lemma FinishedRunsAll(
    xs: seq<Tensor>, world: set<nat>, size: int, trace: seq<Op>, end: Rendezvous.Lists<Op>, rank: nat)
    requires AllFit(xs) && AllLarge(xs, size) && rank in world
    requires Rendezvous.Run(Needs(), StartSteps(xs, world, size), trace, end) && Finished(end)
    ensures Rendezvous.Mine(Needs(), rank, trace) == Flatten(OpBlocks(xs, rank))
  {
    FinishedRanksRanAll(xs, world, size, trace, end, rank);
    RankStepsAre(xs, rank, size);
  }

  lemma TransferNeeds(xs: seq<Tensor>, k: Task)
    requires AllFit(xs) && IsTask(xs, k)
    ensures RouteOf(xs, k).src.rank in Needs()(TransferOf(xs, k))
  {
  }

  lemma ReduceNeeds(xs: seq<Tensor>, k: Task, n: nat)
    requires AllFit(xs) && IsTask(xs, k) && n < |PartialReduce.PartialDims(xs[k.tensor].problem.source.placements)|
    ensures RouteOf(xs, k).src.rank in Needs()(ReduceOf(xs, k, n))
  {
    assert FitTensor(xs[k.tensor]) && StartsOn(xs[k.tensor].problem, RouteOf(xs, k));
    OwnReduce(xs[k.tensor].problem.source, k.tensor, RouteOf(xs, k), n);
  }

  /** So the reduction of the later route waits for the transfer of the earlier, and that for its reduction. */
  lemma ServedInOrder(
    xs: seq<Tensor>, world: set<nat>, size: int, trace: seq<Op>, end: Rendezvous.Lists<Op>, k: Task, k': Task, n: nat)
    requires FeedsNext(xs, k, k') && n < |PartialReduce.PartialDims(xs[k.tensor].problem.source.placements)|
    requires AllLarge(xs, size) && InWorld(xs, world)
    requires Rendezvous.Run(Needs(), StartSteps(xs, world, size), trace, end) && Finished(end)
    ensures Precedes(trace, ReduceOf(xs, k, n), TransferOf(xs, k))
    ensures Precedes(trace, TransferOf(xs, k), ReduceOf(xs, k', n))
  {
    var a, b := RouteOf(xs, k).src.rank, RouteOf(xs, k').src.rank;
    RouteInWorld(xs, world, k, a);
    RouteInWorld(xs, world, k', b);
    FinishedRunsAll(xs, world, size, trace, end, a);
    FinishedRunsAll(xs, world, size, trace, end, b);
    FirstHalf(xs, k, k', n);
    SecondHalf(xs, k, k', n);
    TransferNeeds(xs, k);
    ReduceNeeds(xs, k', n);
    ListOrdersRun(Needs(), a, trace, ReduceOf(xs, k, n), TransferOf(xs, k));
    ListOrdersRun(Needs(), b, trace, TransferOf(xs, k), ReduceOf(xs, k', n));
  }

  lemma KeysFollowRanks(routes: seq<Route>, i: nat, j: nat)
    requires KeysIncrease(routes) && i < j < |routes|
    ensures routes[i].src.rank <= routes[j].src.rank
  {
    assert LexLess(KeyOf(routes[i].src), KeyOf(routes[j].src));
  }

  lemma LowerRankFirst(routes: seq<Route>, i: nat, j: nat)
    requires KeysIncrease(routes) && i < |routes| && j < |routes| && routes[i].src.rank < routes[j].src.rank
    ensures i < j
  {
    if j < i {
      KeysFollowRanks(routes, j, i);
    }
  }

  lemma ReducingSource(x: Tensor, s: Setting, k: nat)
    requires Settled(x, s) && k < |x.routes| && x.routes[k].src.rank in x.problem.source.mesh.ranks
    requires HasPartial(x.problem.source.placements)
    ensures SigOf(x, x.routes[k].src.rank) != [] && KeysIncrease(x.routes)
  {
  }

  /** What makes two routes of a tensor such a pair. */
  ghost predicate NextRoutes(x: Tensor, i: nat, i': nat) {
    && i < i' < |x.routes| && Feeds(x.routes[i], x.routes[i'].src.rank) && x.routes[i].src.rank != x.routes[i'].src.rank
    && SigOf(x, x.routes[i].src.rank) != [] && SigOf(x, x.routes[i'].src.rank) != [] && KeysIncrease(x.routes)
  }

  /** Two ranks of a replica, the lower first: its route feeds the other. */
  lemma LowerFeedsHigher(x: Tensor, s: Setting, a: nat, b: nat) returns (i: nat, i': nat)
    requires Settled(x, s) && ToSources(x.problem) && HasPartial(x.problem.source.placements)
    requires a in x.problem.source.mesh.ranks && b in x.problem.source.mesh.ranks && a < b
    requires SameReplica(x.problem.source, a, b)
    ensures NextRoutes(x, i, i')
    ensures x.routes[i].src == Endpoint(a, Zeros(|x.problem.sourceCuts|))
    ensures x.routes[i'].src == Endpoint(b, Zeros(|x.problem.sourceCuts|))
  {
    i := ReplicaIsFed(x, s, a, b);
    i' := ReplicaIsFed(x, s, b, b);
    ReducingSource(x, s, i);
    ReducingSource(x, s, i');
    LowerRankFirst(x.routes, i, i');
  }

  lemma NextInBatch(xs: seq<Tensor>, j: nat, i: nat, i': nat)
    requires AllFit(xs) && j < |xs| && NextRoutes(xs[j], i, i')
    ensures FeedsNext(xs, Task(j, i), Task(j, i'))
  {
  }

  // ------------------------------------------------------------------------------------------
  // No run finishes

  lemma ReduceIsListed(xs: seq<Tensor>, k: Task, k': Task, n: nat)
    requires FeedsNext(xs, k, k') && n < |PartialReduce.PartialDims(xs[k.tensor].problem.source.placements)|
    ensures ReduceOf(xs, k, n) in Flatten(OpBlocks(xs, RouteOf(xs, k).src.rank))
  {
    var x, r := xs[k.tensor], RouteOf(xs, k);
    assert FitTensor(x) && StartsOn(x.problem, r);
    FeedingIsWired(r, RouteOf(xs, k').src.rank);
    ReduceThenShip(x.problem.source, k.tensor, r, TaskSig(xs, k), n);
    InRank(xs, r.src.rank, k, ReduceOf(xs, k, n));
  }

  /** Two such pairs whose reductions are shared crosswise. */
  ghost predicate Crosswise(xs: seq<Tensor>, n: nat, k: Task, k': Task, q: Task, q': Task) {
    && FeedsNext(xs, k, k') && FeedsNext(xs, q, q') && k.tensor == q.tensor
    && n < |PartialReduce.PartialDims(xs[k.tensor].problem.source.placements)|
    && ReduceOf(xs, k', n) == ReduceOf(xs, q, n) && ReduceOf(xs, q', n) == ReduceOf(xs, k, n)
  }

  /** Each of the four steps waits for the one before it. */
  lemma CrosswiseIsCircle(
    xs: seq<Tensor>, world: set<nat>, size: int, trace: seq<Op>, end: Rendezvous.Lists<Op>,
    n: nat, k: Task, k': Task, q: Task, q': Task)
    requires Crosswise(xs, n, k, k', q, q') && AllLarge(xs, size) && InWorld(xs, world)
    requires Rendezvous.Run(Needs(), StartSteps(xs, world, size), trace, end)
    ensures !Finished(end)
  {
    if Finished(end) {
      ServedInOrder(xs, world, size, trace, end, k, k', n);
      ServedInOrder(xs, world, size, trace, end, q, q', n);
      var a := RouteOf(xs, k).src.rank;
      ReduceIsListed(xs, k, k', n);
      RouteInWorld(xs, world, k, a);
      FinishedRunsAll(xs, world, size, trace, end, a);
      MineIsThere(Needs(), a, trace, ReduceOf(xs, k, n));
      CircleOfFour(trace, ReduceOf(xs, k, n), TransferOf(xs, k), ReduceOf(xs, q, n), TransferOf(xs, q));
    }
  }

  lemma CircleOfFour<T>(trace: seq<T>, a: T, b: T, c: T, d: T)
    requires Precedes(trace, a, b) && Precedes(trace, b, c) && Precedes(trace, c, d) && Precedes(trace, d, a)
    ensures a !in trace
  {
    var steps := [a, b, c, d];
    assert Circle(trace, steps);
    forall j | 0 <= j < |trace| ensures trace[j] != a {
      CircleNeverRuns(trace, steps, j);
      assert steps[0] == a;
    }
  }

  lemma SharedInBatch(xs: seq<Tensor>, k: Task, k': Task, i: nat, n: nat)
    requires AllFit(xs) && IsTask(xs, k) && IsTask(xs, k') && k.tensor == k'.tensor
    requires ValidLayout(xs[k.tensor].problem.source) && i < |xs[k.tensor].problem.source.mesh.shape|
    requires n < |PartialReduce.PartialDims(xs[k.tensor].problem.source.placements)|
    requires PartialReduce.PartialDims(xs[k.tensor].problem.source.placements)[n] == i
    requires RouteOf(xs, k).src.rank in xs[k.tensor].problem.source.mesh.ranks
    requires RouteOf(xs, k').src.rank in OwnLine(xs[k.tensor].problem.source.mesh, i, RouteOf(xs, k).src.rank)
    requires RouteOf(xs, k).src.cell == RouteOf(xs, k').src.cell
    ensures ReduceOf(xs, k, n) == ReduceOf(xs, k', n)
  {
    SharedReduce(xs[k.tensor].problem.source, k.tensor, RouteOf(xs, k).src, RouteOf(xs, k').src, n);
  }

  /** A crossing of the source mesh is such a pair of pairs. */
  lemma CrossingIsCrosswise(xs: seq<Tensor>, j: nat, s: Setting, i: nat, a: nat, b: nat, a': nat, b': nat)
    returns (n: nat, k: Task, k': Task, q: Task, q': Task)
    requires AllFit(xs) && j < |xs| && Settled(xs[j], s) && ToSources(xs[j].problem)
    requires Crossing(xs[j].problem.source, i, a, b, a', b')
    ensures Crosswise(xs, n, k, k', q, q')
  {
    n := ReductionAlong(xs[j].problem.source, i);
    var m, m' := LowerFeedsHigher(xs[j], s, a, b);
    var h, h' := LowerFeedsHigher(xs[j], s, b', a');
    NextInBatch(xs, j, m, m');
    NextInBatch(xs, j, h, h');
    k, k', q, q' := Task(j, m), Task(j, m'), Task(j, h), Task(j, h');
    SharedInBatch(xs, k, q', i, n);
    SharedInBatch(xs, k', q, i, n);
  }

  /**
   A mesh whose replicas disagree, replicated to its own ranks: with one chunk per bucket no run of a batch
   with such a tensor ever finishes.
   */
  lemma DisorderNeverFinishes(
    xs: seq<Tensor>, j: nat, s: Setting, world: set<nat>, size: int, trace: seq<Op>, end: Rendezvous.Lists<Op>)
    requires AllFit(xs) && j < |xs| && Settled(xs[j], s) && ToSources(xs[j].problem)
    requires !OrderAgrees(xs[j].problem.source)
    requires InWorld(xs, world) && AllLarge(xs, size)
    requires Rendezvous.Run(Needs(), StartSteps(xs, world, size), trace, end)
    ensures !Finished(end)
  {
    var i, a, b, a', b' := DisorderCrosses(xs[j].problem.source);
    var n, k, k', q, q' := CrossingIsCrosswise(xs, j, s, i, a, b, a', b');
    CrosswiseIsCircle(xs, world, size, trace, end, n, k, k', q, q');
  }

  // ------------------------------------------------------------------------------------------
  // The exact condition

  ghost predicate AllSettled(xs: seq<Tensor>, settings: seq<Setting>) {
    |settings| == |xs| && forall j :: 0 <= j < |xs| ==> Settled(xs[j], settings[j])
  }

  ghost predicate AllToSources(xs: seq<Tensor>) {
    forall j :: 0 <= j < |xs| ==> ToSources(xs[j].problem)
  }

  ghost predicate AllAgree(xs: seq<Tensor>)
    requires AllFit(xs)
  {
    forall j :: 0 <= j < |xs| ==> FitTensor(xs[j]) && OrderAgrees(xs[j].problem.source)
  }

  lemma AgreeingNeverStuck(xs: seq<Tensor>, settings: seq<Setting>, world: set<nat>, size: int)
    requires AllFit(xs) && AllSettled(xs, settings) && AllAgree(xs) && InWorld(xs, world) && AllLarge(xs, size)
    ensures NeverStuck(Needs(), StartSteps(xs, world, size))
  {
    assert AllSteady(xs, settings);
    forall trace, end: Rendezvous.Lists<Op> | Rendezvous.Run(Needs(), StartSteps(xs, world, size), trace, end)
      ensures Finished(end) || exists op :: Rendezvous.Enabled(Needs(), end, op)
    {
      PartialNeverDeadlocks(xs, settings, world, size, trace, end);
    }
  }

  lemma NeverStuckAgrees(xs: seq<Tensor>, settings: seq<Setting>, world: set<nat>, size: int)
    requires AllFit(xs) && AllSettled(xs, settings) && AllToSources(xs) && InWorld(xs, world) && AllLarge(xs, size)
    requires NeverStuck(Needs(), StartSteps(xs, world, size))
    ensures AllAgree(xs)
  {
    var trace, end := CanFinish(Needs(), StartSteps(xs, world, size));
    forall j | 0 <= j < |xs| ensures FitTensor(xs[j]) && OrderAgrees(xs[j].problem.source) {
      if !OrderAgrees(xs[j].problem.source) {
        DisorderNeverFinishes(xs, j, settings[j], world, size, trace, end);
      }
    }
  }

  /**
   Tensors replicated to their own ranks, with one chunk per bucket: sequential mode never gets stuck if and
   only if on each source mesh the ranks of a replica stand in the same order whatever their Partial
   coordinates. Without the replication the condition still suffices.
   */
  lemma NeverStuckIff(xs: seq<Tensor>, settings: seq<Setting>, world: set<nat>, size: int)
    requires AllFit(xs) && AllSettled(xs, settings) && AllToSources(xs) && InWorld(xs, world) && AllLarge(xs, size)
    ensures NeverStuck(Needs(), StartSteps(xs, world, size)) <==> AllAgree(xs)
  {
    if AllAgree(xs) {
      AgreeingNeverStuck(xs, settings, world, size);
    }
    if NeverStuck(Needs(), StartSteps(xs, world, size)) {
      NeverStuckAgrees(xs, settings, world, size);
    }
  }
}
