/**
 Sequential mode end to end (src/etha/comm/comm_methods.py): every rank's bucket list is its
 projection of one global bucket list, for any tensors, any bucket size and any overlap of the two
 meshes, so no run can deadlock.
*/
module Sequential {
  import opened Base
  import opened IR
  import opened Radix
  import opened Layouts
  import opened Routing
  import opened RouteTables
  import opened Slices
  import opened Chunks
  import opened Buckets
  import opened Relabelling
  import opened ChunkLists
  import opened Rendezvous

  /**
   One registered tensor: its routing problem, route table, block shape, element size, and each source rank's
   reductions.
   */
  datatype Tensor = Tensor(
    problem: Problem, routes: seq<Route>, block: seq<nat>, itemsize: nat, partials: map<nat, seq<PartialGroup>>)

  function SigOf(x: Tensor, rank: nat): seq<PartialGroup> {
    if rank in x.partials then x.partials[rank] else []
  }

  /** Reductions are set up on the source ranks exactly if there are Partial dimensions. */
  ghost predicate SetUp(l: Layout, partials: map<nat, seq<PartialGroup>>) {
    forall r :: r in l.mesh.ranks ==> ((r in partials && partials[r] != []) <==> HasPartial(l.placements))
  }

  /** A route starts at a cell of the source mesh. */
  ghost predicate StartsOn(p: Problem, r: Route) {
    r.src.rank in p.source.mesh.ranks && InRange(p.sourceCuts, r.src.cell)
  }

  /** Any tensor the planner can route, with or without Partial dimensions. */
  ghost predicate FitTensor(x: Tensor) {
    && ValidProblem(x.problem) && RightRoutes(x.problem, x.routes) && |x.block| >= |x.problem.grid|
    && forall i :: 0 <= i < |x.routes| ==> Kinded(x.routes[i]) && StartsOn(x.problem, x.routes[i])
  }

  /** Nothing is reduced, and every route ships. */
  ghost predicate GoodTensor(x: Tensor) {
    && FitTensor(x) && x.partials == map[]
    && forall i :: 0 <= i < |x.routes| ==> x.routes[i].dsts != []
  }

  lemma DeliveryStartsOn(p: Problem, routes: seq<Route>, i: nat)
    requires ValidProblem(p) && RightRoutes(p, routes) && i < |routes| && routes[i].dsts != []
    ensures StartsOn(p, routes[i])
  {
    assert RightDelivery(p, routes[i].src, routes[i].dsts[0]);
    var t :| Serves(p, routes[i].src, routes[i].dsts[0], t);
  }

  /** What the planner builds is good, whichever replica each target reads the tags from. */
  lemma PlannedTensorIsGood(
    p: Problem, stamp: Stamp, gather: seq<nat>, routes: seq<Route>, block: seq<nat>, itemsize: nat)
    requires ValidProblem(p) && !HasPartial(p.source.placements) && ValidStamp(p, stamp) && TagsExact(p, stamp)
    requires FullGather(p, gather) && IsTable(Collect(Arrivals(p, stamp, gather)), routes) && |block| >= |p.grid|
    ensures GoodTensor(Tensor(p, routes, block, itemsize, map[]))
  {
    RoutesAreRight(p, stamp, gather, routes);
    forall i | 0 <= i < |routes| ensures StartsOn(p, routes[i]) {
      DeliveryStartsOn(p, routes, i);
    }
  }

  /** Local extents: cells times block, whole where nothing is cut. */
  function ShapeOf(cuts: seq<nat>, block: seq<nat>): (r: seq<nat>)
    ensures |r| == |block|
    ensures forall d :: 0 <= d < |block| ==> r[d] == Extended(cuts, |block|)[d] * block[d]
  {
    seq(|block|, d requires 0 <= d < |block| => Extended(cuts, |block|)[d] * block[d])
  }

  /** A rank holds the tensors of the meshes it belongs to. */
  function JobFor(x: Tensor, rank: nat): Job {
    Job(x.routes, x.problem.sourceCuts, x.problem.targetCuts,
        if rank in x.problem.source.mesh.ranks then Some(ShapeOf(x.problem.sourceCuts, x.block)) else None,
        if rank in x.problem.target.mesh.ranks then Some(ShapeOf(x.problem.targetCuts, x.block)) else None,
        x.itemsize, SigOf(x, rank))
  }

  function BytesOf(x: Tensor): nat {
    Prod(x.block) * x.itemsize
  }

  lemma BlockIsChunk(cuts: seq<nat>, block: seq<nat>)
    requires Positive(cuts)
    ensures Positive(Extended(cuts, |block|))
    ensures ChunkShape(Extended(cuts, |block|), ShapeOf(cuts, block)) == block
  {
    var e, shape := Extended(cuts, |block|), ShapeOf(cuts, block);
    var c := ChunkShape(e, shape);
    forall d | 0 <= d < |block| ensures c[d] == block[d] {
      DivModOf(block[d], 0, e[d]);
      assert shape[d] == block[d] * e[d] + 0;
    }
  }

  lemma JobIsSized(x: Tensor, rank: nat, i: nat)
    requires FitTensor(x) && i < |x.routes|
    ensures Sized(JobFor(x, rank), rank, x.routes[i], BytesOf(x))
  {
    var job, r, p := JobFor(x, rank), x.routes[i], x.problem;
    BlockIsChunk(p.sourceCuts, x.block);
    BlockIsChunk(p.targetCuts, x.block);
    assert Positive(SourceCutsOf(job)) && Positive(TargetCutsOf(job)) && SameBytes(job, BytesOf(x));
    assert RouteFits(job, rank, r) && Equipped(job, rank, r) by {
      RouteTouches(x, i, rank);
    }
    assert OneDstPerRank(r) by {
      forall j, k | 0 <= j < |r.dsts| && 0 <= k < |r.dsts| && r.dsts[j].rank == r.dsts[k].rank ensures j == k {
        RouteRanksDistinct(p, x.routes, i, j, k);
      }
    }
  }

  /** A route joins ranks of the two meshes and names cells that exist there. */
  lemma RouteOnMeshes(x: Tensor, i: nat)
    requires FitTensor(x) && i < |x.routes|
    ensures x.routes[i].src.rank in x.problem.source.mesh.ranks && InRange(x.problem.sourceCuts, x.routes[i].src.cell)
    ensures forall j :: 0 <= j < |x.routes[i].dsts| ==>
      x.routes[i].dsts[j].rank in x.problem.target.mesh.ranks && InRange(x.problem.targetCuts, x.routes[i].dsts[j].cell)
  {
    var r, p := x.routes[i], x.problem;
    forall j | 0 <= j < |r.dsts|
      ensures r.dsts[j].rank in p.target.mesh.ranks && InRange(p.targetCuts, r.dsts[j].cell)
    {
      assert RightDelivery(p, r.src, r.dsts[j]);
      var u :| Serves(p, r.src, r.dsts[j], u);
    }
  }

  /** A route only names cells that exist on ranks that have the tensor. */
  lemma RouteTouches(x: Tensor, i: nat, rank: nat)
    requires FitTensor(x) && i < |x.routes|
    ensures RouteFits(JobFor(x, rank), rank, x.routes[i]) && Equipped(JobFor(x, rank), rank, x.routes[i])
  {
    RouteFitsJob(x, i, rank);
    RouteIsEquipped(x, i, rank);
  }

  lemma DstOnMesh(x: Tensor, i: nat, d: Endpoint)
    requires FitTensor(x) && i < |x.routes| && d in x.routes[i].dsts
    ensures d.rank in x.problem.target.mesh.ranks && InRange(x.problem.targetCuts, d.cell)
  {
    RouteOnMeshes(x, i);
    var j :| 0 <= j < |x.routes[i].dsts| && x.routes[i].dsts[j] == d;
  }

  lemma RouteFitsJob(x: Tensor, i: nat, rank: nat)
    requires FitTensor(x) && i < |x.routes|
    ensures RouteFits(JobFor(x, rank), rank, x.routes[i])
  {
    RouteOnMeshes(x, i);
    forall d | d in x.routes[i].dsts ensures InRange(x.problem.targetCuts, d.cell) {
      DstOnMesh(x, i, d);
    }
  }

  lemma RouteIsEquipped(x: Tensor, i: nat, rank: nat)
    requires FitTensor(x) && i < |x.routes|
    ensures Equipped(JobFor(x, rank), rank, x.routes[i])
  {
    RouteOnMeshes(x, i);
    forall d | d in x.routes[i].dsts ensures d.rank in x.problem.target.mesh.ranks {
      DstOnMesh(x, i, d);
    }
  }

  // ------------------------------------------------------------------------------------------
  // All tensors together

  /** One route of one tensor. */
  datatype Task = Task(tensor: nat, route: nat)

  ghost function Tasks(xs: seq<Tensor>): seq<Task> {
    if xs == [] then []
    else
      var n := |xs| - 1;
      Tasks(xs[..n]) + seq(|xs[n].routes|, i requires 0 <= i => Task(n, i))
  }

  ghost predicate IsTask(xs: seq<Tensor>, k: Task) {
    k.tensor < |xs| && k.route < |xs[k.tensor].routes|
  }

  lemma {:induction false} TasksAreTasks(xs: seq<Tensor>)
    ensures Distinct(Tasks(xs))
    ensures forall k :: k in Tasks(xs) <==> IsTask(xs, k)
  {
    if xs != [] {
      var n := |xs| - 1;
      TasksAreTasks(xs[..n]);
      var a, b := Tasks(xs[..n]), seq(|xs[n].routes|, i requires 0 <= i => Task(n, i));
      forall i, j | 0 <= i < |a| && 0 <= j < |b| ensures a[i] != b[j] {
        assert a[i] in a;
      }
      forall k ensures k in a + b <==> IsTask(xs, k) {
        if k in b {
          var i :| 0 <= i < |b| && b[i] == k;
        }
        if IsTask(xs, k) && k.tensor == n {
          assert b[k.route] == k;
        }
      }
    }
  }

  ghost predicate AllFit(xs: seq<Tensor>) {
    forall j :: 0 <= j < |xs| ==> FitTensor(xs[j])
  }

  ghost predicate AllGood(xs: seq<Tensor>) {
    forall j :: 0 <= j < |xs| ==> GoodTensor(xs[j])
  }

  ghost function RouteOf(xs: seq<Tensor>, k: Task): Route
    requires IsTask(xs, k)
  {
    xs[k.tensor].routes[k.route]
  }

  ghost function TaskChunks(xs: seq<Tensor>, rank: nat, k: Task): seq<Chunk>
    requires AllFit(xs) && IsTask(xs, k)
  {
    JobIsSized(xs[k.tensor], rank, k.route);
    RouteChunks(JobFor(xs[k.tensor], rank), rank, RouteOf(xs, k))
  }

  ghost function TaskItems(xs: seq<Tensor>, k: Task, op: nat): seq<Item>
    requires IsTask(xs, k)
  {
    RouteItems(RouteOf(xs, k), SigOf(xs[k.tensor], RouteOf(xs, k).src.rank), BytesOf(xs[k.tensor]), op)
  }

  lemma TaskProjects(xs: seq<Tensor>, rank: nat, k: Task, op: nat)
    requires AllFit(xs) && IsTask(xs, k)
    ensures ItemsOf(TaskChunks(xs, rank, k), op) ==
            Relabel(Seen(rank), KeepItems(TakesPart(rank), TaskItems(xs, k, op)))
  {
    var x := xs[k.tensor];
    JobIsSized(x, rank, k.route);
    RouteProjects(JobFor(x, rank), rank, RouteOf(xs, k), SigOf(x, RouteOf(xs, k).src.rank), BytesOf(x), op);
  }

  lemma {:induction false} SeenFlat(
    f: BucketKey -> BucketKey, keep: BucketKey -> bool, all: seq<seq<Item>>, mine: seq<seq<Item>>)
    requires |mine| == |all| && forall i :: 0 <= i < |all| ==> mine[i] == Relabel(f, KeepItems(keep, all[i]))
    ensures Flatten(mine) == Relabel(f, KeepItems(keep, Flatten(all)))
  {
    if all != [] {
      var n := |all| - 1;
      SeenFlat(f, keep, all[..n], mine[..n]);
      KeepItemsConcat(keep, Flatten(all[..n]), all[n]);
    }
  }

  /** The operations of the batch, route by route; route `n` has the numbers `2n` (wire) and `2n + 1` (local). */
  ghost function Blocks(xs: seq<Tensor>): (r: seq<seq<Item>>)
    ensures |r| == |Tasks(xs)|
    ensures forall i :: 0 <= i < |r| ==> IsTask(xs, Tasks(xs)[i]) && r[i] == TaskItems(xs, Tasks(xs)[i], 2 * i)
  {
    TasksAreTasks(xs);
    seq(|Tasks(xs)|, i requires 0 <= i < |Tasks(xs)| => TaskItems(xs, Tasks(xs)[i], 2 * i))
  }

  ghost function RankBlocks(xs: seq<Tensor>, rank: nat): (r: seq<seq<Item>>)
    requires AllFit(xs)
    ensures |r| == |Tasks(xs)|
    ensures forall i :: 0 <= i < |r| ==>
      IsTask(xs, Tasks(xs)[i]) && r[i] == ItemsOf(TaskChunks(xs, rank, Tasks(xs)[i]), 2 * i)
  {
    TasksAreTasks(xs);
    seq(|Tasks(xs)|, i requires 0 <= i < |Tasks(xs)| => ItemsOf(TaskChunks(xs, rank, Tasks(xs)[i]), 2 * i))
  }

  ghost function AllItems(xs: seq<Tensor>): seq<Item> {
    Flatten(Blocks(xs))
  }

  /** What one rank hands to bucketing. */
  ghost function RankItems(xs: seq<Tensor>, rank: nat): seq<Item>
    requires AllFit(xs)
  {
    Flatten(RankBlocks(xs, rank))
  }

  lemma RankItemsProject(xs: seq<Tensor>, rank: nat)
    requires AllFit(xs)
    ensures RankItems(xs, rank) == Relabel(Seen(rank), KeepItems(TakesPart(rank), AllItems(xs)))
  {
    var all, mine := Blocks(xs), RankBlocks(xs, rank);
    forall i | 0 <= i < |all| ensures mine[i] == Relabel(Seen(rank), KeepItems(TakesPart(rank), all[i])) {
      TaskProjects(xs, rank, Tasks(xs)[i], 2 * i);
    }
    SeenFlat(Seen(rank), TakesPart(rank), all, mine);
  }

  /** The bucket list one rank executes. */
  ghost function RankBuckets(xs: seq<Tensor>, rank: nat, size: int): seq<seq<Item>>
    requires AllFit(xs)
  {
    Bucketize(RankItems(xs, rank), size)
  }

  /** The operations a rank takes part in. */
  ghost function MyItems(xs: seq<Tensor>, rank: nat): seq<Item> {
    KeepItems(TakesPart(rank), AllItems(xs))
  }

  /** The rank's buckets are the global ones it takes part in, keyed as it sees them. */
  ghost predicate SharesBuckets(xs: seq<Tensor>, rank: nat, size: int)
    requires AllFit(xs)
  {
    RankBuckets(xs, rank, size) == RelabelAll(Seen(rank), KeepBuckets(TakesPart(rank), Bucketize(AllItems(xs), size)))
  }

  lemma SharesIsSameBoundaries(xs: seq<Tensor>, rank: nat, size: int)
    requires AllFit(xs)
    ensures SharesBuckets(xs, rank, size) <==> SameBoundaries(Seen(rank), MyItems(xs, rank), size)
  {
    RankItemsProject(xs, rank);
    BucketingCommutesWithFiltering(TakesPart(rank), AllItems(xs), size);
  }

  // ------------------------------------------------------------------------------------------
  // When a receiver cuts where its sender does

  /** A route that reaches `rank` from elsewhere. */
  ghost predicate Receives(xs: seq<Tensor>, k: Task, rank: nat) {
    IsTask(xs, k) && RouteOf(xs, k).src.rank != rank && Feeds(RouteOf(xs, k), rank)
  }

  ghost function TaskSig(xs: seq<Tensor>, k: Task): seq<PartialGroup>
    requires IsTask(xs, k)
  {
    SigOf(xs[k.tensor], RouteOf(xs, k).src.rank)
  }

  ghost predicate SameAddress(r: Route, r': Route) {
    r.src.rank == r'.src.rank && DstRanks(r) == DstRanks(r') && r.kind == r'.kind
  }

  /** Whatever reaches the rank from one source, to one set of ranks, is reduced over the same groups there. */
  ghost predicate OneSignature(xs: seq<Tensor>, rank: nat) {
    forall k, k' :: Receives(xs, k, rank) && Receives(xs, k', rank) && SameAddress(RouteOf(xs, k), RouteOf(xs, k')) ==>
      TaskSig(xs, k) == TaskSig(xs, k')
  }

  /** An operation of the batch belongs to one of its routes. */
  lemma ItemOrigin(xs: seq<Tensor>, x: Item) returns (k: Task, op: nat)
    requires x in AllItems(xs)
    ensures IsTask(xs, k) && x in TaskItems(xs, k, op)
  {
    var i := FlatOrigin(Blocks(xs), x);
    k, op := Tasks(xs)[i], 2 * i;
  }

  /** And every operation of a route is there. */
  lemma TaskHasNumber(xs: seq<Tensor>, k: Task) returns (op: nat)
    requires IsTask(xs, k)
    ensures forall x :: x in TaskItems(xs, k, op) ==> x in AllItems(xs)
  {
    TasksAreTasks(xs);
    assert k in Tasks(xs);
    var i :| 0 <= i < |Tasks(xs)| && Tasks(xs)[i] == k;
    op := 2 * i;
    var block := Blocks(xs)[i];
    assert block == TaskItems(xs, k, op);
    forall x | x in block ensures x in Flatten(Blocks(xs)) {
      InFlatten(Blocks(xs), block, x);
    }
  }

  lemma {:induction false} KeepItemsHas(keep: BucketKey -> bool, items: seq<Item>, x: Item)
    ensures x in KeepItems(keep, items) <==> x in items && keep(x.key)
  {
    if items != [] {
      KeepItemsHas(keep, items[..|items| - 1], x);
    }
  }

  /** An operation that reaches another rank is the route's wire transfer. */
  lemma ReceivedKey(r: Route, sig: seq<PartialGroup>, nb: nat, op: nat, rank: nat, x: Item)
    requires x in RouteItems(r, sig, nb, op) && r.src.rank != rank && rank in Participants(x.key)
    ensures Feeds(r, rank) && x.key == WireItem(r, sig, 0, 0).key
  {
    DstRanksHas(r, rank);
  }

  lemma SentKey(r: Route, sig: seq<PartialGroup>, nb: nat, op: nat, rank: nat)
    requires Kinded(r) && r.src.rank != rank && Feeds(r, rank)
    ensures WireItem(r, sig, nb, op) in RouteItems(r, sig, nb, op) && rank in Participants(WireItem(r, sig, nb, op).key)
  {
    DstRanksHas(r, rank);
    if SelfP2p(r, r.src.rank) {
      SelfP2pFeeds(r, r.src.rank);
    }
    assert RouteItems(r, sig, nb, op)[0] == WireItem(r, sig, nb, op);
  }

  lemma ItemsFrom(r: Route, sig: seq<PartialGroup>, nb: nat, op: nat, x: Item)
    requires x in RouteItems(r, sig, nb, op)
    ensures x.key.srcRank == r.src.rank && x.key.partialSig == sig
  {
  }

  /** What a rank receives comes from one of its routes. */
  lemma ReceivedItem(xs: seq<Tensor>, rank: nat, x: Item) returns (k: Task)
    requires x in MyItems(xs, rank) && x.key.srcRank != rank
    ensures Receives(xs, k, rank) && x.key == WireItem(RouteOf(xs, k), TaskSig(xs, k), 0, 0).key
  {
    KeepItemsHas(TakesPart(rank), AllItems(xs), x);
    var op;
    k, op := ItemOrigin(xs, x);
    ItemsFrom(RouteOf(xs, k), TaskSig(xs, k), BytesOf(xs[k.tensor]), op, x);
    ReceivedKey(RouteOf(xs, k), TaskSig(xs, k), BytesOf(xs[k.tensor]), op, rank, x);
  }

  lemma ReceivedRoute(xs: seq<Tensor>, rank: nat, k: Task) returns (x: Item)
    requires AllFit(xs) && Receives(xs, k, rank)
    ensures x in MyItems(xs, rank) && x.key == WireItem(RouteOf(xs, k), TaskSig(xs, k), 0, 0).key
  {
    var op := TaskHasNumber(xs, k);
    x := WireItem(RouteOf(xs, k), TaskSig(xs, k), BytesOf(xs[k.tensor]), op);
    SentKey(RouteOf(xs, k), TaskSig(xs, k), BytesOf(xs[k.tensor]), op, rank);
    assert x in TaskItems(xs, k, op);
    KeepItemsHas(TakesPart(rank), AllItems(xs), x);
  }

  /** Keys that a rank could confuse are those of received routes with one address and two signatures. */
  lemma ConfusedKeys(r: Route, sig: seq<PartialGroup>, r': Route, sig': seq<PartialGroup>, rank: nat)
    requires r.src.rank != rank && r'.src.rank != rank && Feeds(r, rank) && Feeds(r', rank)
    ensures var a, b := WireItem(r, sig, 0, 0).key, WireItem(r', sig', 0, 0).key;
            && (Seen(rank)(a) == Seen(rank)(b) <==> SameAddress(r, r'))
            && (a == b <==> SameAddress(r, r') && sig == sig')
  {
    DstRanksHas(r, rank);
    DstRanksHas(r', rank);
  }

  lemma SignatureSeparates(xs: seq<Tensor>, rank: nat, x: Item, y: Item)
    requires AllFit(xs) && OneSignature(xs, rank) && x in MyItems(xs, rank) && y in MyItems(xs, rank)
    requires Seen(rank)(x.key) == Seen(rank)(y.key)
    ensures x.key == y.key
  {
    if x.key.srcRank != rank {
      var k := ReceivedItem(xs, rank, x);
      var k' := ReceivedItem(xs, rank, y);
      ConfusedKeys(RouteOf(xs, k), TaskSig(xs, k), RouteOf(xs, k'), TaskSig(xs, k'), rank);
    }
  }

  lemma OneToOneSeparates(xs: seq<Tensor>, rank: nat, k: Task, k': Task)
    requires AllFit(xs) && OneToOne(Seen(rank), MyItems(xs, rank)) && Receives(xs, k, rank) && Receives(xs, k', rank)
    requires SameAddress(RouteOf(xs, k), RouteOf(xs, k'))
    ensures TaskSig(xs, k) == TaskSig(xs, k')
  {
    var x := ReceivedRoute(xs, rank, k);
    var y := ReceivedRoute(xs, rank, k');
    ConfusedKeys(RouteOf(xs, k), TaskSig(xs, k), RouteOf(xs, k'), TaskSig(xs, k'), rank);
  }

  lemma OneToOneIffOneSignature(xs: seq<Tensor>, rank: nat)
    requires AllFit(xs)
    ensures OneToOne(Seen(rank), MyItems(xs, rank)) <==> OneSignature(xs, rank)
  {
    if OneSignature(xs, rank) {
      forall x, y | x in MyItems(xs, rank) && y in MyItems(xs, rank) && Seen(rank)(x.key) == Seen(rank)(y.key)
        ensures x.key == y.key
      {
        SignatureSeparates(xs, rank, x, y);
      }
    }
    if OneToOne(Seen(rank), MyItems(xs, rank)) {
      forall k, k' | Receives(xs, k, rank) && Receives(xs, k', rank) && SameAddress(RouteOf(xs, k), RouteOf(xs, k'))
        ensures TaskSig(xs, k) == TaskSig(xs, k')
      {
        OneToOneSeparates(xs, rank, k, k');
      }
    }
  }

  /**
   A rank's bucket list is its projection of one global list - same buckets, boundaries and bytes - at
   every bucket size, if and only if what it receives has one signature per source and destination set.
   */
  lemma BucketListsProjectIff(xs: seq<Tensor>, rank: nat)
    requires AllFit(xs)
    ensures (forall size :: SharesBuckets(xs, rank, size)) <==> OneSignature(xs, rank)
  {
    OneToOneIffOneSignature(xs, rank);
    BoundariesAgreeIff(Seen(rank), MyItems(xs, rank));
    forall size ensures SharesBuckets(xs, rank, size) <==> SameBoundaries(Seen(rank), MyItems(xs, rank), size) {
      SharesIsSameBoundaries(xs, rank, size);
    }
  }

  // ------------------------------------------------------------------------------------------
  // Two ranks

  /** What every rank can tell of a key. */
  function Erased(): BucketKey -> BucketKey {
    (key: BucketKey) => key.(partialSig := [])
  }

  lemma {:induction false} KeepRelabelled(f: BucketKey -> BucketKey, keep: BucketKey -> bool, bs: seq<seq<Item>>)
    requires forall k :: keep(f(k)) == keep(k)
    ensures KeepBuckets(keep, RelabelAll(f, bs)) == RelabelAll(f, KeepBuckets(keep, bs))
  {
    if bs != [] {
      var init, b := bs[..|bs| - 1], bs[|bs| - 1];
      KeepRelabelled(f, keep, init);
      assert RelabelAll(f, bs) == RelabelAll(f, init) + [Relabel(f, b)];
      KeepBucketsSnoc(keep, RelabelAll(f, init), Relabel(f, b));
      RelabelAllSnoc(f, KeepBuckets(keep, init), b);
    }
  }

  lemma {:induction false} KeepTwice(p: BucketKey -> bool, q: BucketKey -> bool, bs: seq<seq<Item>>)
    ensures KeepBuckets(p, KeepBuckets(q, bs)) == KeepBuckets(q, KeepBuckets(p, bs))
  {
    if bs != [] {
      var init, b := bs[..|bs| - 1], bs[|bs| - 1];
      KeepTwice(p, q, init);
      KeepBucketsSnoc(p, KeepBuckets(q, init), b);
      KeepBucketsSnoc(q, KeepBuckets(p, init), b);
    }
  }

  lemma EraseSeen(rank: nat, bs: seq<seq<Item>>)
    ensures RelabelAll(Erased(), RelabelAll(Seen(rank), bs)) == RelabelAll(Erased(), bs)
  {
    var a, b := RelabelAll(Erased(), RelabelAll(Seen(rank), bs)), RelabelAll(Erased(), bs);
    forall i | 0 <= i < |bs| ensures a[i] == b[i] {
      assert a[i] == Relabel(Erased(), Relabel(Seen(rank), bs[i]));
    }
  }

  /** The buckets of a rank's list in which another takes part, as both can tell. */
  ghost function SharedWith(xs: seq<Tensor>, rank: nat, other: nat, size: int): seq<seq<Item>>
    requires AllFit(xs)
  {
    RelabelAll(Erased(), KeepBuckets(TakesPart(other), RankBuckets(xs, rank, size)))
  }

  lemma SharedIs(xs: seq<Tensor>, rank: nat, other: nat, size: int)
    requires AllFit(xs) && OneSignature(xs, rank)
    ensures SharedWith(xs, rank, other, size) ==
            RelabelAll(Erased(),
                       KeepBuckets(TakesPart(other), KeepBuckets(TakesPart(rank), Bucketize(AllItems(xs), size))))
  {
    BucketListsProjectIff(xs, rank);
    assert SharesBuckets(xs, rank, size);
    var mine := KeepBuckets(TakesPart(rank), Bucketize(AllItems(xs), size));
    KeepRelabelled(Seen(rank), TakesPart(other), mine);
    EraseSeen(rank, KeepBuckets(TakesPart(other), mine));
  }

  /** Two ranks list the buckets they share in one order, with the same chunks, whatever is reduced before. */
  lemma SharedBucketsAgree(xs: seq<Tensor>, a: nat, b: nat, size: int)
    requires AllFit(xs) && OneSignature(xs, a) && OneSignature(xs, b)
    ensures SharedWith(xs, a, b, size) == SharedWith(xs, b, a, size)
  {
    SharedIs(xs, a, b, size);
    SharedIs(xs, b, a, size);
    KeepTwice(TakesPart(a), TakesPart(b), Bucketize(AllItems(xs), size));
  }

  // ------------------------------------------------------------------------------------------
  // Without reductions

  lemma GoodIsFit(xs: seq<Tensor>)
    requires AllGood(xs)
    ensures AllFit(xs) && forall rank :: OneSignature(xs, rank)
  {
  }

  lemma {:induction false} UnsignedStay(rank: nat, items: seq<Item>)
    requires forall x :: x in items ==> x.key.partialSig == []
    ensures Relabel(Seen(rank), items) == items
  {
    forall i | 0 <= i < |items| ensures Relabel(Seen(rank), items)[i] == items[i] {
      assert items[i] in items;
    }
  }

  lemma GoodItemsUnsigned(xs: seq<Tensor>, rank: nat)
    requires AllGood(xs)
    ensures Relabel(Seen(rank), MyItems(xs, rank)) == MyItems(xs, rank)
  {
    forall x | x in MyItems(xs, rank) ensures x.key.partialSig == [] {
      KeepItemsHas(TakesPart(rank), AllItems(xs), x);
      var k, op := ItemOrigin(xs, x);
      ItemsFrom(RouteOf(xs, k), TaskSig(xs, k), BytesOf(xs[k.tensor]), op, x);
    }
    UnsignedStay(rank, MyItems(xs, rank));
  }

  /** Every rank's bucket list is its projection of one global list: same buckets, boundaries and bytes. */
  lemma BucketListsProject(xs: seq<Tensor>, rank: nat, size: int)
    requires AllGood(xs)
    ensures AllFit(xs) && RankBuckets(xs, rank, size) == KeepBuckets(TakesPart(rank), Bucketize(AllItems(xs), size))
  {
    GoodIsFit(xs);
    GoodItemsUnsigned(xs, rank);
    RankItemsProject(xs, rank);
    BucketingCommutesWithFiltering(TakesPart(rank), AllItems(xs), size);
  }

  // ------------------------------------------------------------------------------------------
  // No deadlock

  function BucketParts(b: seq<Item>): set<nat> {
    if b == [] then {} else Participants(b[0].key)
  }

  lemma {:induction false} MineConcat<T>(parts: T -> set<nat>, r: nat, a: seq<T>, b: seq<T>)
    ensures Mine(parts, r, a + b) == Mine(parts, r, a) + Mine(parts, r, b)
  {
    if a == [] {
      assert a + b == b;
    } else {
      MineConcat(parts, r, a[1..], b);
      assert (a + b)[1..] == a[1..] + b;
    }
  }

  lemma {:induction false} KeptIsMine(rank: nat, bs: seq<seq<Item>>)
    ensures KeepBuckets(TakesPart(rank), bs) == Mine(BucketParts, rank, bs)
  {
    if bs != [] {
      var init, b := bs[..|bs| - 1], bs[|bs| - 1];
      KeptIsMine(rank, init);
      assert bs == init + [b];
      MineConcat(BucketParts, rank, init, [b]);
      assert Mine(BucketParts, rank, [b]) == if rank in BucketParts(b) then [b] else [];
    }
  }

  ghost predicate InWorld(xs: seq<Tensor>, world: set<nat>) {
    forall j, r :: 0 <= j < |xs| && (r in xs[j].problem.source.mesh.ranks || r in xs[j].problem.target.mesh.ranks) ==>
      r in world
  }

  ghost predicate ItemInWorld(it: Item, world: set<nat>) {
    Participants(it.key) <= world && Participants(it.key) != {}
  }

  ghost predicate AllInWorld(items: seq<Item>, world: set<nat>) {
    forall i :: 0 <= i < |items| ==> ItemInWorld(items[i], world)
  }

  lemma RouteItemsInWorld(r: Route, sig: seq<PartialGroup>, nb: nat, op: nat, world: set<nat>)
    requires r.src.rank in world && forall j :: 0 <= j < |r.dsts| ==> r.dsts[j].rank in world
    ensures AllInWorld(RouteItems(r, sig, nb, op), world)
  {
    forall rank | rank in DstRanks(r) ensures rank in world {
      DstRanksHas(r, rank);
    }
    assert ItemInWorld(WireItem(r, sig, nb, op), world);
  }

  lemma TaskItemsInWorld(xs: seq<Tensor>, world: set<nat>, k: Task, op: nat)
    requires AllFit(xs) && IsTask(xs, k) && InWorld(xs, world)
    ensures AllInWorld(TaskItems(xs, k, op), world)
  {
    RouteOnMeshes(xs[k.tensor], k.route);
    RouteItemsInWorld(RouteOf(xs, k), TaskSig(xs, k), BytesOf(xs[k.tensor]), op, world);
  }

  /** Every rank's list, with what only the sources know left out. */
  ghost function StartLists(xs: seq<Tensor>, world: set<nat>, size: int): Lists<seq<Item>>
    requires AllFit(xs)
  {
    map r | r in world :: RelabelAll(Erased(), RankBuckets(xs, r, size))
  }

  ghost function CommonBuckets(xs: seq<Tensor>, size: int): seq<seq<Item>> {
    RelabelAll(Erased(), Bucketize(AllItems(xs), size))
  }

  ghost predicate OneSigned(xs: seq<Tensor>, world: set<nat>) {
    forall r :: r in world ==> OneSignature(xs, r)
  }

  lemma AllItemsInWorld(xs: seq<Tensor>, world: set<nat>)
    requires AllFit(xs) && InWorld(xs, world)
    ensures AllInWorld(AllItems(xs), world)
  {
    var items := AllItems(xs);
    forall i | 0 <= i < |items| ensures ItemInWorld(items[i], world) {
      var k, op := ItemOrigin(xs, items[i]);
      TaskItemsInWorld(xs, world, k, op);
      var block := TaskItems(xs, k, op);
      var j :| 0 <= j < |block| && block[j] == items[i];
    }
  }

  lemma BucketsInWorld(items: seq<Item>, world: set<nat>, size: int, i: nat)
    requires AllInWorld(items, world) && i < |Bucketize(items, size)|
    ensures BucketParts(Bucketize(items, size)[i]) <= world && BucketParts(Bucketize(items, size)[i]) != {}
  {
    var common := Bucketize(items, size);
    BucketsAreSound(items, size);
    BucketsPartition(items, size);
    assert common[i] in common;
    var first := common[i][0];
    InFlatten(common, common[i], first);
    assert first in multiset(Flatten(common));
    assert first in items;
  }

  lemma RankListIsMine(xs: seq<Tensor>, rank: nat, size: int)
    requires AllFit(xs) && OneSignature(xs, rank)
    ensures RelabelAll(Erased(), RankBuckets(xs, rank, size)) == Mine(BucketParts, rank, CommonBuckets(xs, size))
  {
    BucketListsProjectIff(xs, rank);
    assert SharesBuckets(xs, rank, size);
    var all := Bucketize(AllItems(xs), size);
    EraseSeen(rank, KeepBuckets(TakesPart(rank), all));
    KeepRelabelled(Erased(), TakesPart(rank), all);
    KeptIsMine(rank, CommonBuckets(xs, size));
  }

  lemma ErasedParts(b: seq<Item>)
    ensures BucketParts(Relabel(Erased(), b)) == BucketParts(b)
  {
  }

  lemma ErasedInWorld(items: seq<Item>, world: set<nat>, size: int, b: seq<Item>)
    requires AllInWorld(items, world) && b in RelabelAll(Erased(), Bucketize(items, size))
    ensures BucketParts(b) <= world && BucketParts(b) != {}
  {
    var bs := Bucketize(items, size);
    var i :| 0 <= i < |bs| && RelabelAll(Erased(), bs)[i] == b;
    BucketsInWorld(items, world, size, i);
    ErasedParts(bs[i]);
  }

  lemma StartIsProjected(xs: seq<Tensor>, world: set<nat>, size: int)
    requires AllFit(xs) && OneSigned(xs, world) && InWorld(xs, world)
    ensures Projected(BucketParts, StartLists(xs, world, size), CommonBuckets(xs, size))
  {
    var common := CommonBuckets(xs, size);
    forall r | r in world ensures StartLists(xs, world, size)[r] == Mine(BucketParts, r, common) {
      RankListIsMine(xs, r, size);
    }
    AllItemsInWorld(xs, world);
    forall b | b in common ensures BucketParts(b) <= world && BucketParts(b) != {} {
      ErasedInWorld(AllItems(xs), world, size, b);
    }
    AreProjected(StartLists(xs, world, size), world, common);
  }

  lemma AreProjected(lists: Lists<seq<Item>>, world: set<nat>, common: seq<seq<Item>>)
    requires lists.Keys == world && forall r :: r in world ==> lists[r] == Mine(BucketParts, r, common)
    requires forall b :: b in common ==> BucketParts(b) <= world && BucketParts(b) != {}
    ensures Projected(BucketParts, lists, common)
  {
    assert forall i :: 0 <= i < |common| ==> common[i] in common;
  }

  /**
   The wire transfers of any batch in sequential mode, reductions aside: in every reachable state some
   bucket has all its participants at the head of their lists, until every list is empty; a finished
   run executed every bucket exactly once.
  */
  lemma WireNeverDeadlocks(
    xs: seq<Tensor>, world: set<nat>, size: int, trace: seq<seq<Item>>, end: Lists<seq<Item>>)
    requires AllFit(xs) && OneSigned(xs, world) && InWorld(xs, world)
    requires Run(BucketParts, StartLists(xs, world, size), trace, end)
    ensures |trace| <= |CommonBuckets(xs, size)|
    ensures (exists b :: Enabled(BucketParts, end, b)) ||
            ((forall r :: r in end ==> end[r] == []) && multiset(trace) == multiset(CommonBuckets(xs, size)))
  {
    StartIsProjected(xs, world, size);
    NoDeadlock(BucketParts, StartLists(xs, world, size), CommonBuckets(xs, size), trace, end);
  }

  ghost predicate Unsigned(items: seq<Item>) {
    forall x :: x in items ==> x.key.partialSig == []
  }

  lemma UnsignedErased(items: seq<Item>)
    requires Unsigned(items)
    ensures Relabel(Erased(), items) == items
  {
    forall i | 0 <= i < |items| ensures Relabel(Erased(), items)[i] == items[i] {
      assert items[i] in items;
    }
  }

  lemma UnsignedBuckets(items: seq<Item>, size: int)
    requires Unsigned(items)
    ensures RelabelAll(Erased(), Bucketize(items, size)) == Bucketize(items, size)
  {
    var bs := Bucketize(items, size);
    BucketsPartition(items, size);
    forall i | 0 <= i < |bs| ensures Relabel(Erased(), bs[i]) == bs[i] {
      forall x: Item | x in bs[i] ensures x.key.partialSig == [] {
        InFlatten(bs, bs[i], x);
        assert x in multiset(Flatten(bs));
        assert x in items;
      }
      UnsignedErased(bs[i]);
    }
  }

  lemma GoodIsUnsigned(xs: seq<Tensor>)
    requires AllGood(xs)
    ensures Unsigned(AllItems(xs))
  {
    forall x | x in AllItems(xs) ensures x.key.partialSig == [] {
      var k, op := ItemOrigin(xs, x);
      ItemsFrom(RouteOf(xs, k), TaskSig(xs, k), BytesOf(xs[k.tensor]), op, x);
    }
  }

  lemma GoodRankIsUnsigned(xs: seq<Tensor>, rank: nat)
    requires AllGood(xs) && AllFit(xs)
    ensures Unsigned(RankItems(xs, rank))
  {
    GoodIsUnsigned(xs);
    GoodItemsUnsigned(xs, rank);
    RankItemsProject(xs, rank);
    forall x | x in RankItems(xs, rank) ensures x.key.partialSig == [] {
      KeepItemsHas(TakesPart(rank), AllItems(xs), x);
    }
  }

  ghost function OwnLists(xs: seq<Tensor>, world: set<nat>, size: int): Lists<seq<Item>>
    requires AllFit(xs)
  {
    map r | r in world :: RankBuckets(xs, r, size)
  }

  lemma OwnListsAreStart(xs: seq<Tensor>, world: set<nat>, size: int)
    requires AllGood(xs) && AllFit(xs)
    ensures OwnLists(xs, world, size) == StartLists(xs, world, size)
    ensures CommonBuckets(xs, size) == Bucketize(AllItems(xs), size)
  {
    GoodIsUnsigned(xs);
    UnsignedBuckets(AllItems(xs), size);
    forall r | r in world ensures RelabelAll(Erased(), RankBuckets(xs, r, size)) == RankBuckets(xs, r, size) {
      GoodRankIsUnsigned(xs, r);
      UnsignedBuckets(RankItems(xs, r), size);
    }
  }

  /**
   A batch without Partial sources never deadlocks in sequential mode, and a finished run executed every
   bucket once.
   */
  lemma SequentialNeverDeadlocks(
    xs: seq<Tensor>, world: set<nat>, size: int, trace: seq<seq<Item>>, end: Lists<seq<Item>>)
    requires AllGood(xs) && AllFit(xs) && InWorld(xs, world)
    requires Run(BucketParts, OwnLists(xs, world, size), trace, end)
    ensures |trace| <= |Bucketize(AllItems(xs), size)|
    ensures (exists b :: Enabled(BucketParts, end, b)) ||
            ((forall r :: r in end ==> end[r] == []) && multiset(trace) == multiset(Bucketize(AllItems(xs), size)))
  {
    GoodIsFit(xs);
    OwnListsAreStart(xs, world, size);
    WireNeverDeadlocks(xs, world, size, trace, end);
  }
}
