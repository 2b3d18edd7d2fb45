/**
 Batches with Partial sources (src/etha/comm/get_chunks.py, src/etha/comm/get_buckets.py): the planner's
 expanded tables are fit for execution, and the ranks of a Partial component issue the reductions they
 share in one order, whatever else the batch holds.
*/
module PartialBatches {
  import opened Base
  import opened IR
  import opened Radix
  import opened Layouts
  import opened Sorting
  import opened Routing
  import opened RouteTables
  import opened Slices
  import opened Chunks
  import opened Buckets
  import opened Relabelling
  import opened ChunkLists
  import opened NoCoalescing
  import opened PartialGroups
  import opened Shadows
  import opened Lockstep
  import opened Sequential

  // ------------------------------------------------------------------------------------------
  // What the planner builds

  ghost function GroupsOf(p: Problem): seq<seq<nat>>
    requires ValidProblem(p)
  {
    PartialSubGroups(p.source)
  }

  lemma LinkedOnMesh(p: Problem, a: nat, b: nat)
    requires ValidProblem(p) && Linked(GroupsOf(p), a, b) && a != b
    ensures b in p.source.mesh.ranks
  {
    LinkedAreMembers(GroupsOf(p), a, b);
    var g :| g in GroupsOf(p) && b in g;
    var i := GroupsUpToOnly(p.source.mesh, p.source.placements, |p.source.placements|, g);
    MembersAreMeshRanks(p.source.mesh, i, g, b);
  }

  ghost predicate Expanded(p: Problem, stamp: Stamp, gather: seq<nat>, x: FeedMap, routes: seq<Route>) {
    && ValidProblem(p) && ValidStamp(p, stamp) && TagsExact(p, stamp) && FullGather(p, gather)
    && IsExpansion(GroupsOf(p), Collect(Arrivals(p, stamp, gather)), x) && IsTable(x, routes)
  }

  /** An entry that ships starts on the source mesh. */
  lemma ShipperStartsOn(p: Problem, stamp: Stamp, gather: seq<nat>, x: FeedMap, routes: seq<Route>, e: Endpoint)
    requires Expanded(p, stamp, gather, x, routes) && e in Collect(Arrivals(p, stamp, gather))
    ensures e.rank in p.source.mesh.ranks && InRange(p.sourceCuts, e.cell)
  {
    ExpandedRoutesAreRight(p, stamp, gather, GroupsOf(p), x, routes);
    CollectLists(Arrivals(p, stamp, gather), e);
    assert e in x && x[e] != [];
    var i :| 0 <= i < |routes| && routes[i].src == e;
    DeliveryStartsOn(p, routes, i);
  }

  lemma EntryStartsOn(p: Problem, stamp: Stamp, gather: seq<nat>, x: FeedMap, routes: seq<Route>, e: Endpoint)
    requires Expanded(p, stamp, gather, x, routes) && e in x
    ensures e.rank in p.source.mesh.ranks && InRange(p.sourceCuts, e.cell)
  {
    var m := Collect(Arrivals(p, stamp, gather));
    if e in m {
      ShipperStartsOn(p, stamp, gather, x, routes, e);
    } else {
      assert Shadowed(GroupsOf(p), m, e);
      var r :| Endpoint(r, e.cell) in m && r != e.rank && Linked(GroupsOf(p), r, e.rank);
      ShipperStartsOn(p, stamp, gather, x, routes, Endpoint(r, e.cell));
      LinkedOnMesh(p, r, e.rank);
    }
  }

  /** With the reduce-only entries added, a planned table is fit for execution. */
  lemma PlannedPartialIsFit(
    p: Problem, stamp: Stamp, gather: seq<nat>, x: FeedMap, routes: seq<Route>, block: seq<nat>, itemsize: nat,
    partials: map<nat, seq<PartialGroup>>)
    requires Expanded(p, stamp, gather, x, routes) && |block| >= |p.grid|
    ensures FitTensor(Tensor(p, routes, block, itemsize, partials))
  {
    ExpandedRoutesAreRight(p, stamp, gather, GroupsOf(p), x, routes);
    forall i | 0 <= i < |routes| ensures Kinded(routes[i]) && StartsOn(p, routes[i]) {
      EntryStartsOn(p, stamp, gather, x, routes, routes[i].src);
    }
  }

  // ------------------------------------------------------------------------------------------
  // The reductions of a list, in order

  datatype Reduction = Reduction(tensor: nat, cell: seq<nat>)

  ghost predicate Reduces(xs: seq<Tensor>, on: nat -> bool, x: Item) {
    TasksAreTasks(xs);
    x.op / 2 < |Tasks(xs)| && x.key.partialSig != [] && on(Tasks(xs)[x.op / 2].tensor)
  }

  ghost function ReductionOf(xs: seq<Tensor>, k: Task): Reduction
    requires IsTask(xs, k)
  {
    Reduction(k.tensor, RouteOf(xs, k).src.cell)
  }

  /** Of the tensors in `on`: which cells a list of operations reduces, in order. */
  ghost function Reductions(xs: seq<Tensor>, on: nat -> bool, items: seq<Item>): seq<Reduction> {
    TasksAreTasks(xs);
    if items == [] then []
    else
      var rest, x := Reductions(xs, on, items[..|items| - 1]), items[|items| - 1];
      if Reduces(xs, on, x) then rest + [ReductionOf(xs, Tasks(xs)[x.op / 2])] else rest
  }

  lemma {:induction false} ReductionsConcat(xs: seq<Tensor>, on: nat -> bool, a: seq<Item>, b: seq<Item>)
    ensures Reductions(xs, on, a + b) == Reductions(xs, on, a) + Reductions(xs, on, b)
  {
    if b == [] {
      assert a + b == a;
    } else {
      ReductionsConcat(xs, on, a, b[..|b| - 1]);
      assert (a + b)[..|a + b| - 1] == a + b[..|b| - 1];
    }
  }

  lemma {:induction false} NothingReduced(xs: seq<Tensor>, on: nat -> bool, items: seq<Item>)
    requires forall x :: x in items ==> !Reduces(xs, on, x)
    ensures Reductions(xs, on, items) == []
  {
    if items != [] {
      NothingReduced(xs, on, items[..|items| - 1]);
      assert items[|items| - 1] in items;
    }
  }

  /** A route is reduced by its source rank, once, if that rank has Partial groups; by nobody else. */
  ghost predicate ReducesTask(xs: seq<Tensor>, on: nat -> bool, rank: nat, k: Task) {
    IsTask(xs, k) && RouteOf(xs, k).src.rank == rank && TaskSig(xs, k) != [] && on(k.tensor)
  }

  lemma PartialTaskItem(xs: seq<Tensor>, rank: nat, k: Task, op: nat)
    requires AllFit(xs) && IsTask(xs, k) && RouteOf(xs, k).src.rank == rank && TaskSig(xs, k) != []
    ensures var items := ItemsOf(TaskChunks(xs, rank, k), op);
            |items| == 1 && items[0].key.partialSig != [] && op <= items[0].op <= op + 1
  {
    var x := xs[k.tensor];
    JobIsSized(x, rank, k.route);
    PartialRouteShape(JobFor(x, rank), rank, RouteOf(xs, k));
  }

  lemma OtherTaskItems(xs: seq<Tensor>, rank: nat, k: Task, op: nat, y: Item)
    requires AllFit(xs) && IsTask(xs, k) && !(RouteOf(xs, k).src.rank == rank && TaskSig(xs, k) != [])
    requires y in ItemsOf(TaskChunks(xs, rank, k), op)
    ensures y.key.partialSig == []
  {
    TaskProjects(xs, rank, k, op);
    var all := TaskItems(xs, k, op);
    var mine := KeepItems(TakesPart(rank), all);
    var i :| 0 <= i < |mine| && Relabel(Seen(rank), mine)[i] == y;
    KeepItemsHas(TakesPart(rank), all, mine[i]);
    ItemsFrom(RouteOf(xs, k), TaskSig(xs, k), BytesOf(xs[k.tensor]), op, mine[i]);
  }

  ghost predicate BlockIs(xs: seq<Tensor>, on: nat -> bool, rank: nat, items: seq<Item>, k: Task) {
    IsTask(xs, k) && Reductions(xs, on, items) == if ReducesTask(xs, on, rank, k) then [ReductionOf(xs, k)] else []
  }

  lemma BlockReduces(xs: seq<Tensor>, on: nat -> bool, rank: nat, i: nat)
    requires AllFit(xs) && i < |Tasks(xs)| && IsTask(xs, Tasks(xs)[i])
    ensures BlockIs(xs, on, rank, RankBlocks(xs, rank)[i], Tasks(xs)[i])
  {
    var k, items := Tasks(xs)[i], RankBlocks(xs, rank)[i];
    if RouteOf(xs, k).src.rank == rank && TaskSig(xs, k) != [] {
      PartialTaskItem(xs, rank, k, 2 * i);
      assert items == [items[0]] && items[..0] == [];
      assert items[0].op / 2 == i;
    } else {
      forall y | y in items ensures !Reduces(xs, on, y) {
        OtherTaskItems(xs, rank, k, 2 * i, y);
      }
      NothingReduced(xs, on, items);
    }
  }

  /** The routes a rank reduces, in the order of the tables. */
  ghost function TaskReductions(xs: seq<Tensor>, on: nat -> bool, rank: nat, tasks: seq<Task>): seq<Reduction> {
    if tasks == [] then []
    else
      var rest, k := TaskReductions(xs, on, rank, tasks[..|tasks| - 1]), tasks[|tasks| - 1];
      if ReducesTask(xs, on, rank, k) then rest + [ReductionOf(xs, k)] else rest
  }

  lemma {:induction false} BlocksReduce(
    xs: seq<Tensor>, on: nat -> bool, rank: nat, blocks: seq<seq<Item>>, tasks: seq<Task>)
    requires |blocks| == |tasks| && forall i :: 0 <= i < |tasks| ==> BlockIs(xs, on, rank, blocks[i], tasks[i])
    ensures Reductions(xs, on, Flatten(blocks)) == TaskReductions(xs, on, rank, tasks)
  {
    if tasks != [] {
      var n := |tasks| - 1;
      BlocksReduce(xs, on, rank, blocks[..n], tasks[..n]);
      ReductionsConcat(xs, on, Flatten(blocks[..n]), blocks[n]);
      assert BlockIs(xs, on, rank, blocks[n], tasks[n]);
    }
  }

  lemma RankReductions(xs: seq<Tensor>, on: nat -> bool, rank: nat)
    requires AllFit(xs)
    ensures Reductions(xs, on, RankItems(xs, rank)) == TaskReductions(xs, on, rank, Tasks(xs))
  {
    TasksAreTasks(xs);
    forall i | 0 <= i < |Tasks(xs)| ensures BlockIs(xs, on, rank, RankBlocks(xs, rank)[i], Tasks(xs)[i]) {
      BlockReduces(xs, on, rank, i);
    }
    BlocksReduce(xs, on, rank, RankBlocks(xs, rank), Tasks(xs));
  }

  // ------------------------------------------------------------------------------------------
  // Tensor by tensor

  function Tagged(tensor: nat, cells: seq<seq<nat>>): (r: seq<Reduction>)
    ensures |r| == |cells| && forall i :: 0 <= i < |r| ==> r[i] == Reduction(tensor, cells[i])
  {
    seq(|cells|, i requires 0 <= i < |cells| => Reduction(tensor, cells[i]))
  }

  function TasksOf(j: nat, n: nat): (r: seq<Task>)
    ensures |r| == n && forall i :: 0 <= i < n ==> r[i] == Task(j, i)
  {
    seq(n, i requires 0 <= i => Task(j, i))
  }

  lemma {:induction false} TaskReductionsConcat(xs: seq<Tensor>, on: nat -> bool, rank: nat, a: seq<Task>, b: seq<Task>)
    ensures TaskReductions(xs, on, rank, a + b) == TaskReductions(xs, on, rank, a) + TaskReductions(xs, on, rank, b)
  {
    if b == [] {
      assert a + b == a;
    } else {
      TaskReductionsConcat(xs, on, rank, a, b[..|b| - 1]);
      assert (a + b)[..|a + b| - 1] == a + b[..|b| - 1];
    }
  }

  /** One tensor's part: its cells on the rank, in table order. */
  lemma {:induction false} TensorReductions(xs: seq<Tensor>, on: nat -> bool, rank: nat, j: nat, n: nat)
    requires j < |xs| && n <= |xs[j].routes|
    ensures TaskReductions(xs, on, rank, TasksOf(j, n)) ==
            if on(j) && SigOf(xs[j], rank) != [] then Tagged(j, CellsFrom(xs[j].routes[..n], rank)) else []
  {
    if n > 0 {
      TensorReductions(xs, on, rank, j, n - 1);
      assert TasksOf(j, n)[..n - 1] == TasksOf(j, n - 1);
      assert xs[j].routes[..n][..n - 1] == xs[j].routes[..n - 1];
    }
  }

  lemma {:induction false} TaskReductionsPrefix(xs: seq<Tensor>, on: nat -> bool, rank: nat, n: nat, tasks: seq<Task>)
    requires n <= |xs| && forall k :: k in tasks ==> k.tensor < n
    ensures TaskReductions(xs, on, rank, tasks) == TaskReductions(xs[..n], on, rank, tasks)
  {
    if tasks != [] {
      assert tasks[|tasks| - 1] in tasks;
      TaskReductionsPrefix(xs, on, rank, n, tasks[..|tasks| - 1]);
    }
  }

  /** The reductions of the batch are those of its tensors, one after the other. */
  lemma BatchReductions(xs: seq<Tensor>, on: nat -> bool, rank: nat)
    requires xs != []
    ensures var n := |xs| - 1;
            TaskReductions(xs, on, rank, Tasks(xs)) ==
            TaskReductions(xs[..n], on, rank, Tasks(xs[..n])) +
            if on(n) && SigOf(xs[n], rank) != [] then Tagged(n, CellsFrom(xs[n].routes, rank)) else []
  {
    var n := |xs| - 1;
    var before, here := Tasks(xs[..n]), TasksOf(n, |xs[n].routes|);
    assert Tasks(xs) == before + here;
    TasksAreTasks(xs[..n]);
    TaskReductionsConcat(xs, on, rank, before, here);
    TaskReductionsPrefix(xs, on, rank, n, before);
    TensorReductions(xs, on, rank, n, |xs[n].routes|);
    assert xs[n].routes[..|xs[n].routes|] == xs[n].routes;
  }

  // ------------------------------------------------------------------------------------------
  // Lockstep

  /**
   The tensor was planned for these feeds, and its source ranks hold Partial groups exactly if it has Partial
   dimensions.
   */
  ghost predicate PlannedAs(x: Tensor, merged: FeedMap, expanded: FeedMap) {
    && ValidProblem(x.problem) && IsTable(expanded, x.routes) && IsExpansion(GroupsOf(x.problem), merged, expanded)
    && forall r :: r in x.problem.source.mesh.ranks ==> (SigOf(x, r) != [] <==> HasPartial(x.problem.source.placements))
  }

  datatype Feed = Feed(merged: FeedMap, expanded: FeedMap)

  ghost predicate AllPlanned(xs: seq<Tensor>, feeds: seq<Feed>) {
    |feeds| == |xs| && forall j :: 0 <= j < |xs| ==> PlannedAs(xs[j], feeds[j].merged, feeds[j].expanded)
  }

  /** The two ranks are joined by the tensor's Partial groups. */
  ghost predicate Peers(x: Tensor, a: nat, b: nat) {
    ValidProblem(x.problem) && Linked(GroupsOf(x.problem), a, b)
  }

  lemma PeersAreSigned(x: Tensor, merged: FeedMap, expanded: FeedMap, a: nat, b: nat)
    requires PlannedAs(x, merged, expanded) && Peers(x, a, b) && a != b
    ensures SigOf(x, a) != [] && SigOf(x, b) != []
  {
    LinkedSym(GroupsOf(x.problem), a, b);
    LinkedOnMesh(x.problem, a, b);
    LinkedOnMesh(x.problem, b, a);
    LinkedAreMembers(GroupsOf(x.problem), a, b);
    var g :| g in GroupsOf(x.problem) && b in g;
    var l := x.problem.source;
    var i := GroupsUpToOnly(l.mesh, l.placements, |l.placements|, g);
  }

  lemma PeersReduceAlike(x: Tensor, merged: FeedMap, expanded: FeedMap, a: nat, b: nat)
    requires PlannedAs(x, merged, expanded) && Peers(x, a, b)
    ensures CellsFrom(x.routes, a) == CellsFrom(x.routes, b) && Distinct(CellsFrom(x.routes, a))
  {
    OrdersAreTotal();
    CellsFromSorted(expanded, x.routes, a);
    CellsFromSorted(expanded, x.routes, b);
    SameCells(GroupsOf(x.problem), merged, expanded, a, b);
    SortedEnumerates(LexLess, CellsOf(expanded, a));
    IncreasingIsDistinct(LexLess, SortedTuples(CellsOf(expanded, a)));
  }

  /** `on` picks tensors in which the two are peers. */
  ghost predicate PicksPeers(xs: seq<Tensor>, on: nat -> bool, a: nat, b: nat) {
    forall j :: 0 <= j < |xs| && on(j) ==> Peers(xs[j], a, b)
  }

  lemma AppendTagged(r: seq<Reduction>, n: nat, cells: seq<seq<nat>>)
    requires Distinct(r) && Distinct(cells) && forall x :: x in r ==> x.tensor < n
    ensures Distinct(r + Tagged(n, cells)) && forall x :: x in r + Tagged(n, cells) ==> x.tensor < n + 1
  {
    var t := Tagged(n, cells);
    forall i, j | 0 <= i < |r| && 0 <= j < |t| ensures r[i] != t[j] {
      assert r[i] in r;
    }
  }

  ghost predicate UpTo(r: seq<Reduction>, n: nat) {
    Distinct(r) && forall x :: x in r ==> x.tensor < n
  }

  lemma {:induction false} TablesInLockstep(xs: seq<Tensor>, feeds: seq<Feed>, on: nat -> bool, a: nat, b: nat)
    requires AllPlanned(xs, feeds) && PicksPeers(xs, on, a, b) && a != b
    ensures TaskReductions(xs, on, a, Tasks(xs)) == TaskReductions(xs, on, b, Tasks(xs))
    ensures UpTo(TaskReductions(xs, on, a, Tasks(xs)), |xs|)
  {
    if xs != [] {
      var n := |xs| - 1;
      TablesInLockstep(xs[..n], feeds[..n], on, a, b);
      BatchReductions(xs, on, a);
      BatchReductions(xs, on, b);
      if on(n) {
        PeersAreSigned(xs[n], feeds[n].merged, feeds[n].expanded, a, b);
        PeersReduceAlike(xs[n], feeds[n].merged, feeds[n].expanded, a, b);
        AppendTagged(TaskReductions(xs[..n], on, a, Tasks(xs[..n])), n, CellsFrom(xs[n].routes, a));
      }
    }
  }

  /**
   Any two ranks issue the all-reduces they share - those of the tensors whose Partial groups join
   them - in one order, each (tensor, cell) once, whatever else the batch holds.
   */
  lemma PartialLockstep(xs: seq<Tensor>, feeds: seq<Feed>, on: nat -> bool, a: nat, b: nat)
    requires AllFit(xs) && AllPlanned(xs, feeds) && PicksPeers(xs, on, a, b) && a != b
    ensures Reductions(xs, on, RankItems(xs, a)) == Reductions(xs, on, RankItems(xs, b))
    ensures Distinct(Reductions(xs, on, RankItems(xs, a)))
  {
    RankReductions(xs, on, a);
    RankReductions(xs, on, b);
    TablesInLockstep(xs, feeds, on, a, b);
  }

  // ------------------------------------------------------------------------------------------
  // In the bucket lists

  lemma {:induction false} FlattenSingles(items: seq<Item>)
    ensures Flatten(Singles(items)) == items
  {
    if items != [] {
      var n := |items| - 1;
      FlattenSingles(items[..n]);
      assert Singles(items)[..n] == Singles(items[..n]);
    }
  }

  lemma RouteItemBytes(r: Route, sig: seq<PartialGroup>, nb: nat, op: nat, x: Item)
    requires x in RouteItems(r, sig, nb, op)
    ensures x.nbytes == nb
  {
  }

  ghost predicate AllLarge(xs: seq<Tensor>, size: int) {
    forall j :: 0 <= j < |xs| ==> BytesOf(xs[j]) >= size
  }

  lemma ItemIsLarge(xs: seq<Tensor>, rank: nat, size: int, x: Item)
    requires AllLarge(xs, size) && x in MyItems(xs, rank)
    ensures x.nbytes >= size
  {
    KeepItemsHas(TakesPart(rank), AllItems(xs), x);
    var k, op := ItemOrigin(xs, x);
    RouteItemBytes(RouteOf(xs, k), TaskSig(xs, k), BytesOf(xs[k.tensor]), op, x);
  }

  lemma RankItemBytes(xs: seq<Tensor>, rank: nat, size: int)
    requires AllFit(xs) && AllLarge(xs, size)
    ensures forall i :: 0 <= i < |RankItems(xs, rank)| ==> RankItems(xs, rank)[i].nbytes >= size
  {
    RankItemsProject(xs, rank);
    var mine := MyItems(xs, rank);
    assert RankItems(xs, rank) == Relabel(Seen(rank), mine);
    forall i | 0 <= i < |mine| ensures Relabel(Seen(rank), mine)[i].nbytes >= size {
      ItemIsLarge(xs, rank, size, mine[i]);
    }
  }

  /** Chunks that reach the bucket size are buckets of their own, in list order. */
  lemma OneChunkBuckets(xs: seq<Tensor>, rank: nat, size: int)
    requires AllFit(xs) && AllLarge(xs, size)
    ensures RankBuckets(xs, rank, size) == Singles(RankItems(xs, rank))
    ensures Flatten(RankBuckets(xs, rank, size)) == RankItems(xs, rank)
  {
    RankItemBytes(xs, rank, size);
    LargeStayAlone(RankItems(xs, rank), size);
    FlattenSingles(RankItems(xs, rank));
  }

  /** At such a bucket size the reductions are in lockstep in the order the bucket lists run. */
  lemma BucketedLockstep(xs: seq<Tensor>, feeds: seq<Feed>, on: nat -> bool, a: nat, b: nat, size: int)
    requires AllFit(xs) && AllPlanned(xs, feeds) && PicksPeers(xs, on, a, b) && a != b
    requires AllLarge(xs, size)
    ensures Reductions(xs, on, Flatten(RankBuckets(xs, a, size))) ==
            Reductions(xs, on, Flatten(RankBuckets(xs, b, size)))
    ensures Distinct(Reductions(xs, on, Flatten(RankBuckets(xs, a, size))))
  {
    OneChunkBuckets(xs, a, size);
    OneChunkBuckets(xs, b, size);
    PartialLockstep(xs, feeds, on, a, b);
  }
}
