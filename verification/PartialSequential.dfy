/**
 Sequential mode with Partial sources (src/etha/comm/comm_methods.py, src/etha/comm/ir.py): a bucket first
 runs its chunk's all-reduces, then its transfer, and the next bucket waits for both. With one chunk per
 bucket and replicas whose ranks stand in one order, no run can deadlock.
*/
module PartialSequential {
  import opened Base
  import opened IR
  import opened Radix
  import opened Layouts
  import opened Sorting
  import opened Routing
  import opened RouteTables
  import opened Chunks
  import opened Buckets
  import opened Relabelling
  import opened ChunkLists
  import opened NoCoalescing
  import PartialGroups
  import opened Shadows
  import opened Lockstep
  import opened Sequential
  import opened PartialBatches
  import opened MeshPlaces
  import PartialReduce
  import Coalescing
  import Rendezvous
  import opened OrderedRendezvous

  /** One collective step: an all-reduce over a group, or a transfer from a rank to others. */
  datatype Op =
    | AllReduce(tensor: nat, place: nat, cell: seq<nat>, stage: nat, members: seq<nat>)
    | Ship(tensor: nat, place: nat, cell: seq<nat>, stage: nat, src: nat, ranks: set<nat>)

  function Needs(): Op -> set<nat> {
    (op: Op) =>
      match op
      case AllReduce(_, _, _, _, members) => (set r | r in members)
      case Ship(_, _, _, _, _, ranks) => ranks
  }

  /** Tensor, place of the source, cell, and the step within the chunk. */
  function KeyIn(): Op -> seq<nat> {
    (op: Op) => [op.tensor, op.place] + op.cell + [op.stage]
  }

  // ------------------------------------------------------------------------------------------
  // The steps of a list of buckets

  ghost function AllReduces(l: Layout, tensor: nat, src: Endpoint): (r: seq<Op>)
    requires ValidLayout(l) && src.rank in l.mesh.ranks
    ensures |r| == |PartialReduce.PartialDims(l.placements)|
    ensures forall k :: 0 <= k < |r| ==>
      var i := PartialReduce.PartialDims(l.placements)[k];
      i < |l.placements| && l.placements[i].Partial? &&
      r[k] == AllReduce(tensor, PlaceOf(l, src.rank), src.cell, i, OwnLine(l.mesh, i, src.rank))
  {
    var dims := PartialReduce.PartialDims(l.placements);
    assert forall k :: 0 <= k < |dims| ==> dims[k] in dims;
    seq(|dims|, k requires 0 <= k < |dims| =>
      AllReduce(tensor, PlaceOf(l, src.rank), src.cell, dims[k], OwnLine(l.mesh, dims[k], src.rank)))
  }

  ghost function ShipOf(l: Layout, tensor: nat, r: Route): Op
    requires ValidLayout(l) && r.src.rank in l.mesh.ranks
  {
    Ship(tensor, PlaceOf(l, r.src.rank), r.src.cell, |l.placements|, r.src.rank,
         {r.src.rank} + set d | d in DstRanks(r))
  }

  predicate OnWire(kind: Transport) {
    kind == P2P || kind == Broadcast
  }

  /** What one chunk does: its reductions if it has any, then its transfer if it has one. */
  ghost function RouteSteps(l: Layout, tensor: nat, r: Route, key: BucketKey): seq<Op>
    requires ValidLayout(l) && r.src.rank in l.mesh.ranks
  {
    (if key.partialSig != [] then AllReduces(l, tensor, r.src) else []) +
    (if OnWire(key.transport) then [ShipOf(l, tensor, r)] else [])
  }

  ghost predicate OnTask(xs: seq<Tensor>, x: Item) {
    x.op / 2 < |Tasks(xs)|
  }

  ghost function StepsOf(xs: seq<Tensor>, x: Item): seq<Op>
    requires AllFit(xs)
  {
    TasksAreTasks(xs);
    if !OnTask(xs, x) then []
    else
      var k := Tasks(xs)[x.op / 2];
      assert IsTask(xs, k) && StartsOn(xs[k.tensor].problem, RouteOf(xs, k));
      RouteSteps(xs[k.tensor].problem.source, k.tensor, RouteOf(xs, k), x.key)
  }

  ghost function StepFn(xs: seq<Tensor>): Item -> seq<Op>
    requires AllFit(xs)
  {
    (x: Item) => StepsOf(xs, x)
  }

  /** The results of `f` on a list, joined. */
  function FlatMap<T, U>(f: T -> seq<U>, s: seq<T>): seq<U> {
    if s == [] then [] else FlatMap(f, s[..|s| - 1]) + f(s[|s| - 1])
  }

  lemma {:induction false} FlatMapConcat<T, U>(f: T -> seq<U>, a: seq<T>, b: seq<T>)
    ensures FlatMap(f, a + b) == FlatMap(f, a) + FlatMap(f, b)
  {
    if b == [] {
      assert a + b == a;
    } else {
      FlatMapConcat(f, a, b[..|b| - 1]);
      assert (a + b)[..|a + b| - 1] == a + b[..|b| - 1];
    }
  }

  /** A list of lists, each with its result. */
  lemma {:induction false} FlatMapFlat<T, U>(f: T -> seq<U>, blocks: seq<seq<T>>, results: seq<seq<U>>)
    requires |results| == |blocks| && forall i :: 0 <= i < |blocks| ==> results[i] == FlatMap(f, blocks[i])
    ensures FlatMap(f, Flatten(blocks)) == Flatten(results)
  {
    if blocks != [] {
      var n := |blocks| - 1;
      FlatMapFlat(f, blocks[..n], results[..n]);
      FlatMapConcat(f, Flatten(blocks[..n]), blocks[n]);
    }
  }

  lemma FlatMapOne<T, U>(f: T -> seq<U>, x: T)
    ensures FlatMap(f, [x]) == f(x)
  {
    assert [x][..0] == [];
  }

  ghost function Steps(xs: seq<Tensor>, items: seq<Item>): seq<Op>
    requires AllFit(xs)
  {
    FlatMap(StepFn(xs), items)
  }

  /** What a rank does in sequential mode, bucket by bucket. */
  ghost function RankSteps(xs: seq<Tensor>, rank: nat, size: int): seq<Op>
    requires AllFit(xs)
  {
    Steps(xs, Flatten(RankBuckets(xs, rank, size)))
  }

  // ------------------------------------------------------------------------------------------
  // Route by route

  /** A transfer that leaves the rank. */
  ghost predicate Wired(r: Route) {
    r.dsts != [] && !SelfP2p(r, r.src.rank)
  }

  ghost predicate Involves(r: Route, rank: nat) {
    r.src.rank == rank || Feeds(r, rank)
  }

  ghost function TaskSteps(l: Layout, tensor: nat, r: Route, sig: seq<PartialGroup>, rank: nat): seq<Op>
    requires ValidLayout(l) && r.src.rank in l.mesh.ranks
  {
    (if r.src.rank == rank && sig != [] then AllReduces(l, tensor, r.src) else []) +
    (if Involves(r, rank) && Wired(r) then [ShipOf(l, tensor, r)] else [])
  }

  lemma KindOnWire(r: Route)
    requires Kinded(r)
    ensures OnWire(r.kind) <==> r.dsts != []
  {
  }

  /** The items of a route on a rank, as chunks and as steps. */
  lemma SourceSteps(l: Layout, tensor: nat, r: Route, sig: seq<PartialGroup>)
    requires ValidLayout(l) && r.src.rank in l.mesh.ranks && Kinded(r)
    ensures var wire, local := WireItem(r, sig, 0, 0).key, LocalItem(r, sig, 0, 0).key;
            TaskSteps(l, tensor, r, sig, r.src.rank) ==
            (if SelfP2p(r, r.src.rank) then [] else RouteSteps(l, tensor, r, wire)) +
            (if CopiesLocally(r, sig) then RouteSteps(l, tensor, r, local) else [])
  {
    KindOnWire(r);
    if SelfP2p(r, r.src.rank) {
      SelfP2pFeeds(r, r.src.rank);
    }
  }

  lemma StepsAtTask(xs: seq<Tensor>, i: nat, x: Item)
    requires AllFit(xs) && i < |Tasks(xs)| && IsTask(xs, Tasks(xs)[i]) && 2 * i <= x.op <= 2 * i + 1
    ensures var k := Tasks(xs)[i];
            && ValidLayout(xs[k.tensor].problem.source)
            && RouteOf(xs, k).src.rank in xs[k.tensor].problem.source.mesh.ranks
            && StepsOf(xs, x) == RouteSteps(xs[k.tensor].problem.source, k.tensor, RouteOf(xs, k), x.key)
  {
    assert x.op / 2 == i;
    var k := Tasks(xs)[i];
    assert FitTensor(xs[k.tensor]) && StartsOn(xs[k.tensor].problem, RouteOf(xs, k));
  }

  /** The steps of a route's own rank. */
  lemma OwnBlockSteps(xs: seq<Tensor>, i: nat, k: Task)
    requires AllFit(xs) && i < |Tasks(xs)| && Tasks(xs)[i] == k && IsTask(xs, k)
    ensures StartsOn(xs[k.tensor].problem, RouteOf(xs, k)) && ValidLayout(xs[k.tensor].problem.source)
    ensures Steps(xs, TaskItems(xs, k, 2 * i)) ==
            TaskSteps(xs[k.tensor].problem.source, k.tensor, RouteOf(xs, k), TaskSig(xs, k), RouteOf(xs, k).src.rank)
  {
    var x, r, sig := xs[k.tensor], RouteOf(xs, k), TaskSig(xs, k);
    assert FitTensor(x) && Kinded(r) && StartsOn(x.problem, r);
    var w, l := WireItem(r, sig, BytesOf(x), 2 * i), LocalItem(r, sig, BytesOf(x), 2 * i);
    StepsAtTask(xs, i, w);
    StepsAtTask(xs, i, l);
    var wire := if SelfP2p(r, r.src.rank) then [] else [w];
    var local := if CopiesLocally(r, sig) then [l] else [];
    assert TaskItems(xs, k, 2 * i) == wire + local;
    FlatMapConcat(StepFn(xs), wire, local);
    StepsMaybe(xs, w, !SelfP2p(r, r.src.rank));
    StepsMaybe(xs, l, CopiesLocally(r, sig));
    SourceSteps(x.problem.source, k.tensor, r, sig);
  }

  lemma StepsMaybe(xs: seq<Tensor>, x: Item, there: bool)
    requires AllFit(xs)
    ensures Steps(xs, if there then [x] else []) == if there then StepsOf(xs, x) else []
  {
    FlatMapOne(StepFn(xs), x);
  }

  lemma ReceiverSteps(l: Layout, tensor: nat, r: Route, sig: seq<PartialGroup>, rank: nat)
    requires ValidLayout(l) && r.src.rank in l.mesh.ranks && Kinded(r) && r.src.rank != rank && Feeds(r, rank)
    ensures RouteSteps(l, tensor, r, WireItem(r, [], 0, 0).key) == TaskSteps(l, tensor, r, sig, rank)
  {
    KindOnWire(r);
    if SelfP2p(r, r.src.rank) {
      SelfP2pFeeds(r, r.src.rank);
    }
  }

  lemma OtherBlockSteps(xs: seq<Tensor>, rank: nat, i: nat, k: Task)
    requires AllFit(xs) && i < |Tasks(xs)| && Tasks(xs)[i] == k && IsTask(xs, k)
    requires RouteOf(xs, k).src.rank != rank && Feeds(RouteOf(xs, k), rank)
    ensures StartsOn(xs[k.tensor].problem, RouteOf(xs, k)) && ValidLayout(xs[k.tensor].problem.source)
    ensures Steps(xs, [WireItem(RouteOf(xs, k), [], BytesOf(xs[k.tensor]), 2 * i)]) ==
            TaskSteps(xs[k.tensor].problem.source, k.tensor, RouteOf(xs, k), TaskSig(xs, k), rank)
  {
    var x, r := xs[k.tensor], RouteOf(xs, k);
    assert FitTensor(x) && Kinded(r) && StartsOn(x.problem, r);
    var w := WireItem(r, [], BytesOf(x), 2 * i);
    StepsAtTask(xs, i, w);
    FlatMapOne(StepFn(xs), w);
    ReceiverSteps(x.problem.source, k.tensor, r, TaskSig(xs, k), rank);
  }

  /** What a rank has of a route. */
  lemma BlockItems(xs: seq<Tensor>, rank: nat, i: nat, k: Task)
    requires AllFit(xs) && i < |Tasks(xs)| && Tasks(xs)[i] == k && IsTask(xs, k)
    ensures RankBlocks(xs, rank)[i] ==
            if RouteOf(xs, k).src.rank == rank then TaskItems(xs, k, 2 * i)
            else if Feeds(RouteOf(xs, k), rank) then [WireItem(RouteOf(xs, k), [], BytesOf(xs[k.tensor]), 2 * i)]
            else []
  {
    var x, r, sig := xs[k.tensor], RouteOf(xs, k), TaskSig(xs, k);
    assert FitTensor(x) && Kinded(r);
    TaskProjects(xs, rank, k, 2 * i);
    KeptOperations(r, sig, rank, BytesOf(x), 2 * i);
    if r.src.rank == rank {
      SeenHere(r, sig, BytesOf(x), 2 * i);
    } else if Feeds(r, rank) {
      SeenThere(r, sig, rank, BytesOf(x), 2 * i);
    } else {
      assert Relabel(Seen(rank), []) == [];
    }
  }

  /** And what it does with it. */
  lemma BlockSteps(xs: seq<Tensor>, rank: nat, i: nat, k: Task)
    requires AllFit(xs) && i < |Tasks(xs)| && Tasks(xs)[i] == k && IsTask(xs, k)
    ensures StartsOn(xs[k.tensor].problem, RouteOf(xs, k)) && ValidLayout(xs[k.tensor].problem.source)
    ensures Steps(xs, RankBlocks(xs, rank)[i]) ==
            TaskSteps(xs[k.tensor].problem.source, k.tensor, RouteOf(xs, k), TaskSig(xs, k), rank)
  {
    BlockItems(xs, rank, i, k);
    if RouteOf(xs, k).src.rank == rank {
      OwnBlockSteps(xs, i, k);
    } else if Feeds(RouteOf(xs, k), rank) {
      OtherBlockSteps(xs, rank, i, k);
    } else {
      assert FitTensor(xs[k.tensor]) && StartsOn(xs[k.tensor].problem, RouteOf(xs, k));
    }
  }

  ghost function TaskBlock(xs: seq<Tensor>, rank: nat, k: Task): seq<Op>
    requires AllFit(xs) && IsTask(xs, k)
  {
    assert FitTensor(xs[k.tensor]) && StartsOn(xs[k.tensor].problem, RouteOf(xs, k));
    TaskSteps(xs[k.tensor].problem.source, k.tensor, RouteOf(xs, k), TaskSig(xs, k), rank)
  }

  ghost function OpBlocks(xs: seq<Tensor>, rank: nat): (r: seq<seq<Op>>)
    requires AllFit(xs)
    ensures |r| == |Tasks(xs)| && forall i :: 0 <= i < |r| ==>
      IsTask(xs, Tasks(xs)[i]) && r[i] == TaskBlock(xs, rank, Tasks(xs)[i])
  {
    TasksAreTasks(xs);
    seq(|Tasks(xs)|, i requires 0 <= i < |Tasks(xs)| => TaskBlock(xs, rank, Tasks(xs)[i]))
  }

  /** With one chunk per bucket a rank's steps follow the tables. */
  lemma RankStepsAre(xs: seq<Tensor>, rank: nat, size: int)
    requires AllFit(xs) && AllLarge(xs, size)
    ensures RankSteps(xs, rank, size) == Flatten(OpBlocks(xs, rank))
  {
    OneChunkBuckets(xs, rank, size);
    var blocks, steps := RankBlocks(xs, rank), OpBlocks(xs, rank);
    forall i | 0 <= i < |blocks| ensures steps[i] == Steps(xs, blocks[i]) {
      BlockSteps(xs, rank, i, Tasks(xs)[i]);
    }
    FlatMapFlat(StepFn(xs), blocks, steps);
  }

  // ------------------------------------------------------------------------------------------
  // What the planner guarantees

  /** How a tensor was planned: the stamps, whose replica each target reads, the gather, and the expanded dictionary. */
  datatype Setting = Setting(stamp: Stamp, view: nat -> nat, gather: seq<nat>, expanded: FeedMap)

  /** A target that is also a source reads its own replica. */
  ghost predicate OwnView(p: Problem, view: nat -> nat) {
    forall t: nat :: t < |p.target.mesh.ranks| ==>
      view(t) < |p.source.mesh.ranks| &&
      (p.target.mesh.ranks[t] in p.source.mesh.ranks ==> p.source.mesh.ranks[view(t)] == p.target.mesh.ranks[t])
  }

  /**
   What the planner builds from these, with reductions on the source ranks exactly if there are Partial
   dimensions.
   */
  ghost predicate Settled(x: Tensor, s: Setting) {
    && Expanded(x.problem, s.stamp, s.gather, s.expanded, x.routes) && Coalescing.FullTensor(x.problem, s.stamp, s.view)
    && OwnView(x.problem, s.view) && SetUp(x.problem.source, x.partials)
  }

  /** And the ranks of a source replica stand in the same order whatever their Partial coordinates. */
  ghost predicate Steady(x: Tensor, s: Setting) {
    Settled(x, s) && OrderAgrees(x.problem.source)
  }

  lemma SettledIsPlanned(x: Tensor, s: Setting)
    requires Settled(x, s)
    ensures Coalescing.Planned(x.problem, s.stamp, s.view, s.gather, s.expanded, x.routes)
  {
    var entries := Arrivals(x.problem, s.stamp, s.gather);
    forall e ensures Lookup(s.expanded, e) == DstsOf(entries, e) {
      CollectLists(entries, e);
      ExpansionLists(GroupsOf(x.problem), Collect(entries), s.expanded, e);
    }
  }

  // ------------------------------------------------------------------------------------------
  // Sources a rank hears from are one replica

  lemma HolderInReplica(p: Problem, view: nat -> nat, t: nat, g: seq<nat>, i: nat)
    requires ValidProblem(p) && InRange(p.grid, g) && i < |p.source.placements| && !p.source.placements[i].Shard?
    ensures var h := HolderCoords(p.source.mesh.shape, Effective(p.source.placements),
                                  Digits(p.source.mesh.shape, view(t)),
                                  Quotients(g, p.sourceCuts));
            h[i] == Digits(p.source.mesh.shape, view(t))[i]
  {
    HolderKeepsReplica(p.source.mesh.shape, Effective(p.source.placements), Digits(p.source.mesh.shape, view(t)),
                       Quotients(g, p.sourceCuts), i);
  }

  /** The holder a viewer sees, by its coordinates. */
  lemma StampCoords(p: Problem, view: nat -> nat, t: nat, g: seq<nat>)
    requires ValidProblem(p) && InRange(p.grid, g)
    ensures var h := HolderCoords(p.source.mesh.shape, Effective(p.source.placements),
                                  Digits(p.source.mesh.shape, view(t)),
                                  Quotients(g, p.sourceCuts));
            && ReplicaStamp(p, view, t, g).rank in p.source.mesh.ranks
            && Coords(p.source.mesh, ReplicaStamp(p, view, t, g).rank) == h
  {
    var shape := p.source.mesh.shape;
    var viewer := Digits(shape, view(t));
    DigitsInRange(shape, view(t));
    GridCovered(shape, Effective(p.source.placements), viewer, p.sourceCuts, p.grid, g);
    var h := HolderCoords(shape, Effective(p.source.placements), viewer, Quotients(g, p.sourceCuts));
    ValueBelow(shape, h);
    CoordsAre(p.source.mesh, PartialGroups.RankAt(p.source.mesh, h), h);
  }

  ghost predicate InReplicaOf(l: Layout, rank: nat, c: seq<nat>)
    requires ValidLayout(l) && rank in l.mesh.ranks && |c| == |l.placements|
  {
    ReplicaOf(l.placements, Coords(l.mesh, rank)) == ReplicaOf(l.placements, c)
  }

  /** The grid cell of a cell of a source rank. */
  ghost function CellOf(p: Problem, a: nat, c: seq<nat>): seq<nat>
    requires ValidProblem(p) && a in p.source.mesh.ranks && |c| == |p.sourceCuts|
  {
    GlobalCell(p.source.mesh.shape, Effective(p.source.placements), Coords(p.source.mesh, a), p.sourceCuts, c)
  }

  lemma CellOfIs(p: Problem, a: nat, c: seq<nat>)
    requires ValidProblem(p) && a in p.source.mesh.ranks && InRange(p.sourceCuts, c)
    ensures var g := CellOf(p, a, c);
            && InRange(p.grid, g) && Remainders(g, p.sourceCuts) == c
            && var pl, coords := Effective(p.source.placements), Coords(p.source.mesh, a);
               forall d :: 0 <= d < |g| ==>
                 Quotients(g, p.sourceCuts)[d] == ShardIndex(p.source.mesh.shape, pl, coords, d)
  {
    var shape, pl, coords := p.source.mesh.shape, Effective(p.source.placements), Coords(p.source.mesh, a);
    GlobalCellInGrid(shape, pl, coords, p.sourceCuts, p.grid, c);
    var g := CellOf(p, a, c);
    forall d | 0 <= d < |g|
      ensures g[d] / p.sourceCuts[d] == ShardIndex(shape, pl, coords, d) && g[d] % p.sourceCuts[d] == c[d]
    {
      DivModOf(ShardIndex(shape, pl, coords, d), c[d], p.sourceCuts[d]);
    }
  }

  /** A viewer in the replica of a rank sees the rank's cells on the rank. */
  lemma SeenOnHolder(p: Problem, view: nat -> nat, t: nat, a: nat, c: seq<nat>)
    requires ValidProblem(p) && a in p.source.mesh.ranks && InRange(p.sourceCuts, c)
    requires InReplicaOf(p.source, a, Digits(p.source.mesh.shape, view(t)))
    ensures InRange(p.grid, CellOf(p, a, c)) && ReplicaStamp(p, view, t, CellOf(p, a, c)) == Endpoint(a, c)
  {
    var shape, pl, viewer := p.source.mesh.shape, p.source.placements, Digits(p.source.mesh.shape, view(t));
    var g, coords := CellOf(p, a, c), Coords(p.source.mesh, a);
    CellOfIs(p, a, c);
    forall i | 0 <= i < |pl|
      ensures if Effective(pl)[i].Shard? then Effective(pl)[i].dim < |g| else viewer[i] == coords[i]
    {
      assert ReplicaOf(pl, coords)[i] == ReplicaOf(pl, viewer)[i];
    }
    HolderIsUnique(shape, Effective(pl), viewer, Quotients(g, p.sourceCuts), coords);
    StampCoords(p, view, t, g);
  }

  lemma StampInReplica(p: Problem, view: nat -> nat, t: nat, g: seq<nat>)
    requires ValidProblem(p) && InRange(p.grid, g)
    ensures ReplicaStamp(p, view, t, g).rank in p.source.mesh.ranks
    ensures InReplicaOf(p.source, ReplicaStamp(p, view, t, g).rank, Digits(p.source.mesh.shape, view(t)))
  {
    StampCoords(p, view, t, g);
    var pl, viewer := p.source.placements, Digits(p.source.mesh.shape, view(t));
    var a, b := ReplicaOf(pl, Coords(p.source.mesh, ReplicaStamp(p, view, t, g).rank)), ReplicaOf(pl, viewer);
    forall i | 0 <= i < |pl| ensures a[i] == b[i] {
      if !pl[i].Shard? {
        HolderInReplica(p, view, t, g, i);
      }
    }
  }

  /** Who feeds a target is in the replica the target looks at. */
  lemma FeederInReplica(x: Tensor, s: Setting, i: nat, t: nat)
    requires Settled(x, s) && i < |x.routes| && t < |x.problem.target.mesh.ranks|
    requires Feeds(x.routes[i], x.problem.target.mesh.ranks[t])
    ensures x.routes[i].src.rank in x.problem.source.mesh.ranks
    ensures InReplicaOf(x.problem.source, x.routes[i].src.rank, Digits(x.problem.source.mesh.shape, s.view(t)))
  {
    var p, rank := x.problem, x.problem.target.mesh.ranks[t];
    SettledIsPlanned(x, s);
    Coalescing.PlannedIsRight(p, s.stamp, s.view, s.gather, s.expanded, x.routes);
    var g := Coalescing.GridCellOf(p, x.routes, i, rank);
    var t' := Coalescing.FedReads(p, s.stamp, s.view, s.gather, s.expanded, x.routes, i, rank, g);
    Coalescing.TargetPositionUnique(p, t, t');
    StampInReplica(p, s.view, t, g);
  }

  lemma FedIsTarget(x: Tensor, s: Setting, i: nat, rank: nat) returns (t: nat)
    requires Settled(x, s) && i < |x.routes| && Feeds(x.routes[i], rank)
    ensures t < |x.problem.target.mesh.ranks| && x.problem.target.mesh.ranks[t] == rank
  {
    SettledIsPlanned(x, s);
    Coalescing.PlannedIsRight(x.problem, s.stamp, s.view, s.gather, s.expanded, x.routes);
    var g := Coalescing.GridCellOf(x.problem, x.routes, i, rank);
    t := Coalescing.FedWants(x.problem, x.routes, i, rank, g);
  }

  lemma OwnViewCoords(p: Problem, view: nat -> nat, t: nat)
    requires ValidProblem(p) && OwnView(p, view) && t < |p.target.mesh.ranks|
    requires p.target.mesh.ranks[t] in p.source.mesh.ranks
    ensures Coords(p.source.mesh, p.target.mesh.ranks[t]) == Digits(p.source.mesh.shape, view(t))
  {
    DigitsInRange(p.source.mesh.shape, view(t));
    ValueOfDigits(p.source.mesh.shape, view(t));
    CoordsAre(p.source.mesh, p.target.mesh.ranks[t], Digits(p.source.mesh.shape, view(t)));
  }

  /** A rank that feeds or hears: its own replica or the one it looks at, which are the same. */
  lemma InvolvedReplica(x: Tensor, s: Setting, i: nat, t: nat)
    requires Settled(x, s) && i < |x.routes| && t < |x.problem.target.mesh.ranks|
    requires Involves(x.routes[i], x.problem.target.mesh.ranks[t])
    requires x.routes[i].src.rank in x.problem.source.mesh.ranks
    ensures InReplicaOf(x.problem.source, x.routes[i].src.rank, Digits(x.problem.source.mesh.shape, s.view(t)))
  {
    if Feeds(x.routes[i], x.problem.target.mesh.ranks[t]) {
      FeederInReplica(x, s, i, t);
    } else {
      OwnViewCoords(x.problem, s.view, t);
    }
  }

  /** All sources of the routes that involve a rank are in one replica. */
  lemma InvolvedAgree(x: Tensor, s: Setting, i: nat, j: nat, rank: nat)
    requires Settled(x, s) && FitTensor(x) && i < |x.routes| && j < |x.routes|
    requires Involves(x.routes[i], rank) && Involves(x.routes[j], rank)
    ensures x.routes[i].src.rank in x.problem.source.mesh.ranks && x.routes[j].src.rank in x.problem.source.mesh.ranks
    ensures SameReplica(x.problem.source, x.routes[i].src.rank, x.routes[j].src.rank)
  {
    assert StartsOn(x.problem, x.routes[i]) && StartsOn(x.problem, x.routes[j]);
    if x.routes[i].src.rank != x.routes[j].src.rank {
      var fed := if Feeds(x.routes[i], rank) then i else j;
      var t := FedIsTarget(x, s, fed, rank);
      InvolvedReplica(x, s, i, t);
      InvolvedReplica(x, s, j, t);
    }
  }

  // ------------------------------------------------------------------------------------------
  // Each list rises

  /** Every step of an earlier route comes before every step of a later one. */
  ghost predicate Before(tensor: nat, place: nat, cell: seq<nat>, tensor': nat, place': nat, cell': seq<nat>) {
    tensor < tensor' ||
    (tensor == tensor' && (place < place' || (place == place' && |cell| == |cell'| && LexLess(cell, cell'))))
  }

  lemma {:induction false} LexThen(a: seq<nat>, b: seq<nat>, m: nat, n: nat)
    requires |a| == |b| && (LexLess(a, b) || (a == b && m < n))
    ensures LexLess(a + [m], b + [n])
  {
    if a != [] {
      assert (a + [m])[1..] == a[1..] + [m] && (b + [n])[1..] == b[1..] + [n];
      if a[0] == b[0] {
        assert a == b ==> a[1..] == b[1..];
        LexThen(a[1..], b[1..], m, n);
      }
    }
  }

  lemma KeyBefore(op: Op, op': Op)
    requires Before(op.tensor, op.place, op.cell, op'.tensor, op'.place, op'.cell) ||
             (op.tensor == op'.tensor && op.place == op'.place && op.cell == op'.cell && op.stage < op'.stage)
    ensures LexLess(KeyIn()(op), KeyIn()(op'))
  {
    var k, k' := KeyIn()(op), KeyIn()(op');
    assert k[0] == op.tensor && k'[0] == op'.tensor && k[1..][0] == op.place && k'[1..][0] == op'.place;
    assert k[1..][1..] == op.cell + [op.stage] && k'[1..][1..] == op'.cell + [op'.stage];
    if op.tensor == op'.tensor && op.place == op'.place {
      LexThen(op.cell, op'.cell, op.stage, op'.stage);
    }
  }

  lemma RoutesRise(x: Tensor, s: Setting, i: nat, j: nat, rank: nat)
    requires Steady(x, s) && FitTensor(x) && i < j < |x.routes| && Involves(x.routes[i], rank)
    requires Involves(x.routes[j], rank)
    ensures x.routes[i].src.rank in x.problem.source.mesh.ranks && x.routes[j].src.rank in x.problem.source.mesh.ranks
    ensures Before(0, PlaceOf(x.problem.source, x.routes[i].src.rank), x.routes[i].src.cell,
                   0, PlaceOf(x.problem.source, x.routes[j].src.rank), x.routes[j].src.cell)
  {
    InvolvedAgree(x, s, i, j, rank);
    var a, b := x.routes[i].src, x.routes[j].src;
    assert LexLess(KeyOf(a), KeyOf(b));
    assert KeyOf(a)[1..] == a.cell && KeyOf(b)[1..] == b.cell;
    assert StartsOn(x.problem, x.routes[i]) && StartsOn(x.problem, x.routes[j]);
    if a.rank < b.rank {
      PlacesRise(x.problem.source, a.rank, b.rank);
    }
  }

  /** All steps of a route carry its tensor, place and cell, and the rank has a part in it. */
  lemma StepShape(l: Layout, tensor: nat, r: Route, sig: seq<PartialGroup>, rank: nat, op: Op)
    requires ValidLayout(l) && r.src.rank in l.mesh.ranks && op in TaskSteps(l, tensor, r, sig, rank)
    ensures Involves(r, rank) && op.tensor == tensor && op.place == PlaceOf(l, r.src.rank) && op.cell == r.src.cell
  {
    var reduces := AllReduces(l, tensor, r.src);
    if op in reduces {
      var k :| 0 <= k < |reduces| && reduces[k] == op;
    }
  }

  lemma {:induction false} DimsIncrease(pl: seq<Placement>)
    ensures Increasing(NatLess, PartialReduce.PartialDims(pl))
  {
    if pl != [] {
      var n := |pl| - 1;
      DimsIncrease(pl[..n]);
      var dims := PartialReduce.PartialDims(pl[..n]);
      assert forall k :: 0 <= k < |dims| ==> dims[k] in dims;
    }
  }

  lemma BlockRises(l: Layout, tensor: nat, r: Route, sig: seq<PartialGroup>, rank: nat)
    requires ValidLayout(l) && r.src.rank in l.mesh.ranks
    ensures Rising(KeyIn(), TaskSteps(l, tensor, r, sig, rank))
  {
    var ops, dims := TaskSteps(l, tensor, r, sig, rank), PartialReduce.PartialDims(l.placements);
    DimsIncrease(l.placements);
    forall i, j | 0 <= i < j < |ops| ensures LexLess(KeyIn()(ops[i]), KeyIn()(ops[j])) {
      assert ops[i] in ops && ops[j] in ops;
      StepShape(l, tensor, r, sig, rank, ops[i]);
      StepShape(l, tensor, r, sig, rank, ops[j]);
      assert ops[i].stage == dims[i] && dims[i] < |l.placements|;
      assert j < |dims| ==> ops[j].stage == dims[j] && NatLess(dims[i], dims[j]);
      KeyBefore(ops[i], ops[j]);
    }
  }

  lemma {:induction false} TaskOrder(xs: seq<Tensor>, i: nat, j: nat)
    requires i < j < |Tasks(xs)|
    ensures var a, b := Tasks(xs)[i], Tasks(xs)[j]; a.tensor < b.tensor || (a.tensor == b.tensor && a.route < b.route)
  {
    var n := |xs| - 1;
    var before := Tasks(xs[..n]);
    if j < |before| {
      TaskOrder(xs[..n], i, j);
    } else if i < |before| {
      TasksAreTasks(xs[..n]);
      assert before[i] in before;
    }
  }

  ghost predicate AllSteady(xs: seq<Tensor>, settings: seq<Setting>) {
    |settings| == |xs| && forall j :: 0 <= j < |xs| ==> Steady(xs[j], settings[j])
  }

  lemma StepPart(xs: seq<Tensor>, rank: nat, k: Task, op: Op)
    requires AllFit(xs) && IsTask(xs, k) && op in TaskBlock(xs, rank, k)
    ensures FitTensor(xs[k.tensor]) && Involves(RouteOf(xs, k), rank)
    ensures RouteOf(xs, k).src.rank in xs[k.tensor].problem.source.mesh.ranks
    ensures op.tensor == k.tensor && op.cell == RouteOf(xs, k).src.cell
    ensures op.place == PlaceOf(xs[k.tensor].problem.source, RouteOf(xs, k).src.rank)
  {
    var x := xs[k.tensor];
    assert FitTensor(x) && StartsOn(x.problem, RouteOf(xs, k));
    StepShape(x.problem.source, k.tensor, RouteOf(xs, k), TaskSig(xs, k), rank, op);
  }

  lemma StepsRise(xs: seq<Tensor>, settings: seq<Setting>, rank: nat, k: Task, k': Task, op: Op, op': Op)
    requires AllFit(xs) && AllSteady(xs, settings) && IsTask(xs, k) && IsTask(xs, k')
    requires k.tensor < k'.tensor || (k.tensor == k'.tensor && k.route < k'.route)
    requires op in TaskBlock(xs, rank, k) && op' in TaskBlock(xs, rank, k')
    ensures LexLess(KeyIn()(op), KeyIn()(op'))
  {
    StepPart(xs, rank, k, op);
    StepPart(xs, rank, k', op');
    if k.tensor == k'.tensor {
      RoutesRise(xs[k.tensor], settings[k.tensor], k.route, k'.route, rank);
    }
    KeyBefore(op, op');
  }

  lemma {:induction false} RisingFlat<T>(key: T -> seq<nat>, blocks: seq<seq<T>>)
    requires forall i :: 0 <= i < |blocks| ==> Rising(key, blocks[i])
    requires forall i, j, a, b :: 0 <= i < j < |blocks| && a in blocks[i] && b in blocks[j] ==> LexLess(key(a), key(b))
    ensures Rising(key, Flatten(blocks))
  {
    if blocks != [] {
      var n := |blocks| - 1;
      RisingFlat(key, blocks[..n]);
      var a, b := Flatten(blocks[..n]), blocks[n];
      forall i, j | 0 <= i < |a| && 0 <= j < |b| ensures LexLess(key(a[i]), key(b[j])) {
        var m := FlatOrigin(blocks[..n], a[i]);
        assert a[i] in blocks[m] && b[j] in blocks[n];
      }
    }
  }

  lemma RankRises(xs: seq<Tensor>, settings: seq<Setting>, rank: nat)
    requires AllFit(xs) && AllSteady(xs, settings)
    ensures Rising(KeyIn(), Flatten(OpBlocks(xs, rank)))
  {
    var blocks := OpBlocks(xs, rank);
    forall i | 0 <= i < |blocks| ensures Rising(KeyIn(), blocks[i]) {
      var k := Tasks(xs)[i];
      assert FitTensor(xs[k.tensor]) && StartsOn(xs[k.tensor].problem, RouteOf(xs, k));
      BlockRises(xs[k.tensor].problem.source, k.tensor, RouteOf(xs, k), TaskSig(xs, k), rank);
    }
    forall i, j, a, b | 0 <= i < j < |blocks| && a in blocks[i] && b in blocks[j]
      ensures LexLess(KeyIn()(a), KeyIn()(b))
    {
      TaskOrder(xs, i, j);
      StepsRise(xs, settings, rank, Tasks(xs)[i], Tasks(xs)[j], a, b);
    }
    RisingFlat(KeyIn(), blocks);
  }

  // ------------------------------------------------------------------------------------------
  // Everyone a step needs has it

  lemma InRank(xs: seq<Tensor>, rank: nat, k: Task, op: Op)
    requires AllFit(xs) && IsTask(xs, k) && op in TaskBlock(xs, rank, k)
    ensures op in Flatten(OpBlocks(xs, rank))
  {
    TasksAreTasks(xs);
    assert k in Tasks(xs);
    var i :| 0 <= i < |Tasks(xs)| && Tasks(xs)[i] == k;
    InFlatten(OpBlocks(xs, rank), OpBlocks(xs, rank)[i], op);
  }

  /** A peer along a Partial line has a route at the same cell. */
  lemma PeerRoute(x: Tensor, s: Setting, i: nat, d: nat, q: nat) returns (j: nat)
    requires Settled(x, s) && i < |x.routes| && x.routes[i].src.rank in x.problem.source.mesh.ranks
    requires d < |x.problem.source.placements| && x.problem.source.placements[d].Partial?
    requires q in OwnLine(x.problem.source.mesh, d, x.routes[i].src.rank)
    ensures j < |x.routes| && x.routes[j].src == Endpoint(q, x.routes[i].src.cell)
  {
    var src := x.routes[i].src;
    LineLinks(x.problem.source, d, src.rank, q);
    assert src in s.expanded && src == Endpoint(src.rank, src.cell);
    ExpansionEqualizes(GroupsOf(x.problem), Collect(Arrivals(x.problem, s.stamp, s.gather)), s.expanded, src.rank, q,
                       src.cell);
    j :| 0 <= j < |x.routes| && x.routes[j].src == Endpoint(q, src.cell);
  }

  lemma PeerReduces(l: Layout, tensor: nat, r: Route, r': Route, k: nat)
    requires ValidLayout(l) && r.src.rank in l.mesh.ranks && r'.src.cell == r.src.cell
    requires k < |AllReduces(l, tensor, r.src)|
    requires r'.src.rank in AllReduces(l, tensor, r.src)[k].members
    ensures r'.src.rank in l.mesh.ranks && AllReduces(l, tensor, r.src)[k] in AllReduces(l, tensor, r'.src)
  {
    var i := PartialReduce.PartialDims(l.placements)[k];
    LineIsShared(l, i, r.src.rank, r'.src.rank);
    assert AllReduces(l, tensor, r'.src)[k] == AllReduces(l, tensor, r.src)[k];
  }

  /** An all-reduce is in the list of its rank, and of everyone else in the group. */
  lemma ReduceIsExpected(xs: seq<Tensor>, settings: seq<Setting>, k: Task, n: nat, q: nat)
    requires AllFit(xs) && AllSteady(xs, settings) && IsTask(xs, k)
    requires RouteOf(xs, k).src.rank in xs[k.tensor].problem.source.mesh.ranks
    requires n < |AllReduces(xs[k.tensor].problem.source, k.tensor, RouteOf(xs, k).src)|
    requires q in AllReduces(xs[k.tensor].problem.source, k.tensor, RouteOf(xs, k).src)[n].members
    ensures q in xs[k.tensor].problem.source.mesh.ranks
    ensures AllReduces(xs[k.tensor].problem.source, k.tensor, RouteOf(xs, k).src)[n] in Flatten(OpBlocks(xs, q))
  {
    var x, r := xs[k.tensor], RouteOf(xs, k);
    var l := x.problem.source;
    var d := PartialReduce.PartialDims(l.placements)[n];
    var j := PeerRoute(x, settings[k.tensor], k.route, d, q);
    var k' := Task(k.tensor, j);
    PeerReduces(l, k.tensor, r, RouteOf(xs, k'), n);
    assert HasPartial(l.placements) && TaskSig(xs, k') != [];
    InRank(xs, q, k', AllReduces(l, k.tensor, r.src)[n]);
  }

  lemma ShipIsExpected(xs: seq<Tensor>, k: Task, q: nat)
    requires AllFit(xs) && IsTask(xs, k) && RouteOf(xs, k).src.rank in xs[k.tensor].problem.source.mesh.ranks
    requires Wired(RouteOf(xs, k))
    requires q == RouteOf(xs, k).src.rank || q in DstRanks(RouteOf(xs, k))
    ensures ShipOf(xs[k.tensor].problem.source, k.tensor, RouteOf(xs, k)) in Flatten(OpBlocks(xs, q))
  {
    DstRanksHas(RouteOf(xs, k), q);
    var op := ShipOf(xs[k.tensor].problem.source, k.tensor, RouteOf(xs, k));
    var block := TaskBlock(xs, q, k);
    assert block[|block| - 1] == op;
    InRank(xs, q, k, op);
  }

  ghost function StepsInWorld(xs: seq<Tensor>, world: set<nat>): Rendezvous.Lists<Op>
    requires AllFit(xs)
  {
    map r | r in world :: Flatten(OpBlocks(xs, r))
  }

  lemma StepOrigin(xs: seq<Tensor>, rank: nat, op: Op) returns (k: Task)
    requires AllFit(xs) && op in Flatten(OpBlocks(xs, rank))
    ensures IsTask(xs, k) && op in TaskBlock(xs, rank, k)
  {
    var i := FlatOrigin(OpBlocks(xs, rank), op);
    k := Tasks(xs)[i];
  }

  lemma StepsAt(xs: seq<Tensor>, world: set<nat>, r: nat)
    requires AllFit(xs)
    ensures r in StepsInWorld(xs, world) <==> r in world
    ensures r in world ==> StepsInWorld(xs, world)[r] == Flatten(OpBlocks(xs, r))
  {
  }

  /** A step is one of the rank's own reductions or the route's transfer. */
  lemma StepCases(l: Layout, tensor: nat, r: Route, sig: seq<PartialGroup>, rank: nat, op: Op) returns (n: nat)
    requires ValidLayout(l) && r.src.rank in l.mesh.ranks && op in TaskSteps(l, tensor, r, sig, rank)
    ensures (op == ShipOf(l, tensor, r) && Involves(r, rank) && Wired(r)) ||
            (r.src.rank == rank && n < |AllReduces(l, tensor, r.src)| && op == AllReduces(l, tensor, r.src)[n])
  {
    var reduces := AllReduces(l, tensor, r.src);
    n := 0;
    if r.src.rank == rank && op in reduces {
      n :| 0 <= n < |reduces| && reduces[n] == op;
    }
  }

  lemma ReduceExpected(xs: seq<Tensor>, settings: seq<Setting>, world: set<nat>, k: Task, n: nat)
    requires AllFit(xs) && AllSteady(xs, settings) && InWorld(xs, world) && IsTask(xs, k)
    requires RouteOf(xs, k).src.rank in xs[k.tensor].problem.source.mesh.ranks
    requires n < |AllReduces(xs[k.tensor].problem.source, k.tensor, RouteOf(xs, k).src)|
    ensures Expected(Needs(), StepsInWorld(xs, world), RouteOf(xs, k).src.rank,
                     AllReduces(xs[k.tensor].problem.source, k.tensor, RouteOf(xs, k).src)[n])
  {
    var op := AllReduces(xs[k.tensor].problem.source, k.tensor, RouteOf(xs, k).src)[n];
    OwnReduce(xs[k.tensor].problem.source, k.tensor, RouteOf(xs, k), n);
    forall q | q in op.members ensures q in world && op in StepsInWorld(xs, world)[q] {
      ReduceIsExpected(xs, settings, k, n, q);
    }
  }

  lemma ShipNeeds(l: Layout, tensor: nat, r: Route, q: nat)
    requires ValidLayout(l) && r.src.rank in l.mesh.ranks
    ensures q in Needs()(ShipOf(l, tensor, r)) <==> Involves(r, q)
    ensures q in Needs()(ShipOf(l, tensor, r)) <==> q == r.src.rank || q in DstRanks(r)
  {
    DstRanksHas(r, q);
  }

  lemma ShipInWorld(xs: seq<Tensor>, world: set<nat>, k: Task, q: nat)
    requires AllFit(xs) && InWorld(xs, world) && IsTask(xs, k) && Wired(RouteOf(xs, k))
    requires RouteOf(xs, k).src.rank in xs[k.tensor].problem.source.mesh.ranks
    requires q == RouteOf(xs, k).src.rank || q in DstRanks(RouteOf(xs, k))
    ensures q in world && ShipOf(xs[k.tensor].problem.source, k.tensor, RouteOf(xs, k)) in StepsInWorld(xs, world)[q]
  {
    ShipIsExpected(xs, k, q);
    RouteInWorld(xs, world, k, q);
  }

  lemma ShipExpected(xs: seq<Tensor>, world: set<nat>, k: Task, rank: nat)
    requires AllFit(xs) && InWorld(xs, world) && IsTask(xs, k) && Involves(RouteOf(xs, k), rank)
    requires Wired(RouteOf(xs, k))
    requires RouteOf(xs, k).src.rank in xs[k.tensor].problem.source.mesh.ranks
    ensures Expected(Needs(), StepsInWorld(xs, world), rank,
                     ShipOf(xs[k.tensor].problem.source, k.tensor, RouteOf(xs, k)))
  {
    var l, r := xs[k.tensor].problem.source, RouteOf(xs, k);
    ShipNeeds(l, k.tensor, r, rank);
    forall q | q in Needs()(ShipOf(l, k.tensor, r))
      ensures q in world && ShipOf(l, k.tensor, r) in StepsInWorld(xs, world)[q]
    {
      ShipNeeds(l, k.tensor, r, q);
      ShipInWorld(xs, world, k, q);
    }
  }

  /** Whoever has a step, everyone it needs has it. */
  lemma StepIsExpected(xs: seq<Tensor>, settings: seq<Setting>, world: set<nat>, rank: nat, op: Op)
    requires AllFit(xs) && AllSteady(xs, settings) && InWorld(xs, world) && rank in world
    requires op in Flatten(OpBlocks(xs, rank))
    ensures Expected(Needs(), StepsInWorld(xs, world), rank, op)
  {
    var k := StepOrigin(xs, rank, op);
    var l, r := xs[k.tensor].problem.source, RouteOf(xs, k);
    assert FitTensor(xs[k.tensor]) && StartsOn(xs[k.tensor].problem, r);
    var n := StepCases(l, k.tensor, r, TaskSig(xs, k), rank, op);
    if op == ShipOf(l, k.tensor, r) && Involves(r, rank) && Wired(r) {
      ShipExpected(xs, world, k, rank);
    } else {
      ReduceExpected(xs, settings, world, k, n);
    }
  }

  lemma OwnReduce(l: Layout, tensor: nat, r: Route, n: nat)
    requires ValidLayout(l) && r.src.rank in l.mesh.ranks && n < |AllReduces(l, tensor, r.src)|
    ensures r.src.rank in AllReduces(l, tensor, r.src)[n].members
  {
    SelfOnLine(l.mesh, PartialReduce.PartialDims(l.placements)[n], r.src.rank);
  }

  lemma RouteInWorld(xs: seq<Tensor>, world: set<nat>, k: Task, q: nat)
    requires AllFit(xs) && InWorld(xs, world) && IsTask(xs, k)
    requires (q == RouteOf(xs, k).src.rank || q in DstRanks(RouteOf(xs, k)))
    ensures q in world
  {
    RouteOnMeshes(xs[k.tensor], k.route);
    DstRanksHas(RouteOf(xs, k), q);
  }

  lemma StartInStep(xs: seq<Tensor>, settings: seq<Setting>, world: set<nat>)
    requires AllFit(xs) && AllSteady(xs, settings) && InWorld(xs, world)
    ensures InStep(Needs(), KeyIn(), StepsInWorld(xs, world))
  {
    var start := StepsInWorld(xs, world);
    forall r | r in start ensures Rising(KeyIn(), start[r]) {
      RankRises(xs, settings, r);
    }
    forall r, op | r in start && op in start[r] ensures Expected(Needs(), start, r, op) {
      StepIsExpected(xs, settings, world, r, op);
    }
  }

  ghost function StartSteps(xs: seq<Tensor>, world: set<nat>, size: int): Rendezvous.Lists<Op>
    requires AllFit(xs)
  {
    map r | r in world :: RankSteps(xs, r, size)
  }

  /** With one chunk per bucket the lists are those of the tables. */
  lemma StartIsTables(xs: seq<Tensor>, world: set<nat>, size: int)
    requires AllFit(xs) && AllLarge(xs, size)
    ensures StartSteps(xs, world, size) == StepsInWorld(xs, world)
  {
    forall r | r in world ensures RankSteps(xs, r, size) == Flatten(OpBlocks(xs, r)) {
      RankStepsAre(xs, r, size);
    }
  }

  lemma StartIsInStep(xs: seq<Tensor>, settings: seq<Setting>, world: set<nat>, size: int)
    requires AllFit(xs) && AllSteady(xs, settings) && InWorld(xs, world) && AllLarge(xs, size)
    ensures InStep(Needs(), KeyIn(), StartSteps(xs, world, size))
  {
    StartIsTables(xs, world, size);
    StartInStep(xs, settings, world);
  }

  /**
   Partial or not: with one chunk per bucket, replicas whose ranks stand in one order and targets that read
   their own replica, sequential mode never deadlocks, reductions included. In every reachable state some
   step has all it needs at the head of their lists, until every list is empty.
   */
  lemma PartialNeverDeadlocks(
    xs: seq<Tensor>, settings: seq<Setting>, world: set<nat>, size: int, trace: seq<Op>, end: Rendezvous.Lists<Op>)
    requires AllFit(xs) && AllSteady(xs, settings) && InWorld(xs, world) && AllLarge(xs, size)
    requires Rendezvous.Run(Needs(), StartSteps(xs, world, size), trace, end)
    ensures (forall r :: r in end ==> end[r] == []) || exists op :: Rendezvous.Enabled(Needs(), end, op)
  {
    StartIsInStep(xs, settings, world, size);
    StepNeverDeadlocks(Needs(), KeyIn(), StartSteps(xs, world, size), trace, end);
  }

  /** And when nothing is left, every rank has run its own list, in order. */
  lemma FinishedRanksRanAll(
    xs: seq<Tensor>, world: set<nat>, size: int, trace: seq<Op>, end: Rendezvous.Lists<Op>, rank: nat)
    requires AllFit(xs) && rank in world && Rendezvous.Run(Needs(), StartSteps(xs, world, size), trace, end)
    ensures rank in end && (end[rank] == [] ==> Rendezvous.Mine(Needs(), rank, trace) == RankSteps(xs, rank, size))
  {
    RunFollowsLists(Needs(), StartSteps(xs, world, size), trace, end, rank);
  }
}
