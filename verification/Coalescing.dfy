/**
 When chunks of one rank share a bucket key (src/etha/comm/ir.py): shipping chunks are told apart by
 their destination ranks, which works if and only if no tensor dimension is cut across itself by
 the two layouts.
*/
module Coalescing {
  import opened Base
  import opened IR
  import opened Radix
  import opened TagCodec
  import opened Layouts
  import opened Sorting
  import opened Routing
  import opened RouteTables
  import opened Chunks
  import opened ChunkLists

  // ------------------------------------------------------------------------------------------
  // Any right table

  /** Target position `t` has this grid cell among its own. */
  ghost predicate Wants(p: Problem, t: nat, g: seq<nat>)
    requires ValidProblem(p)
  {
    t < |p.target.mesh.ranks| && InRange(p.grid, g) &&
    exists cell :: InRange(p.targetCuts, cell) && TargetCell(p, t, cell) == g
  }

  /** The shards a target position holds, dimension by dimension. */
  function ShardOf(p: Problem, t: nat): (r: seq<nat>)
    requires Positive(p.target.mesh.shape) && |p.target.placements| == |p.target.mesh.shape|
    ensures |r| == |p.targetCuts|
  {
    seq(|p.targetCuts|, d requires 0 <= d < |p.targetCuts| =>
      ShardIndex(p.target.mesh.shape, p.target.placements, Digits(p.target.mesh.shape, t), d))
  }

  /** A position's cells all lie in its own shard. */
  lemma WantsShard(p: Problem, t: nat, g: seq<nat>)
    requires ValidProblem(p) && Wants(p, t, g)
    ensures |g| == |p.targetCuts| && Quotients(g, p.targetCuts) == ShardOf(p, t)
  {
    var cell :| InRange(p.targetCuts, cell) && TargetCell(p, t, cell) == g;
    forall d | 0 <= d < |g| ensures g[d] / p.targetCuts[d] == ShardOf(p, t)[d] {
      DivModOf(ShardOf(p, t)[d], cell[d], p.targetCuts[d]);
    }
  }

  /** And every cell of that shard is among them. */
  lemma ShardWants(p: Problem, t: nat, g: seq<nat>)
    requires ValidProblem(p) && t < |p.target.mesh.ranks| && InRange(p.grid, g)
    requires Quotients(g, p.targetCuts) == ShardOf(p, t)
    ensures Wants(p, t, g)
  {
    forall d | 0 <= d < |g|
      ensures ShardIndex(p.target.mesh.shape, p.target.placements, Digits(p.target.mesh.shape, t), d) ==
              g[d] / p.targetCuts[d]
    {
      assert Quotients(g, p.targetCuts)[d] == ShardOf(p, t)[d];
    }
    CellRebuilt(p.target.mesh.shape, p.target.placements, Digits(p.target.mesh.shape, t), p.targetCuts, g);
    assert TargetCell(p, t, Remainders(g, p.targetCuts)) == g;
  }

  /** Cells of one target shard are wanted by the same ranks. */
  lemma SameShardWants(p: Problem, t: nat, g: seq<nat>, g': seq<nat>)
    requires ValidProblem(p) && Wants(p, t, g) && InRange(p.grid, g')
    requires Quotients(g, p.targetCuts) == Quotients(g', p.targetCuts)
    ensures Wants(p, t, g')
  {
    WantsShard(p, t, g);
    ShardWants(p, t, g');
  }

  /** Who feeds a rank holds one of the rank's cells. */
  lemma FedWants(p: Problem, routes: seq<Route>, i: nat, rank: nat, g: seq<nat>) returns (t: nat)
    requires ValidProblem(p) && RightRoutes(p, routes) && i < |routes| && Feeds(routes[i], rank)
    requires Holds(p, routes[i].src, g)
    ensures Wants(p, t, g) && p.target.mesh.ranks[t] == rank
  {
    var a :| 0 <= a < |routes[i].dsts| && routes[i].dsts[a].rank == rank;
    var dst := routes[i].dsts[a];
    assert RightDelivery(p, routes[i].src, dst);
    t :| Serves(p, routes[i].src, dst, t);
    HeldCellUnique(p, routes[i].src, TargetCell(p, t, dst.cell), g);
    TargetCellInGrid(p, t, dst.cell);
  }

  lemma TargetPositionUnique(p: Problem, t: nat, t': nat)
    requires ValidProblem(p) && t < |p.target.mesh.ranks| && t' < |p.target.mesh.ranks|
    requires p.target.mesh.ranks[t] == p.target.mesh.ranks[t']
    ensures t == t'
  {
  }

  /** Routes that feed a common rank hold cells of one target shard. */
  lemma CommonRankSameShard(p: Problem, routes: seq<Route>, i: nat, j: nat, rank: nat, g: seq<nat>, g': seq<nat>)
    requires ValidProblem(p) && RightRoutes(p, routes) && i < |routes| && j < |routes|
    requires Feeds(routes[i], rank) && Feeds(routes[j], rank) && Holds(p, routes[i].src, g)
    requires Holds(p, routes[j].src, g')
    ensures |g| == |g'| == |p.targetCuts| && Quotients(g, p.targetCuts) == Quotients(g', p.targetCuts)
  {
    var t := FedWants(p, routes, i, rank, g);
    var t' := FedWants(p, routes, j, rank, g');
    TargetPositionUnique(p, t, t');
    WantsShard(p, t, g);
    WantsShard(p, t, g');
  }

  function SourceShardOf(p: Problem, s: nat): (r: seq<nat>)
    requires Positive(p.source.mesh.shape) && |p.source.placements| == |p.source.mesh.shape|
    ensures |r| == |p.sourceCuts|
  {
    seq(|p.sourceCuts|, d requires 0 <= d < |p.sourceCuts| =>
      ShardIndex(p.source.mesh.shape, Effective(p.source.placements), Digits(p.source.mesh.shape, s), d))
  }

  /** A held cell, split into the shard of the rank that holds it and the place inside. */
  lemma HeldAt(p: Problem, e: Endpoint, g: seq<nat>) returns (s: nat)
    requires ValidProblem(p) && Holds(p, e, g)
    ensures s < |p.source.mesh.ranks| && p.source.mesh.ranks[s] == e.rank && |g| == |p.sourceCuts|
    ensures Quotients(g, p.sourceCuts) == SourceShardOf(p, s) && Remainders(g, p.sourceCuts) == e.cell
  {
    s :| 0 <= s < |p.source.mesh.ranks| && p.source.mesh.ranks[s] == e.rank && SourceCell(p, s, e.cell) == g;
    forall d | 0 <= d < |g|
      ensures g[d] / p.sourceCuts[d] == SourceShardOf(p, s)[d] && g[d] % p.sourceCuts[d] == e.cell[d]
    {
      HeldDigit(p, s, e.cell, d);
    }
  }

  lemma HeldDigit(p: Problem, s: nat, cell: seq<nat>, d: nat)
    requires ValidProblem(p) && InRange(p.sourceCuts, cell) && d < |cell|
    ensures var g := SourceCell(p, s, cell);
            g[d] / p.sourceCuts[d] == SourceShardOf(p, s)[d] && g[d] % p.sourceCuts[d] == cell[d]
  {
    DivModOf(SourceShardOf(p, s)[d], cell[d], p.sourceCuts[d]);
  }

  lemma HeldTogether(p: Problem, e: Endpoint, g: seq<nat>, e': Endpoint, g': seq<nat>)
    requires ValidProblem(p) && Holds(p, e, g) && Holds(p, e', g') && e.rank == e'.rank
    ensures |g| == |g'| == |p.sourceCuts| && Quotients(g, p.sourceCuts) == Quotients(g', p.sourceCuts)
    ensures Remainders(g, p.sourceCuts) == e.cell && Remainders(g', p.sourceCuts) == e'.cell
  {
    var s := HeldAt(p, e, g);
    var s' := HeldAt(p, e', g');
    SourcePositionUnique(p, s, s');
  }

  /** Different remainders in one coordinate, the same quotient in the other. */
  lemma BothCut(x: nat, y: nat, a: nat, b: nat)
    requires a > 0 && b > 0 && x % a != y % a && x / b == y / b
    ensures a >= 2 && b >= 2
  {
  }

  /** Different cells of one source rank in one target shard: some dimension is cut on both sides. */
  lemma SameShardBothCut(p: Problem, e: Endpoint, e': Endpoint, g: seq<nat>, g': seq<nat>) returns (d: nat)
    requires ValidProblem(p) && Holds(p, e, g) && Holds(p, e', g') && e.rank == e'.rank && e != e'
    requires |g| == |g'| == |p.targetCuts| && Quotients(g, p.targetCuts) == Quotients(g', p.targetCuts)
    ensures d < |p.grid| && p.sourceCuts[d] >= 2 && p.targetCuts[d] >= 2
  {
    HeldTogether(p, e, g, e', g');
    d :| 0 <= d < |e.cell| && e.cell[d] != e'.cell[d];
    assert Quotients(g, p.targetCuts)[d] == Quotients(g', p.targetCuts)[d];
    assert Remainders(g, p.sourceCuts)[d] != Remainders(g', p.sourceCuts)[d];
    BothCut(g[d], g'[d], p.sourceCuts[d], p.targetCuts[d]);
  }

  /** Only one route brings a grid cell to a rank. */
  lemma SameDelivery(p: Problem, routes: seq<Route>, i: nat, k: nat, rank: nat, g: seq<nat>)
    requires ValidProblem(p) && RightRoutes(p, routes) && i < |routes| && k < |routes|
    requires Feeds(routes[i], rank) && Feeds(routes[k], rank) && Holds(p, routes[i].src, g)
    requires Holds(p, routes[k].src, g)
    ensures i == k
  {
    var a, u := DeliveredCell(p, routes, i, rank, g);
    var b, v := DeliveredCell(p, routes, k, rank, g);
    TargetPositionUnique(p, u, v);
    var coords := Digits(p.target.mesh.shape, u);
    GlobalCellInjective(p.target.mesh.shape, p.target.placements, coords, coords, p.targetCuts,
                        routes[i].dsts[a].cell, routes[k].dsts[b].cell);
    assert routes[i].dsts[a] == routes[k].dsts[b];
  }

  lemma DeliveredCell(p: Problem, routes: seq<Route>, i: nat, rank: nat, g: seq<nat>) returns (a: nat, t: nat)
    requires ValidProblem(p) && RightRoutes(p, routes) && i < |routes| && Feeds(routes[i], rank)
    requires Holds(p, routes[i].src, g)
    ensures a < |routes[i].dsts| && InTarget(p, t, routes[i].dsts[a].cell)
    ensures TargetCell(p, t, routes[i].dsts[a].cell) == g
    ensures routes[i].dsts[a].rank == p.target.mesh.ranks[t] == rank
  {
    a :| 0 <= a < |routes[i].dsts| && routes[i].dsts[a].rank == rank;
    assert RightDelivery(p, routes[i].src, routes[i].dsts[a]);
    t :| Serves(p, routes[i].src, routes[i].dsts[a], t);
    HeldCellUnique(p, routes[i].src, TargetCell(p, t, routes[i].dsts[a].cell), g);
  }

  /** Where no dimension is cut on both sides, two cells of one source rank never feed a common rank. */
  lemma OneSidedCellsDiffer(p: Problem, routes: seq<Route>, i: nat, j: nat, rank: nat)
    requires ValidProblem(p) && RightRoutes(p, routes) && i < |routes| && j < |routes|
    requires forall d :: 0 <= d < |p.grid| ==> p.sourceCuts[d] == 1 || p.targetCuts[d] == 1
    requires routes[i].src.rank == routes[j].src.rank && Feeds(routes[i], rank) && Feeds(routes[j], rank)
    ensures i == j
  {
    var g := GridCellOf(p, routes, i, rank);
    var g' := GridCellOf(p, routes, j, rank);
    CommonRankSameShard(p, routes, i, j, rank, g, g');
    if routes[i].src != routes[j].src {
      var d := SameShardBothCut(p, routes[i].src, routes[j].src, g, g');
      assert false;
    }
    HeldCellUnique(p, routes[i].src, g, g');
    SameDelivery(p, routes, i, j, rank, g);
  }

  lemma UncutQuotients(cuts: seq<nat>, g: seq<nat>, g': seq<nat>)
    requires |g| == |g'| == |cuts| && Positive(cuts) && Quotients(g, cuts) == Quotients(g', cuts)
    requires forall d :: 0 <= d < |cuts| ==> cuts[d] == 1
    ensures g == g'
  {
    forall d | 0 <= d < |g| ensures g[d] == g'[d] {
      assert Quotients(g, cuts)[d] == Quotients(g', cuts)[d];
    }
  }

  /** Where every target rank has one cell, no two routes at all feed the same rank. */
  lemma SingleCellTargetsDiffer(p: Problem, routes: seq<Route>, i: nat, j: nat, rank: nat)
    requires ValidProblem(p) && RightRoutes(p, routes) && i < |routes| && j < |routes|
    requires forall d :: 0 <= d < |p.targetCuts| ==> p.targetCuts[d] == 1
    requires Feeds(routes[i], rank) && Feeds(routes[j], rank)
    ensures i == j
  {
    var g := GridCellOf(p, routes, i, rank);
    var g' := GridCellOf(p, routes, j, rank);
    CommonRankSameShard(p, routes, i, j, rank, g, g');
    UncutQuotients(p.targetCuts, g, g');
    SameDelivery(p, routes, i, j, rank, g);
  }

  lemma GridCellOf(p: Problem, routes: seq<Route>, i: nat, rank: nat) returns (g: seq<nat>)
    requires ValidProblem(p) && RightRoutes(p, routes) && i < |routes| && Feeds(routes[i], rank)
    ensures Holds(p, routes[i].src, g)
  {
    var a :| 0 <= a < |routes[i].dsts| && routes[i].dsts[a].rank == rank;
    assert RightDelivery(p, routes[i].src, routes[i].dsts[a]);
    var t :| Serves(p, routes[i].src, routes[i].dsts[a], t);
    g := TargetCell(p, t, routes[i].dsts[a].cell);
  }

  // ------------------------------------------------------------------------------------------
  // The tables the planner builds

  /** Every target reads the shards of one source position's replica, as full_tensor assembles them. */
  ghost predicate FullTensor(p: Problem, stamp: Stamp, view: nat -> nat)
    requires ValidProblem(p)
  {
    forall t: nat, g :: t < |p.target.mesh.ranks| && InRange(p.grid, g) ==> stamp(t, g) == ReplicaStamp(p, view, t, g)
  }

  ghost predicate Planned(
    p: Problem, stamp: Stamp, view: nat -> nat, gather: seq<nat>, m: FeedMap, routes: seq<Route>) {
    && ValidProblem(p) && FullTensor(p, stamp, view) && TagsExact(p, stamp) && FullGather(p, gather)
    && IsTable(m, routes) && ListsEntries(m, Arrivals(p, stamp, gather))
  }

  lemma PlannedIsRight(p: Problem, stamp: Stamp, view: nat -> nat, gather: seq<nat>, m: FeedMap, routes: seq<Route>)
    requires Planned(p, stamp, view, gather, m, routes)
    ensures ValidStamp(p, stamp) && RightRoutes(p, routes)
  {
    forall t: nat, g | t < |p.target.mesh.ranks| && InRange(p.grid, g) ensures Holds(p, stamp(t, g), g) {
      ReplicaStampIsValid(p, view, t, g);
    }
    TableIsRight(p, stamp, gather, m, routes);
  }

  /** What a target decodes is the stamp itself. */
  lemma SourceOfIs(p: Problem, stamp: Stamp, t: nat, cell: seq<nat>)
    requires ValidProblem(p) && ValidStamp(p, stamp) && TagsExact(p, stamp) && InTarget(p, t, cell)
    ensures SourceOf(p, stamp, t, cell) == stamp(t, TargetCell(p, t, cell))
  {
    var g := TargetCell(p, t, cell);
    TargetCellInGrid(p, t, cell);
    SourceCellBelowBase(p, stamp(t, g));
    TagSurvivesIff(stamp(t, g).rank, stamp(t, g).cell, TagBase(p));
  }

  /** A wanted cell has a route from its stamp to the rank that wants it. */
  lemma WantedIsFed(
    p: Problem, stamp: Stamp, view: nat -> nat, gather: seq<nat>, m: FeedMap, routes: seq<Route>, t: nat, g: seq<nat>)
    returns (k: nat)
    requires Planned(p, stamp, view, gather, m, routes) && Wants(p, t, g)
    ensures k < |routes| && routes[k].src == stamp(t, g) && Feeds(routes[k], p.target.mesh.ranks[t])
  {
    PlannedIsRight(p, stamp, view, gather, m, routes);
    var cell :| InRange(p.targetCuts, cell) && TargetCell(p, t, cell) == g;
    SourceOfIs(p, stamp, t, cell);
    ArrivalsHave(p, stamp, gather, t, cell);
    k := EntryHasRoute(m, Arrivals(p, stamp, gather), routes, Reading(p, stamp, t, cell));
  }

  lemma EntryHasRoute(m: FeedMap, entries: seq<Entry>, routes: seq<Route>, x: Entry) returns (i: nat)
    requires IsTable(m, routes) && ListsEntries(m, entries) && x in entries
    ensures i < |routes| && routes[i].src == x.src && Feeds(routes[i], x.dst.rank)
  {
    var a :| 0 <= a < |entries| && entries[a] == x;
    var k := DstsOfHas(entries, a);
    assert Lookup(m, x.src) == DstsOf(entries, x.src);
    i :| 0 <= i < |routes| && routes[i].src == x.src;
    assert routes[i].dsts[k] == x.dst;
  }

  lemma SourcesDistinct(routes: seq<Route>, i: nat, j: nat)
    requires KeysIncrease(routes) && i < |routes| && j < |routes| && routes[i].src == routes[j].src
    ensures i == j
  {
    LexIrreflexive(KeyOf(routes[i].src));
  }

  /** A rank a route feeds reads the route's source as its stamp. */
  lemma FedReads(
    p: Problem, stamp: Stamp, view: nat -> nat, gather: seq<nat>, m: FeedMap, routes: seq<Route>,
    i: nat, rank: nat, g: seq<nat>)
    returns (t: nat)
    requires Planned(p, stamp, view, gather, m, routes) && i < |routes| && Feeds(routes[i], rank)
    requires Holds(p, routes[i].src, g)
    ensures Wants(p, t, g) && p.target.mesh.ranks[t] == rank && stamp(t, g) == routes[i].src
  {
    PlannedIsRight(p, stamp, view, gather, m, routes);
    t := FedWants(p, routes, i, rank, g);
    var k := WantedIsFed(p, stamp, view, gather, m, routes, t, g);
    SameDelivery(p, routes, i, k, rank, g);
  }

  /** Two cells of one source rank, as one viewer sees them: the other cell's stamp is on the same rank. */
  lemma StampsTogether(
    p: Problem, stamp: Stamp, view: nat -> nat, e: Endpoint, e': Endpoint, g: seq<nat>, g': seq<nat>, t: nat)
    requires ValidProblem(p) && FullTensor(p, stamp, view) && t < |p.target.mesh.ranks| && InRange(p.grid, g)
    requires InRange(p.grid, g')
    requires Holds(p, e, g) && Holds(p, e', g') && e.rank == e'.rank && stamp(t, g) == e
    ensures stamp(t, g') == e'
  {
    HeldTogether(p, e, g, e', g');
    assert stamp(t, g) == ReplicaStamp(p, view, t, g) && stamp(t, g') == ReplicaStamp(p, view, t, g');
  }

  /** Whoever one of them feeds, the other feeds too, when both lie in one target shard. */
  lemma FedTogether(
    p: Problem, stamp: Stamp, view: nat -> nat, gather: seq<nat>, m: FeedMap, routes: seq<Route>,
    i: nat, j: nat, g: seq<nat>, g': seq<nat>, rank: nat)
    requires Planned(p, stamp, view, gather, m, routes) && i < |routes| && j < |routes|
    requires routes[i].src.rank == routes[j].src.rank && Holds(p, routes[i].src, g) && Holds(p, routes[j].src, g')
    requires InRange(p.grid, g') && |g| == |g'| && Quotients(g, p.targetCuts) == Quotients(g', p.targetCuts)
    requires Feeds(routes[i], rank)
    ensures Feeds(routes[j], rank)
  {
    var t := FedReads(p, stamp, view, gather, m, routes, i, rank, g);
    SameShardWants(p, t, g, g');
    StampsTogether(p, stamp, view, routes[i].src, routes[j].src, g, g', t);
    var k := WantedIsFed(p, stamp, view, gather, m, routes, t, g');
    SourcesDistinct(routes, k, j);
  }

  lemma SameRanks(r: Route, r': Route)
    requires forall rank :: Feeds(r, rank) <==> Feeds(r', rank)
    ensures DstRanks(r) == DstRanks(r')
  {
    var a, b := set d | d in r.dsts :: d.rank, set d | d in r'.dsts :: d.rank;
    forall rank ensures rank in a <==> rank in b {
      FeedsIs(r, rank);
      FeedsIs(r', rank);
    }
    assert a == b;
  }

  lemma FeedsIs(r: Route, rank: nat)
    ensures Feeds(r, rank) <==> rank in set d | d in r.dsts :: d.rank
  {
    if rank in set d | d in r.dsts :: d.rank {
      var d :| d in r.dsts && d.rank == rank;
      var j :| 0 <= j < |r.dsts| && r.dsts[j] == d;
    }
    if Feeds(r, rank) {
      var j :| 0 <= j < |r.dsts| && r.dsts[j].rank == rank;
      assert r.dsts[j] in r.dsts;
    }
  }

  lemma SameShardSameRanks(
    p: Problem, stamp: Stamp, view: nat -> nat, gather: seq<nat>, m: FeedMap, routes: seq<Route>,
    i: nat, j: nat, g: seq<nat>, g': seq<nat>)
    requires Planned(p, stamp, view, gather, m, routes) && i < |routes| && j < |routes| && InRange(p.grid, g)
    requires InRange(p.grid, g')
    requires routes[i].src.rank == routes[j].src.rank && Holds(p, routes[i].src, g) && Holds(p, routes[j].src, g')
    requires Quotients(g, p.targetCuts) == Quotients(g', p.targetCuts)
    ensures DstRanks(routes[i]) == DstRanks(routes[j])
  {
    forall rank ensures Feeds(routes[i], rank) <==> Feeds(routes[j], rank) {
      if Feeds(routes[i], rank) {
        FedTogether(p, stamp, view, gather, m, routes, i, j, g, g', rank);
      }
      if Feeds(routes[j], rank) {
        FedTogether(p, stamp, view, gather, m, routes, j, i, g', g, rank);
      }
    }
    SameRanks(routes[i], routes[j]);
  }

  ghost predicate NoCommonRank(r: Route, r': Route) {
    forall rank :: Feeds(r, rank) ==> !Feeds(r', rank)
  }

  lemma OtherShardNoCommonRank(p: Problem, routes: seq<Route>, i: nat, j: nat, g: seq<nat>, g': seq<nat>)
    requires ValidProblem(p) && RightRoutes(p, routes) && i < |routes| && j < |routes| && InRange(p.grid, g)
    requires InRange(p.grid, g')
    requires Holds(p, routes[i].src, g) && Holds(p, routes[j].src, g')
    requires Quotients(g, p.targetCuts) != Quotients(g', p.targetCuts)
    ensures NoCommonRank(routes[i], routes[j])
  {
    forall rank | Feeds(routes[i], rank) ensures !Feeds(routes[j], rank) {
      if Feeds(routes[j], rank) {
        CommonRankSameShard(p, routes, i, j, rank, g, g');
      }
    }
  }

  lemma NoCommonRankDiffer(r: Route, r': Route)
    requires NoCommonRank(r, r') && r.dsts != []
    ensures DstRanks(r) != DstRanks(r')
  {
    var rank := r.dsts[0].rank;
    assert Feeds(r, rank);
    DstRanksHas(r, rank);
    DstRanksHas(r', rank);
  }

  /** Of two shipping cells of one source rank: one target shard, the same destinations; else none in common. */
  lemma CellsShareTargetsIff(
    p: Problem, stamp: Stamp, view: nat -> nat, gather: seq<nat>, m: FeedMap, routes: seq<Route>,
    i: nat, j: nat, g: seq<nat>, g': seq<nat>)
    requires Planned(p, stamp, view, gather, m, routes) && i < |routes| && j < |routes| && InRange(p.grid, g)
    requires InRange(p.grid, g')
    requires routes[i].src.rank == routes[j].src.rank && routes[i].dsts != []
    requires Holds(p, routes[i].src, g) && Holds(p, routes[j].src, g')
    ensures Quotients(g, p.targetCuts) == Quotients(g', p.targetCuts) <==> DstRanks(routes[i]) == DstRanks(routes[j])
    ensures Quotients(g, p.targetCuts) != Quotients(g', p.targetCuts) <==> NoCommonRank(routes[i], routes[j])
  {
    if Quotients(g, p.targetCuts) == Quotients(g', p.targetCuts) {
      SameShardSameRanks(p, stamp, view, gather, m, routes, i, j, g, g');
      if NoCommonRank(routes[i], routes[j]) {
        NoCommonRankDiffer(routes[i], routes[j]);
      }
    } else {
      PlannedIsRight(p, stamp, view, gather, m, routes);
      OtherShardNoCommonRank(p, routes, i, j, g, g');
      NoCommonRankDiffer(routes[i], routes[j]);
    }
  }

  // ------------------------------------------------------------------------------------------
  // The condition, from the two shard counts

  function SourceShards(p: Problem, d: nat): nat
    requires |p.source.placements| == |p.source.mesh.shape|
  {
    ShardCount(p.source.mesh.shape, Effective(p.source.placements), d)
  }

  function TargetShards(p: Problem, d: nat): nat
    requires |p.target.placements| == |p.target.mesh.shape|
  {
    ShardCount(p.target.mesh.shape, p.target.placements, d)
  }

  lemma ShardsPositive(p: Problem, d: nat)
    requires ValidProblem(p)
    ensures SourceShards(p, d) > 0 && TargetShards(p, d) > 0
  {
    ShardCountPositive(p.source.mesh.shape, Effective(p.source.placements), d);
    ShardCountPositive(p.target.mesh.shape, p.target.placements, d);
  }

  /** The grid is the least common multiple of the shard counts. */
  ghost predicate LeastGrid(p: Problem)
    requires ValidProblem(p)
  {
    forall d :: 0 <= d < |p.grid| ==>
      SourceShards(p, d) > 0 && TargetShards(p, d) > 0 && p.grid[d] == Lcm(SourceShards(p, d), TargetShards(p, d))
  }

  predicate Divides(a: nat, b: nat)
    requires a > 0
  {
    b % a == 0
  }

  /** Neither shard count divides the other. */
  ghost predicate CrossCut(p: Problem, d: nat)
    requires ValidProblem(p)
  {
    ShardsPositive(p, d);
    !Divides(SourceShards(p, d), TargetShards(p, d)) && !Divides(TargetShards(p, d), SourceShards(p, d))
  }

  lemma UncutIff(a: nat, b: nat, cuts: nat)
    requires a > 0 && b > 0 && cuts > 0 && Lcm(a, b) == a * cuts
    ensures cuts == 1 <==> Divides(b, a)
  {
    if Divides(b, a) {
      DivModOf(1, 0, a);
      assert CommonMultiple(a, b, a);
      if cuts >= 2 {
        MulMonotone(2, cuts, a);
        assert false;
      }
    }
  }

  lemma CrossCutIff(p: Problem, d: nat)
    requires ValidProblem(p) && LeastGrid(p) && d < |p.grid|
    ensures CrossCut(p, d) <==> p.sourceCuts[d] >= 2 && p.targetCuts[d] >= 2
  {
    ShardsPositive(p, d);
    UncutIff(SourceShards(p, d), TargetShards(p, d), p.sourceCuts[d]);
    LcmSymmetric(SourceShards(p, d), TargetShards(p, d));
    UncutIff(TargetShards(p, d), SourceShards(p, d), p.targetCuts[d]);
  }

  lemma LcmSymmetric(a: nat, b: nat)
    requires a > 0 && b > 0
    ensures Lcm(a, b) == Lcm(b, a)
  {
    assert CommonMultiple(a, b, Lcm(b, a)) && CommonMultiple(b, a, Lcm(a, b));
  }

  /** Two shipping cells of one rank have the same destinations. */
  ghost predicate Clash(routes: seq<Route>, i: nat, j: nat)
    requires i < |routes| && j < |routes|
  {
    i != j && routes[i].src.rank == routes[j].src.rank && routes[i].dsts != [] &&
      DstRanks(routes[i]) == DstRanks(routes[j])
  }

  ghost predicate Clashes(routes: seq<Route>) {
    exists i: nat, j: nat :: i < |routes| && j < |routes| && Clash(routes, i, j)
  }

  lemma ClashIsCrossCut(
    p: Problem, stamp: Stamp, view: nat -> nat, gather: seq<nat>, m: FeedMap, routes: seq<Route>, i: nat, j: nat)
    returns (d: nat)
    requires Planned(p, stamp, view, gather, m, routes) && LeastGrid(p) && i < |routes| && j < |routes|
    requires Clash(routes, i, j)
    ensures d < |p.grid| && CrossCut(p, d)
  {
    PlannedIsRight(p, stamp, view, gather, m, routes);
    var rank := routes[i].dsts[0].rank;
    assert Feeds(routes[i], rank);
    DstRanksHas(routes[i], rank);
    DstRanksHas(routes[j], rank);
    var g := GridCellOf(p, routes, i, rank);
    var g' := GridCellOf(p, routes, j, rank);
    CommonRankSameShard(p, routes, i, j, rank, g, g');
    if routes[i].src == routes[j].src {
      SourcesDistinct(routes, i, j);
    }
    d := SameShardBothCut(p, routes[i].src, routes[j].src, g, g');
    CrossCutIff(p, d);
  }

  lemma KindFromRanks(p: Problem, routes: seq<Route>, i: nat)
    requires ValidProblem(p) && RightRoutes(p, routes) && i < |routes| && routes[i].dsts != []
    ensures KindFor(routes[i].dsts) == Broadcast <==>
            exists a, b :: a != b && Feeds(routes[i], a) && Feeds(routes[i], b)
  {
    var r := routes[i];
    if |r.dsts| > 1 {
      if r.dsts[0].rank == r.dsts[1].rank {
        RouteRanksDistinct(p, routes, i, 0, 1);
      }
      assert Feeds(r, r.dsts[0].rank) && Feeds(r, r.dsts[1].rank);
    }
  }

  /** Then the two chunks have the same bucket key. */
  lemma ClashSharesKey(
    p: Problem, stamp: Stamp, view: nat -> nat, gather: seq<nat>, m: FeedMap, routes: seq<Route>,
    i: nat, j: nat, sig: seq<PartialGroup>, nb: nat, op: nat)
    requires Planned(p, stamp, view, gather, m, routes) && i < |routes| && j < |routes| && Clash(routes, i, j)
    ensures WireItem(routes[i], sig, nb, op).key == WireItem(routes[j], sig, nb, op).key
  {
    PlannedIsRight(p, stamp, view, gather, m, routes);
    SameRanksFed(routes[i], routes[j]);
    KindFromRanks(p, routes, i);
    KindFromRanks(p, routes, j);
    assert routes[i].kind == KindFor(routes[i].dsts) && routes[j].kind == KindFor(routes[j].dsts);
    SameAddressKey(routes[i], routes[j], sig, nb, op);
  }

  lemma SameRanksFed(r: Route, r': Route)
    requires DstRanks(r) == DstRanks(r') && r.dsts != []
    ensures r'.dsts != [] && forall rank :: Feeds(r, rank) <==> Feeds(r', rank)
  {
    forall rank ensures Feeds(r, rank) <==> Feeds(r', rank) {
      DstRanksHas(r, rank);
      DstRanksHas(r', rank);
    }
    assert Feeds(r, r.dsts[0].rank);
  }

  lemma SameAddressKey(r: Route, r': Route, sig: seq<PartialGroup>, nb: nat, op: nat)
    requires r.src.rank == r'.src.rank && DstRanks(r) == DstRanks(r') && r.kind == r'.kind && r.dsts != []
    ensures WireItem(r, sig, nb, op).key == WireItem(r', sig, nb, op).key
  {
    assert Feeds(r, r.dsts[0].rank);
    DstRanksHas(r, r.dsts[0].rank);
  }

  function Zeros(n: nat): (r: seq<nat>)
    ensures |r| == n && forall k :: 0 <= k < n ==> r[k] == 0
  {
    seq(n, _ => 0)
  }

  /** The corner of the grid and its neighbour lie in one shard on either side that is cut there. */
  lemma Corner(cuts: seq<nat>, d: nat)
    requires Positive(cuts) && d < |cuts| && cuts[d] >= 2
    ensures var g := Zeros(|cuts|); Quotients(g, cuts) == Quotients(g[d := 1], cuts) && Quotients(g, cuts) == g
  {
    var g := Zeros(|cuts|);
    forall k | 0 <= k < |cuts| ensures g[k] / cuts[k] == g[d := 1][k] / cuts[k] == 0 {
      DivModOf(0, g[d := 1][k], cuts[k]);
    }
  }

  lemma CornerInGrid(p: Problem, d: nat)
    requires ValidProblem(p) && d < |p.grid| && p.sourceCuts[d] >= 2
    ensures InRange(p.grid, Zeros(|p.grid|)) && InRange(p.grid, Zeros(|p.grid|)[d := 1])
  {
    forall k | 0 <= k < |p.grid| ensures p.grid[k] >= p.sourceCuts[k] {
      ShardsPositive(p, k);
      MulMonotone(1, SourceShards(p, k), p.sourceCuts[k]);
    }
  }

  /** Some target position has the corner. */
  lemma CornerWanted(p: Problem) returns (t: nat)
    requires ValidProblem(p) && InRange(p.grid, Zeros(|p.grid|))
    ensures Wants(p, t, Zeros(|p.grid|))
  {
    var shape, g := p.target.mesh.shape, Zeros(|p.grid|);
    var viewer := Digits(shape, 0);
    DigitsInRange(shape, 0);
    GridCovered(shape, p.target.placements, viewer, p.targetCuts, p.grid, g);
    var h := HolderCoords(shape, p.target.placements, viewer, Quotients(g, p.targetCuts));
    t := Value(shape, h);
    ValueBelow(shape, h);
    DigitsOfValue(shape, h);
    assert TargetCell(p, t, Remainders(g, p.targetCuts)) == g;
  }

  lemma CrossCutClashes(
    p: Problem, stamp: Stamp, view: nat -> nat, gather: seq<nat>, m: FeedMap, routes: seq<Route>, d: nat)
    requires Planned(p, stamp, view, gather, m, routes) && d < |p.grid| && p.sourceCuts[d] >= 2 && p.targetCuts[d] >= 2
    ensures Clashes(routes)
  {
    PlannedIsRight(p, stamp, view, gather, m, routes);
    CornerInGrid(p, d);
    var g := Zeros(|p.grid|);
    var g' := g[d := 1];
    Corner(p.sourceCuts, d);
    Corner(p.targetCuts, d);
    var t := CornerWanted(p);
    SameShardWants(p, t, g, g');
    var i := WantedIsFed(p, stamp, view, gather, m, routes, t, g);
    var j := WantedIsFed(p, stamp, view, gather, m, routes, t, g');
    CornerStamps(p, stamp, view, t, g, g', d);
    CellsShareTargetsIff(p, stamp, view, gather, m, routes, i, j, g, g');
    assert Clash(routes, i, j);
  }

  lemma CornerStamps(p: Problem, stamp: Stamp, view: nat -> nat, t: nat, g: seq<nat>, g': seq<nat>, d: nat)
    requires ValidProblem(p) && FullTensor(p, stamp, view) && t < |p.target.mesh.ranks| && InRange(p.grid, g)
    requires InRange(p.grid, g')
    requires d < |g| && g[d] == 0 && g'[d] == 1 && p.sourceCuts[d] >= 2
    requires Quotients(g, p.sourceCuts) == Quotients(g', p.sourceCuts)
    ensures stamp(t, g).rank == stamp(t, g').rank && stamp(t, g) != stamp(t, g')
  {
    assert stamp(t, g) == ReplicaStamp(p, view, t, g) && stamp(t, g') == ReplicaStamp(p, view, t, g');
    DivModOf(0, 0, p.sourceCuts[d]);
    DivModOf(0, 1, p.sourceCuts[d]);
    assert stamp(t, g).cell[d] == 0 && stamp(t, g').cell[d] == 1;
  }

  /**
   Two shipping cells of one source rank have the same destination ranks if and only if some
   dimension's shard counts divide each other in neither direction.
   */
  lemma ClashesIff(p: Problem, stamp: Stamp, view: nat -> nat, gather: seq<nat>, m: FeedMap, routes: seq<Route>)
    requires Planned(p, stamp, view, gather, m, routes) && LeastGrid(p)
    ensures Clashes(routes) <==> exists d: nat :: d < |p.grid| && CrossCut(p, d)
  {
    if i: nat, j: nat :| i < |routes| && j < |routes| && Clash(routes, i, j) {
      var d := ClashIsCrossCut(p, stamp, view, gather, m, routes, i, j);
    }
    if d: nat :| d < |p.grid| && CrossCut(p, d) {
      CrossCutIff(p, d);
      CrossCutClashes(p, stamp, view, gather, m, routes, d);
    }
  }

  // ------------------------------------------------------------------------------------------
  // An instance

  /** Two ranks that hold halves, three that want thirds. */
  const HALVES_TO_THIRDS := Problem(
    Layout(Mesh([2], [0, 1]), [Shard(0)]), Layout(Mesh([3], [2, 3, 4]), [Shard(0)]), [6], [3], [2])

  lemma Cut(n: nat, pos: nat, cuts: nat, cell: nat)
    requires pos < n
    ensures Digits([n], pos) == [pos]
    ensures ShardIndex([n], [Shard(0)], [pos], 0) == pos
    ensures GlobalCell([n], [Shard(0)], [pos], [cuts], [cell]) == [pos * cuts + cell]
    ensures ShardCount([n], [Shard(0)], 0) == n && Prod([n]) == n
  {
    assert [n][..0] == [] && [pos][..0] == [] && [Shard(0)][..0] == [];
    assert Digits([], pos / n) == [];
    assert ShardIndex([], [], [], 0) == 0;
  }

  lemma LineIsValid(l: Layout, n: nat, cuts: nat)
    requires l.mesh.shape == [n] && n > 0 && |l.mesh.ranks| == n && Distinct(l.mesh.ranks) && l.placements == [Shard(0)]
    requires cuts > 0
    ensures ValidLayout(l) && Effective(l.placements) == [Shard(0)] && !HasPartial(l.placements)
    ensures Refines(l.mesh.shape, [Shard(0)], [cuts], [n * cuts])
  {
    Cut(n, 0, cuts, 0);
    assert Effective(l.placements) == [Shard(0)];
  }

  lemma HalvesToThirdsIsValid()
    ensures ValidProblem(HALVES_TO_THIRDS)
  {
    var p := HALVES_TO_THIRDS;
    assert Distinct([0, 1]) && Distinct([2, 3, 4]);
    LineIsValid(p.source, 2, 3);
    LineIsValid(p.target, 3, 2);
  }

  /** Two does not divide three: two cells of one source rank share their destinations in every planned table. */
  lemma CellsMayShareTargets(stamp: Stamp, view: nat -> nat, gather: seq<nat>, m: FeedMap, routes: seq<Route>)
    requires Planned(HALVES_TO_THIRDS, stamp, view, gather, m, routes)
    ensures Clashes(routes)
  {
    CrossCutClashes(HALVES_TO_THIRDS, stamp, view, gather, m, routes, 0);
  }
}
