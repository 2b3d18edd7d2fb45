/**
 When peers share bucket keys alike (src/etha/comm/get_m2m_map.py, src/etha/comm/ir.py): a source that ships puts
 the cells of one target shard under one key, a source that only reduces keeps every cell apart.
*/
module ShippingPeers {
  import opened Base
  import opened IR
  import opened Radix
  import opened Layouts
  import opened Sorting
  import opened Routing
  import opened RouteTables
  import opened Chunks
  import opened Buckets
  import opened ChunkLists
  import opened Lockstep
  import opened Sequential
  import opened PartialBatches
  import opened MeshPlaces
  import opened PartialSequential
  import opened CoalescedLockstep
  import opened OnePairLockstep
  import PartialGroups
  import Coalescing

  // ------------------------------------------------------------------------------------------
  // The grid cell of a cell

  lemma HoldsCell(p: Problem, a: nat, c: seq<nat>)
    requires ValidProblem(p) && a in p.source.mesh.ranks && InRange(p.sourceCuts, c)
    ensures InRange(p.grid, CellOf(p, a, c)) && Holds(p, Endpoint(a, c), CellOf(p, a, c))
  {
    var shape, coords := p.source.mesh.shape, Coords(p.source.mesh, a);
    CellOfIs(p, a, c);
    ValueBelow(shape, coords);
    DigitsOfValue(shape, coords);
    assert SourceCell(p, Value(shape, coords), c) == CellOf(p, a, c);
  }

  lemma {:induction false} ShardIndexAgrees(shape: seq<nat>, pl: seq<Placement>, c: seq<nat>, c': seq<nat>, d: nat)
    requires |c| == |c'| == |pl| == |shape| && forall i :: 0 <= i < |pl| && pl[i].Shard? ==> c[i] == c'[i]
    ensures ShardIndex(shape, pl, c, d) == ShardIndex(shape, pl, c', d)
  {
    if shape != [] {
      var n := |shape| - 1;
      ShardIndexAgrees(shape[..n], pl[..n], c[..n], c'[..n], d);
    }
  }

  /** Peers hold the same grid cells. */
  lemma PeersHoldAlike(p: Problem, a: nat, b: nat, c: seq<nat>)
    requires ValidProblem(p) && a in p.source.mesh.ranks && b in p.source.mesh.ranks && |c| == |p.sourceCuts|
    requires PartialGroups.Linked(GroupsOf(p), a, b)
    ensures CellOf(p, a, c) == CellOf(p, b, c)
  {
    var l := p.source;
    var u, v := Coords(l.mesh, a), Coords(l.mesh, b);
    PartialGroups.LinkedIffAgree(l, u, v);
    forall d | 0 <= d < |c| ensures CellOf(p, a, c)[d] == CellOf(p, b, c)[d] {
      ShardIndexAgrees(l.mesh.shape, Effective(l.placements), u, v, d);
    }
  }

  // ------------------------------------------------------------------------------------------
  // Which cells share a key

  ghost predicate OneShard(p: Problem, a: nat, c: seq<nat>, c': seq<nat>)
    requires ValidProblem(p) && a in p.source.mesh.ranks && |c| == |c'| == |p.sourceCuts|
  {
    Quotients(CellOf(p, a, c), p.targetCuts) == Quotients(CellOf(p, a, c'), p.targetCuts)
  }

  /** Somebody reads the cell from this rank. */
  ghost predicate Ships(x: Tensor, a: nat, c: seq<nat>) {
    exists i :: 0 <= i < |x.routes| && x.routes[i].src == Endpoint(a, c) && x.routes[i].dsts != []
  }

  lemma NoDstRanks(r: Route)
    ensures DstRanks(r) == [] <==> r.dsts == []
  {
    if r.dsts != [] {
      assert Feeds(r, r.dsts[0].rank);
      DstRanksHas(r, r.dsts[0].rank);
    } else if DstRanks(r) != [] {
      DstRanksHas(r, DstRanks(r)[0]);
    }
  }

  lemma KeyRanks(r: Route, r': Route, sig: seq<PartialGroup>)
    requires ReduceKey(r, sig) == ReduceKey(r', sig) && r.src.cell != r'.src.cell && sig != []
    ensures DstRanks(r) == DstRanks(r') && r.dsts != []
  {
    NoDstRanks(r);
    NoDstRanks(r');
  }

  lemma WireKeyGivesKey(r: Route, r': Route, sig: seq<PartialGroup>)
    requires WireItem(r, sig, 0, 0).key == WireItem(r', sig, 0, 0).key && r.src.rank == r'.src.rank
    ensures ReduceKey(r, sig) == ReduceKey(r', sig)
  {
  }

  /** Two cells of a rank: one key exactly if they ship to one target shard. */
  lemma RoutesShareKeyIff(x: Tensor, s: Setting, i: nat, j: nat, sig: seq<PartialGroup>)
    requires Settled(x, s) && i < |x.routes| && j < |x.routes| && x.routes[i].src.rank == x.routes[j].src.rank
    requires sig != []
    requires x.routes[i].src.cell != x.routes[j].src.cell && x.routes[i].src.rank in x.problem.source.mesh.ranks
    requires InRange(x.problem.sourceCuts, x.routes[i].src.cell) && InRange(x.problem.sourceCuts, x.routes[j].src.cell)
    ensures ReduceKey(x.routes[i], sig) == ReduceKey(x.routes[j], sig) <==>
            x.routes[i].dsts != [] &&
            OneShard(x.problem, x.routes[i].src.rank, x.routes[i].src.cell, x.routes[j].src.cell)
  {
    var p, a := x.problem, x.routes[i].src.rank;
    SettledIsPlanned(x, s);
    HoldsCell(p, a, x.routes[i].src.cell);
    HoldsCell(p, a, x.routes[j].src.cell);
    if ReduceKey(x.routes[i], sig) == ReduceKey(x.routes[j], sig) {
      KeyRanks(x.routes[i], x.routes[j], sig);
    }
    if x.routes[i].dsts != [] {
      Coalescing.CellsShareTargetsIff(p, s.stamp, s.view, s.gather, s.expanded, x.routes, i, j,
                                      CellOf(p, a, x.routes[i].src.cell), CellOf(p, a, x.routes[j].src.cell));
      if DstRanks(x.routes[i]) == DstRanks(x.routes[j]) {
        Coalescing.ClashSharesKey(p, s.stamp, s.view, s.gather, s.expanded, x.routes, i, j, sig, 0, 0);
        WireKeyGivesKey(x.routes[i], x.routes[j], sig);
      }
    }
  }

  lemma RouteAt(routes: seq<Route>, a: nat, c: seq<nat>) returns (i: nat)
    requires c in CellsFrom(routes, a)
    ensures i < |routes| && routes[i].src == Endpoint(a, c)
  {
    CellsFromHas(routes, a, c);
    i :| 0 <= i < |routes| && routes[i].src == Endpoint(a, c);
  }

  lemma GroupsByRoutes(x: Tensor, a: nat, i: nat, j: nat)
    requires KeysIncrease(x.routes) && i < |x.routes| && j < |x.routes|
    requires x.routes[i].src.rank == x.routes[j].src.rank == a
    ensures Groups(x, a, x.routes[i].src.cell, x.routes[j].src.cell) <==>
            ReduceKey(x.routes[i], SigOf(x, a)) == ReduceKey(x.routes[j], SigOf(x, a))
  {
    var c, c' := x.routes[i].src.cell, x.routes[j].src.cell;
    var key, key' := ReduceKey(x.routes[i], SigOf(x, a)), ReduceKey(x.routes[j], SigOf(x, a));
    assert x.routes[i].src == Endpoint(a, c) && x.routes[j].src == Endpoint(a, c');
    assert KeyAt(x, a, c, key) && KeyAt(x, a, c', key');
    if Groups(x, a, c, c') {
      var common :| KeyAt(x, a, c, common) && KeyAt(x, a, c', common);
      KeyIsUnique(x, a, c, key, common);
      KeyIsUnique(x, a, c', key', common);
    }
  }

  lemma ShipsByRoute(x: Tensor, i: nat)
    requires KeysIncrease(x.routes) && i < |x.routes|
    ensures Ships(x, x.routes[i].src.rank, x.routes[i].src.cell) <==> x.routes[i].dsts != []
  {
    var a, c := x.routes[i].src.rank, x.routes[i].src.cell;
    assert x.routes[i].src == Endpoint(a, c);
    if Ships(x, a, c) {
      var j :| 0 <= j < |x.routes| && x.routes[j].src == Endpoint(a, c) && x.routes[j].dsts != [];
      Coalescing.SourcesDistinct(x.routes, i, j);
    }
  }

  /** A cell of a rank that has one. */
  ghost predicate OnRank(x: Tensor, a: nat, c: seq<nat>) {
    ValidProblem(x.problem) && a in x.problem.source.mesh.ranks && InRange(x.problem.sourceCuts, c)
  }

  lemma CellOnRank(x: Tensor, a: nat, c: seq<nat>)
    requires FitTensor(x) && c in CellsFrom(x.routes, a)
    ensures OnRank(x, a, c)
  {
    var i := RouteAt(x.routes, a, c);
    RouteOnMeshes(x, i);
  }

  lemma GroupsIff(x: Tensor, s: Setting, a: nat, c: seq<nat>, c': seq<nat>)
    requires Settled(x, s) && SigOf(x, a) != [] && c != c' && OnRank(x, a, c) && OnRank(x, a, c')
    requires c in CellsFrom(x.routes, a) && c' in CellsFrom(x.routes, a)
    ensures Groups(x, a, c, c') <==> Ships(x, a, c) && OneShard(x.problem, a, c, c')
  {
    var i := RouteAt(x.routes, a, c);
    var j := RouteAt(x.routes, a, c');
    GroupsByRoutes(x, a, i, j);
    ShipsByRoute(x, i);
    RoutesShareKeyIff(x, s, i, j, SigOf(x, a));
  }

  /** Two different cells of the rank lie in one target shard. */
  ghost predicate Sharing(x: Tensor, a: nat, c: seq<nat>, c': seq<nat>) {
    && c in CellsFrom(x.routes, a) && c' in CellsFrom(x.routes, a) && c != c'
    && OnRank(x, a, c) && OnRank(x, a, c') && OneShard(x.problem, a, c, c')
  }

  /** Of such cells the two ranks ship the same ones. */
  ghost predicate ShipAlike(x: Tensor, a: nat, b: nat) {
    forall c, c' :: Sharing(x, a, c, c') ==> (Ships(x, a, c) <==> Ships(x, b, c))
  }

  ghost function FeedOf(x: Tensor, s: Setting): Feed
    requires Settled(x, s)
  {
    Feed(Collect(Arrivals(x.problem, s.stamp, s.gather)), s.expanded)
  }

  lemma SettledIsPlannedAs(x: Tensor, s: Setting)
    requires Settled(x, s)
    ensures PlannedAs(x, FeedOf(x, s).merged, FeedOf(x, s).expanded)
  {
    assert SetUp(x.problem.source, x.partials);
  }

  lemma PeersOnMesh(x: Tensor, a: nat, b: nat)
    requires Peers(x, a, b) && a != b
    ensures a in x.problem.source.mesh.ranks && b in x.problem.source.mesh.ranks
  {
    LinkedOnMesh(x.problem, a, b);
    PartialGroups.LinkedSym(GroupsOf(x.problem), a, b);
    LinkedOnMesh(x.problem, b, a);
  }

  /** What grouping two cells takes, on either peer. */
  lemma PeerGroupsIff(x: Tensor, s: Setting, a: nat, b: nat, c: seq<nat>, c': seq<nat>)
    requires FitTensor(x) && Settled(x, s) && Peers(x, a, b) && a != b && c != c'
    requires c in CellsFrom(x.routes, a) && c' in CellsFrom(x.routes, a)
    ensures OnRank(x, a, c) && OnRank(x, a, c')
    ensures Groups(x, a, c, c') <==> Ships(x, a, c) && OneShard(x.problem, a, c, c')
    ensures Groups(x, b, c, c') <==> Ships(x, b, c) && OneShard(x.problem, a, c, c')
  {
    var feed := FeedOf(x, s);
    SettledIsPlannedAs(x, s);
    PeersAreSigned(x, feed.merged, feed.expanded, a, b);
    PeersReduceAlike(x, feed.merged, feed.expanded, a, b);
    PeersOnMesh(x, a, b);
    CellOnRank(x, a, c);
    CellOnRank(x, a, c');
    PeersHoldAlike(x.problem, a, b, c);
    PeersHoldAlike(x.problem, a, b, c');
    GroupsIff(x, s, a, c, c');
    GroupsIff(x, s, b, c, c');
  }

  lemma GroupsOwnCell(x: Tensor, a: nat, c: seq<nat>)
    requires c in CellsFrom(x.routes, a)
    ensures Groups(x, a, c, c)
  {
    var i := RouteAt(x.routes, a, c);
    assert KeyAt(x, a, c, ReduceKey(x.routes[i], SigOf(x, a)));
  }

  lemma PeerOwnCells(x: Tensor, s: Setting, a: nat, b: nat, c: seq<nat>)
    requires Settled(x, s) && Peers(x, a, b) && c in CellsFrom(x.routes, a)
    ensures Groups(x, a, c, c) && Groups(x, b, c, c)
  {
    var feed := FeedOf(x, s);
    SettledIsPlannedAs(x, s);
    PeersReduceAlike(x, feed.merged, feed.expanded, a, b);
    GroupsOwnCell(x, a, c);
    GroupsOwnCell(x, b, c);
  }

  lemma ShipAlikeGroups(x: Tensor, s: Setting, a: nat, b: nat, c: seq<nat>, c': seq<nat>)
    requires FitTensor(x) && Settled(x, s) && Peers(x, a, b) && a != b && ShipAlike(x, a, b)
    requires c in CellsFrom(x.routes, a) && c' in CellsFrom(x.routes, a)
    ensures Groups(x, a, c, c') <==> Groups(x, b, c, c')
  {
    if c == c' {
      PeerOwnCells(x, s, a, b, c);
    } else {
      PeerGroupsIff(x, s, a, b, c, c');
      assert OneShard(x.problem, a, c, c') ==> Sharing(x, a, c, c');
    }
  }

  lemma GroupsAlikeShips(x: Tensor, s: Setting, a: nat, b: nat, c: seq<nat>, c': seq<nat>)
    requires FitTensor(x) && Settled(x, s) && Peers(x, a, b) && a != b && GroupsAlike(x, a, b) && Sharing(x, a, c, c')
    ensures Ships(x, a, c) <==> Ships(x, b, c)
  {
    PeerGroupsIff(x, s, a, b, c, c');
  }

  lemma GroupsAlikeShipAlike(x: Tensor, s: Setting, a: nat, b: nat)
    requires FitTensor(x) && Settled(x, s) && Peers(x, a, b) && a != b && GroupsAlike(x, a, b)
    ensures ShipAlike(x, a, b)
  {
    forall c, c' | Sharing(x, a, c, c') ensures Ships(x, a, c) <==> Ships(x, b, c) {
      GroupsAlikeShips(x, s, a, b, c, c');
    }
  }

  lemma ShipAlikeGroupsAlike(x: Tensor, s: Setting, a: nat, b: nat)
    requires FitTensor(x) && Settled(x, s) && Peers(x, a, b) && a != b && ShipAlike(x, a, b)
    ensures GroupsAlike(x, a, b)
  {
    forall c, c' | c in CellsFrom(x.routes, a) && c' in CellsFrom(x.routes, a)
      ensures Groups(x, a, c, c') <==> Groups(x, b, c, c')
    {
      ShipAlikeGroups(x, s, a, b, c, c');
    }
  }

  /** Peers put the same cells under a common key if and only if they ship alike. */
  lemma GroupsAlikeIff(x: Tensor, s: Setting, a: nat, b: nat)
    requires FitTensor(x) && Settled(x, s) && Peers(x, a, b) && a != b
    ensures GroupsAlike(x, a, b) <==> ShipAlike(x, a, b)
  {
    if GroupsAlike(x, a, b) {
      GroupsAlikeShipAlike(x, s, a, b);
    }
    if ShipAlike(x, a, b) {
      ShipAlikeGroupsAlike(x, s, a, b);
    }
  }

  // ------------------------------------------------------------------------------------------
  // Lockstep, from the layouts

  lemma SettledAlike(x: Tensor, y: Tensor, s: Setting)
    requires Settled(x, s) && y.problem == x.problem && y.routes == x.routes && y.partials == x.partials
    ensures Settled(y, s)
  {
  }

  ghost predicate OnePair(xs: seq<Tensor>, s: Setting) {
    AllFit(xs) && OneTable(xs) && xs != [] && Settled(xs[0], s)
  }

  lemma OnePairIsPlanned(xs: seq<Tensor>, s: Setting) returns (feeds: seq<Feed>)
    requires OnePair(xs, s)
    ensures AllPlanned(xs, feeds)
  {
    feeds := seq(|xs|, _ => FeedOf(xs[0], s));
    forall j | 0 <= j < |xs| ensures PlannedAs(xs[j], feeds[j].merged, feeds[j].expanded) {
      SettledAlike(xs[0], xs[j], s);
      SettledIsPlannedAs(xs[j], s);
    }
  }

  /**
   Tensors of one pair in coalesced buckets: two peers run the reductions they share in one order at every
   bucket size if and only if, of cells that share a target shard, they ship the same ones.
   */
  lemma PeersInLockstepIff(xs: seq<Tensor>, s: Setting, a: nat, b: nat)
    requires OnePair(xs, s) && |xs| >= 2 && Peers(xs[0], a, b) && a != b
    ensures (forall size :: InLockstep(xs, Everywhere(), a, b, size)) <==> ShipAlike(xs[0], a, b)
  {
    var feeds := OnePairIsPlanned(xs, s);
    OnePairLockstepIff(xs, feeds, a, b);
    GroupsAlikeIff(xs[0], s, a, b);
  }

  /** So always, for any number of tensors, where no dimension is cut on both sides. */
  lemma OneSidedInLockstep(xs: seq<Tensor>, s: Setting, a: nat, b: nat, size: int)
    requires OnePair(xs, s) && Peers(xs[0], a, b) && a != b
    requires forall d :: 0 <= d < |xs[0].problem.grid| ==>
      xs[0].problem.sourceCuts[d] == 1 || xs[0].problem.targetCuts[d] == 1
    ensures InLockstep(xs, Everywhere(), a, b, size)
  {
    var feeds := OnePairIsPlanned(xs, s);
    forall c, c' ensures !Sharing(xs[0], a, c, c') {
      OneSidedNotSharing(xs[0], a, c, c');
    }
    GroupsAlikeIff(xs[0], s, a, b);
    GroupsAlikeLockstep(xs, feeds, a, b, size);
  }

  lemma OneSidedSharesNothing(p: Problem, a: nat, c: seq<nat>, c': seq<nat>)
    requires ValidProblem(p) && a in p.source.mesh.ranks && InRange(p.sourceCuts, c) && InRange(p.sourceCuts, c')
    requires OneShard(p, a, c, c') && forall d :: 0 <= d < |p.grid| ==> p.sourceCuts[d] == 1 || p.targetCuts[d] == 1
    ensures c == c'
  {
    var g, g' := CellOf(p, a, c), CellOf(p, a, c');
    forall d | 0 <= d < |c| ensures c[d] == c'[d] {
      if p.targetCuts[d] == 1 {
        assert Quotients(g, p.targetCuts)[d] == Quotients(g', p.targetCuts)[d];
        assert g[d] / 1 == g[d] && g'[d] / 1 == g'[d];
      }
    }
  }

  lemma OneSidedNotSharing(x: Tensor, a: nat, c: seq<nat>, c': seq<nat>)
    requires ValidProblem(x.problem)
    requires forall d :: 0 <= d < |x.problem.grid| ==> x.problem.sourceCuts[d] == 1 || x.problem.targetCuts[d] == 1
    ensures !Sharing(x, a, c, c')
  {
    if Sharing(x, a, c, c') {
      OneSidedSharesNothing(x.problem, a, c, c');
    }
  }

  // ------------------------------------------------------------------------------------------
  // A peer nobody reads

  lemma ReadShips(x: Tensor, s: Setting, a: nat, c: seq<nat>, t: nat)
    requires Settled(x, s) && a in x.problem.source.mesh.ranks && InRange(x.problem.sourceCuts, c)
    requires t < |x.problem.target.mesh.ranks| && Coalescing.Wants(x.problem, t, CellOf(x.problem, a, c))
    requires InReplicaOf(x.problem.source, a, Digits(x.problem.source.mesh.shape, s.view(t)))
    ensures Ships(x, a, c) && c in CellsFrom(x.routes, a)
  {
    var p := x.problem;
    SeenOnHolder(p, s.view, t, a, c);
    SettledIsPlanned(x, s);
    var k := Coalescing.WantedIsFed(p, s.stamp, s.view, s.gather, s.expanded, x.routes, t, CellOf(p, a, c));
    CellsFromHas(x.routes, a, c);
  }

  /** Nobody who wants the cell looks at the replica of the rank. */
  ghost predicate Unread(x: Tensor, s: Setting, b: nat, c: seq<nat>)
    requires OnRank(x, b, c)
  {
    forall t: nat :: Coalescing.Wants(x.problem, t, CellOf(x.problem, b, c)) ==>
      !InReplicaOf(x.problem.source, b, Digits(x.problem.source.mesh.shape, s.view(t)))
  }

  lemma UnreadStays(x: Tensor, s: Setting, b: nat, c: seq<nat>)
    requires Settled(x, s) && OnRank(x, b, c) && Unread(x, s, b, c)
    ensures !Ships(x, b, c)
  {
    if Ships(x, b, c) {
      var i :| 0 <= i < |x.routes| && x.routes[i].src == Endpoint(b, c) && x.routes[i].dsts != [];
      var rank := x.routes[i].dsts[0].rank;
      assert Feeds(x.routes[i], rank);
      SettledIsPlanned(x, s);
      Coalescing.PlannedIsRight(x.problem, s.stamp, s.view, s.gather, s.expanded, x.routes);
      HoldsCell(x.problem, b, c);
      var t := Coalescing.FedWants(x.problem, x.routes, i, rank, CellOf(x.problem, b, c));
      FeederInReplica(x, s, i, t);
    }
  }

  /** A target wants two cells of `a`, and nobody who wants the first looks at the replica of its peer `b`. */
  ghost predicate ReadOnOneSide(x: Tensor, s: Setting, a: nat, b: nat, t: nat, c: seq<nat>, c': seq<nat>) {
    && OnRank(x, a, c) && OnRank(x, a, c') && OnRank(x, b, c) && c != c' && t < |x.problem.target.mesh.ranks|
    && Coalescing.Wants(x.problem, t, CellOf(x.problem, a, c))
    && Coalescing.Wants(x.problem, t, CellOf(x.problem, a, c'))
    && InReplicaOf(x.problem.source, a, Digits(x.problem.source.mesh.shape, s.view(t))) && Unread(x, s, b, c)
  }

  lemma OneSideShipsUnlike(x: Tensor, s: Setting, a: nat, b: nat, t: nat, c: seq<nat>, c': seq<nat>)
    requires Settled(x, s) && ReadOnOneSide(x, s, a, b, t, c, c')
    ensures !ShipAlike(x, a, b)
  {
    ReadShips(x, s, a, c, t);
    ReadShips(x, s, a, c', t);
    UnreadStays(x, s, b, c);
    Coalescing.WantsShard(x.problem, t, CellOf(x.problem, a, c));
    Coalescing.WantsShard(x.problem, t, CellOf(x.problem, a, c'));
    assert Sharing(x, a, c, c');
  }

  /** Then some bucket size lets the two peers reduce in different orders. */
  lemma OneSideBreaksLockstep(xs: seq<Tensor>, s: Setting, a: nat, b: nat, t: nat, c: seq<nat>, c': seq<nat>)
    requires OnePair(xs, s) && |xs| >= 2 && Peers(xs[0], a, b) && a != b && ReadOnOneSide(xs[0], s, a, b, t, c, c')
    ensures exists size :: !InLockstep(xs, Everywhere(), a, b, size)
  {
    OneSideShipsUnlike(xs[0], s, a, b, t, c, c');
    PeersInLockstepIff(xs, s, a, b);
  }
}
