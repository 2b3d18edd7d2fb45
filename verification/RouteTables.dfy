/**
 The canonical route table (src/etha/comm/get_m2m_map.py) and what it promises: every target cell
 is delivered exactly once, from a source cell that holds the same grid cell.
*/
module RouteTables {
  import opened Base
  import opened IR
  import opened Radix
  import opened Layouts
  import opened Sorting
  import opened Routing

  /** Sort key of a route: its rank, then its cell. */
  function KeyOf(e: Endpoint): seq<nat> {
    [e.rank] + e.cell
  }

  lemma KeyOfInjective(a: Endpoint, b: Endpoint)
    requires KeyOf(a) == KeyOf(b)
    ensures a == b
  {
    assert KeyOf(a)[1..] == a.cell && KeyOf(b)[1..] == b.cell;
  }

  function KindFor(dsts: seq<Endpoint>): Transport {
    if dsts == [] then NoWire else if |dsts| > 1 then Broadcast else P2P
  }

  ghost predicate KeysIncrease(routes: seq<Route>) {
    forall i, j :: 0 <= i < j < |routes| ==> LexLess(KeyOf(routes[i].src), KeyOf(routes[j].src))
  }

  /** One route per dictionary entry, in `(rank, cell)` order, with the transport its size calls for. */
  ghost predicate IsTable(m: FeedMap, routes: seq<Route>) {
    && KeysIncrease(routes)
    && (forall e :: e in m ==> exists i :: 0 <= i < |routes| && routes[i].src == e)
    && forall i :: 0 <= i < |routes| ==>
      routes[i].src in m && routes[i].dsts == m[routes[i].src] && routes[i].kind == KindFor(routes[i].dsts)
  }

  ghost predicate FromTable(m: FeedMap, r: Route) {
    r.src in m && r.dsts == m[r.src] && r.kind == KindFor(r.dsts)
  }

  ghost predicate HasRoute(routes: seq<Route>, e: Endpoint) {
    exists k :: 0 <= k < |routes| && routes[k].src == e
  }

  /** The table restricted to the ranks in `ranks`. */
  ghost predicate CoversRanks(m: FeedMap, ranks: seq<nat>, routes: seq<Route>) {
    && KeysIncrease(routes)
    && (forall k :: 0 <= k < |routes| ==> FromTable(m, routes[k]) && routes[k].src.rank in ranks)
    && (forall e :: e in m && e.rank in ranks ==> HasRoute(routes, e))
  }

  lemma RanksCovered(m: FeedMap, ranks: seq<nat>, i: nat, routes: seq<Route>, block: seq<Route>)
    requires i < |ranks| && Increasing(NatLess, ranks) && CoversRanks(m, ranks[..i], routes)
    requires CoversRanks(m, [ranks[i]], block)
    ensures CoversRanks(m, ranks[..i + 1], routes + block)
  {
    assert ranks[..i + 1] == ranks[..i] + [ranks[i]];
    BlockFollows(routes, block, ranks, i);
    var all := routes + block;
    forall e | e in m && e.rank in ranks[..i + 1] ensures HasRoute(all, e) {
      if e.rank == ranks[i] {
        assert HasRoute(block, e);
        var j :| 0 <= j < |block| && block[j].src == e;
        assert all[|routes| + j].src == e;
      } else {
        assert HasRoute(routes, e);
        var k :| 0 <= k < |routes| && routes[k].src == e;
        assert all[k].src == e;
      }
    }
  }

  lemma AllRanksCovered(m: FeedMap, ranks: seq<nat>, routes: seq<Route>)
    requires CoversRanks(m, ranks, routes) && forall e :: e in m ==> e.rank in ranks
    ensures IsTable(m, routes)
  {
    forall e | e in m ensures exists i :: 0 <= i < |routes| && routes[i].src == e {
      assert HasRoute(routes, e);
    }
    forall i | 0 <= i < |routes|
      ensures routes[i].src in m && routes[i].dsts == m[routes[i].src] && routes[i].kind == KindFor(routes[i].dsts)
    {
      assert FromTable(m, routes[i]);
    }
  }

  method SortedRanks(m: FeedMap) returns (ranks: seq<nat>)
    ensures Increasing(NatLess, ranks) && forall e :: e in m ==> e.rank in ranks
  {
    OrdersAreTotal();
    var rankSet := set e | e in m :: e.rank;
    ranks := SortSet(NatLess, rankSet);
    SortedEnumerates(NatLess, rankSet);
    assert forall e :: e in m ==> e.rank in rankSet;
  }

  /** Sorted ranks, then sorted cells of each rank. */
  method DictToRoutes(m: FeedMap) returns (routes: seq<Route>)
    ensures IsTable(m, routes)
  {
    var ranks := SortedRanks(m);
    routes := [];
    for i := 0 to |ranks|
      invariant CoversRanks(m, ranks[..i], routes)
    {
      var block := RankRoutes(m, ranks[i]);
      RanksCovered(m, ranks, i, routes, block);
      routes := routes + block;
    }
    assert ranks[..|ranks|] == ranks;
    AllRanksCovered(m, ranks, routes);
  }

  method SortedCells(m: FeedMap, rank: nat) returns (cells: seq<seq<nat>>)
    ensures Increasing(LexLess, cells) && forall c :: c in cells <==> Endpoint(rank, c) in m
  {
    OrdersAreTotal();
    var cellSet := set e | e in m && e.rank == rank :: e.cell;
    cells := SortSet(LexLess, cellSet);
    SortedEnumerates(LexLess, cellSet);
    forall c ensures c in cellSet <==> Endpoint(rank, c) in m {
      if Endpoint(rank, c) in m {
        assert Endpoint(rank, c).cell in cellSet;
      }
    }
  }

  method RankRoutes(m: FeedMap, rank: nat) returns (block: seq<Route>)
    ensures CoversRanks(m, [rank], block)
  {
    var cells := SortedCells(m, rank);
    block := [];
    for i := 0 to |cells|
      invariant |block| == i
      invariant forall k :: 0 <= k < i ==> FromTable(m, block[k]) && block[k].src == Endpoint(rank, cells[k])
    {
      assert cells[i] in cells;
      var src := Endpoint(rank, cells[i]);
      block := block + [Route(src, m[src], KindFor(m[src]))];
    }
    CellsCovered(m, rank, cells, block);
  }

  lemma CellsCovered(m: FeedMap, rank: nat, cells: seq<seq<nat>>, block: seq<Route>)
    requires Increasing(LexLess, cells) && (forall c :: c in cells <==> Endpoint(rank, c) in m) && |block| == |cells|
    requires forall k :: 0 <= k < |block| ==> FromTable(m, block[k]) && block[k].src == Endpoint(rank, cells[k])
    ensures CoversRanks(m, [rank], block)
  {
    forall i, j | 0 <= i < j < |block| ensures LexLess(KeyOf(block[i].src), KeyOf(block[j].src)) {
      assert LexLess(cells[i], cells[j]);
      assert KeyOf(block[i].src)[1..] == cells[i] && KeyOf(block[j].src)[1..] == cells[j];
    }
    forall e | e in m && e.rank in [rank] ensures HasRoute(block, e) {
      assert e == Endpoint(rank, e.cell);
      assert e.cell in cells;
      var k :| 0 <= k < |cells| && cells[k] == e.cell;
      assert block[k].src == e;
    }
  }

  lemma BlockFollows(routes: seq<Route>, block: seq<Route>, ranks: seq<nat>, i: nat)
    requires i < |ranks| && Increasing(NatLess, ranks) && KeysIncrease(routes) && KeysIncrease(block)
    requires forall k :: 0 <= k < |routes| ==> routes[k].src.rank in ranks[..i]
    requires forall k :: 0 <= k < |block| ==> block[k].src.rank in [ranks[i]]
    ensures KeysIncrease(routes + block)
  {
    forall a, b | 0 <= a < |routes| && 0 <= b < |block|
      ensures LexLess(KeyOf(routes[a].src), KeyOf(block[b].src))
    {
      assert routes[a].src.rank in ranks[..i];
      var k :| 0 <= k < i && ranks[k] == routes[a].src.rank;
      assert NatLess(ranks[k], ranks[i]) && block[b].src.rank == ranks[i];
    }
  }

  /** Every rank builds the same table from the same merged dictionary. */
  lemma TableIsCanonical(m: FeedMap, a: seq<Route>, b: seq<Route>)
    requires IsTable(m, a) && IsTable(m, b)
    ensures a == b
  {
    OrdersAreTotal();
    var keys := set e | e in m :: KeyOf(e);
    TableKeys(m, a, keys);
    TableKeys(m, b, keys);
    forall i | 0 <= i < |a| ensures a[i] == b[i] {
      assert TableKeySeq(a)[i] == TableKeySeq(b)[i];
      KeyOfInjective(a[i].src, b[i].src);
    }
  }

  function TableKeySeq(routes: seq<Route>): (r: seq<seq<nat>>)
    ensures |r| == |routes| && forall i :: 0 <= i < |r| ==> r[i] == KeyOf(routes[i].src)
  {
    seq(|routes|, i requires 0 <= i < |routes| => KeyOf(routes[i].src))
  }

  lemma TableKeys(m: FeedMap, a: seq<Route>, keys: set<seq<nat>>)
    requires IsTable(m, a) && keys == set e | e in m :: KeyOf(e)
    ensures TableKeySeq(a) == SortedTuples(keys)
  {
    OrdersAreTotal();
    var ks := TableKeySeq(a);
    forall k ensures k in ks <==> k in keys {
      if k in ks {
        var i :| 0 <= i < |ks| && ks[i] == k;
        assert a[i].src in m;
      }
      if k in keys {
        var e :| e in m && KeyOf(e) == k;
        var i :| 0 <= i < |a| && a[i].src == e;
        assert ks[i] == k;
      }
    }
    SortedIsUnique(LexLess, keys, ks);
  }

  // ------------------------------------------------------------------------------------------
  // Each delivery exactly once

  /** The dictionary lists, under each source, exactly the entries with that source, in order. */
  function DstsOf(entries: seq<Entry>, e: Endpoint): seq<Endpoint> {
    if entries == [] then []
    else
      var x, rest := entries[|entries| - 1], DstsOf(entries[..|entries| - 1], e);
      if x.src == e then rest + [x.dst] else rest
  }

  lemma {:induction false} CollectLists(entries: seq<Entry>, e: Endpoint)
    ensures Lookup(Collect(entries), e) == DstsOf(entries, e)
    ensures e in Collect(entries) <==> DstsOf(entries, e) != []
  {
    if entries != [] {
      CollectLists(entries[..|entries| - 1], e);
    }
  }

  ghost predicate DistinctDsts(entries: seq<Entry>) {
    forall i, j :: 0 <= i < j < |entries| ==> entries[i].dst != entries[j].dst
  }

  /** Position `k` of a source's list comes from an entry with that source. */
  lemma {:induction false} DstsOfOrigin(entries: seq<Entry>, e: Endpoint, k: nat) returns (i: nat)
    requires k < |DstsOf(entries, e)|
    ensures i < |entries| && entries[i] == Entry(e, DstsOf(entries, e)[k])
  {
    var n := |entries| - 1;
    if k < |DstsOf(entries[..n], e)| {
      i := DstsOfOrigin(entries[..n], e, k);
    } else {
      i := n;
    }
  }

  lemma {:induction false} DstsOfHas(entries: seq<Entry>, i: nat) returns (k: nat)
    requires i < |entries|
    ensures k < |DstsOf(entries, entries[i].src)| && DstsOf(entries, entries[i].src)[k] == entries[i].dst
  {
    var n := |entries| - 1;
    if i < n {
      k := DstsOfHas(entries[..n], i);
    } else {
      k := |DstsOf(entries[..n], entries[n].src)|;
    }
  }

  lemma {:induction false} DstsOfDistinct(entries: seq<Entry>, e: Endpoint)
    requires DistinctDsts(entries)
    ensures Distinct(DstsOf(entries, e))
  {
    if entries != [] {
      var n := |entries| - 1;
      DstsOfDistinct(entries[..n], e);
      forall k | 0 <= k < |DstsOf(entries[..n], e)| ensures DstsOf(entries[..n], e)[k] != entries[n].dst {
        var i := DstsOfOrigin(entries[..n], e, k);
        assert entries[i].dst == DstsOf(entries[..n], e)[k];
      }
    }
  }

  /** No target cell is delivered by two routes, or twice by one. */
  ghost predicate EachOnce(routes: seq<Route>) {
    forall i, j, i', j' |
      && 0 <= i < |routes| && 0 <= j < |routes[i].dsts| && 0 <= i' < |routes| && 0 <= j' < |routes[i'].dsts|
      && routes[i].dsts[j] == routes[i'].dsts[j'] :: i == i' && j == j'
  }

  /** The dictionary lists these entries; it may have further, empty ones. */
  ghost predicate ListsEntries(m: FeedMap, entries: seq<Entry>) {
    forall e :: Lookup(m, e) == DstsOf(entries, e)
  }

  lemma TableEachOnce(m: FeedMap, entries: seq<Entry>, routes: seq<Route>)
    requires DistinctDsts(entries) && IsTable(m, routes) && ListsEntries(m, entries)
    ensures EachOnce(routes)
  {
    OrdersAreTotal();
    forall i, j, i', j' |
      0 <= i < |routes| && 0 <= j < |routes[i].dsts| && 0 <= i' < |routes| && 0 <= j' < |routes[i'].dsts| &&
      routes[i].dsts[j] == routes[i'].dsts[j']
      ensures i == i' && j == j'
    {
      var e, e' := routes[i].src, routes[i'].src;
      assert Lookup(m, e) == DstsOf(entries, e) && Lookup(m, e') == DstsOf(entries, e');
      var a := DstsOfOrigin(entries, e, j);
      var a' := DstsOfOrigin(entries, e', j');
      assert a == a';
      assert e == e';
      LexIrreflexive(KeyOf(e));
      DstsOfDistinct(entries, e);
    }
  }

  ghost predicate InTarget(p: Problem, t: nat, cell: seq<nat>) {
    t < |p.target.mesh.ranks| && InRange(p.targetCuts, cell)
  }

  lemma ReadingsOf(p: Problem, stamp: Stamp, t: nat)
    requires ValidProblem(p) && t < |p.target.mesh.ranks|
    ensures DistinctDsts(Readings(p, stamp, t))
    ensures forall x :: x in Readings(p, stamp, t) ==>
      InTarget(p, t, x.dst.cell) && x == Reading(p, stamp, t, x.dst.cell)
    ensures forall cell :: InRange(p.targetCuts, cell) ==> Reading(p, stamp, t, cell) in Readings(p, stamp, t)
  {
    CellsComplete(p.targetCuts);
    var rs, cells := Readings(p, stamp, t), Cells(p.targetCuts);
    forall x | x in rs ensures InTarget(p, t, x.dst.cell) && x == Reading(p, stamp, t, x.dst.cell) {
      var v :| 0 <= v < |rs| && rs[v] == x;
      assert cells[v] in cells;
    }
    forall cell | InRange(p.targetCuts, cell) ensures Reading(p, stamp, t, cell) in rs {
      assert cell in cells;
      var v :| 0 <= v < |cells| && cells[v] == cell;
      assert rs[v] == Reading(p, stamp, t, cell);
    }
  }

  ghost predicate PartOf(p: Problem, gather: seq<nat>) {
    Distinct(gather) && forall i :: 0 <= i < |gather| ==> gather[i] < |p.target.mesh.ranks|
  }

  /** Entry `x` is what target position `t` reads in one of its cells. */
  ghost predicate ReadAt(p: Problem, stamp: Stamp, t: nat, x: Entry)
    requires ValidProblem(p)
  {
    InTarget(p, t, x.dst.cell) && x == Reading(p, stamp, t, x.dst.cell)
  }

  ghost predicate ReadBy(p: Problem, stamp: Stamp, gather: seq<nat>, x: Entry)
    requires ValidProblem(p)
  {
    exists t :: t in gather && ReadAt(p, stamp, t, x)
  }

  /** Only gathered ranks' readings arrive. */
  lemma {:induction false} ArrivalsFrom(p: Problem, stamp: Stamp, gather: seq<nat>, x: Entry)
    requires ValidProblem(p) && PartOf(p, gather) && x in Arrivals(p, stamp, gather)
    ensures ReadBy(p, stamp, gather, x)
  {
    var init, t := gather[..|gather| - 1], gather[|gather| - 1];
    if x in Arrivals(p, stamp, init) {
      ArrivalsFrom(p, stamp, init, x);
      var u :| u in init && ReadAt(p, stamp, u, x);
      assert u in gather;
    } else {
      ReadingsOf(p, stamp, t);
      assert t in gather && ReadAt(p, stamp, t, x);
    }
  }

  /** And all of them do. */
  lemma {:induction false} ArrivalsHave(p: Problem, stamp: Stamp, gather: seq<nat>, t: nat, cell: seq<nat>)
    requires ValidProblem(p) && PartOf(p, gather) && t in gather && InTarget(p, t, cell)
    ensures Reading(p, stamp, t, cell) in Arrivals(p, stamp, gather)
  {
    var init, last := gather[..|gather| - 1], gather[|gather| - 1];
    if t == last {
      ReadingsOf(p, stamp, t);
    } else {
      assert t in init;
      ArrivalsHave(p, stamp, init, t, cell);
    }
  }

  lemma DistinctConcat(a: seq<Entry>, b: seq<Entry>)
    requires DistinctDsts(a) && DistinctDsts(b) && forall i, j :: 0 <= i < |a| && 0 <= j < |b| ==> a[i].dst != b[j].dst
    ensures DistinctDsts(a + b)
  {
  }

  /** No target cell arrives twice. */
  lemma {:induction false} ArrivalsOnce(p: Problem, stamp: Stamp, gather: seq<nat>)
    requires ValidProblem(p) && PartOf(p, gather)
    ensures DistinctDsts(Arrivals(p, stamp, gather))
  {
    if gather != [] {
      var init, t := gather[..|gather| - 1], gather[|gather| - 1];
      ArrivalsOnce(p, stamp, init);
      ReadingsOf(p, stamp, t);
      var a, b := Arrivals(p, stamp, init), Readings(p, stamp, t);
      forall i, j | 0 <= i < |a| && 0 <= j < |b| ensures a[i].dst != b[j].dst {
        assert a[i] in a && b[j] in b;
        ArrivalsFrom(p, stamp, init, a[i]);
        OtherRank(p, stamp, init, t, a[i]);
      }
      DistinctConcat(a, b);
    }
  }

  lemma OtherRank(p: Problem, stamp: Stamp, init: seq<nat>, t: nat, x: Entry)
    requires ValidProblem(p) && PartOf(p, init) && t < |p.target.mesh.ranks| && t !in init && ReadBy(p, stamp, init, x)
    ensures x.dst.rank != p.target.mesh.ranks[t]
  {
    var u :| u in init && ReadAt(p, stamp, u, x);
    assert p.target.mesh.ranks[u] != p.target.mesh.ranks[t];
  }

  /** All target ranks take part in the gather. */
  ghost predicate FullGather(p: Problem, gather: seq<nat>) {
    PartOf(p, gather) && forall t: nat :: t < |p.target.mesh.ranks| ==> t in gather
  }

  /** `dst` is a cell of target position `t`, and `src` holds its grid cell. */
  ghost predicate Serves(p: Problem, src: Endpoint, dst: Endpoint, t: nat)
    requires ValidProblem(p)
  {
    && InTarget(p, t, dst.cell) && dst.rank == p.target.mesh.ranks[t]
    && Holds(p, src, TargetCell(p, t, dst.cell))
  }

  ghost predicate RightDelivery(p: Problem, src: Endpoint, dst: Endpoint)
    requires ValidProblem(p)
  {
    exists t :: Serves(p, src, dst, t)
  }

  ghost predicate Delivered(routes: seq<Route>, dst: Endpoint) {
    exists i, j :: 0 <= i < |routes| && 0 <= j < |routes[i].dsts| && routes[i].dsts[j] == dst
  }

  /** What the executor relies on. */
  ghost predicate RightRoutes(p: Problem, routes: seq<Route>)
    requires ValidProblem(p)
  {
    && EachOnce(routes)
    && (forall i, j :: 0 <= i < |routes| && 0 <= j < |routes[i].dsts| ==>
        RightDelivery(p, routes[i].src, routes[i].dsts[j]))
    && (forall t: nat, cell :: InTarget(p, t, cell) ==> Delivered(routes, Endpoint(p.target.mesh.ranks[t], cell)))
  }

  lemma DeliveryIsRight(p: Problem, stamp: Stamp, gather: seq<nat>, e: Endpoint, j: nat)
    requires ValidProblem(p) && ValidStamp(p, stamp) && TagsExact(p, stamp) && PartOf(p, gather)
    requires j < |DstsOf(Arrivals(p, stamp, gather), e)|
    ensures RightDelivery(p, e, DstsOf(Arrivals(p, stamp, gather), e)[j])
  {
    var entries := Arrivals(p, stamp, gather);
    var a := DstsOfOrigin(entries, e, j);
    var dst := entries[a].dst;
    ArrivalsFrom(p, stamp, gather, entries[a]);
    var t :| t in gather && ReadAt(p, stamp, t, entries[a]);
    TraceIsRight(p, stamp, t, dst.cell);
    assert Serves(p, e, dst, t);
  }

  lemma CellIsDelivered(
    p: Problem, stamp: Stamp, gather: seq<nat>, m: FeedMap, routes: seq<Route>, t: nat, cell: seq<nat>)
    requires ValidProblem(p) && FullGather(p, gather) && InTarget(p, t, cell)
    requires IsTable(m, routes) && ListsEntries(m, Arrivals(p, stamp, gather))
    ensures Delivered(routes, Endpoint(p.target.mesh.ranks[t], cell))
  {
    var entries, x := Arrivals(p, stamp, gather), Reading(p, stamp, t, cell);
    ArrivalsHave(p, stamp, gather, t, cell);
    EntryIsDelivered(m, entries, routes, x);
  }

  lemma EntryIsDelivered(m: FeedMap, entries: seq<Entry>, routes: seq<Route>, x: Entry)
    requires IsTable(m, routes) && ListsEntries(m, entries) && x in entries
    ensures Delivered(routes, x.dst)
  {
    var a :| 0 <= a < |entries| && entries[a] == x;
    var k := DstsOfHas(entries, a);
    assert Lookup(m, x.src) == DstsOf(entries, x.src);
    var i :| 0 <= i < |routes| && routes[i].src == x.src;
    assert routes[i].dsts[k] == x.dst;
  }

  /** Any table that lists the readings delivers every target cell exactly once, from a holder of its grid cell. */
  lemma TableIsRight(p: Problem, stamp: Stamp, gather: seq<nat>, m: FeedMap, routes: seq<Route>)
    requires ValidProblem(p) && ValidStamp(p, stamp) && TagsExact(p, stamp) && FullGather(p, gather)
    requires IsTable(m, routes) && ListsEntries(m, Arrivals(p, stamp, gather))
    ensures RightRoutes(p, routes)
  {
    var entries := Arrivals(p, stamp, gather);
    assert EachOnce(routes) by {
      ArrivalsOnce(p, stamp, gather);
      TableEachOnce(m, entries, routes);
    }
    forall i, j | 0 <= i < |routes| && 0 <= j < |routes[i].dsts|
      ensures RightDelivery(p, routes[i].src, routes[i].dsts[j])
    {
      assert Lookup(m, routes[i].src) == DstsOf(entries, routes[i].src);
      DeliveryIsRight(p, stamp, gather, routes[i].src, j);
    }
    forall t: nat, cell | InTarget(p, t, cell) ensures Delivered(routes, Endpoint(p.target.mesh.ranks[t], cell)) {
      CellIsDelivered(p, stamp, gather, m, routes, t, cell);
    }
  }

  /** The merged, sorted readings of a source without Partial; every route ships. */
  lemma RoutesAreRight(p: Problem, stamp: Stamp, gather: seq<nat>, routes: seq<Route>)
    requires ValidProblem(p) && ValidStamp(p, stamp) && TagsExact(p, stamp) && FullGather(p, gather)
    requires IsTable(Collect(Arrivals(p, stamp, gather)), routes)
    ensures RightRoutes(p, routes)
    ensures forall i :: 0 <= i < |routes| ==> routes[i].dsts != []
  {
    var entries := Arrivals(p, stamp, gather);
    forall e ensures Lookup(Collect(entries), e) == DstsOf(entries, e) {
      CollectLists(entries, e);
    }
    TableIsRight(p, stamp, gather, Collect(entries), routes);
    forall i | 0 <= i < |routes| ensures routes[i].dsts != [] {
      CollectLists(entries, routes[i].src);
    }
  }

  lemma SourcePositionUnique(p: Problem, s: nat, s': nat)
    requires ValidProblem(p) && s < |p.source.mesh.ranks| && s' < |p.source.mesh.ranks|
    requires p.source.mesh.ranks[s] == p.source.mesh.ranks[s']
    ensures s == s'
  {
  }

  /** A route never feeds one rank twice, so its destination ranks are as many as its destinations. */
  lemma RouteRanksDistinct(p: Problem, routes: seq<Route>, i: nat, j: nat, j': nat)
    requires ValidProblem(p) && RightRoutes(p, routes) && i < |routes|
    requires j < |routes[i].dsts| && j' < |routes[i].dsts| && routes[i].dsts[j].rank == routes[i].dsts[j'].rank
    ensures j == j'
  {
    var r := routes[i];
    assert RightDelivery(p, r.src, r.dsts[j]) && RightDelivery(p, r.src, r.dsts[j']);
    var t :| Serves(p, r.src, r.dsts[j], t);
    var t' :| Serves(p, r.src, r.dsts[j'], t');
    assert t == t';
    HeldCellUnique(p, r.src, TargetCell(p, t, r.dsts[j].cell), TargetCell(p, t, r.dsts[j'].cell));
    var coords := Digits(p.target.mesh.shape, t);
    GlobalCellInjective(p.target.mesh.shape, p.target.placements, coords, coords, p.targetCuts, r.dsts[j].cell,
                        r.dsts[j'].cell);
    assert r.dsts[j] == r.dsts[j'];
  }

  lemma HeldCellUnique(p: Problem, e: Endpoint, g: seq<nat>, g': seq<nat>)
    requires ValidProblem(p) && Holds(p, e, g) && Holds(p, e, g')
    ensures g == g'
  {
    var s :| 0 <= s < |p.source.mesh.ranks| && p.source.mesh.ranks[s] == e.rank && SourceCell(p, s, e.cell) == g;
    var s' :| 0 <= s' < |p.source.mesh.ranks| && p.source.mesh.ranks[s'] == e.rank && SourceCell(p, s', e.cell) == g';
    SourcePositionUnique(p, s, s');
  }
}
