/**
 Partial lockstep (src/etha/comm/get_m2m_map.py, src/etha/comm/get_chunks.py): the members of a
 Partial component reduce the same cells of the same tensors in the same order, once each.
*/
module Lockstep {
  import opened Base
  import opened IR
  import opened Radix
  import opened Layouts
  import opened Sorting
  import opened Routing
  import opened RouteTables
  import opened Slices
  import opened Chunks
  import opened ChunkLists
  import opened PartialGroups
  import opened Shadows

  /** After the expansion the members of a component have entries at the same cells. */
  lemma ExpansionEqualizes(groups: seq<seq<nat>>, m: FeedMap, x: FeedMap, a: nat, b: nat, cell: seq<nat>)
    requires IsExpansion(groups, m, x) && Linked(groups, a, b) && Endpoint(a, cell) in x
    ensures Endpoint(b, cell) in x
  {
    if Endpoint(a, cell) in m {
      assert a != b ==> Shadowed(groups, m, Endpoint(b, cell));
    } else {
      var r :| Endpoint(r, cell) in m && r != a && Linked(groups, r, a);
      LinkedTrans(groups, r, a, b);
      assert r != b ==> Shadowed(groups, m, Endpoint(b, cell));
    }
  }

  lemma SameCells(groups: seq<seq<nat>>, m: FeedMap, x: FeedMap, a: nat, b: nat)
    requires IsExpansion(groups, m, x) && Linked(groups, a, b)
    ensures CellsOf(x, a) == CellsOf(x, b)
  {
    LinkedSym(groups, a, b);
    forall cell ensures cell in CellsOf(x, a) <==> cell in CellsOf(x, b) {
      if Endpoint(a, cell) in x {
        ExpansionEqualizes(groups, m, x, a, b, cell);
      }
      if Endpoint(b, cell) in x {
        ExpansionEqualizes(groups, m, x, b, a, cell);
      }
    }
  }

  ghost predicate RoutesFrom(routes: seq<Route>, e: Endpoint) {
    exists i :: 0 <= i < |routes| && routes[i].src == e
  }

  lemma LexTail(rank: nat, a: seq<nat>, b: seq<nat>)
    requires LexLess(KeyOf(Endpoint(rank, a)), KeyOf(Endpoint(rank, b)))
    ensures LexLess(a, b)
  {
    assert KeyOf(Endpoint(rank, a))[1..] == a && KeyOf(Endpoint(rank, b))[1..] == b;
  }

  lemma {:induction false} CellsFromHas(routes: seq<Route>, rank: nat, cell: seq<nat>)
    ensures cell in CellsFrom(routes, rank) <==> RoutesFrom(routes, Endpoint(rank, cell))
  {
    if routes != [] {
      var init, last := routes[..|routes| - 1], routes[|routes| - 1];
      CellsFromHas(init, rank, cell);
      if RoutesFrom(init, Endpoint(rank, cell)) {
        var i :| 0 <= i < |init| && init[i].src == Endpoint(rank, cell);
        assert routes[i].src == Endpoint(rank, cell);
      }
      if RoutesFrom(routes, Endpoint(rank, cell)) && last.src != Endpoint(rank, cell) {
        var i :| 0 <= i < |routes| && routes[i].src == Endpoint(rank, cell);
        assert init[i].src == Endpoint(rank, cell);
      }
    }
  }

  lemma {:induction false} CellsFromIncrease(routes: seq<Route>, rank: nat)
    requires KeysIncrease(routes)
    ensures Increasing(LexLess, CellsFrom(routes, rank))
  {
    if routes != [] {
      var init, last := routes[..|routes| - 1], routes[|routes| - 1];
      CellsFromIncrease(init, rank);
      var cs := CellsFrom(init, rank);
      if last.src.rank == rank {
        forall i | 0 <= i < |cs| ensures LexLess(cs[i], last.src.cell) {
          assert cs[i] in cs;
          CellsFromHas(init, rank, cs[i]);
          var k :| 0 <= k < |init| && init[k].src == Endpoint(rank, cs[i]);
          assert LexLess(KeyOf(routes[k].src), KeyOf(last.src));
          LexTail(rank, cs[i], last.src.cell);
        }
      }
    }
  }

  /** A table lists the cells of a rank in sorted order. */
  lemma CellsFromSorted(x: FeedMap, routes: seq<Route>, rank: nat)
    requires IsTable(x, routes)
    ensures CellsFrom(routes, rank) == SortedTuples(CellsOf(x, rank))
  {
    OrdersAreTotal();
    CellsFromIncrease(routes, rank);
    var cs := CellsFrom(routes, rank);
    forall cell ensures cell in cs <==> cell in CellsOf(x, rank) {
      CellsFromHas(routes, rank, cell);
    }
    SortedIsUnique(LexLess, CellsOf(x, rank), cs);
  }

  /** One tensor's plan with the local view each rank materializes it on. */
  datatype Plan = Plan(layout: Layout, merged: FeedMap, expanded: FeedMap, routes: seq<Route>)

  ghost predicate GoodPlan(plan: Plan) {
    && ValidLayout(plan.layout) && IsTable(plan.expanded, plan.routes)
    && IsExpansion(PartialSubGroups(plan.layout), plan.merged, plan.expanded)
  }

  /** A rank of the source mesh with its Partial groups, ready to build chunks. */
  ghost predicate Materializes(plan: Plan, job: Job, rank: nat) {
    && job.routes == plan.routes && job.partials != [] && JobFits(job, rank)
    && forall r :: r in job.routes ==> Ready(job, rank, r)
  }

  /** A rank reduces the cells of its component, sorted, each exactly once, in split and colocated mode alike. */
  lemma RankReduces(plan: Plan, job: Job, rank: nat)
    requires GoodPlan(plan) && Materializes(plan, job, rank)
    ensures ReducedCells(ChunksFor(job, rank)) == SortedTuples(CellsOf(plan.expanded, rank))
    ensures Distinct(ReducedCells(ChunksFor(job, rank)))
  {
    OrdersAreTotal();
    assert job.routes[..|job.routes|] == job.routes;
    ReductionsFollowTable(job, rank, |job.routes|);
    CellsFromSorted(plan.expanded, plan.routes, rank);
    SortedEnumerates(LexLess, CellsOf(plan.expanded, rank));
    IncreasingIsDistinct(LexLess, SortedTuples(CellsOf(plan.expanded, rank)));
  }

  // ------------------------------------------------------------------------------------------
  // Routing is not disturbed

  lemma ExpansionLists(groups: seq<seq<nat>>, m: FeedMap, x: FeedMap, e: Endpoint)
    requires IsExpansion(groups, m, x)
    ensures Lookup(x, e) == Lookup(m, e)
  {
  }

  /** With the reduce-only entries the table still delivers every target cell exactly once. */
  lemma ExpandedRoutesAreRight(
    p: Problem, stamp: Stamp, gather: seq<nat>, groups: seq<seq<nat>>, x: FeedMap, routes: seq<Route>)
    requires ValidProblem(p) && ValidStamp(p, stamp) && TagsExact(p, stamp) && FullGather(p, gather)
    requires IsExpansion(groups, Collect(Arrivals(p, stamp, gather)), x) && IsTable(x, routes)
    ensures RightRoutes(p, routes)
  {
    var entries := Arrivals(p, stamp, gather);
    forall e ensures Lookup(x, e) == DstsOf(entries, e) {
      CollectLists(entries, e);
      ExpansionLists(groups, Collect(entries), x, e);
    }
    TableIsRight(p, stamp, gather, x, routes);
  }
}
