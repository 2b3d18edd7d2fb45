/**
 From two layouts to routes (src/etha/comm/get_m2m_map.py): both sides are cut to the common
 grid, every target cell reads the tag of the source cell that holds the same grid cell, and the
 readings are merged and sorted into one route per source cell.
*/
module Routing {
  import opened Base
  import opened IR
  import opened Radix
  import opened TagCodec
  import opened Layouts
  import opened Sorting

  /** Two layouts with the grid they share and the local cell counts of either side. */
  datatype Problem = Problem(source: Layout, target: Layout, grid: seq<nat>, sourceCuts: seq<nat>, targetCuts: seq<nat>)

  ghost predicate HasPartial(pl: seq<Placement>) {
    exists i :: 0 <= i < |pl| && pl[i].Partial?
  }

  ghost predicate ValidProblem(p: Problem) {
    && ValidLayout(p.source) && ValidLayout(p.target) && !HasPartial(p.target.placements)
    && Refines(p.source.mesh.shape, Effective(p.source.placements), p.sourceCuts, p.grid)
    && Refines(p.target.mesh.shape, p.target.placements, p.targetCuts, p.grid)
    && (forall i :: 0 <= i < |p.source.placements| && p.source.placements[i].Shard? ==>
        p.source.placements[i].dim < |p.grid|)
    && (forall i :: 0 <= i < |p.target.placements| && p.target.placements[i].Shard? ==>
        p.target.placements[i].dim < |p.grid|)
  }

  /** The grid is the per-dimension least common multiple; a Partial target is refused. */
  method PlanGrid(source: Layout, target: Layout) returns (p: Option<Problem>)
    requires ValidLayout(source) && ValidLayout(target)
    ensures p.None? <==> HasPartial(target.placements)
    ensures p.Some? ==> ValidProblem(p.value) && p.value.source == source && p.value.target == target
    ensures p.Some? ==>
      var spl := Effective(source.placements);
      && |p.value.grid| == Larger(TensorNdim(spl), TensorNdim(target.placements))
      && forall d :: 0 <= d < |p.value.grid| ==>
        && ShardCount(source.mesh.shape, spl, d) > 0 && ShardCount(target.mesh.shape, target.placements, d) > 0
        && p.value.grid[d] ==
          Lcm(ShardCount(source.mesh.shape, spl, d), ShardCount(target.mesh.shape, target.placements, d))
  {
    for i := 0 to |target.placements|
      invariant forall k :: 0 <= k < i ==> !target.placements[k].Partial?
    {
      if target.placements[i].Partial? {
        return None;
      }
    }
    var spl := Effective(source.placements);
    var ndim := Larger(TensorNdim(spl), TensorNdim(target.placements));
    forall i | 0 <= i < |source.placements| && source.placements[i].Shard?
      ensures source.placements[i].dim < ndim
    {
      assert spl[i] == source.placements[i];
    }
    var mine := GetShardShape(source.mesh.shape, spl, ndim);
    var theirs := GetShardShape(target.mesh.shape, target.placements, ndim);
    forall d | 0 <= d < ndim ensures mine[d] > 0 && theirs[d] > 0 {
      ShardCountPositive(source.mesh.shape, spl, d);
      ShardCountPositive(target.mesh.shape, target.placements, d);
    }
    var grid, cuts, theirCuts := CommonGrid(mine, theirs);
    p := Some(Problem(source, target, grid, cuts, theirCuts));
  }

  /** The grid cell of a local source cell at mesh position `s`. */
  function SourceCell(p: Problem, s: nat, cell: seq<nat>): seq<nat>
    requires Positive(p.source.mesh.shape) && |p.source.placements| == |p.source.mesh.shape|
    requires |cell| == |p.sourceCuts|
  {
    DigitsInRange(p.source.mesh.shape, s);
    GlobalCell(p.source.mesh.shape, Effective(p.source.placements), Digits(p.source.mesh.shape, s), p.sourceCuts, cell)
  }

  /** The grid cell of a local target cell at mesh position `t`. */
  function TargetCell(p: Problem, t: nat, cell: seq<nat>): seq<nat>
    requires Positive(p.target.mesh.shape) && |p.target.placements| == |p.target.mesh.shape|
    requires |cell| == |p.targetCuts|
  {
    DigitsInRange(p.target.mesh.shape, t);
    GlobalCell(p.target.mesh.shape, p.target.placements, Digits(p.target.mesh.shape, t), p.targetCuts, cell)
  }

  lemma TargetCellInGrid(p: Problem, t: nat, cell: seq<nat>)
    requires ValidProblem(p) && InRange(p.targetCuts, cell)
    ensures InRange(p.grid, TargetCell(p, t, cell))
  {
    DigitsInRange(p.target.mesh.shape, t);
    GlobalCellInGrid(p.target.mesh.shape, p.target.placements, Digits(p.target.mesh.shape, t), p.targetCuts, p.grid,
                     cell);
  }

  function MaxOf(s: seq<nat>): (m: nat)
    ensures forall i :: 0 <= i < |s| ==> s[i] <= m
  {
    if s == [] then 0 else Larger(MaxOf(s[..|s| - 1]), s[|s| - 1])
  }

  function TagBase(p: Problem): nat {
    MaxOf(p.grid) + 1
  }

  lemma {:induction false} MaxIsReached(s: seq<nat>)
    requires s != []
    ensures MaxOf(s) in s
  {
    if |s| > 1 {
      MaxIsReached(s[..|s| - 1]);
    }
  }

  /** The base is the least number above every extent of the grid. */
  lemma TagBaseIsLeast(p: Problem, base: nat)
    requires p.grid != []
    ensures TagBase(p) <= base <==> forall d :: 0 <= d < |p.grid| ==> p.grid[d] < base
  {
    MaxIsReached(p.grid);
    var d :| 0 <= d < |p.grid| && p.grid[d] == MaxOf(p.grid);
  }

  // ------------------------------------------------------------------------------------------
  // Tracing

  /** Source endpoint `e` holds the grid cell that target position `t` wants in `cell`. */
  ghost predicate Holds(p: Problem, e: Endpoint, g: seq<nat>)
    requires ValidProblem(p)
  {
    && InRange(p.sourceCuts, e.cell)
    && exists s :: 0 <= s < |p.source.mesh.ranks| && p.source.mesh.ranks[s] == e.rank && SourceCell(p, s, e.cell) == g
  }

  /** Which source endpoint stamped grid cell `g` in the full tensor that target position `t` reads. */
  type Stamp = (nat, seq<nat>) -> Endpoint

  /** Each target may see another replica, so the choice may depend on the target. */
  ghost predicate ValidStamp(p: Problem, stamp: Stamp)
    requires ValidProblem(p)
  {
    forall t: nat, g :: t < |p.target.mesh.ranks| && InRange(p.grid, g) ==> Holds(p, stamp(t, g), g)
  }

  /** The numbers a target reads: stamps stored as float32. */
  function Stored(p: Problem, stamp: Stamp, t: nat, g: seq<nat>): nat {
    Float32(Tag(stamp(t, g).rank, TagBase(p), stamp(t, g).cell))
  }

  /** The source endpoint a target cell decodes. */
  function SourceOf(p: Problem, stamp: Stamp, t: nat, cell: seq<nat>): Endpoint
    requires Positive(p.target.mesh.shape) && |p.target.placements| == |p.target.mesh.shape|
    requires |cell| == |p.targetCuts|
  {
    Decode(Stored(p, stamp, t, TargetCell(p, t, cell)), TagBase(p), |cell|)
  }

  ghost predicate TagsExact(p: Problem, stamp: Stamp) {
    forall t: nat, g :: t < |p.target.mesh.ranks| && InRange(p.grid, g) ==>
      TagExact(stamp(t, g).rank, stamp(t, g).cell, TagBase(p))
  }

  lemma SourceCellBelowBase(p: Problem, e: Endpoint)
    requires ValidProblem(p) && InRange(p.sourceCuts, e.cell)
    ensures Below(TagBase(p), e.cell)
  {
    forall d | 0 <= d < |e.cell| ensures e.cell[d] < TagBase(p) {
      ShardCountPositive(p.source.mesh.shape, Effective(p.source.placements), d);
      MulMonotone(1, ShardCount(p.source.mesh.shape, Effective(p.source.placements), d), p.sourceCuts[d]);
      assert p.grid[d] <= MaxOf(p.grid);
    }
  }

  /** Every target cell is traced to a source cell that holds the same grid cell. */
  lemma TraceIsRight(p: Problem, stamp: Stamp, t: nat, cell: seq<nat>)
    requires ValidProblem(p) && ValidStamp(p, stamp) && TagsExact(p, stamp)
    requires t < |p.target.mesh.ranks| && InRange(p.targetCuts, cell)
    ensures Holds(p, SourceOf(p, stamp, t, cell), TargetCell(p, t, cell))
  {
    var g := TargetCell(p, t, cell);
    TargetCellInGrid(p, t, cell);
    var e := stamp(t, g);
    SourceCellBelowBase(p, e);
    TagSurvivesIff(e.rank, e.cell, TagBase(p));
  }

  /** What full_tensor gives a viewer at source position `view(t)`: the holder in the viewer's replica. */
  function ReplicaStamp(p: Problem, view: nat -> nat, t: nat, g: seq<nat>): Endpoint
    requires Positive(p.source.mesh.shape) && |p.source.placements| == |p.source.mesh.shape|
    requires |g| == |p.sourceCuts| && Positive(p.sourceCuts)
  {
    DigitsInRange(p.source.mesh.shape, view(t));
    var h := HolderCoords(p.source.mesh.shape, Effective(p.source.placements), Digits(p.source.mesh.shape, view(t)),
                          Quotients(g, p.sourceCuts));
    var pos := Value(p.source.mesh.shape, h);
    Endpoint(if pos < |p.source.mesh.ranks| then p.source.mesh.ranks[pos] else 0, Remainders(g, p.sourceCuts))
  }

  /** The gather over shards with replicas kept is a valid stamp, whoever each target receives it from. */
  lemma ReplicaStampIsValid(p: Problem, view: nat -> nat, t: nat, g: seq<nat>)
    requires ValidProblem(p) && InRange(p.grid, g)
    ensures Holds(p, ReplicaStamp(p, view, t, g), g)
  {
    var shape, pl := p.source.mesh.shape, Effective(p.source.placements);
    var viewer := Digits(shape, view(t));
    DigitsInRange(shape, view(t));
    GridCovered(shape, pl, viewer, p.sourceCuts, p.grid, g);
    var h := HolderCoords(shape, pl, viewer, Quotients(g, p.sourceCuts));
    ValueBelow(shape, h);
    DigitsOfValue(shape, h);
  }

  // ------------------------------------------------------------------------------------------
  // Collecting readings into a dictionary

  datatype Entry = Entry(src: Endpoint, dst: Endpoint)

  /** Source endpoint to the target endpoints it feeds, in arrival order. */
  type FeedMap = map<Endpoint, seq<Endpoint>>

  function Lookup(m: FeedMap, e: Endpoint): seq<Endpoint> {
    if e in m then m[e] else []
  }

  function Collect(entries: seq<Entry>): FeedMap {
    if entries == [] then map[]
    else
      var m, x := Collect(entries[..|entries| - 1]), entries[|entries| - 1];
      m[x.src := Lookup(m, x.src) + [x.dst]]
  }

  function Merge(a: FeedMap, b: FeedMap): FeedMap {
    map e | e in a.Keys + b.Keys :: Lookup(a, e) + Lookup(b, e)
  }

  lemma CollectSnoc(entries: seq<Entry>, x: Entry)
    ensures Collect(entries + [x]) == Collect(entries)[x.src := Lookup(Collect(entries), x.src) + [x.dst]]
  {
    assert (entries + [x])[..|entries|] == entries;
  }

  lemma CollectNext(entries: seq<Entry>, n: nat)
    requires n < |entries|
    ensures var m, x := Collect(entries[..n]), entries[n];
            Collect(entries[..n + 1]) == m[x.src := Lookup(m, x.src) + [x.dst]]
  {
    assert entries[..n + 1] == entries[..n] + [entries[n]];
    CollectSnoc(entries[..n], entries[n]);
  }

  lemma {:induction false} MergeCollects(a: seq<Entry>, b: seq<Entry>)
    ensures Merge(Collect(a), Collect(b)) == Collect(a + b)
  {
    if b == [] {
      assert a + b == a;
      MergeNothing(Collect(a));
    } else {
      var init, x := b[..|b| - 1], b[|b| - 1];
      MergeCollects(a, init);
      assert b == init + [x] && a + b == (a + init) + [x];
      CollectSnoc(init, x);
      CollectSnoc(a + init, x);
      MergeExtends(Collect(a), Collect(init), x);
    }
  }

  lemma MergeNothing(m: FeedMap)
    ensures Merge(m, map[]) == m
  {
    assert forall e :: e in m ==> m[e] + [] == m[e];
  }

  lemma MergeExtends(a: FeedMap, b: FeedMap, x: Entry)
    ensures Merge(a, b[x.src := Lookup(b, x.src) + [x.dst]]) ==
            Merge(a, b)[x.src := Lookup(Merge(a, b), x.src) + [x.dst]]
  {
    var left := Merge(a, b[x.src := Lookup(b, x.src) + [x.dst]]);
    var right := Merge(a, b)[x.src := Lookup(Merge(a, b), x.src) + [x.dst]];
    assert Lookup(Merge(a, b), x.src) == Lookup(a, x.src) + Lookup(b, x.src);
    assert (Lookup(a, x.src) + Lookup(b, x.src)) + [x.dst] == Lookup(a, x.src) + (Lookup(b, x.src) + [x.dst]);
    assert left.Keys == right.Keys;
  }

  function Reading(p: Problem, stamp: Stamp, t: nat, cell: seq<nat>): Entry
    requires ValidProblem(p) && t < |p.target.mesh.ranks| && |cell| == |p.targetCuts|
  {
    Entry(SourceOf(p, stamp, t, cell), Endpoint(p.target.mesh.ranks[t], cell))
  }

  /** The readings of one target rank, in row-major cell order. */
  function Readings(p: Problem, stamp: Stamp, t: nat): (r: seq<Entry>)
    requires ValidProblem(p) && t < |p.target.mesh.ranks|
    ensures |r| == Prod(p.targetCuts)
    ensures forall v :: 0 <= v < |r| ==> r[v] == Reading(p, stamp, t, Cells(p.targetCuts)[v])
  {
    var cells := Cells(p.targetCuts);
    seq(|cells|, v requires 0 <= v < |cells| => Reading(p, stamp, t, cells[v]))
  }

  method DecodeCell(p: Problem, stamp: Stamp, t: nat, cell: seq<nat>) returns (e: Entry)
    requires ValidProblem(p) && t < |p.target.mesh.ranks| && |cell| == |p.targetCuts|
    ensures e == Reading(p, stamp, t, cell)
  {
    var shard := Stored(p, stamp, t, TargetCell(p, t, cell));
    var rank, idx := DecodeTag(shard, TagBase(p), |cell|);
    e := Entry(Endpoint(rank, idx), Endpoint(p.target.mesh.ranks[t], cell));
  }

  /** One target rank decodes its shard cell by cell. */
  method LocalMap(p: Problem, stamp: Stamp, t: nat) returns (m: FeedMap)
    requires ValidProblem(p) && t < |p.target.mesh.ranks|
    ensures m == Collect(Readings(p, stamp, t))
  {
    m := map[];
    var cells := Cells(p.targetCuts);
    ghost var all := Readings(p, stamp, t);
    for v := 0 to |cells|
      invariant m == Collect(all[..v])
    {
      var x := DecodeCell(p, stamp, t, cells[v]);
      CollectNext(all, v);
      m := m[x.src := Lookup(m, x.src) + [x.dst]];
    }
    assert all[..|all|] == all;
  }

  /** Readings of the gathered ranks, in gather order. */
  ghost function Arrivals(p: Problem, stamp: Stamp, gather: seq<nat>): seq<Entry>
    requires ValidProblem(p) && forall i :: 0 <= i < |gather| ==> gather[i] < |p.target.mesh.ranks|
  {
    if gather == [] then []
    else Arrivals(p, stamp, gather[..|gather| - 1]) + Readings(p, stamp, gather[|gather| - 1])
  }

  /** Extends the merged lists with one rank's, key by key in any order. */
  method MergeOne(merged: FeedMap, local: FeedMap) returns (m: FeedMap)
    ensures m == Merge(merged, local)
  {
    m := merged;
    var todo := local.Keys;
    assert local - todo == map[];
    MergeNothing(merged);
    while todo != {}
      invariant todo <= local.Keys
      invariant m == Merge(merged, local - todo)
    {
      var e :| e in todo;
      m := m[e := Lookup(m, e) + local[e]];
      todo := todo - {e};
    }
    assert local - {} == local;
  }

  method GatherMaps(p: Problem, stamp: Stamp, gather: seq<nat>) returns (m: FeedMap)
    requires ValidProblem(p) && forall i :: 0 <= i < |gather| ==> gather[i] < |p.target.mesh.ranks|
    ensures m == Collect(Arrivals(p, stamp, gather))
  {
    m := map[];
    for i := 0 to |gather|
      invariant m == Collect(Arrivals(p, stamp, gather[..i]))
    {
      var local := LocalMap(p, stamp, gather[i]);
      m := MergeOne(m, local);
      assert gather[..i + 1][..i] == gather[..i];
      MergeCollects(Arrivals(p, stamp, gather[..i]), Readings(p, stamp, gather[i]));
    }
    assert gather[..|gather|] == gather;
  }
}
