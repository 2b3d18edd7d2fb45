/**
 Device meshes and placements as the planner sees them (src/etha/comm/get_m2m_map.py): even
 sharding numbers the shards of a tensor dimension in mixed radix over the mesh dimensions that
 shard it; replication adds copies.
*/
module Layouts {
  import opened Base
  import opened IR
  import opened Radix

  datatype Placement = Shard(dim: nat) | Replicate | Partial(op: ReduceOp)

  /** Ranks in row-major mesh order. */
  datatype Mesh = Mesh(shape: seq<nat>, ranks: seq<nat>)

  datatype Layout = Layout(mesh: Mesh, placements: seq<Placement>)

  ghost predicate ValidMesh(m: Mesh) {
    Positive(m.shape) && |m.ranks| == Prod(m.shape) && Distinct(m.ranks)
  }

  ghost predicate ValidLayout(l: Layout) {
    ValidMesh(l.mesh) && |l.placements| == |l.mesh.shape|
  }

  /** Routing treats a Partial dimension as replicated. */
  function Effective(pl: seq<Placement>): (r: seq<Placement>)
    ensures |r| == |pl|
    ensures forall i :: 0 <= i < |pl| ==> r[i] == if pl[i].Partial? then Replicate else pl[i]
  {
    seq(|pl|, i requires 0 <= i < |pl| => if pl[i].Partial? then Replicate else pl[i])
  }

  function Larger(a: nat, b: nat): nat {
    if a < b then b else a
  }

  /** One more than the largest sharded dimension; one when nothing is sharded. */
  function TensorNdim(pl: seq<Placement>): (n: nat)
    ensures n >= 1
    ensures forall i :: 0 <= i < |pl| && pl[i].Shard? ==> pl[i].dim < n
    ensures n > 1 ==> exists i :: 0 <= i < |pl| && pl[i] == Shard(n - 1)
  {
    if pl == [] then 1
    else
      var init, last := pl[..|pl| - 1], pl[|pl| - 1];
      var m := TensorNdim(init);
      assert forall i :: 0 <= i < |init| ==> pl[i] == init[i];
      if last.Shard? then Larger(m, last.dim + 1) else m
  }

  /** How many ways tensor dimension `d` is cut. */
  function ShardCount(shape: seq<nat>, pl: seq<Placement>, d: nat): nat
    requires |pl| == |shape|
  {
    if shape == [] then 1
    else
      var n := |shape| - 1;
      ShardCount(shape[..n], pl[..n], d) * (if pl[n] == Shard(d) then shape[n] else 1)
  }

  method GetShardShape(shape: seq<nat>, pl: seq<Placement>, ndim: nat) returns (shards: seq<nat>)
    requires |pl| == |shape| && forall i :: 0 <= i < |pl| && pl[i].Shard? ==> pl[i].dim < ndim
    ensures |shards| == ndim && forall d :: 0 <= d < ndim ==> shards[d] == ShardCount(shape, pl, d)
  {
    shards := seq(ndim, _ => 1);
    for i := 0 to |pl|
      invariant |shards| == ndim
      invariant forall d :: 0 <= d < ndim ==> shards[d] == ShardCount(shape[..i], pl[..i], d)
    {
      assert shape[..i + 1][..i] == shape[..i] && pl[..i + 1][..i] == pl[..i];
      if pl[i].Shard? {
        var d := pl[i].dim;
        shards := shards[d := shards[d] * shape[i]];
      }
    }
    assert shape[..|shape|] == shape && pl[..|pl|] == pl;
  }

  /** Which of those cuts the rank at `coords` holds; earlier mesh dimensions are more significant. */
  function ShardIndex(shape: seq<nat>, pl: seq<Placement>, coords: seq<nat>, d: nat): nat
    requires |coords| == |pl| == |shape|
  {
    if shape == [] then 0
    else
      var n := |shape| - 1;
      var outer := ShardIndex(shape[..n], pl[..n], coords[..n], d);
      if pl[n] == Shard(d) then outer * shape[n] + coords[n] else outer
  }

  lemma {:induction false} ShardIndexBelow(shape: seq<nat>, pl: seq<Placement>, coords: seq<nat>, d: nat)
    requires |pl| == |shape| && InRange(shape, coords)
    ensures ShardIndex(shape, pl, coords, d) < ShardCount(shape, pl, d)
  {
    if shape != [] {
      var n := |shape| - 1;
      ShardIndexBelow(shape[..n], pl[..n], coords[..n], d);
      if pl[n] == Shard(d) {
        DigitBelow(ShardIndex(shape[..n], pl[..n], coords[..n], d), ShardCount(shape[..n], pl[..n], d), coords[n],
                   shape[n]);
      }
    }
  }

  /** The grid cell of local cell `local` on the rank at `coords`; `cuts` are its local extents. */
  function GlobalCell(
    shape: seq<nat>, pl: seq<Placement>, coords: seq<nat>, cuts: seq<nat>, local: seq<nat>): (g: seq<nat>)
    requires |coords| == |pl| == |shape| && |local| == |cuts|
    ensures |g| == |local|
    ensures forall d :: 0 <= d < |local| ==> g[d] == ShardIndex(shape, pl, coords, d) * cuts[d] + local[d]
  {
    seq(|local|, d requires 0 <= d < |local| => ShardIndex(shape, pl, coords, d) * cuts[d] + local[d])
  }

  /** The cuts refine the layout's own shards up to the grid. */
  ghost predicate Refines(shape: seq<nat>, pl: seq<Placement>, cuts: seq<nat>, grid: seq<nat>) {
    && |pl| == |shape| && |cuts| == |grid| && Positive(cuts)
    && forall d :: 0 <= d < |grid| ==> grid[d] == ShardCount(shape, pl, d) * cuts[d]
  }

  lemma GlobalCellInGrid(
    shape: seq<nat>, pl: seq<Placement>, coords: seq<nat>, cuts: seq<nat>, grid: seq<nat>, local: seq<nat>)
    requires Refines(shape, pl, cuts, grid) && InRange(shape, coords) && InRange(cuts, local)
    ensures InRange(grid, GlobalCell(shape, pl, coords, cuts, local))
  {
    var g := GlobalCell(shape, pl, coords, cuts, local);
    forall d | 0 <= d < |grid| ensures g[d] < grid[d] {
      ShardIndexBelow(shape, pl, coords, d);
      DigitBelow(ShardIndex(shape, pl, coords, d), ShardCount(shape, pl, d), local[d], cuts[d]);
    }
  }

  lemma SameDigits(q: nat, r: nat, q': nat, r': nat, m: nat)
    requires r < m && r' < m && q * m + r == q' * m + r'
    ensures q == q' && r == r'
  {
    DivModOf(q, r, m);
    DivModOf(q', r', m);
  }

  /** A rank holds no grid cell twice, and its cells say which shard it is. */
  lemma GlobalCellInjective(
    shape: seq<nat>, pl: seq<Placement>, a: seq<nat>, b: seq<nat>, cuts: seq<nat>, la: seq<nat>, lb: seq<nat>)
    requires |pl| == |shape| == |a| == |b| && InRange(cuts, la) && InRange(cuts, lb)
    requires GlobalCell(shape, pl, a, cuts, la) == GlobalCell(shape, pl, b, cuts, lb)
    ensures la == lb
    ensures forall d :: 0 <= d < |cuts| ==> ShardIndex(shape, pl, a, d) == ShardIndex(shape, pl, b, d)
  {
    var ga, gb := GlobalCell(shape, pl, a, cuts, la), GlobalCell(shape, pl, b, cuts, lb);
    forall d | 0 <= d < |cuts|
      ensures la[d] == lb[d] && ShardIndex(shape, pl, a, d) == ShardIndex(shape, pl, b, d)
    {
      assert ga[d] == gb[d];
      SameDigits(ShardIndex(shape, pl, a, d), la[d], ShardIndex(shape, pl, b, d), lb[d], cuts[d]);
    }
  }

  // ------------------------------------------------------------------------------------------
  // full_tensor: every rank sees each grid cell as held inside its own replica

  /** The coordinates that hold shard `want`, keeping the viewer's replica coordinates. */
  function HolderCoords(shape: seq<nat>, pl: seq<Placement>, viewer: seq<nat>, want: seq<nat>): (r: seq<nat>)
    requires |pl| == |shape| == |viewer| && Positive(shape)
    ensures |r| == |shape|
  {
    if shape == [] then []
    else
      var n := |shape| - 1;
      if pl[n].Shard? && pl[n].dim < |want| then
        var d := pl[n].dim;
        HolderCoords(shape[..n], pl[..n], viewer[..n], want[d := want[d] / shape[n]]) + [want[d] % shape[n]]
      else
        HolderCoords(shape[..n], pl[..n], viewer[..n], want) + [viewer[n]]
  }

  lemma {:induction false} HolderCoordsHold(shape: seq<nat>, pl: seq<Placement>, viewer: seq<nat>, want: seq<nat>)
    requires |pl| == |shape| && InRange(shape, viewer) && Positive(shape)
    requires forall d :: 0 <= d < |want| ==> want[d] < ShardCount(shape, pl, d)
    ensures InRange(shape, HolderCoords(shape, pl, viewer, want))
    ensures forall d :: 0 <= d < |want| ==> ShardIndex(shape, pl, HolderCoords(shape, pl, viewer, want), d) == want[d]
  {
    if shape != [] {
      var n := |shape| - 1;
      var next := NextWant(shape, pl, want);
      forall d | 0 <= d < |want| ensures next[d] < ShardCount(shape[..n], pl[..n], d) {
        NextWantBelow(shape, pl, want, d);
      }
      HolderCoordsHold(shape[..n], pl[..n], viewer[..n], next);
      HolderInRangeStep(shape, pl, viewer, want);
      forall d | 0 <= d < |want| ensures ShardIndex(shape, pl, HolderCoords(shape, pl, viewer, want), d) == want[d] {
        HolderIndexStep(shape, pl, viewer, want, d);
      }
    }
  }

  /** What is left to find in the other mesh dimensions, once the last has taken its part. */
  function NextWant(shape: seq<nat>, pl: seq<Placement>, want: seq<nat>): (r: seq<nat>)
    requires |pl| == |shape| > 0 && Positive(shape)
    ensures |r| == |want|
  {
    var n := |shape| - 1;
    if pl[n].Shard? && pl[n].dim < |want| then want[pl[n].dim := want[pl[n].dim] / shape[n]] else want
  }

  lemma NextWantBelow(shape: seq<nat>, pl: seq<Placement>, want: seq<nat>, d: nat)
    requires |pl| == |shape| > 0 && Positive(shape) && d < |want| && want[d] < ShardCount(shape, pl, d)
    ensures var n := |shape| - 1; NextWant(shape, pl, want)[d] < ShardCount(shape[..n], pl[..n], d)
  {
    var n := |shape| - 1;
    if pl[n] == Shard(d) {
      DivBelow(want[d], ShardCount(shape[..n], pl[..n], d), shape[n]);
    }
  }

  lemma HolderStep(shape: seq<nat>, pl: seq<Placement>, viewer: seq<nat>, want: seq<nat>)
    requires |pl| == |shape| == |viewer| && shape != [] && Positive(shape)
    ensures var n, h := |shape| - 1, HolderCoords(shape, pl, viewer, want);
            && h[..n] == HolderCoords(shape[..n], pl[..n], viewer[..n], NextWant(shape, pl, want))
            && h[n] == if pl[n].Shard? && pl[n].dim < |want| then want[pl[n].dim] % shape[n] else viewer[n]
  {
  }

  lemma HolderInRangeStep(shape: seq<nat>, pl: seq<Placement>, viewer: seq<nat>, want: seq<nat>)
    requires |pl| == |shape| > 0 && InRange(shape, viewer) && Positive(shape)
    requires var n := |shape| - 1;
             InRange(shape[..n], HolderCoords(shape[..n], pl[..n], viewer[..n], NextWant(shape, pl, want)))
    ensures InRange(shape, HolderCoords(shape, pl, viewer, want))
  {
    HolderStep(shape, pl, viewer, want);
    var n, h := |shape| - 1, HolderCoords(shape, pl, viewer, want);
    forall i | 0 <= i < |shape| ensures h[i] < shape[i] {
      if i < n {
        assert h[i] == h[..n][i] && shape[..n][i] == shape[i];
      }
    }
  }

  lemma HolderIndexStep(shape: seq<nat>, pl: seq<Placement>, viewer: seq<nat>, want: seq<nat>, d: nat)
    requires |pl| == |shape| == |viewer| && shape != [] && Positive(shape) && d < |want|
    requires var n, next := |shape| - 1, NextWant(shape, pl, want);
             ShardIndex(shape[..n], pl[..n], HolderCoords(shape[..n], pl[..n], viewer[..n], next), d) == next[d]
    ensures ShardIndex(shape, pl, HolderCoords(shape, pl, viewer, want), d) == want[d]
  {
    HolderStep(shape, pl, viewer, want);
    var n := |shape| - 1;
    if pl[n] == Shard(d) {
      Recompose(want[d], shape[n]);
    }
  }

  /** Outside the sharding dimensions the holder sits where the viewer sits. */
  lemma {:induction false} HolderKeepsReplica(
    shape: seq<nat>, pl: seq<Placement>, viewer: seq<nat>, want: seq<nat>, i: nat)
    requires |pl| == |shape| == |viewer| && Positive(shape) && i < |shape| && !pl[i].Shard?
    ensures HolderCoords(shape, pl, viewer, want)[i] == viewer[i]
  {
    var n := |shape| - 1;
    if i < n {
      var next := if pl[n].Shard? && pl[n].dim < |want| then want[pl[n].dim := want[pl[n].dim] / shape[n]] else want;
      HolderKeepsReplica(shape[..n], pl[..n], viewer[..n], next, i);
    }
  }

  /** The holder is the only one: whoever has the wanted shards in the viewer's replica. */
  lemma {:induction false} HolderIsUnique(
    shape: seq<nat>, pl: seq<Placement>, viewer: seq<nat>, want: seq<nat>, c: seq<nat>)
    requires |pl| == |shape| == |viewer| && Positive(shape) && InRange(shape, c)
    requires forall i :: 0 <= i < |pl| ==> if pl[i].Shard? then pl[i].dim < |want| else viewer[i] == c[i]
    requires forall d :: 0 <= d < |want| ==> want[d] == ShardIndex(shape, pl, c, d)
    ensures HolderCoords(shape, pl, viewer, want) == c
  {
    if shape != [] {
      var n, next := |shape| - 1, NextWant(shape, pl, want);
      if pl[n].Shard? {
        DivModOf(ShardIndex(shape[..n], pl[..n], c[..n], pl[n].dim), c[n], shape[n]);
      }
      HolderIsUnique(shape[..n], pl[..n], viewer[..n], next, c[..n]);
      HolderStep(shape, pl, viewer, want);
      assert c == c[..n] + [c[n]];
    }
  }

  function Quotients(g: seq<nat>, cuts: seq<nat>): (r: seq<nat>)
    requires |g| == |cuts| && Positive(cuts)
    ensures |r| == |g| && forall d :: 0 <= d < |g| ==> r[d] == g[d] / cuts[d]
  {
    seq(|g|, d requires 0 <= d < |g| => g[d] / cuts[d])
  }

  function Remainders(g: seq<nat>, cuts: seq<nat>): (r: seq<nat>)
    requires |g| == |cuts| && Positive(cuts)
    ensures |r| == |g| && forall d :: 0 <= d < |g| ==> r[d] == g[d] % cuts[d]
  {
    seq(|g|, d requires 0 <= d < |g| => g[d] % cuts[d])
  }

  lemma QuotientsBelow(shape: seq<nat>, pl: seq<Placement>, cuts: seq<nat>, grid: seq<nat>, g: seq<nat>, d: nat)
    requires Refines(shape, pl, cuts, grid) && InRange(grid, g) && d < |g|
    ensures g[d] / cuts[d] < ShardCount(shape, pl, d)
  {
    DivBelow(g[d], ShardCount(shape, pl, d), cuts[d]);
  }

  lemma CellRebuilt(shape: seq<nat>, pl: seq<Placement>, coords: seq<nat>, cuts: seq<nat>, g: seq<nat>)
    requires |coords| == |pl| == |shape| && |g| == |cuts| && Positive(cuts)
    requires forall d :: 0 <= d < |g| ==> ShardIndex(shape, pl, coords, d) == g[d] / cuts[d]
    ensures InRange(cuts, Remainders(g, cuts))
    ensures GlobalCell(shape, pl, coords, cuts, Remainders(g, cuts)) == g
  {
    var rem := Remainders(g, cuts);
    var back := GlobalCell(shape, pl, coords, cuts, rem);
    forall d | 0 <= d < |g| ensures back[d] == g[d] && rem[d] < cuts[d] {
      Recompose(g[d], cuts[d]);
      assert back[d] == (g[d] / cuts[d]) * cuts[d] + rem[d];
    }
  }

  /** Jointly the ranks cover the grid, inside every replica. */
  lemma GridCovered(shape: seq<nat>, pl: seq<Placement>, viewer: seq<nat>, cuts: seq<nat>, grid: seq<nat>, g: seq<nat>)
    requires Refines(shape, pl, cuts, grid) && InRange(shape, viewer) && Positive(shape) && InRange(grid, g)
    ensures var h := HolderCoords(shape, pl, viewer, Quotients(g, cuts));
            && InRange(shape, h) && InRange(cuts, Remainders(g, cuts))
            && GlobalCell(shape, pl, h, cuts, Remainders(g, cuts)) == g
  {
    var want := Quotients(g, cuts);
    forall d | 0 <= d < |want| ensures want[d] < ShardCount(shape, pl, d) {
      QuotientsBelow(shape, pl, cuts, grid, g, d);
    }
    HolderCoordsHold(shape, pl, viewer, want);
    CellRebuilt(shape, pl, HolderCoords(shape, pl, viewer, want), cuts, g);
  }

  // ------------------------------------------------------------------------------------------
  // The common grid

  ghost predicate CommonMultiple(a: nat, b: nat, m: nat)
    requires a > 0 && b > 0
  {
    m > 0 && m % a == 0 && m % b == 0
  }

  lemma ProductIsCommon(a: nat, b: nat)
    requires a > 0 && b > 0
    ensures CommonMultiple(a, b, a * b)
  {
    DivModOf(b, 0, a);
    DivModOf(a, 0, b);
    MulMonotone(1, a, b);
    assert b * a == a * b;
  }

  /** First common multiple from `m` up. */
  function LcmFrom(a: nat, b: nat, m: nat): (r: nat)
    requires a > 0 && b > 0 && 0 < m <= a * b
    ensures CommonMultiple(a, b, r) && m <= r && forall k :: m <= k < r ==> !CommonMultiple(a, b, k)
    decreases a * b - m
  {
    ProductIsCommon(a, b);
    if m % a == 0 && m % b == 0 then m else LcmFrom(a, b, m + 1)
  }

  /** math.lcm: the least common multiple. */
  function Lcm(a: nat, b: nat): (r: nat)
    requires a > 0 && b > 0
    ensures CommonMultiple(a, b, r) && forall k :: 0 < k < r ==> !CommonMultiple(a, b, k)
  {
    MulMonotone(1, a, b);
    LcmFrom(a, b, 1)
  }

  lemma {:induction false} ShardCountPositive(shape: seq<nat>, pl: seq<Placement>, d: nat)
    requires |pl| == |shape| && Positive(shape)
    ensures ShardCount(shape, pl, d) > 0
  {
    if shape != [] {
      var n := |shape| - 1;
      ShardCountPositive(shape[..n], pl[..n], d);
      MulMonotone(1, ShardCount(shape[..n], pl[..n], d), if pl[n] == Shard(d) then shape[n] else 1);
    }
  }

  /** How finely each side must cut its shards: grid over own shard count, per dimension. */
  method CommonGrid(mine: seq<nat>, theirs: seq<nat>) returns (grid: seq<nat>, myCuts: seq<nat>, theirCuts: seq<nat>)
    requires |mine| == |theirs| && Positive(mine) && Positive(theirs)
    ensures |grid| == |myCuts| == |theirCuts| == |mine|
    ensures forall d :: 0 <= d < |mine| ==>
      && grid[d] == Lcm(mine[d], theirs[d]) && myCuts[d] > 0 && theirCuts[d] > 0
      && grid[d] == mine[d] * myCuts[d] && grid[d] == theirs[d] * theirCuts[d]
  {
    grid, myCuts, theirCuts := [], [], [];
    for i := 0 to |mine|
      invariant |grid| == |myCuts| == |theirCuts| == i
      invariant forall d :: 0 <= d < i ==>
        && grid[d] == Lcm(mine[d], theirs[d]) && myCuts[d] > 0 && theirCuts[d] > 0
        && grid[d] == mine[d] * myCuts[d] && grid[d] == theirs[d] * theirCuts[d]
    {
      var m := Lcm(mine[i], theirs[i]);
      ExactQuotient(m, mine[i]);
      ExactQuotient(m, theirs[i]);
      grid := grid + [m];
      myCuts := myCuts + [m / mine[i]];
      theirCuts := theirCuts + [m / theirs[i]];
    }
  }

  lemma ExactQuotient(m: nat, a: nat)
    requires a > 0 && m > 0 && m % a == 0
    ensures m / a > 0 && m == a * (m / a)
  {
    assert m == a * (m / a) + m % a;
  }
}
