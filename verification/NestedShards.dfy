/**
 Even sharding over several mesh dimensions, as the planner relies on it (src/etha/comm/get_m2m_map.py): each mesh
 dimension in turn cuts what the earlier ones left.
*/
module NestedShards {
  import opened Base
  import opened Radix
  import opened Layouts

  datatype Interval = Interval(start: nat, size: nat)

  /** The rank's share of an interval of dimension `d`, mesh dimension by mesh dimension. */
  function Narrowed(shape: seq<nat>, pl: seq<Placement>, coords: seq<nat>, d: nat, whole: Interval): Interval
    requires |coords| == |pl| == |shape| && Positive(shape)
  {
    if shape == [] then whole
    else
      var part := whole.size / shape[0];
      Narrowed(shape[1..], pl[1..], coords[1..], d,
               if pl[0] == Shard(d) then Interval(whole.start + coords[0] * part, part) else whole)
  }

  lemma {:induction false} CountFromFront(shape: seq<nat>, pl: seq<Placement>, d: nat)
    requires |pl| == |shape| && shape != []
    ensures ShardCount(shape, pl, d) ==
            (if pl[0] == Shard(d) then shape[0] else 1) * ShardCount(shape[1..], pl[1..], d)
  {
    var n := |shape| - 1;
    var first := if pl[0] == Shard(d) then shape[0] else 1;
    if n == 0 {
      assert shape[..0] == [] && shape[1..] == [];
    } else {
      CountFromFront(shape[..n], pl[..n], d);
      assert shape[..n][1..] == shape[1..][..n - 1] && pl[..n][1..] == pl[1..][..n - 1];
      var last := if pl[n] == Shard(d) then shape[n] else 1;
      MulAssoc(first, ShardCount(shape[1..][..n - 1], pl[1..][..n - 1], d), last);
    }
  }

  /** The first mesh dimension that cuts `d` is the most significant digit. */
  lemma {:induction false} IndexFromFront(shape: seq<nat>, pl: seq<Placement>, coords: seq<nat>, d: nat)
    requires |coords| == |pl| == |shape| && shape != []
    ensures ShardIndex(shape, pl, coords, d) ==
            (if pl[0] == Shard(d) then coords[0] * ShardCount(shape[1..], pl[1..], d) else 0) +
            ShardIndex(shape[1..], pl[1..], coords[1..], d)
  {
    var n := |shape| - 1;
    if n == 0 {
      assert shape[..0] == [] && shape[1..] == [];
    } else {
      IndexFromFront(shape[..n], pl[..n], coords[..n], d);
      assert shape[..n][1..] == shape[1..][..n - 1] && pl[..n][1..] == pl[1..][..n - 1];
      assert coords[..n][1..] == coords[1..][..n - 1];
      if pl[n] == Shard(d) {
        var c := if pl[0] == Shard(d) then coords[0] else 0;
        var count := ShardCount(shape[1..][..n - 1], pl[1..][..n - 1], d);
        var rest := ShardIndex(shape[1..][..n - 1], pl[1..][..n - 1], coords[1..][..n - 1], d);
        AddThenScale(c, count, rest, shape[n]);
      }
    }
  }

  lemma AddThenScale(c: nat, count: nat, rest: nat, n: nat)
    ensures (c * count + rest) * n == c * (count * n) + rest * n
  {
    MulAssoc(c, count, n);
    assert (c * count + rest) * n == (c * count) * n + rest * n;
  }

  lemma FirstPart(s: nat, count: nat, unit: nat, size: nat)
    requires s > 0 && size == (s * count) * unit
    ensures size / s == count * unit
  {
    MulAssoc(s, count, unit);
    var part := count * unit;
    assert size == part * s + 0;
    DivModOf(part, 0, s);
  }

  lemma FirstCut(count: nat, index: nat, c: nat, start: nat, unit: nat)
    ensures start + (c * count + index) * unit == start + c * (count * unit) + index * unit
  {
    AddThenScale(c, count, index, unit);
  }

  /** The rank's share is the block of its shard number: the numbering of shards is that of nested cutting. */
  lemma {:induction false} ShardsNest(
    shape: seq<nat>, pl: seq<Placement>, coords: seq<nat>, d: nat, start: nat, unit: nat)
    requires |coords| == |pl| == |shape| && Positive(shape)
    ensures Narrowed(shape, pl, coords, d, Interval(start, ShardCount(shape, pl, d) * unit)) ==
            Interval(start + ShardIndex(shape, pl, coords, d) * unit, unit)
  {
    if shape != [] {
      var count, index := ShardCount(shape[1..], pl[1..], d), ShardIndex(shape[1..], pl[1..], coords[1..], d);
      var size := ShardCount(shape, pl, d) * unit;
      CountFromFront(shape, pl, d);
      IndexFromFront(shape, pl, coords, d);
      if pl[0] == Shard(d) {
        FirstPart(shape[0], count, unit, size);
        var next := start + coords[0] * (size / shape[0]);
        ShardsNest(shape[1..], pl[1..], coords[1..], d, next, unit);
        FirstCut(count, index, coords[0], start, unit);
      } else {
        ShardsNest(shape[1..], pl[1..], coords[1..], d, start, unit);
      }
    }
  }
}
