/**
 Places on a mesh (src/etha/comm/get_m2m_map.py, src/etha/tensor_bus/agent.py): where a rank sits with its
 Partial coordinates left out, which is the same for all ranks of a Partial component, and when the ranks
 of a replica stand in the same order whatever the Partial coordinates.
*/
module MeshPlaces {
  import opened Base
  import opened IR
  import opened Radix
  import opened Layouts
  import opened Sorting
  import opened PartialGroups

  /** The coordinates of a mesh rank. */
  ghost function Coords(m: Mesh, rank: nat): (c: seq<nat>)
    requires ValidMesh(m) && rank in m.ranks
    ensures InRange(m.shape, c) && RankAt(m, c) == rank
  {
    HasCoords(m, rank);
    var c :| InRange(m.shape, c) && RankAt(m, c) == rank;
    c
  }

  lemma HasCoords(m: Mesh, rank: nat)
    requires ValidMesh(m) && rank in m.ranks
    ensures exists c :: InRange(m.shape, c) && RankAt(m, c) == rank
  {
    var c := CoordsOf(m, rank);
  }

  lemma CoordsAre(m: Mesh, rank: nat, c: seq<nat>)
    requires ValidMesh(m) && InRange(m.shape, c) && RankAt(m, c) == rank
    ensures rank in m.ranks && Coords(m, rank) == c
  {
    ValueBelow(m.shape, c);
    RankAtInjective(m, Coords(m, rank), c);
  }

  /** The Partial coordinates set to zero. */
  function Blank(pl: seq<Placement>, c: seq<nat>): (r: seq<nat>)
    requires |pl| == |c|
    ensures |r| == |c| && forall i :: 0 <= i < |c| ==> r[i] == if pl[i].Partial? then 0 else c[i]
  {
    seq(|c|, i requires 0 <= i < |c| => if pl[i].Partial? then 0 else c[i])
  }

  /** And everything else set to zero. */
  function OnlyPartial(pl: seq<Placement>, c: seq<nat>): (r: seq<nat>)
    requires |pl| == |c|
    ensures |r| == |c| && forall i :: 0 <= i < |c| ==> r[i] == if pl[i].Partial? then c[i] else 0
  {
    seq(|c|, i requires 0 <= i < |c| => if pl[i].Partial? then c[i] else 0)
  }

  lemma {:induction false} ValueSplits(shape: seq<nat>, pl: seq<Placement>, c: seq<nat>)
    requires |shape| == |pl| == |c|
    ensures Value(shape, c) == Value(shape, Blank(pl, c)) + Value(shape, OnlyPartial(pl, c))
  {
    if shape != [] {
      var n := |shape| - 1;
      ValueSplits(shape[..n], pl[..n], c[..n]);
      assert Blank(pl, c)[..n] == Blank(pl[..n], c[..n]);
      assert OnlyPartial(pl, c)[..n] == OnlyPartial(pl[..n], c[..n]);
      SplitDigit(Value(shape[..n], Blank(pl[..n], c[..n])), Value(shape[..n], OnlyPartial(pl[..n], c[..n])), shape[n]);
    }
  }

  lemma SplitDigit(a: nat, b: nat, m: nat)
    ensures (a + b) * m == a * m + b * m
  {
  }

  lemma BlankInRange(shape: seq<nat>, pl: seq<Placement>, c: seq<nat>)
    requires InRange(shape, c) && |pl| == |c|
    ensures InRange(shape, Blank(pl, c))
  {
  }

  /** Where a rank sits when its Partial coordinates do not count: the rank there with all of them zero. */
  ghost function PlaceOf(l: Layout, rank: nat): (r: nat)
    requires ValidLayout(l) && rank in l.mesh.ranks
    ensures r in l.mesh.ranks && Coords(l.mesh, r) == Blank(l.placements, Coords(l.mesh, rank))
  {
    var c := Blank(l.placements, Coords(l.mesh, rank));
    BlankInRange(l.mesh.shape, l.placements, Coords(l.mesh, rank));
    ValueBelow(l.mesh.shape, c);
    CoordsAre(l.mesh, RankAt(l.mesh, c), c);
    RankAt(l.mesh, c)
  }

  /** Agreement in the Partial dimensions. */
  ghost predicate SamePartial(l: Layout, a: nat, b: nat)
    requires ValidLayout(l) && a in l.mesh.ranks && b in l.mesh.ranks
  {
    OnlyPartial(l.placements, Coords(l.mesh, a)) == OnlyPartial(l.placements, Coords(l.mesh, b))
  }

  /** Agreement in all other dimensions. */
  ghost predicate SamePlace(l: Layout, a: nat, b: nat)
    requires ValidLayout(l) && a in l.mesh.ranks && b in l.mesh.ranks
  {
    Blank(l.placements, Coords(l.mesh, a)) == Blank(l.placements, Coords(l.mesh, b))
  }

  /** The coordinates that say which replica a rank is in: the sharded ones set to zero. */
  function ReplicaOf(pl: seq<Placement>, c: seq<nat>): (r: seq<nat>)
    requires |pl| == |c|
    ensures |r| == |c| && forall i :: 0 <= i < |c| ==> r[i] == if pl[i].Shard? then 0 else c[i]
  {
    seq(|c|, i requires 0 <= i < |c| => if pl[i].Shard? then 0 else c[i])
  }

  ghost predicate SameReplica(l: Layout, a: nat, b: nat)
    requires ValidLayout(l) && a in l.mesh.ranks && b in l.mesh.ranks
  {
    ReplicaOf(l.placements, Coords(l.mesh, a)) == ReplicaOf(l.placements, Coords(l.mesh, b))
  }

  lemma ReplicaHasPartial(l: Layout, a: nat, b: nat)
    requires ValidLayout(l) && a in l.mesh.ranks && b in l.mesh.ranks && SameReplica(l, a, b)
    ensures SamePartial(l, a, b)
  {
    var pl, c, d := l.placements, Coords(l.mesh, a), Coords(l.mesh, b);
    forall i | 0 <= i < |pl| ensures OnlyPartial(pl, c)[i] == OnlyPartial(pl, d)[i] {
      assert ReplicaOf(pl, c)[i] == ReplicaOf(pl, d)[i];
    }
  }

  /** Two ranks of a replica, and two ranks at the same places of another replica with its own Partial coordinates. */
  ghost predicate Parallel(l: Layout, a: nat, b: nat, a': nat, b': nat)
    requires ValidLayout(l)
  {
    && a in l.mesh.ranks && b in l.mesh.ranks && a' in l.mesh.ranks && b' in l.mesh.ranks
    && SameReplica(l, a, b) && SamePlace(l, a, a') && SamePlace(l, b, b') && SamePartial(l, a', b')
  }

  /** The ranks of a replica stand in the same order whatever the Partial coordinates. */
  ghost predicate OrderAgrees(l: Layout)
    requires ValidLayout(l)
  {
    forall a, b, a', b' :: Parallel(l, a, b, a', b') && a < b ==> a' < b'
  }

  /** Then it is the order of their places. */
  lemma PlacesRise(l: Layout, a: nat, b: nat)
    requires ValidLayout(l) && OrderAgrees(l) && a in l.mesh.ranks && b in l.mesh.ranks && a < b && SameReplica(l, a, b)
    ensures PlaceOf(l, a) < PlaceOf(l, b)
  {
    var pl, c, d := l.placements, Coords(l.mesh, a), Coords(l.mesh, b);
    assert Blank(pl, Blank(pl, c)) == Blank(pl, c) && Blank(pl, Blank(pl, d)) == Blank(pl, d);
    assert OnlyPartial(pl, Blank(pl, c)) == OnlyPartial(pl, Blank(pl, d));
    assert Parallel(l, a, b, PlaceOf(l, a), PlaceOf(l, b));
  }

  lemma OrderReflects(ranks: seq<nat>, i: nat, j: nat)
    requires Increasing(NatLess, ranks) && i < |ranks| && j < |ranks| && ranks[i] < ranks[j]
    ensures i < j
  {
  }

  lemma RanksFollowPositions(m: Mesh, a: nat, b: nat)
    requires ValidMesh(m) && Increasing(NatLess, m.ranks) && a in m.ranks && b in m.ranks && a < b
    ensures Value(m.shape, Coords(m, a)) < Value(m.shape, Coords(m, b))
  {
    var i, j := Value(m.shape, Coords(m, a)), Value(m.shape, Coords(m, b));
    ValueBelow(m.shape, Coords(m, a));
    ValueBelow(m.shape, Coords(m, b));
    assert m.ranks[i] == a && m.ranks[j] == b;
    OrderReflects(m.ranks, i, j);
  }

  /** Ranks that grow along the mesh are in the same order everywhere. */
  lemma GrowingAgrees(l: Layout)
    requires ValidLayout(l) && Increasing(NatLess, l.mesh.ranks)
    ensures OrderAgrees(l)
  {
    forall a, b, a', b' | Parallel(l, a, b, a', b') && a < b ensures a' < b' {
      GrowingParallel(l, a, b, a', b');
    }
  }

  lemma GrowingParallel(l: Layout, a: nat, b: nat, a': nat, b': nat)
    requires ValidLayout(l) && Increasing(NatLess, l.mesh.ranks) && Parallel(l, a, b, a', b') && a < b
    ensures a' < b'
  {
    ReplicaHasPartial(l, a, b);
    RanksFollowPositions(l.mesh, a, b);
    ValueSplits(l.mesh.shape, l.placements, Coords(l.mesh, a));
    ValueSplits(l.mesh.shape, l.placements, Coords(l.mesh, b));
    ValueSplits(l.mesh.shape, l.placements, Coords(l.mesh, a'));
    ValueSplits(l.mesh.shape, l.placements, Coords(l.mesh, b'));
    if b' < a' {
      RanksFollowPositions(l.mesh, b', a');
    }
  }

  /** The group of a rank along a mesh dimension. */
  ghost function OwnLine(m: Mesh, i: nat, rank: nat): seq<nat>
    requires ValidMesh(m) && i < |m.shape| && rank in m.ranks
  {
    WithoutInRange(m.shape, i, Coords(m, rank));
    Line(m, i, Without(Coords(m, rank), i))
  }

  /** Everyone on the line has the same line, and the same place when the dimension is Partial. */
  lemma LineIsShared(l: Layout, i: nat, rank: nat, q: nat)
    requires ValidLayout(l) && i < |l.mesh.shape| && l.placements[i].Partial? && rank in l.mesh.ranks
    requires q in OwnLine(l.mesh, i, rank)
    ensures q in l.mesh.ranks && OwnLine(l.mesh, i, q) == OwnLine(l.mesh, i, rank) && PlaceOf(l, q) == PlaceOf(l, rank)
  {
    var m, c := l.mesh, Coords(l.mesh, rank);
    var other := Without(c, i);
    WithoutInRange(m.shape, i, c);
    var g := Line(m, i, other);
    var k :| 0 <= k < |g| && g[k] == q;
    LineInRange(m.shape, i, other, k);
    CoordsAre(m, q, Insert(other, i, k));
    WithoutInsert(other, i, k);
    InsertWithout(c, i, k);
    assert Blank(l.placements, c[i := k]) == Blank(l.placements, c);
  }

  lemma SelfOnLine(m: Mesh, i: nat, rank: nat)
    requires ValidMesh(m) && i < |m.shape| && rank in m.ranks
    ensures rank in OwnLine(m, i, rank)
  {
    WithoutInRange(m.shape, i, Coords(m, rank));
    InLineIff(m, i, Without(Coords(m, rank), i), Coords(m, rank));
  }

  /** The line joins its ranks in the Partial components. */
  lemma LineLinks(l: Layout, i: nat, rank: nat, q: nat)
    requires ValidLayout(l) && i < |l.mesh.shape| && l.placements[i].Partial? && rank in l.mesh.ranks
    requires q in OwnLine(l.mesh, i, rank)
    ensures Linked(PartialSubGroups(l), rank, q)
  {
    SelfOnLine(l.mesh, i, rank);
    LineListed(l.mesh, i, Coords(l.mesh, rank));
    GroupsUpToHas(l.mesh, l.placements, |l.placements|, i, OwnLine(l.mesh, i, rank));
    assert Together(PartialSubGroups(l), rank, q);
    LinkedStep(PartialSubGroups(l), rank, q);
  }
}
