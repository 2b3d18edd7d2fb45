/**
 The order of ranks on a mesh (src/etha/comm/get_m2m_map.py, src/etha/comm/ir.py): where the ranks of a replica
 do not stand in the same order for all Partial coordinates, two of them and their peers along one Partial
 dimension stand in opposite orders.
*/
module MeshOrder {
  import opened IR
  import opened Radix
  import opened Layouts
  import PartialGroups
  import opened MeshPlaces

  // ------------------------------------------------------------------------------------------
  // Where the order disagrees, it disagrees across one Partial dimension

  /** The coordinates `c` with the Partial ones of `u`. */
  function Mixed(pl: seq<Placement>, c: seq<nat>, u: seq<nat>): (r: seq<nat>)
    requires |pl| == |c| == |u|
    ensures |r| == |c| && forall i :: 0 <= i < |c| ==> r[i] == if pl[i].Partial? then u[i] else c[i]
  {
    seq(|c|, i requires 0 <= i < |c| => if pl[i].Partial? then u[i] else c[i])
  }

  ghost function MixedRank(l: Layout, c: seq<nat>, u: seq<nat>): (r: nat)
    requires ValidLayout(l) && InRange(l.mesh.shape, c) && InRange(l.mesh.shape, u)
    ensures r in l.mesh.ranks && Coords(l.mesh, r) == Mixed(l.placements, c, u)
  {
    var m := Mixed(l.placements, c, u);
    assert InRange(l.mesh.shape, m);
    ValueBelow(l.mesh.shape, m);
    CoordsAre(l.mesh, PartialGroups.RankAt(l.mesh, m), m);
    PartialGroups.RankAt(l.mesh, m)
  }

  /** Whether `c` comes before `d` with the Partial coordinates of `u`. */
  ghost predicate Lower(l: Layout, c: seq<nat>, d: seq<nat>, u: seq<nat>)
    requires ValidLayout(l) && InRange(l.mesh.shape, c) && InRange(l.mesh.shape, d) && InRange(l.mesh.shape, u)
  {
    MixedRank(l, c, u) < MixedRank(l, d, u)
  }

  /** The first `n` coordinates of `v`, then those of `u`. */
  function PartWay(u: seq<nat>, v: seq<nat>, n: nat): (r: seq<nat>)
    requires |u| == |v|
    ensures |r| == |u| && forall i :: 0 <= i < |u| ==> r[i] == if i < n then v[i] else u[i]
  {
    seq(|u|, i requires 0 <= i < |u| => if i < n then v[i] else u[i])
  }

  /** Walking from `u` to `v` one coordinate at a time, whatever differs at the ends changes at some step. */
  lemma {:induction false} ChangesSomewhere(p: seq<nat> -> bool, u: seq<nat>, v: seq<nat>, n: nat) returns (i: nat)
    requires |u| == |v| && n <= |u| && p(PartWay(u, v, 0)) != p(PartWay(u, v, n))
    ensures i < |u| && p(PartWay(u, v, i)) != p(PartWay(u, v, i + 1))
  {
    i := n - 1;
    if p(PartWay(u, v, i)) == p(PartWay(u, v, n)) {
      i := ChangesSomewhere(p, u, v, i);
    }
  }

  ghost function LowerAt(l: Layout, c: seq<nat>, d: seq<nat>): seq<nat> -> bool
    requires ValidLayout(l) && InRange(l.mesh.shape, c) && InRange(l.mesh.shape, d)
  {
    u => InRange(l.mesh.shape, u) && Lower(l, c, d, u)
  }

  lemma OnlyPartialMatters(l: Layout, c: seq<nat>, d: seq<nat>, w: seq<nat>, i: nat, k: nat)
    requires ValidLayout(l) && InRange(l.mesh.shape, c) && InRange(l.mesh.shape, d) && InRange(l.mesh.shape, w)
    requires i < |w| && k < l.mesh.shape[i] && !l.placements[i].Partial?
    ensures InRange(l.mesh.shape, w[i := k]) && (Lower(l, c, d, w) <==> Lower(l, c, d, w[i := k]))
  {
    assert Mixed(l.placements, c, w) == Mixed(l.placements, c, w[i := k]);
    assert Mixed(l.placements, d, w) == Mixed(l.placements, d, w[i := k]);
  }

  /** The order of two places flips at a Partial coordinate. */
  lemma FlipsSomewhere(l: Layout, c: seq<nat>, d: seq<nat>, u: seq<nat>, v: seq<nat>) returns (w: seq<nat>, i: nat)
    requires ValidLayout(l) && InRange(l.mesh.shape, c) && InRange(l.mesh.shape, d)
    requires InRange(l.mesh.shape, u) && InRange(l.mesh.shape, v) && Lower(l, c, d, u) != Lower(l, c, d, v)
    ensures i < |u| && l.placements[i].Partial? && InRange(l.mesh.shape, w) && InRange(l.mesh.shape, w[i := v[i]])
    ensures Lower(l, c, d, w) != Lower(l, c, d, w[i := v[i]])
  {
    assert PartWay(u, v, 0) == u && PartWay(u, v, |u|) == v;
    i := ChangesSomewhere(LowerAt(l, c, d), u, v, |u|);
    w := PartWay(u, v, i);
    assert w[i := v[i]] == PartWay(u, v, i + 1);
    if !l.placements[i].Partial? {
      OnlyPartialMatters(l, c, d, w, i, v[i]);
    }
  }

  /** Two ranks of a replica and their peers along a Partial dimension, in the opposite order. */
  ghost predicate Crossing(l: Layout, i: nat, a: nat, b: nat, a': nat, b': nat)
    requires ValidLayout(l)
  {
    && i < |l.mesh.shape| && l.placements[i].Partial?
    && a in l.mesh.ranks && b in l.mesh.ranks && a' in l.mesh.ranks && b' in l.mesh.ranks
    && SameReplica(l, a, b) && SameReplica(l, a', b')
    && a' in OwnLine(l.mesh, i, a) && b' in OwnLine(l.mesh, i, b) && a < b && b' < a'
  }

  lemma MixedOnLine(l: Layout, c: seq<nat>, w: seq<nat>, i: nat, k: nat)
    requires ValidLayout(l) && InRange(l.mesh.shape, c) && InRange(l.mesh.shape, w) && i < |w|
    requires InRange(l.mesh.shape, w[i := k])
    requires l.placements[i].Partial?
    ensures MixedRank(l, c, w[i := k]) in OwnLine(l.mesh, i, MixedRank(l, c, w))
  {
    var m, m' := Mixed(l.placements, c, w), Mixed(l.placements, c, w[i := k]);
    assert m' == m[i := k];
    assert PartialGroups.Without(m', i) == PartialGroups.Without(m, i);
    PartialGroups.WithoutInRange(l.mesh.shape, i, m);
    PartialGroups.InLineIff(l.mesh, i, PartialGroups.Without(m, i), m');
  }

  lemma MixedReplica(l: Layout, c: seq<nat>, d: seq<nat>, u: seq<nat>)
    requires ValidLayout(l) && InRange(l.mesh.shape, c) && InRange(l.mesh.shape, d) && InRange(l.mesh.shape, u)
    requires ReplicaOf(l.placements, c) == ReplicaOf(l.placements, d)
    ensures SameReplica(l, MixedRank(l, c, u), MixedRank(l, d, u))
  {
    var pl := l.placements;
    forall i | 0 <= i < |pl| ensures ReplicaOf(pl, Mixed(pl, c, u))[i] == ReplicaOf(pl, Mixed(pl, d, u))[i] {
      assert ReplicaOf(pl, c)[i] == ReplicaOf(pl, d)[i];
    }
  }

  /** Different ranks for one choice of Partial coordinates are different for all. */
  lemma MixedApart(l: Layout, c: seq<nat>, d: seq<nat>, u: seq<nat>, v: seq<nat>)
    requires ValidLayout(l) && InRange(l.mesh.shape, c) && InRange(l.mesh.shape, d)
    requires InRange(l.mesh.shape, u) && InRange(l.mesh.shape, v) && MixedRank(l, c, v) == MixedRank(l, d, v)
    ensures MixedRank(l, c, u) == MixedRank(l, d, u)
  {
    var pl := l.placements;
    forall i | 0 <= i < |pl| ensures Mixed(pl, c, u)[i] == Mixed(pl, d, u)[i] {
      assert Mixed(pl, c, v)[i] == Mixed(pl, d, v)[i];
    }
    assert Mixed(pl, c, u) == Mixed(pl, d, u);
  }

  lemma FlipCrosses(l: Layout, c: seq<nat>, d: seq<nat>, w: seq<nat>, i: nat, k: nat)
    requires ValidLayout(l) && InRange(l.mesh.shape, c) && InRange(l.mesh.shape, d)
    requires InRange(l.mesh.shape, w) && i < |w| && InRange(l.mesh.shape, w[i := k]) && l.placements[i].Partial?
    requires ReplicaOf(l.placements, c) == ReplicaOf(l.placements, d)
    requires Lower(l, c, d, w) && !Lower(l, c, d, w[i := k])
    ensures Crossing(l, i, MixedRank(l, c, w), MixedRank(l, d, w), MixedRank(l, c, w[i := k]),
                     MixedRank(l, d, w[i := k]))
  {
    MixedOnLine(l, c, w, i, k);
    MixedOnLine(l, d, w, i, k);
    MixedReplica(l, c, d, w);
    MixedReplica(l, c, d, w[i := k]);
    if MixedRank(l, c, w[i := k]) == MixedRank(l, d, w[i := k]) {
      MixedApart(l, c, d, w, w[i := k]);
    }
  }

  lemma MixedIs(l: Layout, a: nat, c: seq<nat>, u: seq<nat>)
    requires ValidLayout(l) && a in l.mesh.ranks && InRange(l.mesh.shape, c) && InRange(l.mesh.shape, u)
    requires Blank(l.placements, Coords(l.mesh, a)) == Blank(l.placements, c)
    requires OnlyPartial(l.placements, Coords(l.mesh, a)) == OnlyPartial(l.placements, u)
    ensures MixedRank(l, c, u) == a
  {
    var pl, x := l.placements, Coords(l.mesh, a);
    forall i | 0 <= i < |pl| ensures Mixed(pl, c, u)[i] == x[i] {
      assert Blank(pl, x)[i] == Blank(pl, c)[i] && OnlyPartial(pl, x)[i] == OnlyPartial(pl, u)[i];
    }
    assert Mixed(pl, c, u) == x;
  }

  lemma ParallelIsMixed(l: Layout, a: nat, b: nat, a': nat, b': nat)
    requires ValidLayout(l) && Parallel(l, a, b, a', b')
    ensures var c, d, u, v := Coords(l.mesh, a), Coords(l.mesh, b), Coords(l.mesh, a), Coords(l.mesh, a');
            && MixedRank(l, c, u) == a && MixedRank(l, d, u) == b && MixedRank(l, c, v) == a'
            && MixedRank(l, d, v) == b'
  {
    ReplicaHasPartial(l, a, b);
    var c, d, v := Coords(l.mesh, a), Coords(l.mesh, b), Coords(l.mesh, a');
    MixedIs(l, a, c, c);
    MixedIs(l, b, d, c);
    MixedIs(l, a', c, v);
    MixedIs(l, b', d, v);
  }

  /** A mesh whose replicas disagree has such a crossing. */
  lemma DisorderCrosses(l: Layout) returns (i: nat, a: nat, b: nat, a': nat, b': nat)
    requires ValidLayout(l) && !OrderAgrees(l)
    ensures Crossing(l, i, a, b, a', b')
  {
    var p, q, p', q' :| Parallel(l, p, q, p', q') && p < q && !(p' < q');
    ParallelIsMixed(l, p, q, p', q');
    var c, d, v := Coords(l.mesh, p), Coords(l.mesh, q), Coords(l.mesh, p');
    var w;
    w, i := FlipsSomewhere(l, c, d, c, v);
    var w' := w[i := v[i]];
    a, b, a', b' := MixedRank(l, c, w), MixedRank(l, d, w), MixedRank(l, c, w'), MixedRank(l, d, w');
    if Lower(l, c, d, w) {
      FlipCrosses(l, c, d, w, i, v[i]);
    } else {
      assert w'[i := w[i]] == w;
      FlipCrosses(l, c, d, w', i, w[i]);
      a, b, a', b' := a', b', a, b;
    }
  }
}
