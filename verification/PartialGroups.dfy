/**
 Partial sub-groups of a mesh (src/etha/comm/utils.py, src/etha/tensor_bus/agent.py): one group per
 line of the mesh along a Partial dimension, and what the groups of several dimensions connect.
*/
module PartialGroups {
  import opened Base
  import opened IR
  import opened Radix
  import opened Layouts

  function RankAt(m: Mesh, c: seq<nat>): nat
    requires ValidMesh(m) && InRange(m.shape, c)
  {
    ValueBelow(m.shape, c);
    m.ranks[Value(m.shape, c)]
  }

  lemma RankAtInjective(m: Mesh, a: seq<nat>, b: seq<nat>)
    requires ValidMesh(m) && InRange(m.shape, a) && InRange(m.shape, b) && RankAt(m, a) == RankAt(m, b)
    ensures a == b
  {
    ValueBelow(m.shape, a);
    ValueBelow(m.shape, b);
    assert Value(m.shape, a) == Value(m.shape, b);
    ValueInjective(m.shape, a, b);
  }

  /** Every mesh rank sits at some coordinates. */
  lemma CoordsOf(m: Mesh, rank: nat) returns (c: seq<nat>)
    requires ValidMesh(m) && rank in m.ranks
    ensures InRange(m.shape, c) && RankAt(m, c) == rank
  {
    var s :| 0 <= s < |m.ranks| && m.ranks[s] == rank;
    c := Digits(m.shape, s);
    ValueOfDigits(m.shape, s);
  }

  function Insert(other: seq<nat>, i: nat, k: nat): seq<nat>
    requires i <= |other|
  {
    other[..i] + [k] + other[i..]
  }

  function Without(c: seq<nat>, i: nat): seq<nat>
    requires i < |c|
  {
    c[..i] + c[i + 1..]
  }

  lemma InsertWithout(c: seq<nat>, i: nat, k: nat)
    requires i < |c|
    ensures Insert(Without(c, i), i, k) == c[i := k]
  {
  }

  lemma WithoutInsert(other: seq<nat>, i: nat, k: nat)
    requires i <= |other|
    ensures Without(Insert(other, i, k), i) == other && Insert(other, i, k)[i] == k
  {
  }

  lemma LineInRange(shape: seq<nat>, i: nat, other: seq<nat>, k: nat)
    requires i < |shape| && InRange(Without(shape, i), other) && k < shape[i]
    ensures InRange(shape, Insert(other, i, k))
  {
    var c := Insert(other, i, k);
    forall d | 0 <= d < |shape| ensures c[d] < shape[d] {
      if d < i {
        assert c[d] == other[d] && Without(shape, i)[d] == shape[d];
      } else if d > i {
        assert c[d] == other[d - 1] && Without(shape, i)[d - 1] == shape[d];
      }
    }
  }

  lemma WithoutInRange(shape: seq<nat>, i: nat, c: seq<nat>)
    requires InRange(shape, c) && i < |shape|
    ensures InRange(Without(shape, i), Without(c, i)) && Positive(Without(shape, i))
  {
  }

  /** The ranks along mesh dimension `i` through `other`. */
  function Line(m: Mesh, i: nat, other: seq<nat>): (g: seq<nat>)
    requires ValidMesh(m) && i < |m.shape| && InRange(Without(m.shape, i), other)
    ensures |g| == m.shape[i]
  {
    seq(m.shape[i], k requires 0 <= k < m.shape[i] => LineInRange(m.shape, i, other, k); RankAt(m, Insert(other, i, k)))
  }

  function OtherCells(m: Mesh, i: nat): (r: seq<seq<nat>>)
    requires ValidMesh(m) && i < |m.shape|
    ensures forall v :: 0 <= v < |r| ==> InRange(Without(m.shape, i), r[v])
  {
    var cells := Cells(Without(m.shape, i));
    CellsComplete(Without(m.shape, i));
    assert forall v :: 0 <= v < |cells| ==> cells[v] in cells;
    cells
  }

  function SubGroups(m: Mesh, i: nat): (r: seq<seq<nat>>)
    requires ValidMesh(m) && i < |m.shape|
    ensures |r| == |OtherCells(m, i)|
  {
    var cells := OtherCells(m, i);
    seq(|cells|, v requires 0 <= v < |cells| => Line(m, i, cells[v]))
  }

  method ReadLine(m: Mesh, dim: nat, other: seq<nat>) returns (line: seq<nat>)
    requires ValidMesh(m) && dim < |m.shape| && InRange(Without(m.shape, dim), other)
    ensures line == Line(m, dim, other)
  {
    line := [];
    for k := 0 to m.shape[dim]
      invariant |line| == k && forall j :: 0 <= j < k ==> line[j] == Line(m, dim, other)[j]
    {
      LineInRange(m.shape, dim, other, k);
      line := line + [RankAt(m, Insert(other, dim, k))];
    }
  }

  method EnumerateSubGroups(m: Mesh, dim: int) returns (groups: Option<seq<seq<nat>>>)
    requires ValidMesh(m)
    ensures groups.Some? <==> 0 <= dim < |m.shape|
    ensures groups.Some? ==> groups.value == SubGroups(m, dim)
  {
    if !(0 <= dim < |m.shape|) {
      return None;
    }
    var found: seq<seq<nat>> := [];
    var cells := OtherCells(m, dim);
    for v := 0 to |cells|
      invariant |found| == v && forall w :: 0 <= w < v ==> found[w] == SubGroups(m, dim)[w]
    {
      var line := ReadLine(m, dim, cells[v]);
      found := found + [line];
    }
    groups := Some(found);
  }

  lemma InLineIff(m: Mesh, i: nat, other: seq<nat>, c: seq<nat>)
    requires ValidMesh(m) && i < |m.shape| && InRange(Without(m.shape, i), other) && InRange(m.shape, c)
    ensures RankAt(m, c) in Line(m, i, other) <==> Without(c, i) == other
  {
    var g := Line(m, i, other);
    if RankAt(m, c) in g {
      var k :| 0 <= k < |g| && g[k] == RankAt(m, c);
      LineInRange(m.shape, i, other, k);
      RankAtInjective(m, c, Insert(other, i, k));
      WithoutInsert(other, i, k);
    }
    if Without(c, i) == other {
      InsertWithout(c, i, c[i]);
      assert c[i := c[i]] == c;
      assert g[c[i]] == RankAt(m, c);
    }
  }

  /** The line of a rank along a dimension is listed. */
  lemma LineListed(m: Mesh, i: nat, c: seq<nat>)
    requires ValidMesh(m) && i < |m.shape| && InRange(m.shape, c)
    ensures InRange(Without(m.shape, i), Without(c, i)) && Line(m, i, Without(c, i)) in SubGroups(m, i)
  {
    WithoutInRange(m.shape, i, c);
    CellsComplete(Without(m.shape, i));
    var cells := OtherCells(m, i);
    assert Without(c, i) in cells;
    var v :| 0 <= v < |cells| && cells[v] == Without(c, i);
    assert SubGroups(m, i)[v] == Line(m, i, Without(c, i));
  }

  ghost predicate Together(groups: seq<seq<nat>>, a: nat, b: nat) {
    exists g :: g in groups && a in g && b in g
  }

  /** Two ranks share a sub-group along dimension `i` exactly when they agree on every other coordinate. */
  lemma TogetherIff(m: Mesh, i: nat, a: seq<nat>, b: seq<nat>)
    requires ValidMesh(m) && i < |m.shape| && InRange(m.shape, a) && InRange(m.shape, b)
    ensures Together(SubGroups(m, i), RankAt(m, a), RankAt(m, b)) <==> Without(a, i) == Without(b, i)
  {
    LineListed(m, i, a);
    InLineIff(m, i, Without(a, i), a);
    InLineIff(m, i, Without(a, i), b);
    var ra, rb := RankAt(m, a), RankAt(m, b);
    if Together(SubGroups(m, i), ra, rb) {
      var g :| g in SubGroups(m, i) && ra in g && rb in g;
      var v :| 0 <= v < |SubGroups(m, i)| && SubGroups(m, i)[v] == g;
      var other := OtherCells(m, i)[v];
      InLineIff(m, i, other, a);
      InLineIff(m, i, other, b);
    }
  }

  lemma MembersAreMeshRanks(m: Mesh, i: nat, g: seq<nat>, r: nat)
    requires ValidMesh(m) && i < |m.shape| && g in SubGroups(m, i) && r in g
    ensures r in m.ranks
  {
    var v :| 0 <= v < |SubGroups(m, i)| && SubGroups(m, i)[v] == g;
    var other := OtherCells(m, i)[v];
    var k :| 0 <= k < |g| && g[k] == r;
    LineInRange(m.shape, i, other, k);
    ValueBelow(m.shape, Insert(other, i, k));
  }

  // ------------------------------------------------------------------------------------------
  // All Partial dimensions together

  function GroupsUpTo(m: Mesh, pl: seq<Placement>, n: nat): seq<seq<nat>>
    requires ValidMesh(m) && |pl| == |m.shape| && n <= |pl|
  {
    if n == 0 then []
    else if pl[n - 1].Partial? then GroupsUpTo(m, pl, n - 1) + SubGroups(m, n - 1)
    else GroupsUpTo(m, pl, n - 1)
  }

  /** The sub-groups of every Partial dimension. */
  function PartialSubGroups(l: Layout): seq<seq<nat>>
    requires ValidLayout(l)
  {
    GroupsUpTo(l.mesh, l.placements, |l.placements|)
  }

  lemma {:induction false} GroupsUpToHas(m: Mesh, pl: seq<Placement>, n: nat, i: nat, g: seq<nat>)
    requires ValidMesh(m) && |pl| == |m.shape| && i < n <= |pl| && pl[i].Partial? && g in SubGroups(m, i)
    ensures g in GroupsUpTo(m, pl, n)
  {
    if i < n - 1 {
      GroupsUpToHas(m, pl, n - 1, i, g);
    }
  }

  lemma {:induction false} GroupsUpToOnly(m: Mesh, pl: seq<Placement>, n: nat, g: seq<nat>) returns (i: nat)
    requires ValidMesh(m) && |pl| == |m.shape| && n <= |pl| && g in GroupsUpTo(m, pl, n)
    ensures i < n && pl[i].Partial? && g in SubGroups(m, i)
  {
    if pl[n - 1].Partial? && g in SubGroups(m, n - 1) {
      i := n - 1;
    } else {
      i := GroupsUpToOnly(m, pl, n - 1, g);
    }
  }

  /** A chain of ranks, each sharing a group with the next. */
  ghost predicate Chain(groups: seq<seq<nat>>, path: seq<nat>) {
    path != [] && forall i :: 0 <= i < |path| - 1 ==> Together(groups, path[i], path[i + 1])
  }

  /** The smallest equivalence that joins the members of every group. */
  ghost predicate Linked(groups: seq<seq<nat>>, a: nat, b: nat) {
    exists path :: Chain(groups, path) && path[0] == a && path[|path| - 1] == b
  }

  lemma LinkedRefl(groups: seq<seq<nat>>, a: nat)
    ensures Linked(groups, a, a)
  {
    assert Chain(groups, [a]);
    assert [a][0] == a;
  }

  lemma LinkedTrans(groups: seq<seq<nat>>, a: nat, b: nat, c: nat)
    requires Linked(groups, a, b) && Linked(groups, b, c)
    ensures Linked(groups, a, c)
  {
    var p :| Chain(groups, p) && p[0] == a && p[|p| - 1] == b;
    var q :| Chain(groups, q) && q[0] == b && q[|q| - 1] == c;
    var path := p + q[1..];
    forall i | 0 <= i < |path| - 1 ensures Together(groups, path[i], path[i + 1]) {
      if i >= |p| - 1 {
        assert path[i] == q[i - (|p| - 1)] && path[i + 1] == q[i + 1 - (|p| - 1)];
      } else {
        assert path[i] == p[i] && path[i + 1] == p[i + 1];
      }
    }
    assert Chain(groups, path) && path[0] == a && path[|path| - 1] == c;
  }

  lemma {:induction false} LinkedSym(groups: seq<seq<nat>>, a: nat, b: nat)
    requires Linked(groups, a, b)
    ensures Linked(groups, b, a)
  {
    var p :| Chain(groups, p) && p[0] == a && p[|p| - 1] == b;
    var q := seq(|p|, i requires 0 <= i < |p| => p[|p| - 1 - i]);
    forall i | 0 <= i < |q| - 1 ensures Together(groups, q[i], q[i + 1]) {
      assert Together(groups, p[|p| - 2 - i], p[|p| - 1 - i]);
    }
    assert Chain(groups, q) && q[0] == b && q[|q| - 1] == a;
  }

  lemma LinkedStep(groups: seq<seq<nat>>, a: nat, b: nat)
    requires Together(groups, a, b)
    ensures Linked(groups, a, b)
  {
    var path := [a, b];
    assert Chain(groups, path) && path[0] == a && path[|path| - 1] == b;
  }

  /** Smallest: any labelling that is constant on every group is constant along chains. */
  lemma {:induction false} ChainKeepsLabel<L>(groups: seq<seq<nat>>, mark: nat -> L, path: seq<nat>)
    requires Chain(groups, path)
    requires forall x, y :: Together(groups, x, y) ==> mark(x) == mark(y)
    ensures mark(path[0]) == mark(path[|path| - 1])
    decreases |path|
  {
    if |path| > 1 {
      var init := path[..|path| - 1];
      ChainKeepsLabel(groups, mark, init);
      assert Together(groups, path[|path| - 2], path[|path| - 1]);
    }
  }

  lemma LinkedKeepsLabel<L>(groups: seq<seq<nat>>, mark: nat -> L, a: nat, b: nat)
    requires Linked(groups, a, b) && forall x, y :: Together(groups, x, y) ==> mark(x) == mark(y)
    ensures mark(a) == mark(b)
  {
    var p :| Chain(groups, p) && p[0] == a && p[|p| - 1] == b;
    ChainKeepsLabel(groups, mark, p);
  }

  /** Agreement on every coordinate that is not Partial. */
  ghost predicate Agree(pl: seq<Placement>, a: seq<nat>, b: seq<nat>)
    requires |a| == |b| == |pl|
  {
    forall i :: 0 <= i < |pl| && !pl[i].Partial? ==> a[i] == b[i]
  }

  lemma OneCoordinate(l: Layout, i: nat, a: seq<nat>, b: seq<nat>)
    requires ValidLayout(l) && i < |l.placements| && l.placements[i].Partial?
    requires InRange(l.mesh.shape, a) && InRange(l.mesh.shape, b) && Without(a, i) == Without(b, i)
    ensures Linked(PartialSubGroups(l), RankAt(l.mesh, a), RankAt(l.mesh, b))
  {
    TogetherIff(l.mesh, i, a, b);
    var ra, rb := RankAt(l.mesh, a), RankAt(l.mesh, b);
    var g :| g in SubGroups(l.mesh, i) && ra in g && rb in g;
    GroupsUpToHas(l.mesh, l.placements, |l.placements|, i, g);
    LinkedStep(PartialSubGroups(l), ra, rb);
  }

  /** The first `n` coordinates from `b`, the rest from `a`. */
  ghost function Mix(a: seq<nat>, b: seq<nat>, n: nat): seq<nat>
    requires |a| == |b| && n <= |a|
  {
    b[..n] + a[n..]
  }

  lemma MixInRange(shape: seq<nat>, a: seq<nat>, b: seq<nat>, n: nat)
    requires InRange(shape, a) && InRange(shape, b) && n <= |a|
    ensures InRange(shape, Mix(a, b, n))
  {
  }

  lemma MixStep(a: seq<nat>, b: seq<nat>, n: nat)
    requires |a| == |b| && n < |a|
    ensures |Mix(a, b, n)| == |Mix(a, b, n + 1)| == |a|
    ensures Without(Mix(a, b, n), n) == Without(Mix(a, b, n + 1), n)
    ensures a[n] == b[n] ==> Mix(a, b, n) == Mix(a, b, n + 1)
  {
  }

  lemma {:induction false} WalkCoordinates(l: Layout, a: seq<nat>, b: seq<nat>, n: nat)
    requires ValidLayout(l) && InRange(l.mesh.shape, a) && InRange(l.mesh.shape, b) && Agree(l.placements, a, b)
    requires n <= |a| && InRange(l.mesh.shape, Mix(a, b, n))
    ensures Linked(PartialSubGroups(l), RankAt(l.mesh, a), RankAt(l.mesh, Mix(a, b, n)))
  {
    var groups := PartialSubGroups(l);
    if n == 0 {
      assert Mix(a, b, 0) == a;
      LinkedRefl(groups, RankAt(l.mesh, a));
    } else {
      MixInRange(l.mesh.shape, a, b, n - 1);
      WalkCoordinates(l, a, b, n - 1);
      MixStep(a, b, n - 1);
      if l.placements[n - 1].Partial? {
        OneCoordinate(l, n - 1, Mix(a, b, n - 1), Mix(a, b, n));
        LinkedTrans(groups, RankAt(l.mesh, a), RankAt(l.mesh, Mix(a, b, n - 1)), RankAt(l.mesh, Mix(a, b, n)));
      }
    }
  }

  /** The label of a rank: its coordinates off the Partial dimensions (Partial ones blanked). */
  ghost function Blank(pl: seq<Placement>, c: seq<nat>): (r: seq<nat>)
    requires |c| == |pl|
    ensures |r| == |c| && forall i :: 0 <= i < |r| ==> r[i] == if pl[i].Partial? then 0 else c[i]
  {
    seq(|c|, i requires 0 <= i < |c| => if pl[i].Partial? then 0 else c[i])
  }

  ghost predicate SitsAt(l: Layout, rank: nat, c: seq<nat>)
    requires ValidLayout(l)
  {
    InRange(l.mesh.shape, c) && RankAt(l.mesh, c) == rank
  }

  ghost function Label(l: Layout, rank: nat): seq<nat>
    requires ValidLayout(l)
  {
    if exists c :: SitsAt(l, rank, c) then (var c :| SitsAt(l, rank, c); Blank(l.placements, c)) else []
  }

  lemma LabelAt(l: Layout, c: seq<nat>)
    requires ValidLayout(l) && InRange(l.mesh.shape, c)
    ensures Label(l, RankAt(l.mesh, c)) == Blank(l.placements, c)
  {
    var r := RankAt(l.mesh, c);
    assert SitsAt(l, r, c);
    forall d | SitsAt(l, r, d) ensures d == c {
      RankAtInjective(l.mesh, c, d);
    }
  }

  lemma GroupKeepsLabel(l: Layout, x: nat, y: nat)
    requires ValidLayout(l) && Together(PartialSubGroups(l), x, y)
    ensures Label(l, x) == Label(l, y)
  {
    var g :| g in PartialSubGroups(l) && x in g && y in g;
    var i := GroupsUpToOnly(l.mesh, l.placements, |l.placements|, g);
    MembersAreMeshRanks(l.mesh, i, g, x);
    MembersAreMeshRanks(l.mesh, i, g, y);
    var a := CoordsOf(l.mesh, x);
    var b := CoordsOf(l.mesh, y);
    assert Together(SubGroups(l.mesh, i), x, y);
    TogetherIff(l.mesh, i, a, b);
    assert Blank(l.placements, a) == Blank(l.placements, b) by {
      forall d | 0 <= d < |a| && d != i ensures a[d] == b[d] {
        assert a[d] == Without(a, i)[if d < i then d else d - 1];
        assert b[d] == Without(b, i)[if d < i then d else d - 1];
      }
    }
    LabelAt(l, a);
    LabelAt(l, b);
  }

  /** The components are exactly the ranks that agree on every coordinate that is not Partial. */
  lemma LinkedIffAgree(l: Layout, a: seq<nat>, b: seq<nat>)
    requires ValidLayout(l) && InRange(l.mesh.shape, a) && InRange(l.mesh.shape, b)
    ensures Linked(PartialSubGroups(l), RankAt(l.mesh, a), RankAt(l.mesh, b)) <==> Agree(l.placements, a, b)
  {
    var groups := PartialSubGroups(l);
    if Agree(l.placements, a, b) {
      assert Mix(a, b, |a|) == b;
      WalkCoordinates(l, a, b, |a|);
    }
    if Linked(groups, RankAt(l.mesh, a), RankAt(l.mesh, b)) {
      forall x, y | Together(groups, x, y) ensures Label(l, x) == Label(l, y) {
        GroupKeepsLabel(l, x, y);
      }
      LinkedKeepsLabel(groups, (r: nat) => Label(l, r), RankAt(l.mesh, a), RankAt(l.mesh, b));
      LabelAt(l, a);
      LabelAt(l, b);
      forall i | 0 <= i < |a| && !l.placements[i].Partial? ensures a[i] == b[i] {
        assert Blank(l.placements, a)[i] == Blank(l.placements, b)[i];
      }
    }
  }
}
