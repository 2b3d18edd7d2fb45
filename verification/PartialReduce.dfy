/**
 Collapsing a Partial source (src/etha/comm/ir.py, src/etha/tensor_bus/agent.py): each rank runs one
 all-reduce per Partial mesh dimension, and every interleaving of them leaves every rank with the
 reduction over all ranks that agree with it off the Partial dimensions.
*/
module PartialReduce {
  import opened Base
  import opened IR
  import opened Radix
  import opened Layouts
  import opened PartialGroups
  import opened ProcessGroups
  import opened Sorting

  // ------------------------------------------------------------------------------------------
  // Reductions

  ghost predicate Monoidal<V(!new)>(op: (V, V) -> V) {
    && (forall a, b, c :: op(op(a, b), c) == op(a, op(b, c)))
    && (forall a, b :: op(a, b) == op(b, a))
  }

  function Values<K, V>(v: K -> V, keys: seq<K>): (r: seq<V>)
    ensures |r| == |keys| && forall i :: 0 <= i < |r| ==> r[i] == v(keys[i])
  {
    seq(|keys|, i requires 0 <= i < |keys| => v(keys[i]))
  }

  function Reduce<V>(op: (V, V) -> V, xs: seq<V>): V
    requires xs != []
  {
    if |xs| == 1 then xs[0] else op(Reduce(op, xs[..|xs| - 1]), xs[|xs| - 1])
  }

  lemma {:induction false} ReduceConcat<V(!new)>(op: (V, V) -> V, a: seq<V>, b: seq<V>)
    requires Monoidal(op) && a != [] && b != []
    ensures Reduce(op, a + b) == op(Reduce(op, a), Reduce(op, b))
  {
    assert (a + b)[..|a + b| - 1] == a + b[..|b| - 1];
    if |b| == 1 {
      assert a + b[..0] == a;
    } else {
      ReduceConcat(op, a, b[..|b| - 1]);
    }
  }

  lemma ReduceRotate<V(!new)>(op: (V, V) -> V, a: seq<V>, y: V, b: seq<V>)
    requires Monoidal(op)
    ensures Reduce(op, a + [y] + b) == Reduce(op, a + b + [y])
  {
    if b == [] {
      assert a + [y] + b == a + b + [y];
    } else if a == [] {
      assert a + [y] + b == [y] + b && a + b + [y] == b + [y];
      ReduceConcat(op, [y], b);
      ReduceConcat(op, b, [y]);
    } else {
      assert a + [y] + b == a + ([y] + b) && a + b + [y] == a + (b + [y]);
      ReduceConcat(op, [y], b);
      ReduceConcat(op, b, [y]);
      ReduceConcat(op, a, [y] + b);
      ReduceConcat(op, a, b + [y]);
    }
  }

  function Drop<K>(a: seq<K>, i: nat): seq<K>
    requires i < |a|
  {
    a[..i] + a[i + 1..]
  }

  lemma DropBag<K>(a: seq<K>, i: nat)
    requires i < |a|
    ensures multiset(Drop(a, i)) == multiset(a) - multiset{a[i]}
  {
    assert a == a[..i] + [a[i]] + a[i + 1..];
  }

  lemma MoveLast<K, V(!new)>(op: (V, V) -> V, v: K -> V, a: seq<K>, i: nat)
    requires Monoidal(op) && i < |a|
    ensures Reduce(op, Values(v, a)) == Reduce(op, Values(v, Drop(a, i)) + [v(a[i])])
  {
    var left, right := Values(v, a[..i]), Values(v, a[i + 1..]);
    ReduceRotate(op, left, v(a[i]), right);
    assert Values(v, a) == left + [v(a[i])] + right;
    assert Values(v, Drop(a, i)) == left + right;
  }

  /** The order of the contributions does not matter. */
  lemma {:induction false} ReducePermute<K, V(!new)>(op: (V, V) -> V, v: K -> V, a: seq<K>, b: seq<K>)
    requires Monoidal(op) && multiset(a) == multiset(b) && a != [] && b != []
    ensures Reduce(op, Values(v, a)) == Reduce(op, Values(v, b))
    decreases |a|
  {
    var n := |b| - 1;
    assert b[n] in multiset(b);
    var i :| 0 <= i < |a| && a[i] == b[n];
    DropBag(a, i);
    DropBag(b, n);
    MoveLast(op, v, a, i);
    MoveLast(op, v, b, n);
    var a', b' := Drop(a, i), Drop(b, n);
    assert |multiset(a')| == |a'| && |multiset(b')| == |b'|;
    if b' != [] {
      ReducePermute(op, v, a', b');
      ReduceSnoc(op, Values(v, a'), v(b[n]));
      ReduceSnoc(op, Values(v, b'), v(b[n]));
    } else {
      assert a' == [];
    }
  }

  lemma {:induction false} DistinctCounts<K>(a: seq<K>, x: K)
    requires Distinct(a)
    ensures multiset(a)[x] == if x in a then 1 else 0
  {
    if a != [] {
      var n := |a| - 1;
      assert a == a[..n] + [a[n]];
      DistinctCounts(a[..n], x);
    }
  }

  lemma SameMembersSameBag<K>(a: seq<K>, b: seq<K>)
    requires Distinct(a) && Distinct(b) && forall x :: x in a <==> x in b
    ensures multiset(a) == multiset(b)
  {
    forall x ensures multiset(a)[x] == multiset(b)[x] {
      DistinctCounts(a, x);
      DistinctCounts(b, x);
    }
  }

  // ------------------------------------------------------------------------------------------
  // The ranks a partly reduced buffer stands for

  ghost predicate GoodDims(shape: seq<nat>, dims: seq<nat>) {
    Distinct(dims) && forall j :: 0 <= j < |dims| ==> dims[j] < |shape|
  }

  /** The coordinates that differ from `c` only along the first `k` of `dims`. */
  ghost function Box(shape: seq<nat>, dims: seq<nat>, k: nat, c: seq<nat>): seq<seq<nat>>
    requires GoodDims(shape, dims) && k <= |dims| && |c| == |shape|
    decreases k, if k == 0 then 0 else shape[dims[k - 1]] + 1
  {
    if k == 0 then [c] else Sweep(shape, dims, k, c, shape[dims[k - 1]])
  }

  ghost function Sweep(shape: seq<nat>, dims: seq<nat>, k: nat, c: seq<nat>, n: nat): seq<seq<nat>>
    requires GoodDims(shape, dims) && 0 < k <= |dims| && |c| == |shape|
    decreases k, n
  {
    if n == 0 then [] else Sweep(shape, dims, k, c, n - 1) + Box(shape, dims, k - 1, c[dims[k - 1] := n - 1])
  }

  ghost predicate OffDims(dims: seq<nat>, k: nat, i: nat)
    requires k <= |dims|
  {
    forall j :: 0 <= j < k ==> dims[j] != i
  }

  ghost predicate InBox(shape: seq<nat>, dims: seq<nat>, k: nat, c: seq<nat>, d: seq<nat>)
    requires k <= |dims| && |c| == |shape|
  {
    && |d| == |shape|
    && forall i :: 0 <= i < |shape| ==> if OffDims(dims, k, i) then d[i] == c[i] else d[i] < shape[i]
  }

  lemma InBoxStep(shape: seq<nat>, dims: seq<nat>, k: nat, c: seq<nat>, d: seq<nat>)
    requires GoodDims(shape, dims) && k < |dims| && |c| == |shape| == |d|
    ensures InBox(shape, dims, k + 1, c, d) <==>
            d[dims[k]] < shape[dims[k]] && InBox(shape, dims, k, c[dims[k] := d[dims[k]]], d)
  {
    var i := dims[k];
    assert OffDims(dims, k, i) && !OffDims(dims, k + 1, i);
    assert forall j :: 0 <= j < |shape| && j != i ==> (OffDims(dims, k, j) <==> OffDims(dims, k + 1, j));
  }

  lemma {:induction false} BoxHas(shape: seq<nat>, dims: seq<nat>, k: nat, c: seq<nat>, d: seq<nat>)
    requires GoodDims(shape, dims) && k <= |dims| && |c| == |shape|
    ensures d in Box(shape, dims, k, c) <==> InBox(shape, dims, k, c, d)
    decreases k, if k == 0 then 0 else shape[dims[k - 1]] + 1
  {
    if k == 0 {
      assert d == c <==> |d| == |c| && forall i :: 0 <= i < |c| ==> d[i] == c[i];
    } else {
      SweepHas(shape, dims, k, c, shape[dims[k - 1]], d);
      if |d| == |shape| {
        InBoxStep(shape, dims, k - 1, c, d);
      }
    }
  }

  lemma {:induction false} SweepHas(shape: seq<nat>, dims: seq<nat>, k: nat, c: seq<nat>, n: nat, d: seq<nat>)
    requires GoodDims(shape, dims) && 0 < k <= |dims| && |c| == |shape|
    ensures d in Sweep(shape, dims, k, c, n) <==>
            |d| == |shape| && d[dims[k - 1]] < n && InBox(shape, dims, k - 1, c[dims[k - 1] := d[dims[k - 1]]], d)
    decreases k, n
  {
    if n > 0 {
      var i := dims[k - 1];
      SweepHas(shape, dims, k, c, n - 1, d);
      BoxHas(shape, dims, k - 1, c[i := n - 1], d);
      assert OffDims(dims, k - 1, i);
      if InBox(shape, dims, k - 1, c[i := n - 1], d) {
        assert d[i] == n - 1;
      }
    }
  }

  lemma {:induction false} BoxDistinct(shape: seq<nat>, dims: seq<nat>, k: nat, c: seq<nat>)
    requires GoodDims(shape, dims) && k <= |dims| && |c| == |shape|
    ensures Distinct(Box(shape, dims, k, c))
    decreases k, if k == 0 then 0 else shape[dims[k - 1]] + 1
  {
    if k > 0 {
      SweepDistinct(shape, dims, k, c, shape[dims[k - 1]]);
    }
  }

  lemma {:induction false} SweepDistinct(shape: seq<nat>, dims: seq<nat>, k: nat, c: seq<nat>, n: nat)
    requires GoodDims(shape, dims) && 0 < k <= |dims| && |c| == |shape|
    ensures Distinct(Sweep(shape, dims, k, c, n))
    decreases k, n
  {
    if n > 0 {
      var i := dims[k - 1];
      SweepDistinct(shape, dims, k, c, n - 1);
      BoxDistinct(shape, dims, k - 1, c[i := n - 1]);
      var a, b := Sweep(shape, dims, k, c, n - 1), Box(shape, dims, k - 1, c[i := n - 1]);
      assert OffDims(dims, k - 1, i);
      forall x, y | 0 <= x < |a| && 0 <= y < |b| ensures a[x] != b[y] {
        assert a[x] in a && b[y] in b;
        SweepHas(shape, dims, k, c, n - 1, a[x]);
        BoxHas(shape, dims, k - 1, c[i := n - 1], b[y]);
      }
    }
  }

  lemma {:induction false} BoxNotEmpty(shape: seq<nat>, dims: seq<nat>, k: nat, c: seq<nat>)
    requires GoodDims(shape, dims) && k <= |dims| && |c| == |shape| && Positive(shape)
    ensures Box(shape, dims, k, c) != []
  {
    if k > 0 {
      var i := dims[k - 1];
      BoxNotEmpty(shape, dims, k - 1, c[i := shape[i] - 1]);
    }
  }

  /** What a rank at `c` holds after its first `k` all-reduces. */
  ghost function BoxValue<V>(op: (V, V) -> V, v: seq<nat> -> V, shape: seq<nat>, dims: seq<nat>, k: nat, c: seq<nat>): V
    requires GoodDims(shape, dims) && k <= |dims| && |c| == |shape| && Positive(shape)
  {
    BoxNotEmpty(shape, dims, k, c);
    Reduce(op, Values(v, Box(shape, dims, k, c)))
  }

  ghost function LineValues<V>(
    op: (V, V) -> V, v: seq<nat> -> V, shape: seq<nat>, dims: seq<nat>, k: nat, c: seq<nat>, n: nat): (r: seq<V>)
    requires GoodDims(shape, dims) && k < |dims| && |c| == |shape| && Positive(shape)
    ensures |r| == n && forall j :: 0 <= j < n ==> r[j] == BoxValue(op, v, shape, dims, k, c[dims[k] := j])
  {
    seq(n, j requires 0 <= j < n => BoxValue(op, v, shape, dims, k, c[dims[k] := j]))
  }

  lemma ReduceSnoc<V>(op: (V, V) -> V, xs: seq<V>, y: V)
    requires xs != []
    ensures Reduce(op, xs + [y]) == op(Reduce(op, xs), y)
  {
    assert (xs + [y])[..|xs|] == xs;
  }

  lemma JoinLast<V(!new)>(op: (V, V) -> V, v: seq<nat> -> V, a: seq<seq<nat>>, b: seq<seq<nat>>)
    requires Monoidal(op) && a != [] && b != []
    ensures Reduce(op, Values(v, a + b)) == op(Reduce(op, Values(v, a)), Reduce(op, Values(v, b)))
  {
    assert Values(v, a + b) == Values(v, a) + Values(v, b);
    ReduceConcat(op, Values(v, a), Values(v, b));
  }

  lemma LineSnoc<V>(op: (V, V) -> V, v: seq<nat> -> V, shape: seq<nat>, dims: seq<nat>, k: nat, c: seq<nat>, n: nat)
    requires GoodDims(shape, dims) && k < |dims| && |c| == |shape| && Positive(shape) && n > 0
    ensures LineValues(op, v, shape, dims, k, c, n) ==
            LineValues(op, v, shape, dims, k, c, n - 1) + [BoxValue(op, v, shape, dims, k, c[dims[k] := n - 1])]
  {
  }

  lemma SweepOne(shape: seq<nat>, dims: seq<nat>, k: nat, c: seq<nat>)
    requires GoodDims(shape, dims) && k < |dims| && |c| == |shape| && Positive(shape)
    ensures Sweep(shape, dims, k + 1, c, 1) == Box(shape, dims, k, c[dims[k] := 0])
  {
    assert Sweep(shape, dims, k + 1, c, 0) == [];
  }

  ghost predicate SweepIs<V>(
    op: (V, V) -> V, v: seq<nat> -> V, shape: seq<nat>, dims: seq<nat>, k: nat, c: seq<nat>, n: nat)
    requires GoodDims(shape, dims) && k < |dims| && |c| == |shape| && Positive(shape) && n > 0
  {
    && Sweep(shape, dims, k + 1, c, n) != []
    && Reduce(op, LineValues(op, v, shape, dims, k, c, n)) == Reduce(op, Values(v, Sweep(shape, dims, k + 1, c, n)))
  }

  lemma SweepBase<V>(op: (V, V) -> V, v: seq<nat> -> V, shape: seq<nat>, dims: seq<nat>, k: nat, c: seq<nat>)
    requires GoodDims(shape, dims) && k < |dims| && |c| == |shape| && Positive(shape)
    ensures SweepIs(op, v, shape, dims, k, c, 1)
  {
    BoxNotEmpty(shape, dims, k, c[dims[k] := 0]);
    SweepOne(shape, dims, k, c);
    assert LineValues(op, v, shape, dims, k, c, 1) == [BoxValue(op, v, shape, dims, k, c[dims[k] := 0])];
  }

  lemma SweepNext<V(
    !new)>(op: (V, V) -> V, v: seq<nat> -> V, shape: seq<nat>, dims: seq<nat>, k: nat, c: seq<nat>, n: nat)
    requires GoodDims(shape, dims) && k < |dims| && |c| == |shape| && Positive(shape) && n > 1
    requires Monoidal(op) && SweepIs(op, v, shape, dims, k, c, n - 1)
    ensures SweepIs(op, v, shape, dims, k, c, n)
  {
    var last := Box(shape, dims, k, c[dims[k] := n - 1]);
    BoxNotEmpty(shape, dims, k, c[dims[k] := n - 1]);
    LineSnoc(op, v, shape, dims, k, c, n);
    SweepStep(op, v, Sweep(shape, dims, k + 1, c, n - 1), last, LineValues(op, v, shape, dims, k, c, n - 1));
  }

  lemma SweepStep<V(!new)>(op: (V, V) -> V, v: seq<nat> -> V, before: seq<seq<nat>>, last: seq<seq<nat>>, line: seq<V>)
    requires Monoidal(op) && before != [] && last != [] && line != []
    requires Reduce(op, line) == Reduce(op, Values(v, before))
    ensures Reduce(op, line + [Reduce(op, Values(v, last))]) == Reduce(op, Values(v, before + last))
  {
    JoinLast(op, v, before, last);
    ReduceSnoc(op, line, Reduce(op, Values(v, last)));
  }

  /** Reducing the partial reductions along one more dimension. */
  lemma {:induction false} SweepReduces<V(!new)>(
    op: (V, V) -> V, v: seq<nat> -> V, shape: seq<nat>, dims: seq<nat>, k: nat, c: seq<nat>, n: nat)
    requires Monoidal(op) && GoodDims(shape, dims) && k < |dims| && |c| == |shape| && Positive(shape) && n > 0
    ensures SweepIs(op, v, shape, dims, k, c, n)
  {
    if n == 1 {
      SweepBase(op, v, shape, dims, k, c);
    } else {
      SweepReduces(op, v, shape, dims, k, c, n - 1);
      SweepNext(op, v, shape, dims, k, c, n);
    }
  }

  // ------------------------------------------------------------------------------------------
  // Runs: any interleaving of the groups' all-reduces

  /** The Partial mesh dimensions, in order. */
  function PartialDims(pl: seq<Placement>): (dims: seq<nat>)
    ensures forall i :: i in dims <==> 0 <= i < |pl| && pl[i].Partial?
    ensures Distinct(dims)
  {
    if pl == [] then []
    else
      var n := |pl| - 1;
      var dims := PartialDims(pl[..n]);
      assert forall i :: 0 <= i < n ==> pl[..n][i] == pl[i];
      assert forall j :: 0 <= j < |dims| ==> dims[j] in dims;
      if pl[n].Partial? then dims + [n] else dims
  }

  lemma DimsAreGood(l: Layout)
    requires ValidLayout(l)
    ensures GoodDims(l.mesh.shape, PartialDims(l.placements))
  {
    var dims := PartialDims(l.placements);
    forall j | 0 <= j < |dims| ensures dims[j] < |l.mesh.shape| {
      assert dims[j] in dims;
    }
  }

  /** How many all-reduces each rank has completed for a cell, and the buffer it holds. */
  datatype Progress<V> = Progress(count: map<nat, nat>, buf: map<nat, V>)

  ghost predicate OnMesh<V>(l: Layout, s: Progress<V>)
    requires ValidLayout(l)
  {
    forall c :: InRange(l.mesh.shape, c) ==> RankAt(l.mesh, c) in s.count && RankAt(l.mesh, c) in s.buf
  }

  /** Every member of the group has reached its `k`-th all-reduce. */
  ghost predicate CanFire<V>(l: Layout, s: Progress<V>, k: nat, g: seq<nat>)
    requires ValidLayout(l)
  {
    DimsAreGood(l);
    && k < |PartialDims(l.placements)| && g in SubGroups(l.mesh, PartialDims(l.placements)[k])
    && forall r :: r in g ==> r in s.count && r in s.buf && s.count[r] == k
  }

  ghost function Gather<V>(buf: map<nat, V>, g: seq<nat>): (r: seq<V>)
    requires forall r :: r in g ==> r in buf
    ensures |r| == |g| && forall i :: 0 <= i < |g| ==> r[i] == buf[g[i]]
  {
    assert forall i :: 0 <= i < |g| ==> g[i] in g;
    seq(|g|, i requires 0 <= i < |g| => buf[g[i]])
  }

  /** One all-reduce. */
  ghost function Fire<V>(op: (V, V) -> V, s: Progress<V>, k: nat, g: seq<nat>): Progress<V>
    requires g != [] && forall r :: r in g ==> r in s.count && r in s.buf
  {
    var sum := Reduce(op, Gather(s.buf, g));
    Progress(map r | r in s.count :: if r in g then k + 1 else s.count[r],
             map r | r in s.buf :: if r in g then sum else s.buf[r])
  }

  ghost function CountAt<V>(l: Layout, s: Progress<V>, c: seq<nat>): nat
    requires ValidLayout(l) && OnMesh(l, s) && InRange(l.mesh.shape, c)
  {
    s.count[RankAt(l.mesh, c)]
  }

  /** A rank holds the reduction over the box its all-reduces have covered so far. */
  ghost predicate HoldsBox<V>(l: Layout, op: (V, V) -> V, v: seq<nat> -> V, s: Progress<V>, c: seq<nat>)
    requires ValidLayout(l) && OnMesh(l, s) && InRange(l.mesh.shape, c)
  {
    DimsAreGood(l);
    var dims := PartialDims(l.placements);
    && CountAt(l, s, c) <= |dims|
    && s.buf[RankAt(l.mesh, c)] == BoxValue(op, v, l.mesh.shape, dims, CountAt(l, s, c), c)
  }

  ghost predicate SameLine(l: Layout, k: nat, a: seq<nat>, b: seq<nat>)
    requires ValidLayout(l) && InRange(l.mesh.shape, a) && InRange(l.mesh.shape, b) && k < |PartialDims(l.placements)|
  {
    DimsAreGood(l);
    Without(a, PartialDims(l.placements)[k]) == Without(b, PartialDims(l.placements)[k])
  }

  /** The members of a group pass it together. */
  ghost predicate Aligned<V>(l: Layout, s: Progress<V>)
    requires ValidLayout(l) && OnMesh(l, s)
  {
    forall k, a, b | 0 <= k < |PartialDims(l.placements)| && InRange(l.mesh.shape, a) && InRange(l.mesh.shape, b) &&
      SameLine(l, k, a, b) :: CountAt(l, s, a) > k ==> CountAt(l, s, b) > k
  }

  ghost predicate Inv<V>(l: Layout, op: (V, V) -> V, v: seq<nat> -> V, s: Progress<V>)
    requires ValidLayout(l)
  {
    OnMesh(l, s) && Aligned(l, s) && forall c :: InRange(l.mesh.shape, c) ==> HoldsBox(l, op, v, s, c)
  }

  lemma LineAt(m: Mesh, i: nat, c: seq<nat>, j: nat)
    requires ValidMesh(m) && i < |m.shape| && InRange(m.shape, c) && j < m.shape[i]
    ensures InRange(m.shape, c[i := j]) && InRange(Without(m.shape, i), Without(c, i))
    ensures Line(m, i, Without(c, i))[j] == RankAt(m, c[i := j])
  {
    WithoutInRange(m.shape, i, c);
    InsertWithout(c, i, j);
  }

  /** A group seen from one of its members. */
  lemma GroupOfMember(m: Mesh, i: nat, g: seq<nat>, c: seq<nat>)
    requires ValidMesh(m) && i < |m.shape| && InRange(m.shape, c) && g in SubGroups(m, i) && RankAt(m, c) in g
    ensures InRange(Without(m.shape, i), Without(c, i)) && g == Line(m, i, Without(c, i))
  {
    WithoutInRange(m.shape, i, c);
    var n :| 0 <= n < |SubGroups(m, i)| && SubGroups(m, i)[n] == g;
    InLineIff(m, i, OtherCells(m, i)[n], c);
  }

  lemma GroupNotEmpty(m: Mesh, i: nat, g: seq<nat>)
    requires ValidMesh(m) && i < |m.shape| && g in SubGroups(m, i)
    ensures g != []
  {
    var n :| 0 <= n < |SubGroups(m, i)| && SubGroups(m, i)[n] == g;
  }

  lemma FiredValue<V(
    !new)>(l: Layout, op: (V, V) -> V, v: seq<nat> -> V, s: Progress<V>, k: nat, g: seq<nat>, c: seq<nat>)
    requires ValidLayout(l) && Monoidal(op) && Inv(l, op, v, s) && CanFire(l, s, k, g)
    requires InRange(l.mesh.shape, c) && RankAt(l.mesh, c) in g
    ensures GoodDims(l.mesh.shape, PartialDims(l.placements)) && g != []
    ensures Reduce(op, Gather(s.buf, g)) == BoxValue(op, v, l.mesh.shape, PartialDims(l.placements), k + 1, c)
  {
    DimsAreGood(l);
    var shape, dims := l.mesh.shape, PartialDims(l.placements);
    var i := dims[k];
    GroupOfMember(l.mesh, i, g, c);
    SweepReduces(op, v, shape, dims, k, c, shape[i]);
    var line := LineValues(op, v, shape, dims, k, c, shape[i]);
    forall j | 0 <= j < |g| ensures Gather(s.buf, g)[j] == line[j] {
      assert g[j] in g;
      LineAt(l.mesh, i, c, j);
      assert HoldsBox(l, op, v, s, c[i := j]);
    }
    assert Gather(s.buf, g) == line;
  }

  lemma FireKeepsBoxes<V(
    !new)>(l: Layout, op: (V, V) -> V, v: seq<nat> -> V, s: Progress<V>, k: nat, g: seq<nat>, c: seq<nat>)
    requires ValidLayout(l) && Monoidal(op) && Inv(l, op, v, s) && CanFire(l, s, k, g)
    requires InRange(l.mesh.shape, c)
    ensures g != [] && OnMesh(l, Fire(op, s, k, g)) && HoldsBox(l, op, v, Fire(op, s, k, g), c)
  {
    DimsAreGood(l);
    GroupNotEmpty(l.mesh, PartialDims(l.placements)[k], g);
    assert HoldsBox(l, op, v, s, c);
    if RankAt(l.mesh, c) in g {
      FiredValue(l, op, v, s, k, g, c);
    }
  }

  lemma FireKeepsAligned<V(!new)>(
    l: Layout, op: (V, V) -> V, v: seq<nat> -> V, s: Progress<V>, k: nat, g: seq<nat>, j: nat, a: seq<nat>, b: seq<nat>)
    requires ValidLayout(l) && Inv(l, op, v, s) && CanFire(l, s, k, g)
    requires InRange(l.mesh.shape, a) && InRange(l.mesh.shape, b) && j < |PartialDims(l.placements)|
    requires SameLine(l, j, a, b)
    ensures g != [] && OnMesh(l, Fire(op, s, k, g))
    ensures CountAt(l, Fire(op, s, k, g), a) > j ==> CountAt(l, Fire(op, s, k, g), b) > j
  {
    DimsAreGood(l);
    var dims := PartialDims(l.placements);
    GroupNotEmpty(l.mesh, dims[k], g);
    assert CountAt(l, s, a) > j ==> CountAt(l, s, b) > j;
    if j == k && RankAt(l.mesh, a) in g {
      MemberFollows(l.mesh, dims[k], g, a, b);
    }
  }

  lemma MemberFollows(m: Mesh, i: nat, g: seq<nat>, a: seq<nat>, b: seq<nat>)
    requires ValidMesh(m) && i < |m.shape| && InRange(m.shape, a) && InRange(m.shape, b) && g in SubGroups(m, i)
    requires RankAt(m, a) in g && Without(a, i) == Without(b, i)
    ensures RankAt(m, b) in g
  {
    var n :| 0 <= n < |SubGroups(m, i)| && SubGroups(m, i)[n] == g;
    var other := OtherCells(m, i)[n];
    InLineIff(m, i, other, a);
    InLineIff(m, i, other, b);
  }

  lemma FireKeepsInv<V(!new)>(l: Layout, op: (V, V) -> V, v: seq<nat> -> V, s: Progress<V>, k: nat, g: seq<nat>)
    requires ValidLayout(l) && Monoidal(op) && Inv(l, op, v, s) && CanFire(l, s, k, g)
    ensures g != [] && Inv(l, op, v, Fire(op, s, k, g))
  {
    DimsAreGood(l);
    GroupNotEmpty(l.mesh, PartialDims(l.placements)[k], g);
    var s' := Fire(op, s, k, g);
    forall c | InRange(l.mesh.shape, c) ensures HoldsBox(l, op, v, s', c) {
      FireKeepsBoxes(l, op, v, s, k, g, c);
    }
    forall j, a, b | 0 <= j < |PartialDims(l.placements)| && InRange(l.mesh.shape, a) && InRange(l.mesh.shape, b) &&
      SameLine(l, j, a, b) ensures CountAt(l, s', a) > j ==> CountAt(l, s', b) > j
    {
      FireKeepsAligned(l, op, v, s, k, g, j, a, b);
    }
  }

  // ------------------------------------------------------------------------------------------
  // Whole runs

  ghost predicate Start<V>(l: Layout, v: seq<nat> -> V, s: Progress<V>)
    requires ValidLayout(l)
  {
    OnMesh(l, s) && forall c :: InRange(l.mesh.shape, c) ==> CountAt(l, s, c) == 0 && s.buf[RankAt(l.mesh, c)] == v(c)
  }

  ghost predicate Step<V(!new)>(l: Layout, op: (V, V) -> V, s: Progress<V>, s': Progress<V>)
    requires ValidLayout(l)
  {
    exists k, g :: CanFire(l, s, k, g) && g != [] && s' == Fire(op, s, k, g)
  }

  ghost predicate IsRun<V(!new)>(l: Layout, op: (V, V) -> V, v: seq<nat> -> V, run: seq<Progress<V>>)
    requires ValidLayout(l)
  {
    run != [] && Start(l, v, run[0]) && forall i :: 0 <= i < |run| - 1 ==> Step(l, op, run[i], run[i + 1])
  }

  lemma StartInv<V(!new)>(l: Layout, op: (V, V) -> V, v: seq<nat> -> V, s: Progress<V>)
    requires ValidLayout(l) && Start(l, v, s)
    ensures Inv(l, op, v, s)
  {
    DimsAreGood(l);
    forall c | InRange(l.mesh.shape, c) ensures HoldsBox(l, op, v, s, c) {
      assert Values(v, [c]) == [v(c)];
    }
  }

  lemma {:induction false} RunKeepsInv<V(!new)>(l: Layout, op: (V, V) -> V, v: seq<nat> -> V, run: seq<Progress<V>>)
    requires ValidLayout(l) && Monoidal(op) && IsRun(l, op, v, run)
    ensures Inv(l, op, v, run[|run| - 1])
    decreases |run|
  {
    var n := |run| - 1;
    if n == 0 {
      StartInv(l, op, v, run[0]);
    } else {
      RunKeepsInv(l, op, v, run[..n]);
      assert Step(l, op, run[n - 1], run[n]);
      var k, g :| CanFire(l, run[n - 1], k, g) && g != [] && run[n] == Fire(op, run[n - 1], k, g);
      FireKeepsInv(l, op, v, run[n - 1], k, g);
    }
  }

  ghost predicate Finished<V>(l: Layout, s: Progress<V>)
    requires ValidLayout(l) && OnMesh(l, s)
  {
    forall c :: InRange(l.mesh.shape, c) ==> CountAt(l, s, c) == |PartialDims(l.placements)|
  }

  /** Some rank is furthest behind. */
  lemma {:induction false} Slowest<V>(l: Layout, s: Progress<V>, c: seq<nat>) returns (d: seq<nat>)
    requires ValidLayout(l) && OnMesh(l, s) && InRange(l.mesh.shape, c)
    ensures InRange(l.mesh.shape, d) && CountAt(l, s, d) <= CountAt(l, s, c)
    ensures forall e :: InRange(l.mesh.shape, e) ==> CountAt(l, s, d) <= CountAt(l, s, e)
    decreases CountAt(l, s, c)
  {
    d := c;
    if exists e :: InRange(l.mesh.shape, e) && CountAt(l, s, e) < CountAt(l, s, c) {
      var e :| InRange(l.mesh.shape, e) && CountAt(l, s, e) < CountAt(l, s, c);
      d := Slowest(l, s, e);
    }
  }

  /** The line through a rank that is furthest behind has waited for it. */
  lemma LineWaits<V>(l: Layout, s: Progress<V>, d: seq<nat>, k: nat, r: nat)
    requires ValidLayout(l) && OnMesh(l, s) && Aligned(l, s) && InRange(l.mesh.shape, d)
    requires k < |PartialDims(l.placements)|
    requires CountAt(l, s, d) == k && forall e :: InRange(l.mesh.shape, e) ==> k <= CountAt(l, s, e)
    requires PartialDims(l.placements)[k] < |l.mesh.shape|
    requires InRange(Without(l.mesh.shape, PartialDims(l.placements)[k]), Without(d, PartialDims(l.placements)[k]))
    requires r in Line(l.mesh, PartialDims(l.placements)[k], Without(d, PartialDims(l.placements)[k]))
    ensures r in s.count && r in s.buf && s.count[r] == k
  {
    var i := PartialDims(l.placements)[k];
    var g := Line(l.mesh, i, Without(d, i));
    var j :| 0 <= j < |g| && g[j] == r;
    LineAt(l.mesh, i, d, j);
    var e := d[i := j];
    assert SameLine(l, k, e, d);
    assert CountAt(l, s, e) <= k;
  }

  /** The all-reduces never wait for each other in a circle. */
  lemma ReductionsProgress<V(!new)>(l: Layout, op: (V, V) -> V, v: seq<nat> -> V, s: Progress<V>)
    requires ValidLayout(l) && Inv(l, op, v, s) && !Finished(l, s)
    ensures exists k, g :: CanFire(l, s, k, g)
  {
    DimsAreGood(l);
    var dims := PartialDims(l.placements);
    var c :| InRange(l.mesh.shape, c) && CountAt(l, s, c) != |dims|;
    assert HoldsBox(l, op, v, s, c);
    var d := Slowest(l, s, c);
    var k := CountAt(l, s, d);
    LineListed(l.mesh, dims[k], d);
    var g := Line(l.mesh, dims[k], Without(d, dims[k]));
    forall r | r in g ensures r in s.count && r in s.buf && s.count[r] == k {
      LineWaits(l, s, d, k, r);
    }
    assert CanFire(l, s, k, g);
  }

  ghost function Waiting<V>(l: Layout, s: Progress<V>): set<(nat, nat)> {
    set r, k | r in s.count && s.count[r] <= k < |PartialDims(l.placements)| :: (r, k)
  }

  /** And they run out. */
  lemma FireShrinks<V(!new)>(l: Layout, op: (V, V) -> V, s: Progress<V>, k: nat, g: seq<nat>)
    requires ValidLayout(l) && CanFire(l, s, k, g) && g != []
    ensures Waiting(l, Fire(op, s, k, g)) < Waiting(l, s)
  {
    var s' := Fire(op, s, k, g);
    assert g[0] in g;
    assert (g[0], k) in Waiting(l, s) && (g[0], k) !in Waiting(l, s');
  }

  /** `ranks` lists, once each, exactly the ranks connected to `rank` by Partial sub-groups. */
  ghost predicate ListsComponent(l: Layout, rank: nat, ranks: seq<nat>)
    requires ValidLayout(l)
  {
    Distinct(ranks) && forall r :: r in ranks <==> r in l.mesh.ranks && Linked(PartialSubGroups(l), rank, r)
  }

  ghost function OfRank<V>(m: Mesh, init: nat -> V): seq<nat> -> V
    requires ValidMesh(m)
  {
    (c: seq<nat>) => if InRange(m.shape, c) then init(RankAt(m, c)) else init(0)
  }

  ghost function RanksAt(m: Mesh, cs: seq<seq<nat>>): (r: seq<nat>)
    requires ValidMesh(m) && forall j :: 0 <= j < |cs| ==> InRange(m.shape, cs[j])
    ensures |r| == |cs| && forall j :: 0 <= j < |cs| ==> r[j] == RankAt(m, cs[j])
  {
    seq(|cs|, j requires 0 <= j < |cs| => RankAt(m, cs[j]))
  }

  lemma FullBoxIff(l: Layout, c: seq<nat>, d: seq<nat>)
    requires ValidLayout(l) && InRange(l.mesh.shape, c)
    ensures InBox(l.mesh.shape, PartialDims(l.placements), |PartialDims(l.placements)|, c, d) <==>
            InRange(l.mesh.shape, d) && Agree(l.placements, c, d)
  {
    var dims := PartialDims(l.placements);
    forall i | 0 <= i < |l.mesh.shape| ensures OffDims(dims, |dims|, i) <==> !l.placements[i].Partial? {
      if l.placements[i].Partial? {
        assert i in dims;
        var j :| 0 <= j < |dims| && dims[j] == i;
      } else {
        assert i !in dims;
      }
    }
  }

  lemma BoxIsComponent(l: Layout, c: seq<nat>, ranks: seq<nat>)
    requires ValidLayout(l) && InRange(l.mesh.shape, c) && ListsComponent(l, RankAt(l.mesh, c), ranks)
    ensures GoodDims(l.mesh.shape, PartialDims(l.placements))
    ensures var box := Box(l.mesh.shape, PartialDims(l.placements), |PartialDims(l.placements)|, c);
            && (forall j :: 0 <= j < |box| ==> InRange(l.mesh.shape, box[j]))
            && multiset(RanksAt(l.mesh, box)) == multiset(ranks)
  {
    DimsAreGood(l);
    var shape, dims := l.mesh.shape, PartialDims(l.placements);
    var box := Box(shape, dims, |dims|, c);
    forall d ensures d in box <==> InRange(shape, d) && Agree(l.placements, c, d) {
      BoxHas(shape, dims, |dims|, c, d);
      FullBoxIff(l, c, d);
    }
    assert forall j :: 0 <= j < |box| ==> box[j] in box;
    BoxDistinct(shape, dims, |dims|, c);
    var mine := RanksAt(l.mesh, box);
    forall i, j | 0 <= i < j < |mine| ensures mine[i] != mine[j] {
      if mine[i] == mine[j] {
        RankAtInjective(l.mesh, box[i], box[j]);
      }
    }
    forall r ensures r in mine <==> r in ranks {
      ComponentRank(l, c, box, r);
    }
    SameMembersSameBag(mine, ranks);
  }

  lemma ComponentRank(l: Layout, c: seq<nat>, box: seq<seq<nat>>, r: nat)
    requires ValidLayout(l) && InRange(l.mesh.shape, c)
    requires (forall j :: 0 <= j < |box| ==> InRange(l.mesh.shape, box[j]))
    requires forall d :: d in box <==> InRange(l.mesh.shape, d) && Agree(l.placements, c, d)
    ensures r in RanksAt(l.mesh, box) <==> r in l.mesh.ranks && Linked(PartialSubGroups(l), RankAt(l.mesh, c), r)
  {
    var mine := RanksAt(l.mesh, box);
    if r in mine {
      var j :| 0 <= j < |mine| && mine[j] == r;
      assert box[j] in box;
      ValueBelow(l.mesh.shape, box[j]);
      LinkedIffAgree(l, c, box[j]);
    }
    if r in l.mesh.ranks && Linked(PartialSubGroups(l), RankAt(l.mesh, c), r) {
      var d := CoordsOf(l.mesh, r);
      LinkedIffAgree(l, c, d);
      assert d in box;
      var j :| 0 <= j < |box| && box[j] == d;
      assert mine[j] == r;
    }
  }

  /**
   Every finished run, whatever the interleaving, leaves each rank with the reduction of what the
   ranks of its component started with, taken in any order.
   */
  lemma AxisWiseIsFullReduction<V(!new)>(
    l: Layout, op: (V, V) -> V, init: nat -> V, run: seq<Progress<V>>, c: seq<nat>, ranks: seq<nat>)
    requires ValidLayout(l) && Monoidal(op) && IsRun(l, op, OfRank(l.mesh, init), run)
    requires OnMesh(l, run[|run| - 1]) && Finished(l, run[|run| - 1])
    requires InRange(l.mesh.shape, c) && ListsComponent(l, RankAt(l.mesh, c), ranks)
    ensures ranks != [] && run[|run| - 1].buf[RankAt(l.mesh, c)] == Reduce(op, Values(init, ranks))
  {
    var v, s := OfRank(l.mesh, init), run[|run| - 1];
    RunKeepsInv(l, op, v, run);
    BoxIsComponent(l, c, ranks);
    var shape, dims := l.mesh.shape, PartialDims(l.placements);
    var box := Box(shape, dims, |dims|, c);
    var mine := RanksAt(l.mesh, box);
    BoxNotEmpty(shape, dims, |dims|, c);
    assert HoldsBox(l, op, v, s, c);
    assert Values(v, box) == Values(init, mine);
    assert mine[0] in multiset(ranks);
    ReducePermute(op, init, mine, ranks);
  }

  // ------------------------------------------------------------------------------------------
  // Creating the groups

  lemma OneGroup(m: Mesh, i: nat, rank: nat, v: nat, w: nat)
    requires ValidMesh(m) && i < |m.shape| && v < |SubGroups(m, i)| && w < |SubGroups(m, i)|
    requires rank in SubGroups(m, i)[v] && rank in SubGroups(m, i)[w]
    ensures v == w
  {
    MembersAreMeshRanks(m, i, SubGroups(m, i)[v], rank);
    var c := CoordsOf(m, rank);
    var cells := OtherCells(m, i);
    InLineIff(m, i, cells[v], c);
    InLineIff(m, i, cells[w], c);
    CellsComplete(Without(m.shape, i));
  }

  /** The `new_group` keys asked for along one dimension: every line but one that spans the whole source. */
  ghost function DimCalls(lines: seq<seq<nat>>, full: set<nat>): seq<seq<nat>> {
    if lines == [] then []
    else
      var n := |lines| - 1;
      if RankSet(lines[n]) == full then DimCalls(lines[..n], full)
      else DimCalls(lines[..n], full) + [SortedNats(RankSet(lines[n]))]
  }

  /** What every WORLD rank asks for; nothing here depends on which rank asks. */
  ghost function WorldCalls(m: Mesh, dims: seq<nat>, full: set<nat>): seq<seq<nat>>
    requires ValidMesh(m) && forall j :: 0 <= j < |dims| ==> dims[j] < |m.shape|
  {
    if dims == [] then []
    else WorldCalls(m, dims[..|dims| - 1], full) + DimCalls(SubGroups(m, dims[|dims| - 1]), full)
  }

  /** The handle that stands for a line. */
  ghost predicate Names(g: Groups, full: set<nat>, fullGroup: nat, line: seq<nat>, handle: nat) {
    if RankSet(line) == full then handle == fullGroup
    else SortedNats(RankSet(line)) in g.cache && g.cache[SortedNats(RankSet(line))] == handle
  }

  lemma {:induction false} TouchAllConcat(g: Groups, a: seq<seq<nat>>, b: seq<seq<nat>>)
    ensures TouchAll(g, a + b) == TouchAll(TouchAll(g, a), b)
  {
    if b == [] {
      assert a + b == a;
    } else {
      var n := |b| - 1;
      assert (a + b)[..|a + b| - 1] == a + b[..n];
      TouchAllConcat(g, a, b[..n]);
    }
  }

  lemma {:induction false} TouchAllKeepsNames(
    g: Groups, keys: seq<seq<nat>>, full: set<nat>, fullGroup: nat, line: seq<nat>, handle: nat)
    requires Names(g, full, fullGroup, line, handle)
    ensures Names(TouchAll(g, keys), full, fullGroup, line, handle)
  {
    if keys != [] {
      TouchAllKeepsNames(g, keys[..|keys| - 1], full, fullGroup, line, handle);
    }
  }

  /** The handle for one line: the whole-source group, or one from the cache. */
  method NameLine(cache: GroupCache, line: seq<nat>, full: set<nat>, fullGroup: nat) returns (handle: nat)
    modifies cache
    ensures cache.View() == if RankSet(line) == full then old(cache.View())
            else Touch(old(cache.View()), SortedNats(RankSet(line)))
    ensures Names(cache.View(), full, fullGroup, line, handle)
  {
    handle := fullGroup;
    if RankSet(line) != full {
      handle := cache.GetOrCreate(line);
    }
  }

  /** The rank's own line among the first `n` has been named, if it is there. */
  ghost predicate OwnNamed(
    g: Groups, lines: seq<seq<nat>>, rank: nat, full: set<nat>, fullGroup: nat, mine: seq<nat>, n: nat)
    requires n <= |lines|
  {
    if mine == [] then forall v :: 0 <= v < n ==> rank !in lines[v]
    else |mine| == 1 && exists v :: 0 <= v < n && rank in lines[v] && Names(g, full, fullGroup, lines[v], mine[0])
  }

  lemma DimCallsNext(g: Groups, lines: seq<seq<nat>>, full: set<nat>, n: nat)
    requires n < |lines|
    ensures TouchAll(g, DimCalls(lines[..n + 1], full)) ==
            if RankSet(lines[n]) == full then TouchAll(g, DimCalls(lines[..n], full))
            else Touch(TouchAll(g, DimCalls(lines[..n], full)), SortedNats(RankSet(lines[n])))
  {
    assert lines[..n + 1][..n] == lines[..n];
    TouchOne(g, DimCalls(lines[..n], full), SortedNats(RankSet(lines[n])));
  }

  lemma OwnNamedKept(
    g: Groups, key: seq<nat>, lines: seq<seq<nat>>, rank: nat, full: set<nat>, fullGroup: nat,
    mine: seq<nat>, n: nat)
    requires n <= |lines| && OwnNamed(g, lines, rank, full, fullGroup, mine, n)
    ensures OwnNamed(Touch(g, key), lines, rank, full, fullGroup, mine, n)
  {
    if mine != [] {
      var v :| 0 <= v < n && rank in lines[v] && Names(g, full, fullGroup, lines[v], mine[0]);
      assert Names(Touch(g, key), full, fullGroup, lines[v], mine[0]);
    }
  }

  method CreateDimGroups(cache: GroupCache, lines: seq<seq<nat>>, rank: nat, full: set<nat>, fullGroup: nat)
    returns (mine: seq<nat>)
    requires forall v, w :: 0 <= v < w < |lines| ==> !(rank in lines[v] && rank in lines[w])
    modifies cache
    ensures cache.View() == TouchAll(old(cache.View()), DimCalls(lines, full))
    ensures OwnNamed(cache.View(), lines, rank, full, fullGroup, mine, |lines|)
  {
    mine := [];
    for n := 0 to |lines|
      invariant cache.View() == TouchAll(old(cache.View()), DimCalls(lines[..n], full))
      invariant OwnNamed(cache.View(), lines, rank, full, fullGroup, mine, n)
    {
      OwnNamedKept(cache.View(), SortedNats(RankSet(lines[n])), lines, rank, full, fullGroup, mine, n);
      DimCallsNext(old(cache.View()), lines, full, n);
      var handle := NameLine(cache, lines[n], full, fullGroup);
      if rank in lines[n] {
        mine := mine + [handle];
      }
    }
    assert lines[..|lines|] == lines;
  }

  lemma TouchOne(g: Groups, keys: seq<seq<nat>>, key: seq<nat>)
    ensures TouchAll(g, keys + [key]) == Touch(TouchAll(g, keys), key)
  {
    assert (keys + [key])[..|keys|] == keys;
  }

  datatype Reduction = Reduction(dim: nat, op: ReduceOp)

  function DimsOf(reductions: seq<Reduction>): (r: seq<nat>)
    ensures |r| == |reductions| && forall i :: 0 <= i < |r| ==> r[i] == reductions[i].dim
  {
    seq(|reductions|, i requires 0 <= i < |reductions| => reductions[i].dim)
  }

  /** The rank's own line along `dim`, under this handle. */
  ghost predicate NamesOwnLine(g: Groups, m: Mesh, dim: nat, rank: nat, full: set<nat>, fullGroup: nat, handle: nat)
    requires ValidMesh(m) && dim < |m.shape|
  {
    exists v :: 0 <= v < |SubGroups(m, dim)| && rank in SubGroups(m, dim)[v] &&
      Names(g, full, fullGroup, SubGroups(m, dim)[v], handle)
  }

  lemma OwnLineKept(
    g: Groups, keys: seq<seq<nat>>, m: Mesh, dim: nat, rank: nat, full: set<nat>, fullGroup: nat,
    handle: nat)
    requires ValidMesh(m) && dim < |m.shape| && NamesOwnLine(g, m, dim, rank, full, fullGroup, handle)
    ensures NamesOwnLine(TouchAll(g, keys), m, dim, rank, full, fullGroup, handle)
  {
    var v :| 0 <= v < |SubGroups(m, dim)| && rank in SubGroups(m, dim)[v] &&
      Names(g, full, fullGroup, SubGroups(m, dim)[v], handle);
    TouchAllKeepsNames(g, keys, full, fullGroup, SubGroups(m, dim)[v], handle);
  }

  lemma RankHasLine(m: Mesh, dim: nat, rank: nat)
    requires ValidMesh(m) && dim < |m.shape|
    ensures rank in m.ranks <==> exists v :: 0 <= v < |SubGroups(m, dim)| && rank in SubGroups(m, dim)[v]
  {
    if rank in m.ranks {
      var c := CoordsOf(m, rank);
      LineListed(m, dim, c);
      InLineIff(m, dim, Without(c, dim), c);
    }
    if v :| 0 <= v < |SubGroups(m, dim)| && rank in SubGroups(m, dim)[v] {
      MembersAreMeshRanks(m, dim, SubGroups(m, dim)[v], rank);
    }
  }

  method CreateOwnGroup(cache: GroupCache, m: Mesh, dim: nat, rank: nat, full: set<nat>, fullGroup: nat)
    returns (mine: seq<nat>)
    requires ValidMesh(m) && dim < |m.shape|
    modifies cache
    ensures cache.View() == TouchAll(old(cache.View()), DimCalls(SubGroups(m, dim), full))
    ensures |mine| == if rank in m.ranks then 1 else 0
    ensures mine != [] ==> NamesOwnLine(cache.View(), m, dim, rank, full, fullGroup, mine[0])
  {
    var lines := EnumerateSubGroups(m, dim);
    forall v, w | 0 <= v < w < |lines.value| ensures !(rank in lines.value[v] && rank in lines.value[w]) {
      if rank in lines.value[v] && rank in lines.value[w] {
        OneGroup(m, dim, rank, v, w);
      }
    }
    RankHasLine(m, dim, rank);
    mine := CreateDimGroups(cache, lines.value, rank, full, fullGroup);
  }

  /** The groups of the first `n` Partial dimensions, if the rank is in the mesh. */
  ghost predicate OwnGroups(g: Groups, m: Mesh, reductions: seq<Reduction>, rank: nat, full: set<nat>, fullGroup: nat,
                            mine: seq<PartialGroup>, n: nat)
    requires ValidMesh(m) && n <= |reductions| && forall j :: 0 <= j < |reductions| ==> reductions[j].dim < |m.shape|
  {
    && |mine| == (if rank in m.ranks then n else 0)
    && forall j :: 0 <= j < |mine| ==>
         mine[j].op == reductions[j].op && NamesOwnLine(g, m, reductions[j].dim, rank, full, fullGroup, mine[j].group)
  }

  lemma OwnGroupsKept(g: Groups, calls: seq<seq<nat>>, m: Mesh, reductions: seq<Reduction>, rank: nat, full: set<nat>,
                      fullGroup: nat, mine: seq<PartialGroup>, n: nat)
    requires ValidMesh(m) && n <= |reductions| && forall j :: 0 <= j < |reductions| ==> reductions[j].dim < |m.shape|
    requires OwnGroups(g, m, reductions, rank, full, fullGroup, mine, n)
    ensures OwnGroups(TouchAll(g, calls), m, reductions, rank, full, fullGroup, mine, n)
  {
    forall j | 0 <= j < |mine|
      ensures NamesOwnLine(TouchAll(g, calls), m, reductions[j].dim, rank, full, fullGroup, mine[j].group)
    {
      OwnLineKept(g, calls, m, reductions[j].dim, rank, full, fullGroup, mine[j].group);
    }
  }

  lemma OwnGroupsGrow(g: Groups, m: Mesh, reductions: seq<Reduction>, rank: nat, full: set<nat>, fullGroup: nat,
                      mine: seq<PartialGroup>, n: nat, handle: nat)
    requires ValidMesh(m) && n < |reductions| && forall j :: 0 <= j < |reductions| ==> reductions[j].dim < |m.shape|
    requires OwnGroups(g, m, reductions, rank, full, fullGroup, mine, n) && rank in m.ranks
    requires NamesOwnLine(g, m, reductions[n].dim, rank, full, fullGroup, handle)
    ensures OwnGroups(g, m, reductions, rank, full, fullGroup, mine + [PartialGroup(handle, reductions[n].op)], n + 1)
  {
  }

  lemma WorldCallsNext(g: Groups, m: Mesh, dims: seq<nat>, full: set<nat>, n: nat)
    requires ValidMesh(m) && n < |dims| && forall j :: 0 <= j < |dims| ==> dims[j] < |m.shape|
    ensures TouchAll(g, WorldCalls(m, dims[..n + 1], full)) ==
            TouchAll(TouchAll(g, WorldCalls(m, dims[..n], full)), DimCalls(SubGroups(m, dims[n]), full))
  {
    assert dims[..n + 1][..n] == dims[..n];
    TouchAllConcat(g, WorldCalls(m, dims[..n], full), DimCalls(SubGroups(m, dims[n]), full));
  }

  method AddOwnGroup(cache: GroupCache, m: Mesh, reductions: seq<Reduction>, rank: nat, full: set<nat>, fullGroup: nat,
                     mine: seq<PartialGroup>, n: nat) returns (more: seq<PartialGroup>)
    requires ValidMesh(m) && n < |reductions| && forall j :: 0 <= j < |reductions| ==> reductions[j].dim < |m.shape|
    requires OwnGroups(cache.View(), m, reductions, rank, full, fullGroup, mine, n)
    modifies cache
    ensures cache.View() == TouchAll(old(cache.View()), DimCalls(SubGroups(m, reductions[n].dim), full))
    ensures OwnGroups(cache.View(), m, reductions, rank, full, fullGroup, more, n + 1)
  {
    OwnGroupsKept(cache.View(), DimCalls(SubGroups(m, reductions[n].dim), full), m, reductions, rank, full, fullGroup,
                  mine, n);
    var own := CreateOwnGroup(cache, m, reductions[n].dim, rank, full, fullGroup);
    more := mine;
    if own != [] {
      more := mine + [PartialGroup(own[0], reductions[n].op)];
      OwnGroupsGrow(cache.View(), m, reductions, rank, full, fullGroup, mine, n, own[0]);
    }
  }

  /** One group per Partial dimension, the rank's own line; WORLD ranks all issue the same `new_group` calls. */
  method CreatePartialGroups(
    cache: GroupCache, m: Mesh, reductions: seq<Reduction>, rank: nat, fullRanks: seq<nat>, fullGroup: nat)
    returns (mine: seq<PartialGroup>)
    requires ValidMesh(m) && forall j :: 0 <= j < |reductions| ==> reductions[j].dim < |m.shape|
    modifies cache
    ensures cache.View() == TouchAll(old(cache.View()), WorldCalls(m, DimsOf(reductions), RankSet(fullRanks)))
    ensures OwnGroups(cache.View(), m, reductions, rank, RankSet(fullRanks), fullGroup, mine, |reductions|)
  {
    mine := [];
    var full := RankSet(fullRanks);
    ghost var dims := DimsOf(reductions);
    for n := 0 to |reductions|
      invariant cache.View() == TouchAll(old(cache.View()), WorldCalls(m, dims[..n], full))
      invariant OwnGroups(cache.View(), m, reductions, rank, full, fullGroup, mine, n)
    {
      mine := AddOwnGroup(cache, m, reductions, rank, full, fullGroup, mine, n);
      WorldCallsNext(old(cache.View()), m, dims, full, n);
    }
    assert dims[..|dims|] == dims;
  }
}
