/** Mixed-radix numbers and Cartesian products in row-major order (the last place moves fastest). */
module Radix {
  import opened Base

  function Prod(shape: seq<nat>): nat {
    if shape == [] then 1 else Prod(shape[..|shape| - 1]) * shape[|shape| - 1]
  }

  ghost predicate InRange(shape: seq<nat>, idx: seq<nat>) {
    |idx| == |shape| && forall i :: 0 <= i < |shape| ==> idx[i] < shape[i]
  }

  ghost predicate Positive(shape: seq<nat>) {
    forall i :: 0 <= i < |shape| ==> shape[i] > 0
  }

  /** The row-major number of a multi-index. */
  function Value(shape: seq<nat>, idx: seq<nat>): nat
    requires |idx| == |shape|
  {
    if shape == [] then 0
    else Value(shape[..|shape| - 1], idx[..|idx| - 1]) * shape[|shape| - 1] + idx[|idx| - 1]
  }

  /** The multi-index with a given row-major number. */
  function Digits(shape: seq<nat>, v: nat): (r: seq<nat>)
    requires Positive(shape)
    ensures |r| == |shape|
  {
    if shape == [] then []
    else Digits(shape[..|shape| - 1], v / shape[|shape| - 1]) + [v % shape[|shape| - 1]]
  }

  lemma MulMonotone(a: nat, b: nat, c: nat)
    requires a <= b
    ensures a * c <= b * c
  {
    assert b * c == a * c + (b - a) * c;
  }

  lemma MulAssoc(a: nat, b: nat, c: nat)
    ensures (a * b) * c == a * (b * c)
  {
  }

  lemma Recompose(v: nat, m: nat)
    requires m > 0
    ensures (v / m) * m + v % m == v && v % m < m
  {
  }

  lemma DivModOf(q: nat, r: nat, m: nat)
    requires r < m
    ensures (q * m + r) / m == q && (q * m + r) % m == r
  {
    var v := q * m + r;
    assert v == (v / m) * m + v % m;
    var d := v / m - q;
    assert d * m == r - v % m;
    if d >= 1 {
      MulMonotone(1, d, m);
    }
  }

  lemma DivBelow(v: nat, a: nat, m: nat)
    requires m > 0 && v < a * m
    ensures v / m < a
  {
    assert v == (v / m) * m + v % m;
    if v / m >= a {
      MulMonotone(a, v / m, m);
    }
  }

  /** A leading part below `c` and a digit below `m` stay below `c * m`. */
  lemma DigitBelow(i: nat, c: nat, k: nat, m: nat)
    requires i < c && k < m
    ensures i * m + k < c * m
  {
    MulMonotone(i + 1, c, m);
    assert (i + 1) * m == i * m + m;
  }

  lemma {:induction false} ValueBelow(shape: seq<nat>, idx: seq<nat>)
    requires InRange(shape, idx)
    ensures Value(shape, idx) < Prod(shape)
  {
    if shape != [] {
      var n := |shape| - 1;
      ValueBelow(shape[..n], idx[..n]);
      DigitBelow(Value(shape[..n], idx[..n]), Prod(shape[..n]), idx[n], shape[n]);
    }
  }

  lemma {:induction false} DigitsInRange(shape: seq<nat>, v: nat)
    requires Positive(shape)
    ensures InRange(shape, Digits(shape, v))
  {
    if shape != [] {
      var n := |shape| - 1;
      DigitsInRange(shape[..n], v / shape[n]);
    }
  }

  lemma {:induction false} ValueOfDigits(shape: seq<nat>, v: nat)
    requires Positive(shape) && v < Prod(shape)
    ensures InRange(shape, Digits(shape, v)) && Value(shape, Digits(shape, v)) == v
  {
    DigitsInRange(shape, v);
    if shape != [] {
      var n := |shape| - 1;
      DivBelow(v, Prod(shape[..n]), shape[n]);
      ValueOfDigits(shape[..n], v / shape[n]);
      var d := Digits(shape, v);
      assert d[..n] == Digits(shape[..n], v / shape[n]);
      assert v == (v / shape[n]) * shape[n] + v % shape[n];
    }
  }

  lemma {:induction false} DigitsOfValue(shape: seq<nat>, idx: seq<nat>)
    requires InRange(shape, idx)
    ensures Positive(shape) && Digits(shape, Value(shape, idx)) == idx
  {
    if shape != [] {
      var n := |shape| - 1;
      DigitsOfValue(shape[..n], idx[..n]);
      var outer := Value(shape[..n], idx[..n]);
      DivModOf(outer, idx[n], shape[n]);
      assert Value(shape, idx) == outer * shape[n] + idx[n];
      assert Digits(shape, Value(shape, idx)) == Digits(shape[..n], outer) + [idx[n]];
      assert idx == idx[..n] + [idx[n]];
    }
  }

  lemma ValueInjective(shape: seq<nat>, a: seq<nat>, b: seq<nat>)
    requires InRange(shape, a) && InRange(shape, b) && Value(shape, a) == Value(shape, b)
    ensures a == b
  {
    DigitsOfValue(shape, a);
    DigitsOfValue(shape, b);
  }

  lemma {:induction false} ProdPositive(shape: seq<nat>)
    requires Positive(shape)
    ensures Prod(shape) > 0
  {
    if shape != [] {
      ProdPositive(shape[..|shape| - 1]);
      MulMonotone(1, Prod(shape[..|shape| - 1]), shape[|shape| - 1]);
    }
  }

  /** Every multi-index, in row-major order. */
  function Cells(shape: seq<nat>): (r: seq<seq<nat>>)
    requires Positive(shape)
    ensures |r| == Prod(shape)
    ensures forall v :: 0 <= v < |r| ==> r[v] == Digits(shape, v)
  {
    seq(Prod(shape), v requires 0 <= v < Prod(shape) => Digits(shape, v))
  }

  /** Each in-range multi-index is listed, once. */
  lemma CellsComplete(shape: seq<nat>)
    requires Positive(shape)
    ensures Distinct(Cells(shape))
    ensures forall c :: c in Cells(shape) <==> InRange(shape, c)
  {
    var cells := Cells(shape);
    forall i, j | 0 <= i < j < |cells| ensures cells[i] != cells[j] {
      ValueOfDigits(shape, i);
      ValueOfDigits(shape, j);
    }
    forall c ensures c in cells <==> InRange(shape, c) {
      if c in cells {
        var v :| 0 <= v < |cells| && cells[v] == c;
        DigitsInRange(shape, v);
      }
      if InRange(shape, c) {
        ValueBelow(shape, c);
        DigitsOfValue(shape, c);
        assert cells[Value(shape, c)] == c;
      }
    }
  }

  // ------------------------------------------------------------------------------------------
  // itertools.product

  function Extend<T>(prefixes: seq<seq<T>>, xs: seq<T>): seq<seq<T>> {
    if prefixes == [] then []
    else Extend(prefixes[..|prefixes| - 1], xs) +
         seq(|xs|, j requires 0 <= j < |xs| => prefixes[|prefixes| - 1] + [xs[j]])
  }

  function Product<T>(lists: seq<seq<T>>): seq<seq<T>> {
    if lists == [] then [[]] else Extend(Product(lists[..|lists| - 1]), lists[|lists| - 1])
  }

  function Lengths<T>(lists: seq<seq<T>>): (r: seq<nat>)
    ensures |r| == |lists| && forall i :: 0 <= i < |lists| ==> r[i] == |lists[i]|
  {
    seq(|lists|, i requires 0 <= i < |lists| => |lists[i]|)
  }

  /** One element from every list. */
  function Pick<T>(lists: seq<seq<T>>, idx: seq<nat>): (r: seq<T>)
    requires InRange(Lengths(lists), idx)
    ensures |r| == |lists| && forall i :: 0 <= i < |lists| ==> r[i] == lists[i][idx[i]]
  {
    seq(|lists|, i requires 0 <= i < |lists| => lists[i][idx[i]])
  }

  lemma {:induction false} ExtendAt<T>(prefixes: seq<seq<T>>, xs: seq<T>, p: nat, j: nat)
    requires p < |prefixes| && j < |xs|
    ensures |Extend(prefixes, xs)| == |prefixes| * |xs|
    ensures p * |xs| + j < |prefixes| * |xs|
    ensures Extend(prefixes, xs)[p * |xs| + j] == prefixes[p] + [xs[j]]
  {
    var n := |prefixes| - 1;
    ExtendLength(prefixes, xs);
    ExtendLength(prefixes[..n], xs);
    MulMonotone(p + 1, n + 1, |xs|);
    assert (p + 1) * |xs| == p * |xs| + |xs|;
    if p < n {
      ExtendAt(prefixes[..n], xs, p, j);
    }
  }

  lemma {:induction false} ExtendLength<T>(prefixes: seq<seq<T>>, xs: seq<T>)
    ensures |Extend(prefixes, xs)| == |prefixes| * |xs|
  {
    if prefixes != [] {
      var n := |prefixes| - 1;
      ExtendLength(prefixes[..n], xs);
      assert (n + 1) * |xs| == n * |xs| + |xs|;
    }
  }

  /** The product lists its tuples in row-major order. */
  lemma {:induction false} ProductAt<T>(lists: seq<seq<T>>, idx: seq<nat>)
    requires InRange(Lengths(lists), idx)
    ensures Value(Lengths(lists), idx) < |Product(lists)|
    ensures Product(lists)[Value(Lengths(lists), idx)] == Pick(lists, idx)
  {
    if lists != [] {
      var n := |lists| - 1;
      var init, last, i' := lists[..n], lists[n], idx[..n];
      assert Lengths(lists)[..n] == Lengths(init);
      ProductAt(init, i');
      ExtendAt(Product(init), last, Value(Lengths(init), i'), idx[n]);
      assert Pick(lists, idx) == Pick(init, i') + [last[idx[n]]];
    }
  }
}
