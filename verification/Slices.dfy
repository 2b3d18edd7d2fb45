/** Cutting a local tensor into equal blocks, one per grid cell (src/etha/comm/utils.py). */
module Slices {
  import opened Base
  import opened Radix

  datatype Slice = Slice(lo: nat, hi: nat)

  /** The block of cell `c` along one dimension of extent `extent` cut `cuts` ways. */
  function Block(extent: nat, cuts: nat, c: nat): Slice
    requires cuts > 0
  {
    Slice(c * (extent / cuts), (c + 1) * (extent / cuts))
  }

  /** `[1] * ndim` appended, then truncated to the tensor's dimensions. */
  function Extended(cuts: seq<nat>, ndim: nat): (r: seq<nat>)
    ensures |r| == ndim
    ensures forall d :: 0 <= d < ndim ==> r[d] == if d < |cuts| then cuts[d] else 1
  {
    (cuts + seq(ndim, _ => 1))[..ndim]
  }

  function Cuts(extent: nat, cuts: nat): (r: seq<Slice>)
    requires cuts > 0
    ensures |r| == cuts && forall c :: 0 <= c < cuts ==> r[c] == Block(extent, cuts, c)
  {
    seq(cuts, c requires 0 <= c < cuts => Block(extent, cuts, c))
  }

  function SlicersPerDim(shape: seq<nat>, cuts: seq<nat>): (r: seq<seq<Slice>>)
    requires |cuts| <= |shape| && Positive(cuts)
    ensures |r| == |cuts| && forall d :: 0 <= d < |cuts| ==> r[d] == Cuts(shape[d], cuts[d])
  {
    seq(|cuts|, d requires 0 <= d < |cuts| => Cuts(shape[d], cuts[d]))
  }

  method GetSlicerTuples(shape: seq<nat>, cuts: seq<nat>) returns (tuples: seq<seq<Slice>>)
    requires |cuts| <= |shape| && Positive(cuts)
    ensures tuples == Product(SlicersPerDim(shape, cuts))
  {
    var perDim: seq<seq<Slice>> := [];
    for d := 0 to |cuts|
      invariant perDim == SlicersPerDim(shape, cuts)[..d]
    {
      var size := shape[d] / cuts[d];
      var row := seq(cuts[d], i requires 0 <= i < cuts[d] => Slice(i * size, (i + 1) * size));
      assert row == Cuts(shape[d], cuts[d]);
      perDim := perDim + [row];
    }
    assert perDim == SlicersPerDim(shape, cuts);
    tuples := Product(perDim);
  }

  /** The slices of one cell: a block along every cut dimension, everything along the others. */
  function CellSlices(shape: seq<nat>, cuts: seq<nat>, cell: seq<nat>): (r: seq<Slice>)
    requires |cell| <= |cuts| == |shape| && Positive(cuts)
    ensures |r| == |shape|
    ensures forall d :: 0 <= d < |shape| ==> r[d] == Block(shape[d], cuts[d], if d < |cell| then cell[d] else 0)
  {
    seq(|shape|, d requires 0 <= d < |shape| => Block(shape[d], cuts[d], if d < |cell| then cell[d] else 0))
  }

  function Padded(cell: seq<nat>, n: nat): (r: seq<nat>)
    requires |cell| <= n
    ensures |r| == n && forall d :: 0 <= d < n ==> r[d] == if d < |cell| then cell[d] else 0
  {
    cell + seq(n - |cell|, _ => 0)
  }

  /** Dimensions cut once add nothing to the row-major number. */
  lemma {:induction false} ValuePadded(cuts: seq<nat>, cell: seq<nat>, n: nat)
    requires |cell| <= n <= |cuts| && forall d :: |cell| <= d < n ==> cuts[d] == 1
    ensures Value(cuts[..n], Padded(cell, n)) == Value(cuts[..|cell|], cell)
    decreases n
  {
    if n == |cell| {
      assert Padded(cell, n) == cell;
    } else {
      ValuePadded(cuts, cell, n - 1);
      assert cuts[..n][..n - 1] == cuts[..n - 1];
      assert Padded(cell, n)[..n - 1] == Padded(cell, n - 1);
    }
  }

  ghost predicate CellFits(cuts: seq<nat>, cell: seq<nat>) {
    && |cell| <= |cuts|
    && (forall d :: 0 <= d < |cell| ==> cell[d] < cuts[d])
    && forall d :: |cell| <= d < |cuts| ==> cuts[d] == 1
  }

  lemma PickOfCell(shape: seq<nat>, cuts: seq<nat>, cell: seq<nat>)
    requires |cuts| == |shape| && CellFits(cuts, cell) && Positive(cuts)
    ensures Lengths(SlicersPerDim(shape, cuts)) == cuts && InRange(cuts, Padded(cell, |cuts|))
    ensures Pick(SlicersPerDim(shape, cuts), Padded(cell, |cuts|)) == CellSlices(shape, cuts, cell)
  {
    var lists := SlicersPerDim(shape, cuts);
    assert Lengths(lists) == cuts;
    var picked, slices := Pick(lists, Padded(cell, |cuts|)), CellSlices(shape, cuts, cell);
    forall d | 0 <= d < |shape| ensures picked[d] == slices[d] {
      assert lists[d] == Cuts(shape[d], cuts[d]);
    }
  }

  /** The tuple at a cell's row-major number is that cell's slices, trailing dimensions included. */
  lemma TupleOfCell(shape: seq<nat>, cuts: seq<nat>, cell: seq<nat>)
    requires |cuts| == |shape| && CellFits(cuts, cell) && Positive(cuts)
    ensures Value(cuts[..|cell|], cell) < |Product(SlicersPerDim(shape, cuts))|
    ensures Product(SlicersPerDim(shape, cuts))[Value(cuts[..|cell|], cell)] == CellSlices(shape, cuts, cell)
  {
    PickOfCell(shape, cuts, cell);
    assert cuts[..|cuts|] == cuts;
    ValuePadded(cuts, cell, |cuts|);
    ProductAt(SlicersPerDim(shape, cuts), Padded(cell, |cuts|));
  }

  /** The index is accumulated from the last coordinate, with a running multiplier. */
  method LinearIndex(cell: seq<nat>, cuts: seq<nat>) returns (linear: nat)
    requires |cell| <= |cuts|
    ensures linear == Value(cuts[..|cell|], cell)
  {
    linear := 0;
    var multiplier: nat := 1;
    var i := |cell|;
    assert cell[..i] == cell;
    while i > 0
      invariant 0 <= i <= |cell|
      invariant Value(cuts[..|cell|], cell) == Value(cuts[..i], cell[..i]) * multiplier + linear
    {
      i := i - 1;
      assert cuts[..i + 1][..i] == cuts[..i] && cell[..i + 1][..i] == cell[..i];
      LinearStep(Value(cuts[..i], cell[..i]), cuts[i], cell[i], multiplier, linear);
      linear := linear + cell[i] * multiplier;
      multiplier := multiplier * cuts[i];
    }
  }

  method GetSliceFromMultiIndex(cell: seq<nat>, shape: seq<nat>, cuts: seq<nat>, tuples: seq<seq<Slice>>)
    returns (slices: seq<Slice>)
    requires |cuts| == |shape| && CellFits(cuts, cell) && Positive(cuts)
    requires tuples == Product(SlicersPerDim(shape, cuts))
    ensures slices == CellSlices(shape, cuts, cell)
  {
    var linear := LinearIndex(cell, cuts);
    TupleOfCell(shape, cuts, cell);
    slices := tuples[linear];
  }

  lemma LinearStep(v: nat, cut: nat, c: nat, m: nat, l: nat)
    ensures (v * cut + c) * m + l == v * (m * cut) + (l + c * m)
  {
    assert (v * cut + c) * m == (v * cut) * m + c * m;
    MulAssoc(v, cut, m);
  }

  // ------------------------------------------------------------------------------------------
  // Blocks tile the tensor

  /** With an even cut, an element lies in exactly the block its quotient names. */
  lemma InBlockIff(b: nat, cuts: nat, c: nat, e: nat)
    requires b > 0 && cuts > 0
    ensures var s := Block(cuts * b, cuts, c); s == Slice(c * b, (c + 1) * b) && (s.lo <= e < s.hi <==> e / b == c)
  {
    DivModOf(b, 0, cuts);
    assert b * cuts + 0 == cuts * b;
    assert (c + 1) * b == c * b + b;
    assert e == (e / b) * b + e % b;
    if c * b <= e < (c + 1) * b {
      DivModOf(c, e - c * b, b);
    }
  }
}
