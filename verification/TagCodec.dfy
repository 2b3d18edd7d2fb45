/**
 The base-N tags that carry "which rank, which local cell" through the gather
 (src/etha/comm/get_m2m_map.py), and what storing them as 32-bit floats does to them.
*/
module TagCodec {
  import opened Base
  import opened IR
  import opened Radix

  function Power(base: nat, n: nat): nat {
    if n == 0 then 1 else Power(base, n - 1) * base
  }

  /** The stamp of local cell `idx` on `rank`. */
  function Tag(rank: nat, base: nat, idx: seq<nat>): nat {
    if idx == [] then rank else Tag(rank, base, idx[..|idx| - 1]) * base + idx[|idx| - 1]
  }

  ghost predicate Below(base: nat, idx: seq<nat>) {
    forall i :: 0 <= i < |idx| ==> idx[i] < base
  }

  method EncodeTag(rank: nat, base: nat, idx: seq<nat>) returns (v: nat)
    ensures v == Tag(rank, base, idx)
  {
    v := rank;
    for k := 0 to |idx|
      invariant v == Tag(rank, base, idx[..k])
    {
      assert idx[..k + 1][..k] == idx[..k];
      v := v * base + idx[k];
    }
    assert idx[..|idx|] == idx;
  }

  lemma {:induction false} TagInjective(r: nat, idx: seq<nat>, r': nat, idx': seq<nat>, base: nat)
    requires |idx| == |idx'| && Below(base, idx) && Below(base, idx')
    requires Tag(r, base, idx) == Tag(r', base, idx')
    ensures r == r' && idx == idx'
  {
    if idx != [] {
      var n := |idx| - 1;
      DivModOf(Tag(r, base, idx[..n]), idx[n], base);
      DivModOf(Tag(r', base, idx'[..n]), idx'[n], base);
      TagInjective(r, idx[..n], r', idx'[..n], base);
      assert idx == idx[..n] + [idx[n]] && idx' == idx'[..n] + [idx'[n]];
    }
  }

  /** The endpoint a number stands for when it is read as a tag with `n` coordinates. */
  function Decode(v: nat, base: nat, n: nat): (e: Endpoint)
    requires base > 0
    ensures |e.cell| == n
    decreases n
  {
    if n == 0 then Endpoint(v, [])
    else
      var outer := Decode(v / base, base, n - 1);
      Endpoint(outer.rank, outer.cell + [v % base])
  }

  /** Peels the coordinates off, last first; `v` is whatever number the tensor holds. */
  method DecodeTag(v: nat, base: nat, n: nat) returns (rank: nat, idx: seq<nat>)
    requires base > 0
    ensures Endpoint(rank, idx) == Decode(v, base, n)
  {
    rank := v;
    idx := [];
    for k := 0 to n
      invariant Decode(v, base, n).rank == Decode(rank, base, n - k).rank
      invariant Decode(v, base, n).cell == Decode(rank, base, n - k).cell + idx
    {
      idx := [rank % base] + idx;
      rank := rank / base;
    }
  }

  lemma {:induction false} TagOfDecode(v: nat, base: nat, n: nat)
    requires base > 0
    ensures Below(base, Decode(v, base, n).cell)
    ensures Tag(Decode(v, base, n).rank, base, Decode(v, base, n).cell) == v
    decreases n
  {
    if n > 0 {
      var q := v / base;
      TagOfDecode(q, base, n - 1);
      Recompose(v, base);
      var e, outer := Decode(v, base, n), Decode(q, base, n - 1);
      assert e.cell[..n - 1] == outer.cell;
    }
  }

  /** Decoding inverts encoding for every rank, dimension count and in-range coordinate. */
  lemma DecodeInvertsEncode(rank: nat, idx: seq<nat>, base: nat)
    requires base > 0 && Below(base, idx)
    ensures Decode(Tag(rank, base, idx), base, |idx|) == Endpoint(rank, idx)
  {
    var e := Decode(Tag(rank, base, idx), base, |idx|);
    TagOfDecode(Tag(rank, base, idx), base, |idx|);
    TagInjective(rank, idx, e.rank, e.cell, base);
  }

  // ------------------------------------------------------------------------------------------
  // Tags pass through a float32 tensor

  const EXACT: nat := 0x100_0000  // two to the 24th, the significand width

  /** Spacing of the float32 numbers around an integer. */
  function Ulp(v: nat): (u: nat)
    ensures u >= 1 && (v < EXACT ==> u == 1) && (v >= EXACT ==> u % 2 == 0)
  {
    if v < EXACT then 1 else 2 * Ulp(v / 2)
  }

  /** Nearest float32 to an integer, ties to an even significand. */
  function Float32(v: nat): nat {
    var u := Ulp(v);
    var q, r := v / u, v % u;
    if 2 * r < u || (2 * r == u && q % 2 == 0) then q * u else (q + 1) * u
  }

  ghost predicate IsPowerOfTwo(u: nat) {
    u == 1 || (u > 1 && u % 2 == 0 && IsPowerOfTwo(u / 2))
  }

  /** Past the exact range the spacing is the power of two that leaves a significand of 24 bits. */
  lemma {:induction false} UlpIsSpacing(v: nat)
    ensures IsPowerOfTwo(Ulp(v)) && v / Ulp(v) < EXACT && (v >= EXACT ==> v / Ulp(v) >= EXACT / 2)
  {
    if v >= EXACT {
      UlpIsSpacing(v / 2);
      var u := Ulp(v / 2);
      assert Ulp(v) == 2 * u && (2 * u) / 2 == u;
      HalfThenDivide(v, u);
    }
  }

  lemma HalfThenDivide(v: nat, u: nat)
    requires u > 0
    ensures v / (2 * u) == (v / 2) / u
  {
    var h, q, r := v / 2, (v / 2) / u, (v / 2) % u;
    Recompose(h, u);
    MulAssoc(q, u, 2);
    HalfOf(v, h, q * u, r);
    DivModOf(q, 2 * r + v % 2, u * 2);
    assert u * 2 == 2 * u;
  }

  lemma HalfOf(v: nat, h: nat, part: nat, r: nat)
    requires h == v / 2 && h == part + r
    ensures v == part * 2 + (2 * r + v % 2)
  {
  }

  /** Rounding inside one step of the spacing, from `lo` to `lo + u`. */
  lemma NearestOf(v: nat, u: nat, q: nat, r: nat, lo: nat, up: bool)
    requires v == lo + r && r < u && up == !(2 * r < u || (2 * r == u && q % 2 == 0))
    ensures var f := if up then lo + u else lo;
            && 2 * f <= 2 * v + u && 2 * v <= 2 * f + u
            && (2 * f == 2 * v + u || 2 * f + u == 2 * v ==> (if up then q + 1 else q) % 2 == 0)
  {
  }

  /** The stored number is a multiple of the spacing, none is nearer, and of two equally near ones it is the even one. */
  lemma Float32IsNearest(v: nat) returns (k: nat)
    ensures var u, f := Ulp(v), Float32(v);
            && f == k * u && 2 * f <= 2 * v + u && 2 * v <= 2 * f + u
            && (2 * f == 2 * v + u || 2 * f + u == 2 * v ==> k % 2 == 0)
  {
    var u := Ulp(v);
    var q, r := v / u, v % u;
    var up := !(2 * r < u || (2 * r == u && q % 2 == 0));
    k := if up then q + 1 else q;
    Recompose(v, u);
    NextMultiple(q, u);
    NearestOf(v, u, q, r, q * u, up);
  }

  lemma NextMultiple(q: nat, u: nat)
    ensures (q + 1) * u == q * u + u
  {
  }

  lemma Float32ExactIff(v: nat)
    ensures Float32(v) == v <==> v % Ulp(v) == 0
  {
    var u := Ulp(v);
    var q, r := v / u, v % u;
    assert v == q * u + r;
    assert (q + 1) * u == q * u + u;
  }

  /** What a target reads back for a stamped cell. */
  function ReadBack(rank: nat, idx: seq<nat>, base: nat): Endpoint
    requires base > 0
  {
    Decode(Float32(Tag(rank, base, idx)), base, |idx|)
  }

  ghost predicate TagExact(rank: nat, idx: seq<nat>, base: nat) {
    Tag(rank, base, idx) % Ulp(Tag(rank, base, idx)) == 0
  }

  /** The stamped endpoint is read back exactly when its tag is a multiple of the float spacing there. */
  lemma TagSurvivesIff(rank: nat, idx: seq<nat>, base: nat)
    requires base > 0 && Below(base, idx)
    ensures ReadBack(rank, idx, base) == Endpoint(rank, idx) <==> TagExact(rank, idx, base)
  {
    var v := Tag(rank, base, idx);
    Float32ExactIff(v);
    DecodeInvertsEncode(rank, idx, base);
    if ReadBack(rank, idx, base) == Endpoint(rank, idx) {
      TagOfDecode(Float32(v), base, |idx|);
    }
  }

  lemma BlockStep(rank: nat, p: nat, base: nat, t: nat, c: nat)
    requires rank * p <= t < (rank + 1) * p && c < base
    ensures rank * (p * base) <= t * base + c < (rank + 1) * (p * base)
  {
    var lo, hi := rank * p, (rank + 1) * p;
    MulMonotone(lo, t, base);
    MulMonotone(t + 1, hi, base);
    assert (t + 1) * base == t * base + base;
    MulAssoc(rank, p, base);
    MulAssoc(rank + 1, p, base);
  }

  lemma {:induction false} TagBounds(rank: nat, base: nat, idx: seq<nat>)
    requires Below(base, idx)
    ensures rank * Power(base, |idx|) <= Tag(rank, base, idx) < (rank + 1) * Power(base, |idx|)
  {
    if idx != [] {
      var n := |idx| - 1;
      TagBounds(rank, base, idx[..n]);
      BlockStep(rank, Power(base, n), base, Tag(rank, base, idx[..n]), idx[n]);
    }
  }

  /** Every tag of a rank survives when the rank's whole code block lies within two to the 24th. */
  lemma TagsSurviveBelowBound(rank: nat, idx: seq<nat>, base: nat)
    requires base > 0 && Below(base, idx) && (rank + 1) * Power(base, |idx|) <= EXACT
    ensures TagExact(rank, idx, base) && ReadBack(rank, idx, base) == Endpoint(rank, idx)
  {
    TagBounds(rank, base, idx);
    TagSurvivesIff(rank, idx, base);
  }

  /** Past the bound, of two cells that differ by one in the last coordinate at least one is misread. */
  lemma TagsLostAboveBound(rank: nat, idx: seq<nat>, base: nat, c: nat)
    requires Below(base, idx) && c + 1 < base && rank * Power(base, |idx| + 1) >= EXACT
    ensures ReadBack(rank, idx + [c], base) != Endpoint(rank, idx + [c]) ||
            ReadBack(rank, idx + [c + 1], base) != Endpoint(rank, idx + [c + 1])
  {
    var low, high := idx + [c], idx + [c + 1];
    var t := Tag(rank, base, low);
    assert low[..|idx|] == idx && high[..|idx|] == idx;
    assert Tag(rank, base, high) == t + 1;
    TagBounds(rank, base, low);
    NeighboursNotBothExact(t);
    TagSurvivesIff(rank, low, base);
    TagSurvivesIff(rank, high, base);
  }

  lemma NeighboursNotBothExact(t: nat)
    requires t >= EXACT
    ensures t % Ulp(t) != 0 || (t + 1) % Ulp(t + 1) != 0
  {
    if t % Ulp(t) == 0 && (t + 1) % Ulp(t + 1) == 0 {
      EvenMultiple(t, Ulp(t));
      EvenMultiple(t + 1, Ulp(t + 1));
    }
  }

  lemma EvenMultiple(v: nat, u: nat)
    requires u > 0 && u % 2 == 0 && v % u == 0
    ensures v % 2 == 0
  {
    var h := u / 2;
    assert v == u * (v / u) + v % u;
    assert u * (v / u) == 2 * (h * (v / u));
  }
}
