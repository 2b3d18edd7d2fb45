/** The byte layout of one bucket (src/etha/comm/ir.py): offsets, packing and unpacking. */
module BucketBytes {
  import opened Base

  type Byte = bv8

  /** Bytes before chunk `n`. */
  function Start(sizes: seq<nat>, n: nat): nat
    requires n <= |sizes|
  {
    if n == 0 then 0 else Start(sizes, n - 1) + sizes[n - 1]
  }

  lemma {:induction false} StartRises(sizes: seq<nat>, i: nat, j: nat)
    requires i <= j <= |sizes|
    ensures Start(sizes, i) <= Start(sizes, j)
    ensures i < j ==> Start(sizes, i) + sizes[i] <= Start(sizes, j)
    decreases j
  {
    if i < j {
      StartRises(sizes, i, j - 1);
    }
  }

  method Offsets(sizes: seq<nat>) returns (offsets: seq<nat>, total: nat)
    ensures |offsets| == |sizes| && forall i :: 0 <= i < |sizes| ==> offsets[i] == Start(sizes, i)
    ensures total == Start(sizes, |sizes|)
    ensures sizes != [] ==> total == offsets[|sizes| - 1] + sizes[|sizes| - 1]
  {
    offsets, total := [], 0;
    for i := 0 to |sizes|
      invariant |offsets| == i && forall k :: 0 <= k < i ==> offsets[k] == Start(sizes, k)
      invariant total == Start(sizes, i)
    {
      offsets := offsets + [total];
      total := total + sizes[i];
    }
  }

  ghost predicate Holds(sizes: seq<nat>, i: nat, b: nat)
    requires i < |sizes|
  {
    Start(sizes, i) <= b < Start(sizes, i) + sizes[i]
  }

  /** Every byte of the bucket belongs to a chunk. */
  lemma {:induction false} SomeChunkHolds(sizes: seq<nat>, n: nat, b: nat) returns (i: nat)
    requires n <= |sizes| && b < Start(sizes, n)
    ensures i < n && Holds(sizes, i, b)
  {
    if b >= Start(sizes, n - 1) {
      i := n - 1;
    } else {
      i := SomeChunkHolds(sizes, n - 1, b);
    }
  }

  /** And to one only, inside the buffer: the chunks tile it. */
  lemma OneChunkHolds(sizes: seq<nat>, i: nat, j: nat, b: nat)
    requires i < |sizes| && j < |sizes| && Holds(sizes, i, b) && Holds(sizes, j, b)
    ensures i == j && b < Start(sizes, |sizes|)
  {
    if i < j {
      StartRises(sizes, i, j);
    } else if j < i {
      StartRises(sizes, j, i);
    }
    StartRises(sizes, i, |sizes|);
  }

  function Lengths(chunks: seq<seq<Byte>>): (r: seq<nat>)
    ensures |r| == |chunks| && forall i :: 0 <= i < |r| ==> r[i] == |chunks[i]|
  {
    seq(|chunks|, i requires 0 <= i < |chunks| => |chunks[i]|)
  }

  /** The buffer holds chunk `i` at its offset. */
  ghost predicate Placed(buffer: seq<Byte>, chunks: seq<seq<Byte>>, i: nat)
    requires i < |chunks|
  {
    var at := Start(Lengths(chunks), i);
    at + |chunks[i]| <= |buffer| && buffer[at..at + |chunks[i]|] == chunks[i]
  }

  /** Copies one chunk into its slice, byte by byte, and nothing else. */
  method CopyInto(buffer: array<Byte>, at: nat, chunk: seq<Byte>)
    requires at + |chunk| <= buffer.Length
    modifies buffer
    ensures buffer[..] == old(buffer[..at]) + chunk + old(buffer[at + |chunk|..])
  {
    for k := 0 to |chunk|
      invariant buffer[..at] == old(buffer[..at]) && buffer[at + |chunk|..] == old(buffer[at + |chunk|..])
      invariant buffer[at..at + k] == chunk[..k]
    {
      buffer[at + k] := chunk[k];
      assert buffer[at..at + k + 1] == buffer[at..at + k] + [chunk[k]];
    }
    assert buffer[..] == buffer[..at] + buffer[at..at + |chunk|] + buffer[at + |chunk|..];
  }

  lemma PlacedStays(before: seq<Byte>, after: seq<Byte>, chunks: seq<seq<Byte>>, i: nat, j: nat)
    requires i < j < |chunks| && Placed(before, chunks, i)
    requires var at := Start(Lengths(chunks), j);
             && at + |chunks[j]| <= |before| == |after|
             && after == before[..at] + chunks[j] + before[at + |chunks[j]|..]
    ensures Placed(after, chunks, i)
  {
    StartRises(Lengths(chunks), i, j);
    var a, at := Start(Lengths(chunks), i), Start(Lengths(chunks), j);
    assert after[..at] == before[..at];
    assert after[a..a + |chunks[i]|] == after[..at][a..a + |chunks[i]|];
    assert before[a..a + |chunks[i]|] == before[..at][a..a + |chunks[i]|];
  }

  method Pack(chunks: seq<seq<Byte>>, empty: Byte) returns (buffer: array<Byte>)
    ensures fresh(buffer) && buffer.Length == Start(Lengths(chunks), |chunks|)
    ensures forall i :: 0 <= i < |chunks| ==> Placed(buffer[..], chunks, i)
  {
    var offsets, total := Offsets(Lengths(chunks));
    buffer := new Byte[total](_ => empty);
    for j := 0 to |chunks|
      invariant buffer.Length == total
      invariant forall i :: 0 <= i < j ==> Placed(buffer[..], chunks, i)
    {
      StartRises(Lengths(chunks), j, |chunks|);
      ghost var before := buffer[..];
      CopyInto(buffer, offsets[j], chunks[j]);
      forall i | 0 <= i < j ensures Placed(buffer[..], chunks, i) {
        PlacedStays(before, buffer[..], chunks, i, j);
      }
    }
  }

  /** `chunk` is the `i`-th slice of the buffer. */
  ghost predicate IsSlice(buffer: seq<Byte>, sizes: seq<nat>, i: nat, chunk: seq<Byte>)
    requires i < |sizes|
  {
    var at := Start(sizes, i);
    at + sizes[i] <= |buffer| && chunk == buffer[at..at + sizes[i]]
  }

  method Unpack(buffer: seq<Byte>, sizes: seq<nat>) returns (chunks: seq<seq<Byte>>)
    requires |buffer| == Start(sizes, |sizes|)
    ensures |chunks| == |sizes| && forall i :: 0 <= i < |sizes| ==> IsSlice(buffer, sizes, i, chunks[i])
  {
    var offsets, _ := Offsets(sizes);
    chunks := [];
    for i := 0 to |sizes|
      invariant |chunks| == i && forall k :: 0 <= k < i ==> IsSlice(buffer, sizes, k, chunks[k])
    {
      StartRises(sizes, i, |sizes|);
      var chunk := buffer[offsets[i]..offsets[i] + sizes[i]];
      assert IsSlice(buffer, sizes, i, chunk);
      chunks := chunks + [chunk];
    }
  }

  /** What the receiver takes out is what the sender put in. */
  method RoundTrip(chunks: seq<seq<Byte>>, empty: Byte) returns (back: seq<seq<Byte>>)
    ensures back == chunks
  {
    var buffer := Pack(chunks, empty);
    back := Unpack(buffer[..], Lengths(chunks));
    forall i | 0 <= i < |chunks| ensures back[i] == chunks[i] {
      assert Placed(buffer[..], chunks, i);
      assert IsSlice(buffer[..], Lengths(chunks), i, back[i]);
    }
  }
}
