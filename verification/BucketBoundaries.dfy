/** Where buckets end and in which order they come out (src/etha/comm/get_buckets.py). */
module BucketBoundaries {
  import opened Base
  import opened IR
  import opened Buckets

  ghost predicate AllFull(bs: seq<seq<Item>>, size: int) {
    forall i :: 0 <= i < |bs| ==> Bytes(bs[i]) >= size
  }

  lemma BytesOfOne(it: Item)
    ensures Bytes([it]) == it.nbytes
  {
    assert [it][..0] == [];
  }

  /** A bucket is only closed once it has reached the size. */
  lemma PlaceClosesFull(p: Packing, it: Item, size: int)
    requires WellFormed(p, size) && AllFull(p.done, size)
    ensures AllFull(Place(p, it, size).done, size)
  {
    if it.nbytes >= size {
      BytesOfOne(it);
    } else {
      GrownGroup(GroupOf(p, it.key), it, size);
    }
  }

  lemma {:induction false} ClosedAreFull(items: seq<Item>, size: int)
    ensures AllFull(PackAll(items, size).done, size)
  {
    if items != [] {
      var init := items[..|items| - 1];
      ClosedAreFull(init, size);
      PackAllWellFormed(init, size);
      PlaceClosesFull(PackAll(init, size), items[|items| - 1], size);
    }
  }

  // ------------------------------------------------------------------------------------------
  // What is left at the end

  /** The leftovers are below the size and follow the dictionary, at most one per key. */
  ghost predicate Leftovers(bs: seq<seq<Item>>, order: seq<BucketKey>, at: seq<nat>, size: int) {
    && |at| == |bs| && (forall i :: 0 <= i < |at| ==> at[i] < |order|)
    && (forall i, j :: 0 <= i < j < |at| ==> at[i] < at[j])
    && forall i :: 0 <= i < |bs| ==> bs[i] != [] && Bytes(bs[i]) < size && bs[i][0].key == order[at[i]]
  }

  lemma LeftoversStay(bs: seq<seq<Item>>, order: seq<BucketKey>, at: seq<nat>, size: int)
    requires order != [] && Leftovers(bs, order[..|order| - 1], at, size)
    ensures Leftovers(bs, order, at, size)
  {
  }

  lemma LeftoversGrow(bs: seq<seq<Item>>, order: seq<BucketKey>, at: seq<nat>, size: int, b: seq<Item>)
    requires order != [] && Leftovers(bs, order[..|order| - 1], at, size)
    requires b != [] && Bytes(b) < size && b[0].key == order[|order| - 1]
    ensures Leftovers(bs + [b], order, at + [|order| - 1], size)
  {
    LeftoversStay(bs, order, at, size);
  }

  lemma {:induction false} FlushIsLeftovers(p: Packing, size: int, order: seq<BucketKey>) returns (at: seq<nat>)
    requires WellFormed(p, size)
    ensures Leftovers(Flush(p.open, order), order, at, size)
  {
    at := [];
    if order != [] {
      var n := |order| - 1;
      at := FlushIsLeftovers(p, size, order[..n]);
      var bs := Flush(p.open, order[..n]);
      if order[n] in p.open && p.open[order[n]].chunks != [] {
        assert GoodGroup(p.open[order[n]], order[n], size);
        LeftoversGrow(bs, order, at, size, p.open[order[n]].chunks);
        at := at + [n];
      } else {
        LeftoversStay(bs, order, at, size);
      }
    }
  }

  /** Every bucket but the last of its key has reached the size. */
  lemma OnlyTheLastIsShort(items: seq<Item>, size: int, i: nat, j: nat)
    requires i < j < |Bucketize(items, size)|
    ensures var bs := Bucketize(items, size);
            bs[i] != [] && bs[j] != [] && (bs[i][0].key == bs[j][0].key ==> Bytes(bs[i]) >= size)
  {
    var p, bs := PackAll(items, size), Bucketize(items, size);
    BucketsAreSound(items, size);
    assert bs[i] in bs && bs[j] in bs;
    ClosedAreFull(items, size);
    PackAllWellFormed(items, size);
    var at := FlushIsLeftovers(p, size, p.order);
    var n := |p.done|;
    if i < n {
      assert bs[i] == p.done[i];
    } else {
      assert at[i - n] < at[j - n];
      assert bs[i] == Flush(p.open, p.order)[i - n] && bs[j] == Flush(p.open, p.order)[j - n];
    }
  }

  // ------------------------------------------------------------------------------------------
  // Order

  ghost predicate AllShort(bs: seq<seq<Item>>, size: int) {
    forall i :: 0 <= i < |bs| ==> Bytes(bs[i]) < size
  }

  function Full(bs: seq<seq<Item>>, size: int): seq<seq<Item>> {
    if bs == [] then []
    else
      var b, rest := bs[|bs| - 1], Full(bs[..|bs| - 1], size);
      if Bytes(b) >= size then rest + [b] else rest
  }

  function Short(bs: seq<seq<Item>>, size: int): seq<seq<Item>> {
    if bs == [] then []
    else
      var b, rest := bs[|bs| - 1], Short(bs[..|bs| - 1], size);
      if Bytes(b) < size then rest + [b] else rest
  }

  lemma FullSnoc(bs: seq<seq<Item>>, b: seq<Item>, size: int)
    ensures Full(bs + [b], size) == if Bytes(b) >= size then Full(bs, size) + [b] else Full(bs, size)
    ensures Short(bs + [b], size) == if Bytes(b) < size then Short(bs, size) + [b] else Short(bs, size)
  {
    assert (bs + [b])[..|bs|] == bs;
  }

  lemma SnocConcat(a: seq<seq<Item>>, b: seq<seq<Item>>)
    requires b != []
    ensures a + b == (a + b[..|b| - 1]) + [b[|b| - 1]] && b[..|b| - 1] + [b[|b| - 1]] == b
  {
  }

  lemma {:induction false} FullOfFull(a: seq<seq<Item>>, size: int)
    requires AllFull(a, size)
    ensures Full(a, size) == a && Short(a, size) == []
  {
    if a != [] {
      FullOfFull(a[..|a| - 1], size);
    }
  }

  lemma {:induction false} FullThenShort(a: seq<seq<Item>>, b: seq<seq<Item>>, size: int)
    requires Full(a, size) == a && Short(a, size) == [] && AllShort(b, size)
    ensures Full(a + b, size) == a && Short(a + b, size) == b
  {
    if b == [] {
      assert a + b == a;
    } else {
      var init, last := b[..|b| - 1], b[|b| - 1];
      FullThenShort(a, init, size);
      FullSnoc(a + init, last, size);
      SnocConcat(a, b);
    }
  }

  /** The full buckets are those closed on the way, the short ones those flushed at the end. */
  lemma ClosedThenFlushed(items: seq<Item>, size: int)
    ensures var p := PackAll(items, size);
            Full(Bucketize(items, size), size) == p.done && Short(Bucketize(items, size), size) == Flush(p.open, p.order)
  {
    var p := PackAll(items, size);
    ClosedAreFull(items, size);
    PackAllWellFormed(items, size);
    var at := FlushIsLeftovers(p, size, p.order);
    FullOfFull(p.done, size);
    FullThenShort(p.done, Flush(p.open, p.order), size);
  }

  /** The full buckets come first. */
  lemma FullBucketsFirst(items: seq<Item>, size: int)
    ensures var bs := Bucketize(items, size); bs == Full(bs, size) + Short(bs, size)
  {
    ClosedThenFlushed(items, size);
  }

  /**
   One more chunk leaves the full buckets as they are, and adds one exactly if the chunk is big or fills the bytes its
   key has left over. So full buckets come in the order of the chunks that filled them.
   */
  lemma FullBucketsStream(items: seq<Item>, it: Item, size: int) returns (left: seq<Item>)
    ensures left in Short(Bucketize(items, size), size) || left == []
    ensures forall b: seq<Item> :: b in Short(Bucketize(items, size), size) && b != [] && b[0].key == it.key ==> b == left
    ensures left != [] ==> left[0].key == it.key
    ensures Full(Bucketize(items + [it], size), size) ==
            Full(Bucketize(items, size), size) +
              if it.nbytes >= size then [[it]] else if Bytes(left) + it.nbytes >= size then [left + [it]] else []
  {
    var p := PackAll(items, size);
    ClosedThenFlushed(items, size);
    ClosedThenFlushed(items + [it], size);
    assert (items + [it])[..|items|] == items;
    PackAllWellFormed(items, size);
    left := GroupOf(p, it.key).chunks;
    LeftoverOfKey(p, size, p.order, it.key);
  }

  lemma {:induction false} LeftoverOfKey(p: Packing, size: int, order: seq<BucketKey>, key: BucketKey)
    requires WellFormed(p, size)
    ensures var left := GroupOf(p, key).chunks; left != [] && key in order ==> left in Flush(p.open, order)
    ensures forall b: seq<Item> :: b in Flush(p.open, order) && b != [] && b[0].key == key ==> b == GroupOf(p, key).chunks
  {
    if order != [] {
      LeftoverOfKey(p, size, order[..|order| - 1], key);
    }
  }

  /** A small chunk of `a` comes before every small chunk of `b`. */
  ghost predicate StartsBefore(items: seq<Item>, size: int, a: BucketKey, b: BucketKey) {
    exists m :: 0 <= m <= |items| && StartedBy(items, size, a, b, m)
  }

  ghost predicate StartedBy(items: seq<Item>, size: int, a: BucketKey, b: BucketKey, m: nat)
    requires m <= |items|
  {
    Smalls(a, size, items[..m]) != [] && Smalls(b, size, items[..m]) == []
  }

  ghost predicate InFirstOrder(items: seq<Item>, size: int, order: seq<BucketKey>) {
    && (forall k :: k in order <==> Smalls(k, size, items) != [])
    && forall i, j :: 0 <= i < j < |order| ==> StartsBefore(items, size, order[i], order[j])
  }

  lemma StartsBeforeStays(items: seq<Item>, it: Item, size: int, a: BucketKey, b: BucketKey)
    requires StartsBefore(items, size, a, b)
    ensures StartsBefore(items + [it], size, a, b)
  {
    var m :| 0 <= m <= |items| && StartedBy(items, size, a, b, m);
    assert (items + [it])[..m] == items[..m];
    assert StartedBy(items + [it], size, a, b, m);
  }

  lemma NewKeyComesLast(items: seq<Item>, it: Item, size: int, a: BucketKey, b: BucketKey)
    requires Smalls(a, size, items) != [] && Smalls(b, size, items) == []
    ensures StartsBefore(items + [it], size, a, b)
  {
    assert (items + [it])[..|items|] == items;
    assert StartedBy(items + [it], size, a, b, |items|);
  }

  lemma OrderStep(items: seq<Item>, it: Item, size: int, order: seq<BucketKey>)
    requires InFirstOrder(items, size, order)
    ensures InFirstOrder(items + [it], size,
                         if it.nbytes >= size || it.key in order then order else order + [it.key])
  {
    var next := if it.nbytes >= size || it.key in order then order else order + [it.key];
    forall k ensures k in next <==> Smalls(k, size, items + [it]) != [] {
      SmallsSnoc(k, size, items, it);
    }
    forall i, j | 0 <= i < j < |next| ensures StartsBefore(items + [it], size, next[i], next[j]) {
      if j < |order| {
        StartsBeforeStays(items, it, size, next[i], next[j]);
      } else {
        assert order[i] in order;
        NewKeyComesLast(items, it, size, next[i], next[j]);
      }
    }
  }

  lemma PlacedOrder(p: Packing, it: Item, size: int)
    requires GoodOrder(p.order, p.open)
    ensures Place(p, it, size).order == if it.nbytes >= size || it.key in p.order then p.order else p.order + [it.key]
  {
  }

  lemma PlaceKeepsFirstOrder(items: seq<Item>, it: Item, size: int, p: Packing)
    requires InFirstOrder(items, size, p.order) && GoodOrder(p.order, p.open)
    ensures InFirstOrder(items + [it], size, Place(p, it, size).order)
  {
    OrderStep(items, it, size, p.order);
    PlacedOrder(p, it, size);
  }

  lemma NothingStarted(size: int)
    ensures InFirstOrder([], size, [])
  {
  }

  lemma {:induction false} DictionaryOrder(items: seq<Item>, size: int)
    ensures InFirstOrder(items, size, PackAll(items, size).order)
  {
    if items == [] {
      NothingStarted(size);
    } else {
      var init, last := items[..|items| - 1], items[|items| - 1];
      DictionaryOrder(init, size);
      PackAllWellFormed(init, size);
      PlaceKeepsFirstOrder(init, last, size, PackAll(init, size));
      assert items == init + [last] && PackAll(items, size) == Place(PackAll(init, size), last, size);
    }
  }

  /** The short buckets come in the order in which their keys first had a small chunk. */
  lemma ShortBucketsInFirstOrder(items: seq<Item>, size: int, i: nat, j: nat)
    requires i < j < |Short(Bucketize(items, size), size)|
    ensures var bs := Short(Bucketize(items, size), size);
            bs[i] != [] && bs[j] != [] && StartsBefore(items, size, bs[i][0].key, bs[j][0].key)
  {
    var p := PackAll(items, size);
    ClosedThenFlushed(items, size);
    PackAllWellFormed(items, size);
    DictionaryOrder(items, size);
    var at := FlushIsLeftovers(p, size, p.order);
    assert at[i] < at[j];
  }
}
