/**
 Coalescing chunks into buckets (src/etha/comm/get_buckets.py) and the byte layout of one bucket
 (src/etha/comm/ir.py).
*/
module Buckets {
  import opened Base
  import opened IR

  /** What bucketing sees of a chunk: its key, its bytes on the wire, and which operation it belongs to. */
  datatype Item = Item(key: BucketKey, nbytes: nat, op: nat)

  /** A bucket that is still filling, with the byte count the loop carries. */
  datatype OpenGroup = OpenGroup(chunks: seq<Item>, bytes: nat)

  /** Closed buckets, and the per-key dictionary with its insertion order. */
  datatype Packing = Packing(done: seq<seq<Item>>, order: seq<BucketKey>, open: map<BucketKey, OpenGroup>)

  function GroupOf(p: Packing, key: BucketKey): OpenGroup {
    if key in p.open then p.open[key] else OpenGroup([], 0)
  }

  function Place(p: Packing, it: Item, size: int): Packing {
    if it.nbytes >= size then p.(done := p.done + [[it]])
    else
      var g := GroupOf(p, it.key);
      var order := if it.key in p.open then p.order else p.order + [it.key];
      var grown := OpenGroup(g.chunks + [it], g.bytes + it.nbytes);
      if grown.bytes >= size
      then Packing(p.done + [grown.chunks], order, p.open[it.key := OpenGroup([], 0)])
      else Packing(p.done, order, p.open[it.key := grown])
  }

  function PackAll(items: seq<Item>, size: int): Packing {
    if items == [] then Packing([], [], map[])
    else Place(PackAll(items[..|items| - 1], size), items[|items| - 1], size)
  }

  /** The non-empty open groups, in dictionary order. */
  function Flush(open: map<BucketKey, OpenGroup>, order: seq<BucketKey>): seq<seq<Item>> {
    if order == [] then []
    else
      var k, rest := order[|order| - 1], Flush(open, order[..|order| - 1]);
      if k in open && open[k].chunks != [] then rest + [open[k].chunks] else rest
  }

  function Bucketize(items: seq<Item>, size: int): seq<seq<Item>> {
    var p := PackAll(items, size);
    p.done + Flush(p.open, p.order)
  }

  /** `chunk_to_bucket_ops`: one pass over the chunks, then one over the dictionary. */
  method ChunkToBucketOps(chunks: seq<Item>, bucketSize: int) returns (buckets: seq<seq<Item>>)
    ensures buckets == Bucketize(chunks, bucketSize)
  {
    buckets := [];
    var order: seq<BucketKey> := [];
    var grouped: map<BucketKey, OpenGroup> := map[];
    for i := 0 to |chunks|
      invariant Packing(buckets, order, grouped) == PackAll(chunks[..i], bucketSize)
    {
      var chunk := chunks[i];
      assert chunks[..i + 1][..i] == chunks[..i];
      if chunk.nbytes >= bucketSize {
        buckets := buckets + [[chunk]];
        continue;
      }
      var key := chunk.key;
      if key !in grouped {
        grouped := grouped[key := OpenGroup([], 0)];
        order := order + [key];
      }
      var current := grouped[key].chunks + [chunk];
      var bytes := grouped[key].bytes + chunk.nbytes;
      if bytes >= bucketSize {
        buckets := buckets + [current];
        grouped := grouped[key := OpenGroup([], 0)];
      } else {
        grouped := grouped[key := OpenGroup(current, bytes)];
      }
    }
    assert chunks[..|chunks|] == chunks;
    ghost var closed := buckets;
    for i := 0 to |order|
      invariant buckets == closed + Flush(grouped, order[..i])
    {
      assert order[..i + 1][..i] == order[..i];
      if order[i] in grouped && grouped[order[i]].chunks != [] {
        buckets := buckets + [grouped[order[i]].chunks];
      }
    }
    assert order[..|order|] == order;
  }

  // ------------------------------------------------------------------------------------------
  // Shape of the result

  ghost predicate Uniform(b: seq<Item>, key: BucketKey) {
    forall i :: 0 <= i < |b| ==> b[i].key == key
  }

  ghost predicate GoodBucket(b: seq<Item>) {
    b != [] && Uniform(b, b[0].key)
  }

  function Bytes(b: seq<Item>): nat {
    if b == [] then 0 else Bytes(b[..|b| - 1]) + b[|b| - 1].nbytes
  }

  /** A bucket of several chunks was below the size before its last, itself small, chunk. */
  ghost predicate Fits(b: seq<Item>, size: int) {
    |b| > 1 ==> Bytes(b) < 2 * size && Bytes(b[..|b| - 1]) < size
  }

  ghost predicate AllSound(bs: seq<seq<Item>>, size: int) {
    forall b :: b in bs ==> GoodBucket(b) && Fits(b, size)
  }

  ghost predicate GoodGroup(g: OpenGroup, k: BucketKey, size: int) {
    Uniform(g.chunks, k) && g.bytes == Bytes(g.chunks) && (g.chunks != [] ==> g.bytes < size)
  }

  ghost predicate GoodOrder(order: seq<BucketKey>, open: map<BucketKey, OpenGroup>) {
    Distinct(order) && forall k :: k in order <==> k in open
  }

  ghost predicate GoodGroups(open: map<BucketKey, OpenGroup>, size: int) {
    forall k :: k in open ==> GoodGroup(open[k], k, size)
  }

  ghost predicate WellFormed(p: Packing, size: int) {
    AllSound(p.done, size) && GoodOrder(p.order, p.open) && GoodGroups(p.open, size)
  }

  lemma AllSoundSnoc(bs: seq<seq<Item>>, b: seq<Item>, size: int)
    requires AllSound(bs, size) && GoodBucket(b) && Fits(b, size)
    ensures AllSound(bs + [b], size)
  {
  }

  lemma GrownGroup(g: OpenGroup, it: Item, size: int)
    requires GoodGroup(g, it.key, size) && it.nbytes < size
    ensures var b := g.chunks + [it];
            GoodBucket(b) && Fits(b, size) && Bytes(b) == g.bytes + it.nbytes && Uniform(b, it.key)
  {
    var b := g.chunks + [it];
    assert b[..|b| - 1] == g.chunks;
    assert b[0].key == it.key;
  }

  lemma OrderGrows(order: seq<BucketKey>, open: map<BucketKey, OpenGroup>, k: BucketKey, g: OpenGroup)
    requires GoodOrder(order, open)
    ensures GoodOrder(if k in open then order else order + [k], open[k := g])
  {
  }

  lemma GroupsGrow(open: map<BucketKey, OpenGroup>, k: BucketKey, g: OpenGroup, size: int)
    requires GoodGroups(open, size) && GoodGroup(g, k, size)
    ensures GoodGroups(open[k := g], size)
  {
  }

  lemma PlaceWellFormed(p: Packing, it: Item, size: int)
    requires WellFormed(p, size)
    ensures WellFormed(Place(p, it, size), size)
  {
    if it.nbytes >= size {
      AllSoundSnoc(p.done, [it], size);
    } else {
      var g := GroupOf(p, it.key);
      assert GoodGroup(g, it.key, size);
      GrownGroup(g, it, size);
      var next := OpenGroup(g.chunks + [it], g.bytes + it.nbytes);
      var left := if next.bytes >= size then OpenGroup([], 0) else next;
      AllSoundSnoc(p.done, next.chunks, size);
      OrderGrows(p.order, p.open, it.key, left);
      assert GoodGroup(left, it.key, size);
      GroupsGrow(p.open, it.key, left, size);
    }
  }

  lemma {:induction false} PackAllWellFormed(items: seq<Item>, size: int)
    ensures WellFormed(PackAll(items, size), size)
  {
    if items != [] {
      PackAllWellFormed(items[..|items| - 1], size);
      PlaceWellFormed(PackAll(items[..|items| - 1], size), items[|items| - 1], size);
    }
  }

  lemma {:induction false} FlushGood(p: Packing, size: int, order: seq<BucketKey>)
    requires WellFormed(p, size)
    ensures AllSound(Flush(p.open, order), size)
  {
    if order != [] {
      FlushGood(p, size, order[..|order| - 1]);
      var k := order[|order| - 1];
      if k in p.open && p.open[k].chunks != [] {
        var b := p.open[k].chunks;
        assert Bytes(b) == Bytes(b[..|b| - 1]) + b[|b| - 1].nbytes;
      }
    }
  }

  /** One key per bucket, no empty bucket, and no multi-chunk bucket at twice the size or more. */
  lemma BucketsAreSound(items: seq<Item>, size: int)
    ensures AllSound(Bucketize(items, size), size)
  {
    PackAllWellFormed(items, size);
    var p := PackAll(items, size);
    FlushGood(p, size, p.order);
  }

  // ------------------------------------------------------------------------------------------
  // Nothing lost, nothing reordered within a key

  function Smalls(k: BucketKey, size: int, items: seq<Item>): seq<Item> {
    if items == [] then []
    else
      var x, rest := items[|items| - 1], Smalls(k, size, items[..|items| - 1]);
      if x.key == k && x.nbytes < size then rest + [x] else rest
  }

  function Bigs(size: int, items: seq<Item>): seq<Item> {
    if items == [] then []
    else
      var x, rest := items[|items| - 1], Bigs(size, items[..|items| - 1]);
      if x.nbytes >= size then rest + [x] else rest
  }

  lemma {:induction false} SmallsConcat(k: BucketKey, size: int, a: seq<Item>, b: seq<Item>)
    ensures Smalls(k, size, a + b) == Smalls(k, size, a) + Smalls(k, size, b)
    ensures Bigs(size, a + b) == Bigs(size, a) + Bigs(size, b)
  {
    if b == [] {
      assert a + b == a;
    } else {
      SmallsConcat(k, size, a, b[..|b| - 1]);
      assert (a + b)[..|a + b| - 1] == a + b[..|b| - 1];
    }
  }

  /** A group of small chunks of one key, seen through both filters. */
  lemma {:induction false} SmallsOfGroup(k: BucketKey, size: int, g: seq<Item>, key: BucketKey)
    requires Uniform(g, key) && forall i :: 0 <= i < |g| ==> g[i].nbytes < size
    ensures Smalls(k, size, g) == if k == key then g else []
    ensures Bigs(size, g) == []
  {
    if g != [] {
      SmallsOfGroup(k, size, g[..|g| - 1], key);
    }
  }

  ghost predicate OpenSmall(p: Packing, size: int) {
    forall k, i :: k in p.open && 0 <= i < |p.open[k].chunks| ==> p.open[k].chunks[i].nbytes < size
  }

  ghost predicate Kept(p: Packing, items: seq<Item>, size: int, k: BucketKey) {
    && Smalls(k, size, Flatten(p.done)) + GroupOf(p, k).chunks == Smalls(k, size, items)
    && Bigs(size, Flatten(p.done)) == Bigs(size, items)
  }

  lemma FlattenSnoc(ss: seq<seq<Item>>, x: seq<Item>)
    ensures Flatten(ss + [x]) == Flatten(ss) + x
  {
    assert (ss + [x])[..|ss|] == ss;
  }

  lemma SmallsSnoc(k: BucketKey, size: int, items: seq<Item>, it: Item)
    ensures Smalls(k, size, items + [it]) ==
            if it.key == k && it.nbytes < size then Smalls(k, size, items) + [it] else Smalls(k, size, items)
    ensures Bigs(size, items + [it]) == if it.nbytes >= size then Bigs(size, items) + [it] else Bigs(size, items)
  {
    assert (items + [it])[..|items|] == items;
  }

  lemma PlaceBigKeeps(p: Packing, items: seq<Item>, it: Item, size: int, k: BucketKey)
    requires it.nbytes >= size && Kept(p, items, size, k)
    ensures Kept(Place(p, it, size), items + [it], size, k)
  {
    SmallsSnoc(k, size, items, it);
    FlattenSnoc(p.done, [it]);
    SmallsSnoc(k, size, Flatten(p.done), it);
  }

  lemma SmallsOfClosed(done: seq<seq<Item>>, b: seq<Item>, size: int, k: BucketKey, key: BucketKey)
    requires Uniform(b, key) && forall i :: 0 <= i < |b| ==> b[i].nbytes < size
    ensures Smalls(k, size, Flatten(done + [b])) ==
            if k == key then Smalls(k, size, Flatten(done)) + b else Smalls(k, size, Flatten(done))
    ensures Bigs(size, Flatten(done + [b])) == Bigs(size, Flatten(done))
  {
    FlattenSnoc(done, b);
    SmallsConcat(k, size, Flatten(done), b);
    SmallsOfGroup(k, size, b, key);
  }

  ghost predicate SmallGroup(g: seq<Item>, key: BucketKey, size: int) {
    Uniform(g, key) && forall i :: 0 <= i < |g| ==> g[i].nbytes < size
  }

  lemma KeptFrom(p: Packing, items: seq<Item>, size: int, k: BucketKey, small: seq<Item>, group: seq<Item>)
    requires Smalls(k, size, Flatten(p.done)) == small && GroupOf(p, k).chunks == group
    requires small + group == Smalls(k, size, items) && Bigs(size, Flatten(p.done)) == Bigs(size, items)
    ensures Kept(p, items, size, k)
  {
  }

  /** The group of the key closes. */
  lemma CloseKeepsKey(p: Packing, items: seq<Item>, it: Item, size: int, p': Packing)
    requires it.nbytes < size && Kept(p, items, size, it.key) && SmallGroup(GroupOf(p, it.key).chunks, it.key, size)
    requires p'.done == p.done + [GroupOf(p, it.key).chunks + [it]] && GroupOf(p', it.key).chunks == []
    ensures Kept(p', items + [it], size, it.key)
  {
    var k, g, s := it.key, GroupOf(p, it.key).chunks, Smalls(it.key, size, Flatten(p.done));
    SmallsSnoc(k, size, items, it);
    SmallsOfClosed(p.done, g + [it], size, k, k);
    Regroup(s, g, [it]);
    KeptFrom(p', items + [it], size, k, s + (g + [it]), []);
  }

  /** A bucket of another key closes. */
  lemma CloseKeepsOthers(p: Packing, items: seq<Item>, it: Item, b: seq<Item>, size: int, k: BucketKey, p': Packing)
    requires it.nbytes < size && Kept(p, items, size, k) && SmallGroup(b, it.key, size) && k != it.key
    requires p'.done == p.done + [b] && GroupOf(p', k).chunks == GroupOf(p, k).chunks
    ensures Kept(p', items + [it], size, k)
  {
    SmallsSnoc(k, size, items, it);
    SmallsOfClosed(p.done, b, size, k, it.key);
    KeptFrom(p', items + [it], size, k, Smalls(k, size, Flatten(p.done)), GroupOf(p, k).chunks);
  }

  lemma SmallGroupGrows(g: seq<Item>, it: Item, size: int)
    requires SmallGroup(g, it.key, size) && it.nbytes < size
    ensures SmallGroup(g + [it], it.key, size)
  {
  }

  lemma Regroup(a: seq<Item>, b: seq<Item>, c: seq<Item>)
    ensures (a + (b + c)) + [] == (a + b) + c
  {
  }

  lemma GrowKeeps(p: Packing, items: seq<Item>, it: Item, size: int, k: BucketKey, p': Packing)
    requires it.nbytes < size && Kept(p, items, size, k) && p'.done == p.done
    requires GroupOf(p', k).chunks == if k == it.key then GroupOf(p, k).chunks + [it] else GroupOf(p, k).chunks
    ensures Kept(p', items + [it], size, k)
  {
    var s := Smalls(k, size, Flatten(p.done));
    SmallsSnoc(k, size, items, it);
    if k == it.key {
      assert s + (GroupOf(p, k).chunks + [it]) == (s + GroupOf(p, k).chunks) + [it];
    }
  }

  lemma OpenGroupsAreSmall(p: Packing, key: BucketKey, size: int)
    requires WellFormed(p, size) && OpenSmall(p, size)
    ensures SmallGroup(GroupOf(p, key).chunks, key, size)
  {
  }

  lemma PlaceSmallKeeps(p: Packing, items: seq<Item>, it: Item, size: int, k: BucketKey)
    requires it.nbytes < size && SmallGroup(GroupOf(p, it.key).chunks, it.key, size) && Kept(p, items, size, k)
    ensures Kept(Place(p, it, size), items + [it], size, k)
  {
    if GroupOf(p, it.key).bytes + it.nbytes >= size {
      if k == it.key {
        CloseKeepsKey(p, items, it, size, Place(p, it, size));
      } else {
        var closed := GroupOf(p, it.key).chunks + [it];
        SmallGroupGrows(GroupOf(p, it.key).chunks, it, size);
        CloseKeepsOthers(p, items, it, closed, size, k, Place(p, it, size));
      }
    } else {
      GrowKeeps(p, items, it, size, k, Place(p, it, size));
    }
  }

  lemma PlaceOpenSmall(p: Packing, it: Item, size: int)
    requires OpenSmall(p, size)
    ensures OpenSmall(Place(p, it, size), size)
  {
  }

  lemma PlaceKeeps(p: Packing, items: seq<Item>, it: Item, size: int, k: BucketKey)
    requires SmallGroup(GroupOf(p, it.key).chunks, it.key, size) && Kept(p, items, size, k)
    ensures Kept(Place(p, it, size), items + [it], size, k)
  {
    if it.nbytes >= size {
      PlaceBigKeeps(p, items, it, size, k);
    } else {
      PlaceSmallKeeps(p, items, it, size, k);
    }
  }

  lemma {:induction false} PackAllKeeps(items: seq<Item>, size: int, k: BucketKey)
    ensures OpenSmall(PackAll(items, size), size)
    ensures Kept(PackAll(items, size), items, size, k)
  {
    if items != [] {
      var init, last := items[..|items| - 1], items[|items| - 1];
      PackAllKeeps(init, size, k);
      PackAllWellFormed(init, size);
      var p := PackAll(init, size);
      PlaceOpenSmall(p, last, size);
      OpenGroupsAreSmall(p, last.key, size);
      PlaceKeeps(p, init, last, size, k);
      assert items == init + [last];
    }
  }

  lemma {:induction false} FlushKeeps(p: Packing, size: int, k: BucketKey, order: seq<BucketKey>)
    requires WellFormed(p, size) && OpenSmall(p, size) && Distinct(order)
    ensures Smalls(k, size, Flatten(Flush(p.open, order))) == if k in order then GroupOf(p, k).chunks else []
    ensures Bigs(size, Flatten(Flush(p.open, order))) == []
  {
    if order != [] {
      var init, last := order[..|order| - 1], order[|order| - 1];
      FlushKeeps(p, size, k, init);
      assert k in order <==> k in init || k == last;
      if last in p.open && p.open[last].chunks != [] {
        var f, b := Flush(p.open, init), p.open[last].chunks;
        FlattenSnoc(f, b);
        SmallsConcat(k, size, Flatten(f), b);
        SmallsOfGroup(k, size, b, last);
      }
    }
  }

  /** Big chunks keep their order; the small chunks of each key keep theirs; none is lost or doubled. */
  lemma BucketsKeepEveryChunk(items: seq<Item>, size: int, k: BucketKey)
    ensures Smalls(k, size, Flatten(Bucketize(items, size))) == Smalls(k, size, items)
    ensures Bigs(size, Flatten(Bucketize(items, size))) == Bigs(size, items)
  {
    var p := PackAll(items, size);
    PackAllWellFormed(items, size);
    PackAllKeeps(items, size, k);
    FlushKeeps(p, size, k, p.order);
    var f := Flush(p.open, p.order);
    FlattenConcat(p.done, f);
    SmallsConcat(k, size, Flatten(p.done), Flatten(f));
  }

  lemma {:induction false} CountSplits(items: seq<Item>, size: int, x: Item)
    ensures multiset(items)[x] ==
            if x.nbytes < size then multiset(Smalls(x.key, size, items))[x] else multiset(Bigs(size, items))[x]
  {
    if items != [] {
      var init, last := items[..|items| - 1], items[|items| - 1];
      CountSplits(init, size, x);
      assert items == init + [last];
    }
  }

  /** The buckets hold exactly the chunks they were made from. */
  lemma BucketsPartition(items: seq<Item>, size: int)
    ensures multiset(Flatten(Bucketize(items, size))) == multiset(items)
  {
    var flat := Flatten(Bucketize(items, size));
    forall x ensures multiset(flat)[x] == multiset(items)[x] {
      BucketsKeepEveryChunk(items, size, x.key);
      CountSplits(items, size, x);
      CountSplits(flat, size, x);
    }
  }

  // ------------------------------------------------------------------------------------------
  // Bucketing commutes with filtering by key

  function KeepItems(keep: BucketKey -> bool, items: seq<Item>): seq<Item> {
    if items == [] then []
    else
      var x, rest := items[|items| - 1], KeepItems(keep, items[..|items| - 1]);
      if keep(x.key) then rest + [x] else rest
  }

  function KeepBuckets(keep: BucketKey -> bool, bs: seq<seq<Item>>): seq<seq<Item>> {
    if bs == [] then []
    else
      var b, rest := bs[|bs| - 1], KeepBuckets(keep, bs[..|bs| - 1]);
      if b != [] && keep(b[0].key) then rest + [b] else rest
  }

  function KeepKeys(keep: BucketKey -> bool, ks: seq<BucketKey>): seq<BucketKey> {
    if ks == [] then []
    else
      var k, rest := ks[|ks| - 1], KeepKeys(keep, ks[..|ks| - 1]);
      if keep(k) then rest + [k] else rest
  }

  function KeepPacking(keep: BucketKey -> bool, p: Packing): Packing {
    Packing(KeepBuckets(keep, p.done), KeepKeys(keep, p.order), map k | k in p.open && keep(k) :: p.open[k])
  }

  lemma {:induction false} KeepItemsConcat(keep: BucketKey -> bool, a: seq<Item>, b: seq<Item>)
    ensures KeepItems(keep, a + b) == KeepItems(keep, a) + KeepItems(keep, b)
  {
    if b == [] {
      assert a + b == a;
    } else {
      KeepItemsConcat(keep, a, b[..|b| - 1]);
      assert (a + b)[..|a + b| - 1] == a + b[..|b| - 1];
    }
  }

  lemma KeepBucketsSnoc(keep: BucketKey -> bool, bs: seq<seq<Item>>, b: seq<Item>)
    ensures KeepBuckets(keep, bs + [b]) ==
            if b != [] && keep(b[0].key) then KeepBuckets(keep, bs) + [b] else KeepBuckets(keep, bs)
  {
    assert (bs + [b])[..|bs|] == bs;
  }

  lemma {:induction false} KeepBucketsConcat(keep: BucketKey -> bool, a: seq<seq<Item>>, b: seq<seq<Item>>)
    ensures KeepBuckets(keep, a + b) == KeepBuckets(keep, a) + KeepBuckets(keep, b)
  {
    if b == [] {
      assert a + b == a;
    } else {
      var init, last := b[..|b| - 1], b[|b| - 1];
      KeepBucketsConcat(keep, a, init);
      assert a + b == (a + init) + [last];
      KeepBucketsSnoc(keep, a + init, last);
    }
  }

  lemma KeepKeysSnoc(keep: BucketKey -> bool, ks: seq<BucketKey>, k: BucketKey)
    ensures KeepKeys(keep, ks + [k]) == if keep(k) then KeepKeys(keep, ks) + [k] else KeepKeys(keep, ks)
  {
    assert (ks + [k])[..|ks|] == ks;
  }

  lemma KeptGroup(keep: BucketKey -> bool, p: Packing, key: BucketKey)
    requires keep(key)
    ensures GroupOf(KeepPacking(keep, p), key) == GroupOf(p, key)
  {
  }

  lemma PlaceDoneCommutes(keep: BucketKey -> bool, p: Packing, it: Item, size: int)
    requires Uniform(GroupOf(p, it.key).chunks, it.key)
    ensures KeepBuckets(keep, Place(p, it, size).done) ==
            if keep(it.key) then Place(KeepPacking(keep, p), it, size).done else KeepBuckets(keep, p.done)
  {
    var b := GroupOf(p, it.key).chunks + [it];
    assert b[0].key == it.key;
    KeepBucketsSnoc(keep, p.done, [it]);
    KeepBucketsSnoc(keep, p.done, b);
    if keep(it.key) {
      KeptGroup(keep, p, it.key);
    }
  }

  lemma PlaceOrderCommutes(keep: BucketKey -> bool, p: Packing, it: Item, size: int)
    ensures KeepKeys(keep, Place(p, it, size).order) ==
            if keep(it.key) then Place(KeepPacking(keep, p), it, size).order else KeepKeys(keep, p.order)
  {
    KeepKeysSnoc(keep, p.order, it.key);
  }

  lemma KeepUpdated(keep: BucketKey -> bool, p: Packing, q: Packing, k: BucketKey, g: OpenGroup)
    requires q.open == p.open[k := g]
    ensures KeepPacking(keep, q).open == if keep(k) then KeepPacking(keep, p).open[k := g]
            else KeepPacking(keep, p).open
  {
  }

  lemma PlaceOpenCommutes(keep: BucketKey -> bool, p: Packing, it: Item, size: int)
    ensures KeepPacking(keep, Place(p, it, size)).open ==
            if keep(it.key) then Place(KeepPacking(keep, p), it, size).open else KeepPacking(keep, p).open
  {
    if keep(it.key) {
      KeptGroup(keep, p, it.key);
    }
    var p' := Place(p, it, size);
    if it.nbytes < size {
      KeepUpdated(keep, p, p', it.key, p'.open[it.key]);
    }
  }

  lemma PlaceCommutes(keep: BucketKey -> bool, p: Packing, it: Item, size: int)
    requires Uniform(GroupOf(p, it.key).chunks, it.key)
    ensures KeepPacking(keep, Place(p, it, size)) ==
            if keep(it.key) then Place(KeepPacking(keep, p), it, size) else KeepPacking(keep, p)
  {
    PlaceDoneCommutes(keep, p, it, size);
    PlaceOrderCommutes(keep, p, it, size);
    PlaceOpenCommutes(keep, p, it, size);
  }

  lemma {:induction false} PackAllCommutes(keep: BucketKey -> bool, items: seq<Item>, size: int)
    ensures KeepPacking(keep, PackAll(items, size)) == PackAll(KeepItems(keep, items), size)
  {
    if items == [] {
      assert KeepPacking(keep, PackAll(items, size)) == Packing([], [], map[]);
    } else {
      var init, last := items[..|items| - 1], items[|items| - 1];
      PackAllCommutes(keep, init, size);
      PackAllWellFormed(init, size);
      PlaceCommutes(keep, PackAll(init, size), last, size);
      if keep(last.key) {
        var kept := KeepItems(keep, init);
        assert (kept + [last])[..|kept|] == kept;
      }
    }
  }

  lemma {:induction false} FlushCommutes(keep: BucketKey -> bool, p: Packing, size: int, order: seq<BucketKey>)
    requires WellFormed(p, size)
    ensures KeepBuckets(keep, Flush(p.open, order)) == Flush(KeepPacking(keep, p).open, KeepKeys(keep, order))
  {
    if order != [] {
      var init, k := order[..|order| - 1], order[|order| - 1];
      FlushCommutes(keep, p, size, init);
      KeepKeysSnoc(keep, init, k);
      assert order == init + [k];
      var kept := KeepKeys(keep, init);
      assert (kept + [k])[..|kept|] == kept;
      if k in p.open && p.open[k].chunks != [] {
        KeepBucketsSnoc(keep, Flush(p.open, init), p.open[k].chunks);
      }
    }
  }

  /** For every predicate on keys, bucketing then filtering equals filtering then bucketing. */
  lemma BucketingCommutesWithFiltering(keep: BucketKey -> bool, items: seq<Item>, size: int)
    ensures KeepBuckets(keep, Bucketize(items, size)) == Bucketize(KeepItems(keep, items), size)
  {
    var p := PackAll(items, size);
    PackAllWellFormed(items, size);
    PackAllCommutes(keep, items, size);
    FlushCommutes(keep, p, size, p.order);
    KeepBucketsConcat(keep, p.done, Flush(p.open, p.order));
  }
}
