/** One chunk per bucket (src/etha/comm/get_buckets.py): when bucketing leaves the chunk list as it is. */
module NoCoalescing {
  import opened Base
  import opened IR
  import opened Buckets

  function Singles(items: seq<Item>): (r: seq<seq<Item>>)
    ensures |r| == |items| && forall i :: 0 <= i < |r| ==> r[i] == [items[i]]
  {
    seq(|items|, i requires 0 <= i < |items| => [items[i]])
  }

  lemma {:induction false} LargePack(items: seq<Item>, size: int)
    requires forall i :: 0 <= i < |items| ==> items[i].nbytes >= size
    ensures PackAll(items, size) == Packing(Singles(items), [], map[])
  {
    if items != [] {
      var n := |items| - 1;
      LargePack(items[..n], size);
      assert Singles(items) == Singles(items[..n]) + [[items[n]]];
    }
  }

  /** Chunks that reach the bucket size each keep their place in the list. */
  lemma LargeStayAlone(items: seq<Item>, size: int)
    requires forall i :: 0 <= i < |items| ==> items[i].nbytes >= size
    ensures Bucketize(items, size) == Singles(items)
  {
    LargePack(items, size);
  }

  ghost predicate UnitPacking(p: Packing, items: seq<Item>) {
    && (forall b :: b in p.done ==> |b| == 1)
    && forall k :: GroupOf(p, k).chunks == Smalls(k, 1, items) && GroupOf(p, k).bytes == 0
  }

  lemma PlaceUnit(p: Packing, items: seq<Item>, it: Item)
    requires UnitPacking(p, items)
    ensures UnitPacking(Place(p, it, 1), items + [it])
  {
    var p' := Place(p, it, 1);
    forall k ensures GroupOf(p', k).chunks == Smalls(k, 1, items + [it]) && GroupOf(p', k).bytes == 0 {
      SmallsSnoc(k, 1, items, it);
      assert GroupOf(p, k).chunks == Smalls(k, 1, items) && GroupOf(p, k).bytes == 0;
      assert GroupOf(p, it.key).bytes == 0;
    }
  }

  lemma {:induction false} UnitPack(items: seq<Item>)
    ensures UnitPacking(PackAll(items, 1), items)
  {
    if items != [] {
      var n := |items| - 1;
      UnitPack(items[..n]);
      PlaceUnit(PackAll(items[..n], 1), items[..n], items[n]);
      assert items[..n] + [items[n]] == items;
    }
  }

  lemma {:induction false} FlushHas(open: map<BucketKey, OpenGroup>, order: seq<BucketKey>, b: seq<Item>)
    ensures b in Flush(open, order) <==> exists k :: k in order && k in open && open[k].chunks == b && b != []
  {
    if order != [] {
      var init, last := order[..|order| - 1], order[|order| - 1];
      FlushHas(open, init, b);
      assert forall k :: k in order <==> k in init || k == last;
    }
  }

  ghost predicate AllSingle(bs: seq<seq<Item>>) {
    forall b :: b in bs ==> |b| == 1
  }

  /** No two chunks without bytes have the same key. */
  ghost predicate EmptiesDiffer(items: seq<Item>) {
    forall k :: |Smalls(k, 1, items)| <= 1
  }

  lemma SinglesNeedDifferentEmpties(items: seq<Item>, k: BucketKey)
    requires AllSingle(Bucketize(items, 1))
    ensures |Smalls(k, 1, items)| <= 1
  {
    var p := PackAll(items, 1);
    UnitPack(items);
    PackAllWellFormed(items, 1);
    assert GroupOf(p, k).chunks == Smalls(k, 1, items);
    if k in p.open && p.open[k].chunks != [] {
      FlushHas(p.open, p.order, p.open[k].chunks);
      assert p.open[k].chunks in Bucketize(items, 1);
    }
  }

  lemma DifferentEmptiesGiveSingles(items: seq<Item>, b: seq<Item>)
    requires EmptiesDiffer(items) && b in Bucketize(items, 1)
    ensures |b| == 1
  {
    var p := PackAll(items, 1);
    UnitPack(items);
    if b !in p.done {
      FlushHas(p.open, p.order, b);
      var k :| k in p.order && k in p.open && p.open[k].chunks == b && b != [];
      assert GroupOf(p, k).chunks == Smalls(k, 1, items);
    }
  }

  /**
   The documented "bucket size 1 gives one chunk per bucket" holds exactly when no two empty chunks
   share a key: a chunk of no bytes is below any size and waits for others like it.
   */
  lemma UnitBucketsIff(items: seq<Item>)
    ensures AllSingle(Bucketize(items, 1)) <==> EmptiesDiffer(items)
  {
    if AllSingle(Bucketize(items, 1)) {
      forall k ensures |Smalls(k, 1, items)| <= 1 {
        SinglesNeedDifferentEmpties(items, k);
      }
    }
    if EmptiesDiffer(items) {
      forall b | b in Bucketize(items, 1) ensures |b| == 1 {
        DifferentEmptiesGiveSingles(items, b);
      }
    }
  }

  lemma PlaceEmpty(p: Packing, it: Item)
    requires it.nbytes == 0 && GroupOf(p, it.key).bytes == 0
    ensures Place(p, it, 1) ==
            Packing(p.done, if it.key in p.open then p.order else p.order + [it.key],
                    p.open[it.key := OpenGroup(GroupOf(p, it.key).chunks + [it], 0)])
  {
  }

  lemma PackSnoc(items: seq<Item>, it: Item, size: int)
    ensures PackAll(items + [it], size) == Place(PackAll(items, size), it, size)
  {
    assert (items + [it])[..|items|] == items;
  }

  /** It fails on any two empty chunks of one key: they end up in one bucket. */
  lemma EmptiesShareABucket(key: BucketKey, a: nat, b: nat)
    ensures Bucketize([Item(key, 0, a), Item(key, 0, b)], 1) == [[Item(key, 0, a), Item(key, 0, b)]]
  {
    var x, y := Item(key, 0, a), Item(key, 0, b);
    PackSnoc([], x, 1);
    PackSnoc([x], y, 1);
    assert [] + [x] == [x] && [x] + [y] == [x, y];
    var p1, p2 := PackAll([x], 1), PackAll([x, y], 1);
    PlaceEmpty(PackAll([], 1), x);
    PlaceEmpty(p1, y);
    assert p2.done == [] && p2.order == [key];
    FlushOne(p2.open, key);
  }

  lemma FlushOne(open: map<BucketKey, OpenGroup>, key: BucketKey)
    requires key in open && open[key].chunks != []
    ensures Flush(open, [key]) == [open[key].chunks]
  {
    assert [key][..0] == [];
  }
}
