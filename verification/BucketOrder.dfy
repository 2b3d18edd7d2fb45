/**
 The order in which bucket lists run their chunks (src/etha/comm/get_buckets.py): at a size nothing reaches,
 key by key, keys in the order of their first chunk. A list repeated once more shows which chunks share a key.
*/
module BucketOrder {
  import opened Base
  import opened IR
  import opened Buckets
  import opened Relabelling
  import opened AlikeBuckets
  import opened CircularWaits

  lemma {:induction false} FlushIs(open: map<BucketKey, OpenGroup>, order: seq<BucketKey>)
    requires forall k :: k in order ==> k in open && open[k].chunks != []
    ensures |Flush(open, order)| == |order|
    ensures forall m :: 0 <= m < |order| ==> order[m] in open && Flush(open, order)[m] == open[order[m]].chunks
  {
    if order != [] {
      assert order[|order| - 1] in order;
      FlushIs(open, order[..|order| - 1]);
    }
  }

  /** The keys of a list, in the order they first appear. */
  ghost function KeyOrder(items: seq<Item>, size: int): seq<BucketKey> {
    PackAll(items, size).order
  }

  /** One bucket per key, with all its chunks in list order. */
  lemma {:induction false} OneBucketEach(items: seq<Item>, size: int)
    requires size > Bytes(items)
    ensures |Bucketize(items, size)| == |KeyOrder(items, size)| && Distinct(KeyOrder(items, size))
    ensures forall m :: 0 <= m < |KeyOrder(items, size)| ==>
      Bucketize(items, size)[m] == Smalls(KeyOrder(items, size)[m], size, items)
    ensures forall x :: x in items ==> x.key in KeyOrder(items, size)
  {
    var p := PackAll(items, size);
    LargeSizePacks(items, size);
    PackAllWellFormed(items, size);
    FlushIs(p.open, p.order);
    forall m | 0 <= m < |p.order| ensures Bucketize(items, size)[m] == Smalls(p.order[m], size, items) {
      OpenIsSmalls(items, size, p.order[m]);
      assert p.order[m] in p.order;
    }
    forall x | x in items ensures x.key in p.order {
      assert x.key in KeySet(items);
    }
  }

  lemma OpenIsSmalls(items: seq<Item>, size: int, k: BucketKey)
    requires PackAll(items, size).done == []
    ensures GroupOf(PackAll(items, size), k).chunks == Smalls(k, size, items)
  {
    PackAllKeeps(items, size, k);
    assert Flatten(PackAll(items, size).done) == [];
  }

  lemma {:induction false} SmallsHas(k: BucketKey, size: int, items: seq<Item>, x: Item)
    ensures x in Smalls(k, size, items) <==> x in items && x.key == k && x.nbytes < size
  {
    if items != [] {
      SmallsHas(k, size, items[..|items| - 1], x);
      assert x in items <==> x in items[..|items| - 1] || x == items[|items| - 1];
    }
  }

  /** Chunks of one key keep their order. */
  lemma {:induction false} SmallsOrder(k: BucketKey, size: int, items: seq<Item>, x: Item, y: Item)
    requires Precedes(items, x, y) && x.key == y.key == k && x.nbytes < size && y.nbytes < size
    ensures Precedes(Smalls(k, size, items), x, y)
  {
    if items != [] {
      var n := |items| - 1;
      var init, last := items[..n], items[n];
      forall j | 0 <= j < |init| && init[j] == y ensures x in init[..j] {
        assert items[j] == y && items[..j] == init[..j];
      }
      SmallsOrder(k, size, init, x, y);
      SmallsHas(k, size, init, x);
      if last == y {
        PrecedesLater(Smalls(k, size, init), [y], x, y);
      } else if last.key == k && last.nbytes < size {
        PrecedesLater(Smalls(k, size, init), [last], x, y);
      }
    }
  }

  lemma {:induction false} ItemBytes(items: seq<Item>, x: Item)
    requires x in items
    ensures x.nbytes <= Bytes(items)
  {
    if x != items[|items| - 1] {
      ItemBytes(items[..|items| - 1], x);
    }
  }

  lemma IndexedBytes(items: seq<Item>)
    ensures Bytes(Indexed(items)) == Bytes(items)
  {
    RenumberBytes(NumberAt(items), Indexed(items));
    IndexedRenumbers(items);
  }

  lemma {:induction false} RenumberBytes(g: nat -> nat, items: seq<Item>)
    ensures Bytes(Renumber(g, items)) == Bytes(items)
  {
    if items != [] {
      RenumberBytes(g, items[..|items| - 1]);
      assert Renumber(g, items)[..|items| - 1] == Renumber(g, items[..|items| - 1]);
    }
  }

  lemma IndexedInOrder(items: seq<Item>, i: nat, j: nat)
    requires i < j < |items|
    ensures Precedes(Indexed(items), Indexed(items)[i], Indexed(items)[j])
  {
    var its := Indexed(items);
    forall m | 0 <= m < |its| && its[m] == its[j] ensures its[i] in its[..m] {
      assert m == j && its[..m][i] == its[i];
    }
  }

  /** In one bucket, or in one before. */
  lemma {:induction false} BucketsOrder(items: seq<Item>, size: int, m: nat, m': nat, x: Item, y: Item)
    requires size > Bytes(items) && m <= m' < |KeyOrder(items, size)| && x in items && y in items
    requires x.key == KeyOrder(items, size)[m] && y.key == KeyOrder(items, size)[m']
    requires (m == m' ==> Precedes(items, x, y))
    ensures Precedes(Flatten(Bucketize(items, size)), x, y)
  {
    var keys, blocks := KeyOrder(items, size), Bucketize(items, size);
    OneBucketEach(items, size);
    ItemBytes(items, x);
    ItemBytes(items, y);
    SmallsHas(keys[m], size, items, x);
    forall i | 0 <= i < |blocks| && y in blocks[i] ensures i == m' {
      SmallsHas(keys[i], size, items, y);
    }
    if m == m' {
      SmallsOrder(keys[m], size, items, x, y);
    }
    BlocksOrder(blocks, m, m', x, y);
  }

  lemma {:induction false} NumbersOrder(items: seq<Item>, size: int, i: nat, j: nat)
    requires i < |items| && j < |items|
    requires Precedes(Flatten(Bucketize(Indexed(items), size)), Indexed(items)[i], Indexed(items)[j])
    ensures Precedes(OrderOf(items, size), i, j)
  {
    var flat, at := Flatten(Bucketize(Indexed(items), size)), OrderOf(items, size);
    forall m | 0 <= m < |at| && at[m] == j ensures i in at[..m] {
      BucketedAt(items, size, m);
      assert flat[m] == Indexed(items)[j];
      var h :| 0 <= h < m && flat[h] == Indexed(items)[i];
      assert at[..m][h] == i;
    }
  }

  /** Chunks that share a key run in list order. */
  lemma {:induction false} SameKeyInOrder(items: seq<Item>, size: int, i: nat, j: nat)
    requires size > Bytes(items) && i < j < |items| && items[i].key == items[j].key
    ensures Precedes(OrderOf(items, size), i, j)
  {
    var its := Indexed(items);
    IndexedBytes(items);
    OneBucketEach(its, size);
    IndexedInOrder(items, i, j);
    assert its[i] in its && its[j] in its;
    var m :| 0 <= m < |KeyOrder(its, size)| && KeyOrder(its, size)[m] == its[i].key;
    BucketsOrder(its, size, m, m, its[i], its[j]);
    NumbersOrder(items, size, i, j);
  }

  /** Everything with the key of `i` runs before `j`. */
  ghost predicate KeyFirst(items: seq<Item>, size: int, i: nat, j: nat)
    requires i < |items|
  {
    forall h :: 0 <= h < |items| && items[h].key == items[i].key ==> Precedes(OrderOf(items, size), h, j)
  }

  lemma {:induction false} EarlierKeyFirst(items: seq<Item>, size: int, i: nat, j: nat, m: nat, m': nat)
    requires size > Bytes(items) && i < |items| && j < |items| && m < m' < |KeyOrder(Indexed(items), size)|
    requires items[i].key == KeyOrder(Indexed(items), size)[m] && items[j].key == KeyOrder(Indexed(items), size)[m']
    ensures KeyFirst(items, size, i, j)
  {
    var its := Indexed(items);
    IndexedBytes(items);
    forall h | 0 <= h < |items| && items[h].key == items[i].key ensures Precedes(OrderOf(items, size), h, j) {
      assert its[h] in its && its[j] in its;
      BucketsOrder(its, size, m, m', its[h], its[j]);
      NumbersOrder(items, size, h, j);
    }
  }

  /** Of two keys, one runs entirely before the other. */
  lemma {:induction false} OtherKeysApart(items: seq<Item>, size: int, i: nat, j: nat)
    requires size > Bytes(items) && i < |items| && j < |items| && items[i].key != items[j].key
    ensures KeyFirst(items, size, i, j) || KeyFirst(items, size, j, i)
  {
    var its := Indexed(items);
    IndexedBytes(items);
    OneBucketEach(its, size);
    assert its[i] in its && its[j] in its;
    var keys := KeyOrder(its, size);
    var m :| 0 <= m < |keys| && keys[m] == its[i].key;
    var m' :| 0 <= m' < |keys| && keys[m'] == its[j].key;
    if m < m' {
      EarlierKeyFirst(items, size, i, j, m, m');
    } else {
      EarlierKeyFirst(items, size, j, i, m', m);
    }
  }

  // ------------------------------------------------------------------------------------------
  // A list and its repetition

  /** `i` and `j` share a key in the first list and not in the second. */
  lemma {:induction false} SplitKeyShows(a: seq<Item>, b: seq<Item>, size: int, i: nat, j: nat, i': nat)
    requires |a| == |b| && size > Bytes(a) && size > Bytes(b) && i < j < i' < |a|
    requires a[i].key == a[j].key == a[i'].key && b[i].key == b[i'].key != b[j].key
    ensures OrderOf(a, size) != OrderOf(b, size)
  {
    SameKeyInOrder(a, size, i, j);
    SameKeyInOrder(a, size, j, i');
    OtherKeysApart(b, size, i, j);
    HasAll(a, size, i');
    HasAll(a, size, j);
    if OrderOf(a, size) == OrderOf(b, size) {
      if KeyFirst(b, size, i, j) {
        NotBothFirst(OrderOf(a, size), i', j);
      } else {
        NotBothFirst(OrderOf(a, size), i, j);
      }
    }
  }

  lemma NotBothFirst(at: seq<nat>, i: nat, j: nat)
    requires Precedes(at, i, j) && Precedes(at, j, i)
    ensures i !in at && j !in at
  {
    var steps := [i, j];
    assert Circle(at, steps);
    forall m | 0 <= m < |at| ensures at[m] !in steps {
      CircleNeverRuns(at, steps, m);
    }
    assert steps[0] == i && steps[1] == j;
  }

  lemma {:induction false} HasAll(items: seq<Item>, size: int, i: nat)
    requires i < |items|
    ensures i in OrderOf(items, size)
  {
    var its, flat := Indexed(items), Flatten(Bucketize(Indexed(items), size));
    BucketsPartition(its, size);
    assert its[i] in its;
    assert its[i] in multiset(flat);
    var m :| 0 <= m < |flat| && flat[m] == its[i];
    assert OrderOf(items, size)[m] == i;
  }
}
