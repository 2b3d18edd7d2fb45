/**
 Bucketing under renamed keys (src/etha/comm/get_buckets.py): two ranks that key the same chunks
 differently cut them at the same boundaries exactly when the renaming keeps different keys apart.
*/
module Relabelling {
  import opened Base
  import opened IR
  import opened Buckets

  function Renamed(f: BucketKey -> BucketKey, it: Item): Item {
    it.(key := f(it.key))
  }

  function Relabel(f: BucketKey -> BucketKey, items: seq<Item>): (r: seq<Item>)
    ensures |r| == |items| && forall i :: 0 <= i < |r| ==> r[i] == Renamed(f, items[i])
  {
    seq(|items|, i requires 0 <= i < |items| => Renamed(f, items[i]))
  }

  function RelabelAll(f: BucketKey -> BucketKey, bs: seq<seq<Item>>): (r: seq<seq<Item>>)
    ensures |r| == |bs| && forall i :: 0 <= i < |r| ==> r[i] == Relabel(f, bs[i])
  {
    seq(|bs|, i requires 0 <= i < |bs| => Relabel(f, bs[i]))
  }

  function RelabelKeys(f: BucketKey -> BucketKey, ks: seq<BucketKey>): (r: seq<BucketKey>)
    ensures |r| == |ks| && forall i :: 0 <= i < |r| ==> r[i] == f(ks[i])
  {
    seq(|ks|, i requires 0 <= i < |ks| => f(ks[i]))
  }

  /** Different keys of the list stay different. */
  ghost predicate OneToOne(f: BucketKey -> BucketKey, items: seq<Item>) {
    forall x, y :: x in items && y in items && f(x.key) == f(y.key) ==> x.key == y.key
  }

  // ------------------------------------------------------------------------------------------
  // Renaming commutes with one-to-one keys

  ghost predicate SameGroup(f: BucketKey -> BucketKey, g: OpenGroup, h: OpenGroup) {
    h == OpenGroup(Relabel(f, g.chunks), g.bytes)
  }

  type Open = map<BucketKey, OpenGroup>

  ghost predicate CoversAt(f: BucketKey -> BucketKey, a: Open, b: Open, k: BucketKey) {
    k in a ==> f(k) in b && SameGroup(f, a[k], b[f(k)])
  }

  ghost predicate Covers(f: BucketKey -> BucketKey, a: Open, b: Open) {
    forall k :: CoversAt(f, a, b, k)
  }

  ghost predicate HasOrigin(f: BucketKey -> BucketKey, a: Open, k': BucketKey) {
    exists k :: k in a && f(k) == k'
  }

  /** The same groups, key by key. */
  ghost predicate SameOpen(f: BucketKey -> BucketKey, a: Open, b: Open) {
    Covers(f, a, b) && forall k' :: k' in b ==> HasOrigin(f, a, k')
  }

  ghost predicate Mirrors(f: BucketKey -> BucketKey, p: Packing, q: Packing) {
    q.done == RelabelAll(f, p.done) && q.order == RelabelKeys(f, p.order) && SameOpen(f, p.open, q.open)
  }

  ghost predicate Apart(f: BucketKey -> BucketKey, open: Open, key: BucketKey) {
    forall k :: k in open && f(k) == f(key) ==> k == key
  }

  lemma GroupMirrors(f: BucketKey -> BucketKey, p: Packing, q: Packing, key: BucketKey)
    requires SameOpen(f, p.open, q.open) && Apart(f, p.open, key)
    ensures key in p.open <==> f(key) in q.open
    ensures SameGroup(f, GroupOf(p, key), GroupOf(q, f(key)))
  {
    assert Relabel(f, []) == [] && CoversAt(f, p.open, q.open, key);
    if f(key) in q.open {
      assert HasOrigin(f, p.open, f(key));
    }
  }

  lemma CoversMore(f: BucketKey -> BucketKey, a: Open, b: Open, key: BucketKey, g: OpenGroup, h: OpenGroup)
    requires Covers(f, a, b) && Apart(f, a, key) && SameGroup(f, g, h)
    ensures Covers(f, a[key := g], b[f(key) := h])
  {
    var a', b' := a[key := g], b[f(key) := h];
    forall k ensures CoversAt(f, a', b', k) {
      assert CoversAt(f, a, b, k);
    }
  }

  lemma OpenMirrors(f: BucketKey -> BucketKey, a: Open, b: Open, key: BucketKey, g: OpenGroup, h: OpenGroup)
    requires SameOpen(f, a, b) && Apart(f, a, key) && SameGroup(f, g, h)
    ensures SameOpen(f, a[key := g], b[f(key) := h])
  {
    CoversMore(f, a, b, key, g, h);
    var a', b' := a[key := g], b[f(key) := h];
    forall k' | k' in b' ensures HasOrigin(f, a', k') {
      if k' == f(key) {
        assert key in a';
      } else {
        assert HasOrigin(f, a, k');
        var k :| k in a && f(k) == k';
        assert k in a';
      }
    }
  }

  lemma RelabelSnoc(f: BucketKey -> BucketKey, items: seq<Item>, it: Item)
    ensures Relabel(f, items + [it]) == Relabel(f, items) + [Renamed(f, it)]
  {
  }

  lemma RelabelAllSnoc(f: BucketKey -> BucketKey, bs: seq<seq<Item>>, b: seq<Item>)
    ensures RelabelAll(f, bs + [b]) == RelabelAll(f, bs) + [Relabel(f, b)]
  {
  }

  lemma RelabelKeysSnoc(f: BucketKey -> BucketKey, ks: seq<BucketKey>, k: BucketKey)
    ensures RelabelKeys(f, ks + [k]) == RelabelKeys(f, ks) + [f(k)]
  {
  }

  lemma PlaceBigMirrors(f: BucketKey -> BucketKey, p: Packing, q: Packing, it: Item, size: int)
    requires Mirrors(f, p, q) && it.nbytes >= size
    ensures Mirrors(f, Place(p, it, size), Place(q, Renamed(f, it), size))
  {
    RelabelAllSnoc(f, p.done, [it]);
    RelabelSnoc(f, [], it);
    assert [] + [it] == [it] && Relabel(f, []) + [Renamed(f, it)] == [Renamed(f, it)];
  }

  lemma CloseMirrors(f: BucketKey -> BucketKey, p: Packing, q: Packing, it: Item)
    requires Mirrors(f, p, q) && Apart(f, p.open, it.key)
    ensures var g, h := GroupOf(p, it.key), GroupOf(q, f(it.key));
            && RelabelAll(f, p.done + [g.chunks + [it]]) == q.done + [h.chunks + [Renamed(f, it)]] && g.bytes == h.bytes
            && SameGroup(f, OpenGroup(g.chunks + [it], g.bytes + it.nbytes),
                         OpenGroup(h.chunks + [Renamed(f, it)], h.bytes + it.nbytes))
            && SameGroup(f, OpenGroup([], 0), OpenGroup([], 0))
  {
    GroupMirrors(f, p, q, it.key);
    var g := GroupOf(p, it.key);
    RelabelSnoc(f, g.chunks, it);
    RelabelAllSnoc(f, p.done, g.chunks + [it]);
    assert Relabel(f, []) == [];
  }

  lemma PlaceSmallMirrors(f: BucketKey -> BucketKey, p: Packing, q: Packing, it: Item, size: int)
    requires Mirrors(f, p, q) && Apart(f, p.open, it.key) && it.nbytes < size
    ensures Mirrors(f, Place(p, it, size), Place(q, Renamed(f, it), size))
  {
    CloseMirrors(f, p, q, it);
    GroupMirrors(f, p, q, it.key);
    RelabelKeysSnoc(f, p.order, it.key);
    var g, h := GroupOf(p, it.key), GroupOf(q, f(it.key));
    if g.bytes + it.nbytes >= size {
      OpenMirrors(f, p.open, q.open, it.key, OpenGroup([], 0), OpenGroup([], 0));
    } else {
      OpenMirrors(f, p.open, q.open, it.key, OpenGroup(g.chunks + [it], g.bytes + it.nbytes),
                  OpenGroup(h.chunks + [Renamed(f, it)], h.bytes + it.nbytes));
    }
  }

  /** Every open key belongs to an item. */
  lemma {:induction false} OpenKeysFromItems(items: seq<Item>, size: int, k: BucketKey) returns (x: Item)
    requires k in PackAll(items, size).open
    ensures x in items && x.key == k
  {
    var init, last := items[..|items| - 1], items[|items| - 1];
    if k in PackAll(init, size).open {
      x := OpenKeysFromItems(init, size, k);
    } else {
      x := last;
    }
  }

  lemma {:induction false} PackMirrors(f: BucketKey -> BucketKey, items: seq<Item>, size: int)
    requires OneToOne(f, items)
    ensures Mirrors(f, PackAll(items, size), PackAll(Relabel(f, items), size))
  {
    if items != [] {
      var init, last := items[..|items| - 1], items[|items| - 1];
      assert OneToOne(f, init);
      PackMirrors(f, init, size);
      assert Relabel(f, items)[..|items| - 1] == Relabel(f, init);
      var p, q := PackAll(init, size), PackAll(Relabel(f, init), size);
      if last.nbytes >= size {
        PlaceBigMirrors(f, p, q, last, size);
      } else {
        forall k | k in p.open && f(k) == f(last.key) ensures k == last.key {
          var x := OpenKeysFromItems(init, size, k);
          assert x in items && last in items;
        }
        PlaceSmallMirrors(f, p, q, last, size);
      }
    }
  }

  lemma {:induction false} FlushMirrors(f: BucketKey -> BucketKey, p: Packing, q: Packing, order: seq<BucketKey>)
    requires SameOpen(f, p.open, q.open) && forall k :: k in order ==> k in p.open
    ensures Flush(q.open, RelabelKeys(f, order)) == RelabelAll(f, Flush(p.open, order))
  {
    if order != [] {
      var init, k := order[..|order| - 1], order[|order| - 1];
      FlushMirrors(f, p, q, init);
      assert RelabelKeys(f, order)[..|order| - 1] == RelabelKeys(f, init);
      assert k in order && CoversAt(f, p.open, q.open, k);
      if p.open[k].chunks != [] {
        RelabelAllSnoc(f, Flush(p.open, init), p.open[k].chunks);
      }
    }
  }

  lemma RelabelAllConcat(f: BucketKey -> BucketKey, a: seq<seq<Item>>, b: seq<seq<Item>>)
    ensures RelabelAll(f, a + b) == RelabelAll(f, a) + RelabelAll(f, b)
  {
  }

  /** One-to-one renaming does not move a bucket boundary. */
  lemma RelabelKeepsBoundaries(f: BucketKey -> BucketKey, items: seq<Item>, size: int)
    requires OneToOne(f, items)
    ensures Bucketize(Relabel(f, items), size) == RelabelAll(f, Bucketize(items, size))
  {
    var p, q := PackAll(items, size), PackAll(Relabel(f, items), size);
    PackMirrors(f, items, size);
    PackAllWellFormed(items, size);
    FlushMirrors(f, p, q, p.order);
    RelabelAllConcat(f, p.done, Flush(p.open, p.order));
  }

  lemma {:induction false} FlattenRelabel(f: BucketKey -> BucketKey, bs: seq<seq<Item>>)
    ensures Flatten(RelabelAll(f, bs)) == Relabel(f, Flatten(bs))
  {
    if bs != [] {
      var n := |bs| - 1;
      FlattenRelabel(f, bs[..n]);
      assert RelabelAll(f, bs)[..n] == RelabelAll(f, bs[..n]);
    }
  }

  // ------------------------------------------------------------------------------------------
  // Merging two keys moves a boundary

  ghost function KeySet(items: seq<Item>): set<BucketKey> {
    set x | x in items :: x.key
  }

  lemma {:induction false} SmallsBytes(k: BucketKey, size: int, items: seq<Item>)
    ensures Bytes(Smalls(k, size, items)) <= Bytes(items)
  {
    if items != [] {
      var init, last := items[..|items| - 1], items[|items| - 1];
      SmallsBytes(k, size, init);
      var rest := Smalls(k, size, init);
      assert (rest + [last])[..|rest|] == rest;
    }
  }

  /** Nothing closes before the end. */
  ghost predicate StillOpen(p: Packing, items: seq<Item>) {
    p.done == [] && p.open.Keys == KeySet(items) && forall k :: k in p.open ==> p.open[k].chunks != []
  }

  lemma GroupStaysBelow(items: seq<Item>, size: int, k: BucketKey)
    requires PackAll(items, size).done == []
    ensures GroupOf(PackAll(items, size), k).bytes <= Bytes(items)
  {
    var p := PackAll(items, size);
    PackAllKeeps(items, size, k);
    PackAllWellFormed(items, size);
    SmallsBytes(k, size, items);
    assert Flatten(p.done) == [];
    assert GroupOf(p, k).chunks == Smalls(k, size, items);
  }

  lemma PlaceStillOpen(p: Packing, items: seq<Item>, it: Item, size: int)
    requires StillOpen(p, items) && it.nbytes < size && GroupOf(p, it.key).bytes + it.nbytes < size
    ensures StillOpen(Place(p, it, size), items + [it])
  {
    KeySetSnoc(items, it);
    assert Place(p, it, size).open.Keys == p.open.Keys + {it.key};
  }

  lemma {:induction false} LargeSizePacks(items: seq<Item>, size: int)
    requires size > Bytes(items)
    ensures StillOpen(PackAll(items, size), items)
  {
    if items != [] {
      var init, last := items[..|items| - 1], items[|items| - 1];
      LargeSizePacks(init, size);
      GroupStaysBelow(init, size, last.key);
      PlaceStillOpen(PackAll(init, size), init, last, size);
      assert items == init + [last];
    }
  }

  lemma KeySetSnoc(items: seq<Item>, it: Item)
    ensures KeySet(items + [it]) == KeySet(items) + {it.key}
  {
    forall k ensures k in KeySet(items + [it]) <==> k in KeySet(items) + {it.key} {
      if k in KeySet(items) {
        var x :| x in items && x.key == k;
        assert x in items + [it];
      }
      if k == it.key {
        assert it in items + [it];
      }
    }
  }

  lemma {:induction false} FlushLength(open: map<BucketKey, OpenGroup>, order: seq<BucketKey>)
    requires forall k :: k in order ==> k in open && open[k].chunks != []
    ensures |Flush(open, order)| == |order|
  {
    if order != [] {
      assert order[|order| - 1] in order;
      FlushLength(open, order[..|order| - 1]);
    }
  }

  /** A size above all bytes gives one bucket per key. */
  lemma OneBucketPerKey(items: seq<Item>, size: int)
    requires size > Bytes(items)
    ensures |Bucketize(items, size)| == |KeySet(items)|
  {
    var p := PackAll(items, size);
    LargeSizePacks(items, size);
    PackAllWellFormed(items, size);
    FlushLength(p.open, p.order);
    DistinctCount(p.order, KeySet(items));
  }

  lemma {:induction false} DistinctCount<T>(s: seq<T>, all: set<T>)
    requires Distinct(s) && forall x :: x in s <==> x in all
    ensures |s| == |all|
  {
    if s != [] {
      var init, last := s[..|s| - 1], s[|s| - 1];
      forall x ensures x in init <==> x in all - {last} {
        if x in init {
          assert x in s;
        }
      }
      DistinctCount(init, all - {last});
      assert last in s;
    } else {
      assert all == {};
    }
  }

  ghost function Image(f: BucketKey -> BucketKey, ks: set<BucketKey>): set<BucketKey> {
    set k | k in ks :: f(k)
  }

  lemma {:induction false} ImageSmaller(f: BucketKey -> BucketKey, ks: set<BucketKey>)
    ensures |Image(f, ks)| <= |ks|
  {
    if ks != {} {
      var k :| k in ks;
      ImageSmaller(f, ks - {k});
      assert Image(f, ks) == Image(f, ks - {k}) + {f(k)};
    }
  }

  lemma MergedImage(f: BucketKey -> BucketKey, ks: set<BucketKey>, a: BucketKey, b: BucketKey)
    requires a in ks && b in ks && a != b && f(a) == f(b)
    ensures |Image(f, ks)| < |ks|
  {
    ImageSmaller(f, ks - {a});
    forall k ensures k in Image(f, ks) ==> k in Image(f, ks - {a}) {
      if k == f(a) {
        assert b in ks - {a};
      }
    }
    assert Image(f, ks) == Image(f, ks - {a});
  }

  lemma RelabelKeySet(f: BucketKey -> BucketKey, items: seq<Item>)
    ensures KeySet(Relabel(f, items)) == Image(f, KeySet(items))
  {
    forall k ensures k in KeySet(Relabel(f, items)) <==> k in Image(f, KeySet(items)) {
      if k in KeySet(Relabel(f, items)) {
        var y :| y in Relabel(f, items) && y.key == k;
        var i :| 0 <= i < |items| && Relabel(f, items)[i] == y;
        assert items[i].key in KeySet(items);
      }
      if k in Image(f, KeySet(items)) {
        var k0 :| k0 in KeySet(items) && f(k0) == k;
        var x :| x in items && x.key == k0;
        var i :| 0 <= i < |items| && items[i] == x;
        assert Relabel(f, items)[i] in Relabel(f, items);
      }
    }
  }

  lemma {:induction false} RelabelBytes(f: BucketKey -> BucketKey, items: seq<Item>)
    ensures Bytes(Relabel(f, items)) == Bytes(items)
  {
    if items != [] {
      RelabelBytes(f, items[..|items| - 1]);
      assert Relabel(f, items)[..|items| - 1] == Relabel(f, items[..|items| - 1]);
    }
  }

  ghost predicate SameBoundaries(f: BucketKey -> BucketKey, items: seq<Item>, size: int) {
    Bucketize(Relabel(f, items), size) == RelabelAll(f, Bucketize(items, size))
  }

  /** At a size above all bytes, merged keys give fewer buckets. */
  lemma MergingMovesBoundary(f: BucketKey -> BucketKey, items: seq<Item>, size: int)
    requires !OneToOne(f, items) && size > Bytes(items)
    ensures |Bucketize(Relabel(f, items), size)| < |Bucketize(items, size)| && !SameBoundaries(f, items, size)
  {
    var x, y :| x in items && y in items && f(x.key) == f(y.key) && x.key != y.key;
    OneBucketPerKey(items, size);
    RelabelBytes(f, items);
    OneBucketPerKey(Relabel(f, items), size);
    RelabelKeySet(f, items);
    MergedImage(f, KeySet(items), x.key, y.key);
  }

  /** The boundaries agree at every bucket size if and only if the renaming is one-to-one on the list. */
  lemma BoundariesAgreeIff(f: BucketKey -> BucketKey, items: seq<Item>)
    ensures (forall size :: SameBoundaries(f, items, size)) <==> OneToOne(f, items)
  {
    if OneToOne(f, items) {
      forall size ensures SameBoundaries(f, items, size) {
        RelabelKeepsBoundaries(f, items, size);
      }
    } else {
      MergingMovesBoundary(f, items, Bytes(items) + 1);
    }
  }
}
