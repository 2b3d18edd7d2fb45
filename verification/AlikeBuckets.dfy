/**
 Lists bucketed alike (src/etha/comm/get_buckets.py): where bucket boundaries fall depends on the sizes of the
 chunks and on which of them share a key, and on nothing else.
*/
module AlikeBuckets {
  import opened Base
  import opened IR
  import opened Buckets
  import opened Relabelling

  // ------------------------------------------------------------------------------------------
  // Which operation a chunk belongs to plays no part

  function Renumbered(g: nat -> nat, it: Item): Item {
    it.(op := g(it.op))
  }

  function Renumber(g: nat -> nat, items: seq<Item>): (r: seq<Item>)
    ensures |r| == |items| && forall i :: 0 <= i < |r| ==> r[i] == Renumbered(g, items[i])
  {
    seq(|items|, i requires 0 <= i < |items| => Renumbered(g, items[i]))
  }

  function RenumberAll(g: nat -> nat, bs: seq<seq<Item>>): (r: seq<seq<Item>>)
    ensures |r| == |bs| && forall i :: 0 <= i < |r| ==> r[i] == Renumber(g, bs[i])
  {
    seq(|bs|, i requires 0 <= i < |bs| => Renumber(g, bs[i]))
  }

  function RenumberGroup(g: nat -> nat, group: OpenGroup): OpenGroup {
    OpenGroup(Renumber(g, group.chunks), group.bytes)
  }

  function RenumberPacking(g: nat -> nat, p: Packing): Packing {
    Packing(RenumberAll(g, p.done), p.order, map k | k in p.open :: RenumberGroup(g, p.open[k]))
  }

  lemma RenumberSnoc(g: nat -> nat, items: seq<Item>, it: Item)
    ensures Renumber(g, items + [it]) == Renumber(g, items) + [Renumbered(g, it)]
  {
  }

  lemma RenumberAllSnoc(g: nat -> nat, bs: seq<seq<Item>>, b: seq<Item>)
    ensures RenumberAll(g, bs + [b]) == RenumberAll(g, bs) + [Renumber(g, b)]
  {
  }

  lemma RenumberOpen(g: nat -> nat, p: Packing, q: Packing, key: BucketKey, group: OpenGroup)
    requires q.open == p.open[key := group]
    ensures RenumberPacking(g, q).open == RenumberPacking(g, p).open[key := RenumberGroup(g, group)]
  {
  }

  lemma PlaceRenumbered(g: nat -> nat, p: Packing, it: Item, size: int)
    ensures Place(RenumberPacking(g, p), Renumbered(g, it), size) == RenumberPacking(g, Place(p, it, size))
  {
    var group, next := GroupOf(p, it.key), Place(p, it, size);
    RenumberSnoc(g, group.chunks, it);
    RenumberAllSnoc(g, p.done, group.chunks + [it]);
    RenumberAllSnoc(g, p.done, [it]);
    assert Renumber(g, []) == [] && Renumber(g, [it]) == [Renumbered(g, it)];
    assert GroupOf(RenumberPacking(g, p), it.key) == RenumberGroup(g, group);
    if it.nbytes < size {
      RenumberOpen(g, p, next, it.key, next.open[it.key]);
    }
  }

  lemma {:induction false} PackRenumbered(g: nat -> nat, items: seq<Item>, size: int)
    ensures PackAll(Renumber(g, items), size) == RenumberPacking(g, PackAll(items, size))
  {
    if items != [] {
      var n := |items| - 1;
      PackRenumbered(g, items[..n], size);
      assert Renumber(g, items)[..n] == Renumber(g, items[..n]);
      PlaceRenumbered(g, PackAll(items[..n], size), items[n], size);
    }
  }

  lemma {:induction false} FlushRenumbered(g: nat -> nat, p: Packing, order: seq<BucketKey>)
    ensures Flush(RenumberPacking(g, p).open, order) == RenumberAll(g, Flush(p.open, order))
  {
    if order != [] {
      var n := |order| - 1;
      FlushRenumbered(g, p, order[..n]);
      if order[n] in p.open {
        RenumberAllSnoc(g, Flush(p.open, order[..n]), p.open[order[n]].chunks);
      }
    }
  }

  lemma BucketsRenumbered(g: nat -> nat, items: seq<Item>, size: int)
    ensures Bucketize(Renumber(g, items), size) == RenumberAll(g, Bucketize(items, size))
  {
    var p := PackAll(items, size);
    PackRenumbered(g, items, size);
    FlushRenumbered(g, p, p.order);
  }

  lemma {:induction false} FlattenRenumbered(g: nat -> nat, bs: seq<seq<Item>>)
    ensures Flatten(RenumberAll(g, bs)) == Renumber(g, Flatten(bs))
  {
    if bs != [] {
      var n := |bs| - 1;
      FlattenRenumbered(g, bs[..n]);
      assert RenumberAll(g, bs)[..n] == RenumberAll(g, bs[..n]);
    }
  }

  // ------------------------------------------------------------------------------------------
  // Sizes and shared keys are all there is

  /** The same sizes, and the same chunks share a key. */
  ghost predicate Alike(a: seq<Item>, b: seq<Item>) {
    && |a| == |b| && (forall i :: 0 <= i < |a| ==> a[i].nbytes == b[i].nbytes)
    && forall i, j :: 0 <= i < |a| && 0 <= j < |a| ==> (a[i].key == a[j].key <==> b[i].key == b[j].key)
  }

  /** Each chunk with its position as its number. */
  function Indexed(items: seq<Item>): (r: seq<Item>)
    ensures |r| == |items| && forall i :: 0 <= i < |r| ==> r[i] == items[i].(op := i)
  {
    seq(|items|, i requires 0 <= i < |items| => items[i].(op := i))
  }

  ghost function NumberAt(items: seq<Item>): nat -> nat {
    (i: nat) => if i < |items| then items[i].op else 0
  }

  lemma IndexedRenumbers(items: seq<Item>)
    ensures Renumber(NumberAt(items), Indexed(items)) == items
  {
  }

  ghost predicate At(items: seq<Item>, key: BucketKey, i: nat) {
    i < |items| && items[i].key == key
  }

  ghost function KeyTo(a: seq<Item>, b: seq<Item>): BucketKey -> BucketKey
    requires |a| == |b|
  {
    (key: BucketKey) => if exists i: nat :: At(a, key, i) then var i: nat :| At(a, key, i); b[i].key else key
  }

  lemma KeyToIs(a: seq<Item>, b: seq<Item>, i: nat)
    requires Alike(a, b) && i < |a|
    ensures KeyTo(a, b)(a[i].key) == b[i].key
  {
    assert At(a, a[i].key, i);
  }

  lemma IndexedAlike(a: seq<Item>, b: seq<Item>)
    requires Alike(a, b)
    ensures Relabel(KeyTo(a, b), Indexed(a)) == Indexed(b) && OneToOne(KeyTo(a, b), Indexed(a))
  {
    var f := KeyTo(a, b);
    forall i | 0 <= i < |a| ensures Relabel(f, Indexed(a))[i] == Indexed(b)[i] {
      KeyToIs(a, b, i);
    }
    forall x, y | x in Indexed(a) && y in Indexed(a) && f(x.key) == f(y.key) ensures x.key == y.key {
      var i :| 0 <= i < |a| && Indexed(a)[i] == x;
      var j :| 0 <= j < |a| && Indexed(a)[j] == y;
      KeyToIs(a, b, i);
      KeyToIs(a, b, j);
    }
  }

  /** `flat` lists the chunks of `items` in the order `at`. */
  ghost predicate Picks(items: seq<Item>, at: seq<nat>, flat: seq<Item>) {
    |flat| == |at| && forall i :: 0 <= i < |at| ==> at[i] < |items| && flat[i] == items[at[i]]
  }

  function Numbers(items: seq<Item>): (r: seq<nat>)
    ensures |r| == |items| && forall i :: 0 <= i < |r| ==> r[i] == items[i].op
  {
    seq(|items|, i requires 0 <= i < |items| => items[i].op)
  }

  lemma BucketedAt(items: seq<Item>, size: int, i: nat)
    requires i < |Flatten(Bucketize(Indexed(items), size))|
    ensures var x := Flatten(Bucketize(Indexed(items), size))[i]; x.op < |items| && x == items[x.op].(op := x.op)
  {
    var flat := Flatten(Bucketize(Indexed(items), size));
    BucketsPartition(Indexed(items), size);
    assert flat[i] in multiset(flat);
    assert flat[i] in Indexed(items);
  }

  /** The order in which the bucket list runs the chunks. */
  ghost function OrderOf(items: seq<Item>, size: int): seq<nat> {
    Numbers(Flatten(Bucketize(Indexed(items), size)))
  }

  lemma BucketsPick(items: seq<Item>, size: int)
    ensures Picks(items, OrderOf(items, size), Flatten(Bucketize(items, size)))
  {
    var g, bs := NumberAt(items), Bucketize(Indexed(items), size);
    IndexedRenumbers(items);
    BucketsRenumbered(g, Indexed(items), size);
    FlattenRenumbered(g, bs);
    var at := OrderOf(items, size);
    forall i | 0 <= i < |at| ensures at[i] < |items| && Renumber(g, Flatten(bs))[i] == items[at[i]] {
      BucketedAt(items, size, i);
    }
  }

  /** Lists that are alike run in the same order at every bucket size. */
  lemma AlikeOrder(a: seq<Item>, b: seq<Item>, size: int)
    requires Alike(a, b)
    ensures OrderOf(a, size) == OrderOf(b, size)
  {
    var f := KeyTo(a, b);
    IndexedAlike(a, b);
    RelabelKeepsBoundaries(f, Indexed(a), size);
    FlattenRelabel(f, Bucketize(Indexed(a), size));
  }
}
