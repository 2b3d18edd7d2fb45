/**
 Reductions in coalesced buckets (src/etha/comm/get_buckets.py, src/etha/comm/ir.py): two peers run the
 all-reduces they share in one order at a bucket size exactly if their own chunks for them bucket in one order.
*/
module CoalescedLockstep {
  import opened Base
  import opened IR
  import opened Buckets
  import opened Relabelling
  import opened AlikeBuckets
  import opened Sequential
  import opened PartialBatches

  // ------------------------------------------------------------------------------------------
  // The chunks of a list that reduce

  ghost function Reducing(xs: seq<Tensor>, on: nat -> bool, items: seq<Item>): seq<Item> {
    if items == [] then []
    else
      var rest, x := Reducing(xs, on, items[..|items| - 1]), items[|items| - 1];
      if Reduces(xs, on, x) then rest + [x] else rest
  }

  lemma {:induction false} ReducingHas(xs: seq<Tensor>, on: nat -> bool, items: seq<Item>, x: Item)
    ensures x in Reducing(xs, on, items) <==> x in items && Reduces(xs, on, x)
  {
    if items != [] {
      ReducingHas(xs, on, items[..|items| - 1], x);
      assert x in items <==> x in items[..|items| - 1] || x == items[|items| - 1];
    }
  }

  /** What one of them reduces. */
  ghost function NameOf(xs: seq<Tensor>, on: nat -> bool, x: Item): Reduction
    requires Reduces(xs, on, x)
  {
    TasksAreTasks(xs);
    ReductionOf(xs, Tasks(xs)[x.op / 2])
  }

  ghost predicate EachReduces(xs: seq<Tensor>, on: nat -> bool, items: seq<Item>) {
    forall i :: 0 <= i < |items| ==> Reduces(xs, on, items[i])
  }

  lemma ReducingReduce(xs: seq<Tensor>, on: nat -> bool, items: seq<Item>)
    ensures EachReduces(xs, on, Reducing(xs, on, items))
  {
    var mine := Reducing(xs, on, items);
    forall i | 0 <= i < |mine| ensures Reduces(xs, on, mine[i]) {
      ReducingHas(xs, on, items, mine[i]);
    }
  }

  lemma LastReduction(xs: seq<Tensor>, on: nat -> bool, items: seq<Item>)
    requires items != [] && Reduces(xs, on, items[|items| - 1])
    ensures Reductions(xs, on, items) == Reductions(xs, on, items[..|items| - 1]) + [NameOf(xs, on, items[|items| - 1])]
  {
  }

  lemma {:induction false} ReductionsAreNames(xs: seq<Tensor>, on: nat -> bool, items: seq<Item>)
    requires EachReduces(xs, on, items)
    ensures |Reductions(xs, on, items)| == |items|
    ensures forall i :: 0 <= i < |items| ==> Reductions(xs, on, items)[i] == NameOf(xs, on, items[i])
  {
    if items != [] {
      var n := |items| - 1;
      ReductionsAreNames(xs, on, items[..n]);
      LastReduction(xs, on, items);
      forall i | 0 <= i < |items| ensures Reductions(xs, on, items)[i] == NameOf(xs, on, items[i]) {
        if i < n {
          assert items[i] == items[..n][i];
        }
      }
    }
  }

  lemma {:induction false} ReducingKeepsReductions(xs: seq<Tensor>, on: nat -> bool, items: seq<Item>)
    ensures Reductions(xs, on, Reducing(xs, on, items)) == Reductions(xs, on, items)
  {
    if items != [] {
      var rest, x := Reducing(xs, on, items[..|items| - 1]), items[|items| - 1];
      ReducingKeepsReductions(xs, on, items[..|items| - 1]);
      assert (rest + [x])[..|rest|] == rest;
    }
  }

  // ------------------------------------------------------------------------------------------
  // In the buckets

  /** Chunks that share a key all reduce, or none does. */
  ghost predicate KeysApart(xs: seq<Tensor>, on: nat -> bool, items: seq<Item>) {
    forall x, y :: x in items && y in items && x.key == y.key ==> (Reduces(xs, on, x) <==> Reduces(xs, on, y))
  }

  ghost predicate ReducedKey(xs: seq<Tensor>, on: nat -> bool, items: seq<Item>, key: BucketKey) {
    exists x :: x in items && Reduces(xs, on, x) && x.key == key
  }

  ghost function Kept(xs: seq<Tensor>, on: nat -> bool, items: seq<Item>): BucketKey -> bool {
    (key: BucketKey) => ReducedKey(xs, on, items, key)
  }

  lemma KeptIs(xs: seq<Tensor>, on: nat -> bool, items: seq<Item>, x: Item)
    requires KeysApart(xs, on, items) && x in items
    ensures Kept(xs, on, items)(x.key) <==> Reduces(xs, on, x)
  {
  }

  lemma {:induction false} KeptItems(xs: seq<Tensor>, on: nat -> bool, all: seq<Item>, items: seq<Item>)
    requires KeysApart(xs, on, all) && forall x :: x in items ==> x in all
    ensures KeepItems(Kept(xs, on, all), items) == Reducing(xs, on, items)
  {
    if items != [] {
      KeptItems(xs, on, all, items[..|items| - 1]);
      KeptIs(xs, on, all, items[|items| - 1]);
    }
  }

  lemma BucketReduces(xs: seq<Tensor>, on: nat -> bool, all: seq<Item>, b: seq<Item>)
    requires KeysApart(xs, on, all) && GoodBucket(b) && (forall x :: x in b ==> x in all)
    requires !Kept(xs, on, all)(b[0].key)
    ensures Reductions(xs, on, b) == []
  {
    forall x | x in b ensures !Reduces(xs, on, x) {
      KeptIs(xs, on, all, x);
    }
    NothingReduced(xs, on, b);
  }

  /** Leaving out the buckets that reduce nothing. */
  lemma {:induction false} KeptBuckets(xs: seq<Tensor>, on: nat -> bool, all: seq<Item>, bs: seq<seq<Item>>)
    requires KeysApart(xs, on, all) && (forall b :: b in bs ==> GoodBucket(b))
    requires forall b, x :: b in bs && x in b ==> x in all
    ensures Reductions(xs, on, Flatten(KeepBuckets(Kept(xs, on, all), bs))) == Reductions(xs, on, Flatten(bs))
  {
    if bs != [] {
      var n := |bs| - 1;
      var rest, b := KeepBuckets(Kept(xs, on, all), bs[..n]), bs[n];
      assert b in bs;
      KeptBuckets(xs, on, all, bs[..n]);
      ReductionsConcat(xs, on, Flatten(bs[..n]), b);
      if Kept(xs, on, all)(b[0].key) {
        FlattenSnoc(rest, b);
        ReductionsConcat(xs, on, Flatten(rest), b);
      } else {
        BucketReduces(xs, on, all, b);
      }
    }
  }

  lemma {:induction false} BucketedFrom(items: seq<Item>, size: int, b: seq<Item>, x: Item)
    requires b in Bucketize(items, size) && x in b
    ensures x in items
  {
    InFlatten(Bucketize(items, size), b, x);
    BucketsPartition(items, size);
    assert x in multiset(Flatten(Bucketize(items, size)));
  }

  /** The reductions of a bucket list are those of the reducing chunks, bucketed by themselves. */
  lemma {:induction false} BucketedReductions(xs: seq<Tensor>, on: nat -> bool, items: seq<Item>, size: int)
    requires KeysApart(xs, on, items)
    ensures Reductions(xs, on, Flatten(Bucketize(items, size))) ==
            Reductions(xs, on, Flatten(Bucketize(Reducing(xs, on, items), size)))
  {
    var bs := Bucketize(items, size);
    BucketsAreSound(items, size);
    forall b, x | b in bs && x in b ensures x in items {
      BucketedFrom(items, size, b, x);
    }
    KeptBuckets(xs, on, items, bs);
    BucketingCommutesWithFiltering(Kept(xs, on, items), items, size);
    KeptItems(xs, on, items, items);
  }

  // ------------------------------------------------------------------------------------------
  // Two ranks

  /** The chunks with which a rank reduces the tensors in `on`. */
  ghost function OwnChunks(xs: seq<Tensor>, on: nat -> bool, rank: nat): seq<Item>
    requires AllFit(xs)
  {
    Reducing(xs, on, RankItems(xs, rank))
  }

  lemma PickedNames(xs: seq<Tensor>, on: nat -> bool, items: seq<Item>, size: int)
    requires EachReduces(xs, on, items)
    ensures var at, names := OrderOf(items, size), Reductions(xs, on, Flatten(Bucketize(items, size)));
            && |names| == |at| == |items|
            && forall i :: 0 <= i < |at| ==> at[i] < |items| && names[i] == NameOf(xs, on, items[at[i]])
  {
    var at, flat := OrderOf(items, size), Flatten(Bucketize(items, size));
    BucketsPick(items, size);
    BucketsPartition(items, size);
    assert |multiset(flat)| == |flat| && |multiset(items)| == |items|;
    ReductionsAreNames(xs, on, flat);
  }

  ghost predicate SameNames(xs: seq<Tensor>, on: nat -> bool, a: seq<Item>, b: seq<Item>) {
    && EachReduces(xs, on, a) && EachReduces(xs, on, b) && |a| == |b|
    && (forall i :: 0 <= i < |a| ==> NameOf(xs, on, a[i]) == NameOf(xs, on, b[i]))
    && forall i, j :: 0 <= i < j < |a| ==> NameOf(xs, on, a[i]) != NameOf(xs, on, a[j])
  }

  /** Of two lists of the same reductions: one order if and only if they bucket in one order. */
  lemma SameOrderIff(xs: seq<Tensor>, on: nat -> bool, a: seq<Item>, b: seq<Item>, size: int)
    requires SameNames(xs, on, a, b)
    ensures Reductions(xs, on, Flatten(Bucketize(a, size))) == Reductions(xs, on, Flatten(Bucketize(b, size))) <==>
            OrderOf(a, size) == OrderOf(b, size)
  {
    PickedNames(xs, on, a, size);
    PickedNames(xs, on, b, size);
    var at, at' := OrderOf(a, size), OrderOf(b, size);
    var names := Reductions(xs, on, Flatten(Bucketize(a, size)));
    var names' := Reductions(xs, on, Flatten(Bucketize(b, size)));
    if names == names' {
      forall i | 0 <= i < |at| ensures at[i] == at'[i] {
        assert names[i] == names'[i];
      }
    }
  }

  lemma OwnChunksAgree(xs: seq<Tensor>, feeds: seq<Feed>, on: nat -> bool, a: nat, b: nat)
    requires AllFit(xs) && AllPlanned(xs, feeds) && PicksPeers(xs, on, a, b) && a != b
    ensures SameNames(xs, on, OwnChunks(xs, on, a), OwnChunks(xs, on, b))
  {
    PartialLockstep(xs, feeds, on, a, b);
    ReducingKeepsReductions(xs, on, RankItems(xs, a));
    ReducingKeepsReductions(xs, on, RankItems(xs, b));
    ReducingReduce(xs, on, RankItems(xs, a));
    ReducingReduce(xs, on, RankItems(xs, b));
    ReductionsAreNames(xs, on, OwnChunks(xs, on, a));
    ReductionsAreNames(xs, on, OwnChunks(xs, on, b));
  }

  /** At bucket size `size` the two ranks run what they share in one order. */
  ghost predicate InLockstep(xs: seq<Tensor>, on: nat -> bool, a: nat, b: nat, size: int)
    requires AllFit(xs)
  {
    Reductions(xs, on, Flatten(RankBuckets(xs, a, size))) == Reductions(xs, on, Flatten(RankBuckets(xs, b, size)))
  }

  lemma LockstepIff(xs: seq<Tensor>, feeds: seq<Feed>, on: nat -> bool, a: nat, b: nat, size: int)
    requires AllFit(xs) && AllPlanned(xs, feeds) && PicksPeers(xs, on, a, b) && a != b
    requires KeysApart(xs, on, RankItems(xs, a)) && KeysApart(xs, on, RankItems(xs, b))
    ensures InLockstep(xs, on, a, b, size) <==>
            OrderOf(OwnChunks(xs, on, a), size) == OrderOf(OwnChunks(xs, on, b), size)
  {
    BucketedReductions(xs, on, RankItems(xs, a), size);
    BucketedReductions(xs, on, RankItems(xs, b), size);
    OwnChunksAgree(xs, feeds, on, a, b);
    SameOrderIff(xs, on, OwnChunks(xs, on, a), OwnChunks(xs, on, b), size);
  }
}
