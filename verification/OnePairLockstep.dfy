/**
 Partial tensors of one pair in coalesced buckets (src/etha/comm/get_buckets.py, src/etha/comm/ir.py): all tensors
 follow one table, so the peers stay in lockstep at every bucket size exactly if they share bucket keys
 between the same cells.
*/
module OnePairLockstep {
  import opened Base
  import opened IR
  import opened Layouts
  import opened Routing
  import opened RouteTables
  import opened Chunks
  import opened Buckets
  import opened Relabelling
  import opened AlikeBuckets
  import opened BucketOrder
  import opened ChunkLists
  import opened Lockstep
  import opened Sequential
  import opened PartialBatches
  import opened PartialSequential
  import opened CoalescedLockstep
  import PartialGroups
  import Coalescing

  // ------------------------------------------------------------------------------------------
  // The chunk that reduces a cell

  /** The key under which a source buckets the reduction of its route. */
  ghost function ReduceKey(r: Route, sig: seq<PartialGroup>): BucketKey {
    if SelfP2p(r, r.src.rank) then LocalItem(r, sig, 0, 0).key else WireItem(r, sig, 0, 0).key
  }

  lemma OwnItemIs(r: Route, sig: seq<PartialGroup>, nb: nat, op: nat, x: Item)
    requires x in RouteItems(r, sig, nb, op) && x.key.partialSig != []
    ensures sig != [] && x.key == ReduceKey(r, sig) && x.nbytes == nb && op <= x.op <= op + 1
  {
  }

  /** What a chunk of a rank's list that reduces is. */
  ghost predicate IsOwn(xs: seq<Tensor>, rank: nat, x: Item, k: Task) {
    && IsTask(xs, k) && RouteOf(xs, k).src.rank == rank && TaskSig(xs, k) != []
    && x.nbytes == BytesOf(xs[k.tensor]) && x.key == ReduceKey(RouteOf(xs, k), TaskSig(xs, k))
  }

  lemma OwnBlockItem(xs: seq<Tensor>, rank: nat, i: nat, x: Item)
    requires AllFit(xs) && i < |Tasks(xs)| && IsTask(xs, Tasks(xs)[i]) && x in RankBlocks(xs, rank)[i]
    requires x.key.partialSig != []
    ensures IsOwn(xs, rank, x, Tasks(xs)[i]) && x.op / 2 == i
  {
    var k := Tasks(xs)[i];
    if RouteOf(xs, k).src.rank != rank || TaskSig(xs, k) == [] {
      OtherTaskItems(xs, rank, k, 2 * i, x);
    } else {
      BlockItems(xs, rank, i, k);
      OwnItemIs(RouteOf(xs, k), TaskSig(xs, k), BytesOf(xs[k.tensor]), 2 * i, x);
    }
  }

  lemma OwnChunkIs(xs: seq<Tensor>, rank: nat, x: Item)
    requires AllFit(xs) && x in RankItems(xs, rank) && x.key.partialSig != []
    ensures x.op / 2 < |Tasks(xs)| && IsOwn(xs, rank, x, Tasks(xs)[x.op / 2])
  {
    var i := FlatOrigin(RankBlocks(xs, rank), x);
    OwnBlockItem(xs, rank, i, x);
  }

  ghost function Everywhere(): nat -> bool {
    (_: nat) => true
  }

  /** With all tensors in view, a chunk reduces exactly if its key names groups. */
  lemma ReducesIff(xs: seq<Tensor>, rank: nat, x: Item)
    requires AllFit(xs) && x in RankItems(xs, rank)
    ensures Reduces(xs, Everywhere(), x) <==> x.key.partialSig != []
  {
    if x.key.partialSig != [] {
      OwnChunkIs(xs, rank, x);
    }
  }

  lemma AllKeysApart(xs: seq<Tensor>, rank: nat)
    requires AllFit(xs)
    ensures KeysApart(xs, Everywhere(), RankItems(xs, rank))
  {
    forall x, y | x in RankItems(xs, rank) && y in RankItems(xs, rank) && x.key == y.key
      ensures Reduces(xs, Everywhere(), x) <==> Reduces(xs, Everywhere(), y)
    {
      ReducesIff(xs, rank, x);
      ReducesIff(xs, rank, y);
    }
  }

  // ------------------------------------------------------------------------------------------
  // One table

  /** All tensors of one pair. */
  ghost predicate OneTable(xs: seq<Tensor>) {
    forall j :: 0 <= j < |xs| ==>
      xs[j].problem == xs[0].problem && xs[j].routes == xs[0].routes && xs[j].partials == xs[0].partials
  }

  ghost predicate KeyAt(x: Tensor, rank: nat, cell: seq<nat>, key: BucketKey) {
    exists i :: 0 <= i < |x.routes| && x.routes[i].src == Endpoint(rank, cell) &&
      ReduceKey(x.routes[i], SigOf(x, rank)) == key
  }

  /** A rank puts the reductions of two of its cells under one key. */
  ghost predicate Groups(x: Tensor, rank: nat, c: seq<nat>, c': seq<nat>) {
    exists key :: KeyAt(x, rank, c, key) && KeyAt(x, rank, c', key)
  }

  ghost predicate GroupsAlike(x: Tensor, a: nat, b: nat) {
    forall c, c' :: c in CellsFrom(x.routes, a) && c' in CellsFrom(x.routes, a) ==>
      (Groups(x, a, c, c') <==> Groups(x, b, c, c'))
  }

  lemma KeyIsUnique(x: Tensor, rank: nat, c: seq<nat>, key: BucketKey, key': BucketKey)
    requires KeysIncrease(x.routes) && KeyAt(x, rank, c, key) && KeyAt(x, rank, c, key')
    ensures key == key'
  {
    var i :| 0 <= i < |x.routes| && x.routes[i].src == Endpoint(rank, c) &&
      ReduceKey(x.routes[i], SigOf(x, rank)) == key;
    var j :| 0 <= j < |x.routes| && x.routes[j].src == Endpoint(rank, c) &&
      ReduceKey(x.routes[j], SigOf(x, rank)) == key';
    Coalescing.SourcesDistinct(x.routes, i, j);
  }

  /** The name of an own chunk says under which key it is. */
  lemma OwnKey(xs: seq<Tensor>, rank: nat, i: nat)
    requires AllFit(xs) && OneTable(xs) && i < |OwnChunks(xs, Everywhere(), rank)|
    ensures xs != []
    ensures var x := OwnChunks(xs, Everywhere(), rank)[i];
            && Reduces(xs, Everywhere(), x) && x.nbytes == BytesOf(xs[NameOf(xs, Everywhere(), x).tensor])
            && KeyAt(xs[0], rank, NameOf(xs, Everywhere(), x).cell, x.key)
            && NameOf(xs, Everywhere(), x).cell in CellsFrom(xs[0].routes, rank)
  {
    var x := OwnChunks(xs, Everywhere(), rank)[i];
    ReducingHas(xs, Everywhere(), RankItems(xs, rank), x);
    OwnChunkIs(xs, rank, x);
    var k := Tasks(xs)[x.op / 2];
    assert xs[0].routes[k.route].src == Endpoint(rank, RouteOf(xs, k).src.cell);
    CellsFromHas(xs[0].routes, rank, RouteOf(xs, k).src.cell);
  }

  /** So two of them share a key exactly if the rank groups their cells. */
  lemma OwnKeysEqualIff(xs: seq<Tensor>, rank: nat, i: nat, j: nat)
    requires AllFit(xs) && OneTable(xs) && i < |OwnChunks(xs, Everywhere(), rank)|
    requires j < |OwnChunks(xs, Everywhere(), rank)|
    requires xs != [] && KeysIncrease(xs[0].routes)
    ensures var x, y := OwnChunks(xs, Everywhere(), rank)[i], OwnChunks(xs, Everywhere(), rank)[j];
            && Reduces(xs, Everywhere(), x) && Reduces(xs, Everywhere(), y)
            && (x.key == y.key <==>
                Groups(xs[0], rank, NameOf(xs, Everywhere(), x).cell, NameOf(xs, Everywhere(), y).cell))
  {
    OwnKey(xs, rank, i);
    OwnKey(xs, rank, j);
    var x, y := OwnChunks(xs, Everywhere(), rank)[i], OwnChunks(xs, Everywhere(), rank)[j];
    var c, c' := NameOf(xs, Everywhere(), x).cell, NameOf(xs, Everywhere(), y).cell;
    if Groups(xs[0], rank, c, c') {
      var key :| KeyAt(xs[0], rank, c, key) && KeyAt(xs[0], rank, c', key);
      KeyIsUnique(xs[0], rank, c, x.key, key);
      KeyIsUnique(xs[0], rank, c', y.key, key);
    }
  }

  ghost predicate PairOfPeers(xs: seq<Tensor>, feeds: seq<Feed>, a: nat, b: nat) {
    && AllFit(xs) && AllPlanned(xs, feeds) && OneTable(xs) && xs != [] && Peers(xs[0], a, b) && a != b
  }

  lemma PeersEverywhere(xs: seq<Tensor>, feeds: seq<Feed>, a: nat, b: nat)
    requires PairOfPeers(xs, feeds, a, b)
    ensures PicksPeers(xs, Everywhere(), a, b) && KeysIncrease(xs[0].routes)
    ensures SameNames(xs, Everywhere(), OwnChunks(xs, Everywhere(), a), OwnChunks(xs, Everywhere(), b))
  {
    assert PlannedAs(xs[0], feeds[0].merged, feeds[0].expanded);
    OwnChunksAgree(xs, feeds, Everywhere(), a, b);
  }

  /** Chunk by chunk, the peers group alike. */
  lemma GroupsAlikeAt(xs: seq<Tensor>, feeds: seq<Feed>, a: nat, b: nat, i: nat, j: nat)
    requires PairOfPeers(xs, feeds, a, b) && GroupsAlike(xs[0], a, b)
    requires i < |OwnChunks(xs, Everywhere(), a)| && j < |OwnChunks(xs, Everywhere(), a)|
    ensures |OwnChunks(xs, Everywhere(), a)| == |OwnChunks(xs, Everywhere(), b)|
    ensures var mine, theirs := OwnChunks(xs, Everywhere(), a), OwnChunks(xs, Everywhere(), b);
            mine[i].nbytes == theirs[i].nbytes && (mine[i].key == mine[j].key <==> theirs[i].key == theirs[j].key)
  {
    PeersEverywhere(xs, feeds, a, b);
    OwnKeysEqualIff(xs, a, i, j);
    OwnKeysEqualIff(xs, b, i, j);
    OwnKey(xs, a, i);
    OwnKey(xs, a, j);
    OwnKey(xs, b, i);
  }

  lemma GroupsAlikeIsAlike(xs: seq<Tensor>, feeds: seq<Feed>, a: nat, b: nat)
    requires PairOfPeers(xs, feeds, a, b) && GroupsAlike(xs[0], a, b)
    ensures Alike(OwnChunks(xs, Everywhere(), a), OwnChunks(xs, Everywhere(), b))
  {
    var mine, theirs := OwnChunks(xs, Everywhere(), a), OwnChunks(xs, Everywhere(), b);
    PeersEverywhere(xs, feeds, a, b);
    forall i, j | 0 <= i < |mine| && 0 <= j < |mine|
      ensures mine[i].nbytes == theirs[i].nbytes && (mine[i].key == mine[j].key <==> theirs[i].key == theirs[j].key)
    {
      GroupsAlikeAt(xs, feeds, a, b, i, j);
    }
  }

  /** Peers that group alike run what they share in one order, at every bucket size. */
  lemma GroupsAlikeLockstep(xs: seq<Tensor>, feeds: seq<Feed>, a: nat, b: nat, size: int)
    requires PairOfPeers(xs, feeds, a, b) && GroupsAlike(xs[0], a, b)
    ensures InLockstep(xs, Everywhere(), a, b, size)
  {
    OrderIsLockstep(xs, feeds, a, b, size);
    GroupsAlikeIsAlike(xs, feeds, a, b);
    AlikeOrder(OwnChunks(xs, Everywhere(), a), OwnChunks(xs, Everywhere(), b), size);
  }

  // ------------------------------------------------------------------------------------------
  // Two tensors are enough to show a difference

  ghost predicate TensorsRise(r: seq<Reduction>, n: nat) {
    && (forall i :: 0 <= i < |r| ==> r[i].tensor < n)
    && forall i, j :: 0 <= i < j < |r| ==> r[i].tensor <= r[j].tensor
  }

  lemma {:induction false} ReductionsRise(xs: seq<Tensor>, on: nat -> bool, rank: nat)
    ensures TensorsRise(TaskReductions(xs, on, rank, Tasks(xs)), |xs|)
  {
    if xs != [] {
      ReductionsRise(xs[..|xs| - 1], on, rank);
      BatchReductions(xs, on, rank);
    }
  }

  lemma InConcat<T>(a: seq<T>, b: seq<T>, x: T)
    ensures x in a + b <==> x in a || x in b
  {
  }

  /** Every cell of every tensor is among the reductions. */
  lemma {:induction false} ReductionsHave(xs: seq<Tensor>, on: nat -> bool, rank: nat, j: nat, c: seq<nat>)
    requires j < |xs| && on(j) && SigOf(xs[j], rank) != [] && c in CellsFrom(xs[j].routes, rank)
    ensures Reduction(j, c) in TaskReductions(xs, on, rank, Tasks(xs))
  {
    var n := |xs| - 1;
    var before, here := TaskReductions(xs[..n], on, rank, Tasks(xs[..n])), Tagged(n, CellsFrom(xs[n].routes, rank));
    BatchReductions(xs, on, rank);
    InConcat(before, here, Reduction(j, c));
    if j < n {
      assert xs[..n][j] == xs[j];
      ReductionsHave(xs[..n], on, rank, j, c);
      InConcat(before, [], Reduction(j, c));
    } else {
      TaggedHas(n, CellsFrom(xs[n].routes, rank), c);
    }
  }

  lemma TaggedHas(n: nat, cells: seq<seq<nat>>, c: seq<nat>)
    requires c in cells
    ensures Reduction(n, c) in Tagged(n, cells)
  {
    var i :| 0 <= i < |cells| && cells[i] == c;
    assert Tagged(n, cells)[i] == Reduction(n, c);
  }

  lemma NamesAre(xs: seq<Tensor>, rank: nat)
    requires AllFit(xs)
    ensures var mine := OwnChunks(xs, Everywhere(), rank);
            && EachReduces(xs, Everywhere(), mine)
            && TaskReductions(xs, Everywhere(), rank, Tasks(xs)) == Reductions(xs, Everywhere(), mine)
  {
    RankReductions(xs, Everywhere(), rank);
    ReducingKeepsReductions(xs, Everywhere(), RankItems(xs, rank));
    ReducingReduce(xs, Everywhere(), RankItems(xs, rank));
  }

  ghost predicate NamedAt(xs: seq<Tensor>, rank: nat, i: nat, j: nat, c: seq<nat>)
    requires AllFit(xs)
  {
    var mine := OwnChunks(xs, Everywhere(), rank);
    i < |mine| && Reduces(xs, Everywhere(), mine[i]) && NameOf(xs, Everywhere(), mine[i]) == Reduction(j, c)
  }

  /** Where a rank reduces a cell of a tensor. */
  lemma PositionOf(xs: seq<Tensor>, rank: nat, j: nat, c: seq<nat>) returns (i: nat)
    requires AllFit(xs) && j < |xs| && SigOf(xs[j], rank) != [] && c in CellsFrom(xs[j].routes, rank)
    ensures NamedAt(xs, rank, i, j, c)
  {
    var mine := OwnChunks(xs, Everywhere(), rank);
    NamesAre(xs, rank);
    ReductionsHave(xs, Everywhere(), rank, j, c);
    ReductionsAreNames(xs, Everywhere(), mine);
    var names := Reductions(xs, Everywhere(), mine);
    i :| 0 <= i < |names| && names[i] == Reduction(j, c);
  }

  lemma EarlierTensorFirst(xs: seq<Tensor>, rank: nat, i: nat, j: nat, c: seq<nat>, i': nat, j': nat, c': seq<nat>)
    requires AllFit(xs) && NamedAt(xs, rank, i, j, c) && NamedAt(xs, rank, i', j', c') && j < j'
    ensures i < i'
  {
    var mine := OwnChunks(xs, Everywhere(), rank);
    NamesAre(xs, rank);
    ReductionsRise(xs, Everywhere(), rank);
    ReductionsAreNames(xs, Everywhere(), mine);
    RisingIndex(Reductions(xs, Everywhere(), mine), |xs|, i, i');
  }

  lemma RisingIndex(r: seq<Reduction>, n: nat, i: nat, i': nat)
    requires TensorsRise(r, n) && i < |r| && i' < |r| && r[i].tensor < r[i'].tensor
    ensures i < i'
  {
  }

  /** The chunks of two cells share a key exactly if the rank groups the cells. */
  lemma KeysAtIff(xs: seq<Tensor>, rank: nat, i: nat, j: nat, c: seq<nat>, i': nat, j': nat, c': seq<nat>)
    requires AllFit(xs) && OneTable(xs) && xs != [] && KeysIncrease(xs[0].routes)
    requires NamedAt(xs, rank, i, j, c) && NamedAt(xs, rank, i', j', c')
    ensures var mine := OwnChunks(xs, Everywhere(), rank); mine[i].key == mine[i'].key <==> Groups(xs[0], rank, c, c')
  {
    OwnKeysEqualIff(xs, rank, i, i');
  }

  lemma GroupsItself(xs: seq<Tensor>, rank: nat, i: nat, j: nat, c: seq<nat>)
    requires AllFit(xs) && OneTable(xs) && xs != [] && NamedAt(xs, rank, i, j, c)
    ensures Groups(xs[0], rank, c, c)
  {
    OwnKey(xs, rank, i);
  }

  lemma GroupsSwaps(x: Tensor, rank: nat, c: seq<nat>, c': seq<nat>)
    requires Groups(x, rank, c, c')
    ensures Groups(x, rank, c', c)
  {
    var key :| KeyAt(x, rank, c, key) && KeyAt(x, rank, c', key);
  }

  lemma BothNamed(xs: seq<Tensor>, feeds: seq<Feed>, a: nat, b: nat, i: nat, j: nat, c: seq<nat>)
    requires PairOfPeers(xs, feeds, a, b) && NamedAt(xs, a, i, j, c)
    ensures NamedAt(xs, b, i, j, c) && |OwnChunks(xs, Everywhere(), a)| == |OwnChunks(xs, Everywhere(), b)|
  {
    PeersEverywhere(xs, feeds, a, b);
  }

  /** Where one peer groups two cells and the other does not, the orders differ. */
  lemma OrdersDiffer(xs: seq<Tensor>, feeds: seq<Feed>, a: nat, b: nat, c: seq<nat>, c': seq<nat>, size: int,
                     i: nat, i': nat, h: nat)
    requires PairOfPeers(xs, feeds, a, b) && Groups(xs[0], a, c, c') && !Groups(xs[0], b, c, c')
    requires NamedAt(xs, a, i, 0, c) && NamedAt(xs, a, i', 0, c') && NamedAt(xs, a, h, 1, c) && i < i'
    requires size > Bytes(OwnChunks(xs, Everywhere(), a)) && size > Bytes(OwnChunks(xs, Everywhere(), b))
    ensures OrderOf(OwnChunks(xs, Everywhere(), a), size) != OrderOf(OwnChunks(xs, Everywhere(), b), size)
  {
    PeersEverywhere(xs, feeds, a, b);
    BothNamed(xs, feeds, a, b, i, 0, c);
    BothNamed(xs, feeds, a, b, i', 0, c');
    BothNamed(xs, feeds, a, b, h, 1, c);
    EarlierTensorFirst(xs, a, i', 0, c', h, 1, c);
    GroupsItself(xs, a, i, 0, c);
    GroupsItself(xs, b, i, 0, c);
    KeysAtIff(xs, a, i, 0, c, i', 0, c');
    KeysAtIff(xs, a, i, 0, c, h, 1, c);
    KeysAtIff(xs, b, i, 0, c, i', 0, c');
    KeysAtIff(xs, b, i, 0, c, h, 1, c);
    SplitKeyShows(OwnChunks(xs, Everywhere(), a), OwnChunks(xs, Everywhere(), b), size, i, i', h);
  }

  /** A size nothing reaches. */
  function AboveAll(a: seq<Item>, b: seq<Item>): (size: int)
    ensures size > Bytes(a) && size > Bytes(b)
  {
    Bytes(a) + Bytes(b) + 1
  }

  lemma DifferenceShows(xs: seq<Tensor>, feeds: seq<Feed>, a: nat, b: nat, c: seq<nat>, c': seq<nat>)
    requires PairOfPeers(xs, feeds, a, b) && |xs| >= 2 && Groups(xs[0], a, c, c') && !Groups(xs[0], b, c, c')
    requires c in CellsFrom(xs[0].routes, a) && c' in CellsFrom(xs[0].routes, a)
    ensures !InLockstep(xs, Everywhere(), a, b,
                        AboveAll(OwnChunks(xs, Everywhere(), a), OwnChunks(xs, Everywhere(), b)))
  {
    var size := AboveAll(OwnChunks(xs, Everywhere(), a), OwnChunks(xs, Everywhere(), b));
    PeersAreSigned(xs[0], feeds[0].merged, feeds[0].expanded, a, b);
    assert OneTable(xs) && xs[1].routes == xs[0].routes && SigOf(xs[1], a) == SigOf(xs[0], a);
    var i := PositionOf(xs, a, 0, c);
    var i' := PositionOf(xs, a, 0, c');
    if i < i' {
      var h := PositionOf(xs, a, 1, c);
      OrdersDiffer(xs, feeds, a, b, c, c', size, i, i', h);
    } else {
      var h := PositionOf(xs, a, 1, c');
      SwappedGroups(xs, feeds, a, b, c, c', i, i');
      OrdersDiffer(xs, feeds, a, b, c', c, size, i', i, h);
    }
    OrderIsLockstep(xs, feeds, a, b, size);
  }

  lemma SwappedGroups(xs: seq<Tensor>, feeds: seq<Feed>, a: nat, b: nat, c: seq<nat>, c': seq<nat>, i: nat, i': nat)
    requires PairOfPeers(xs, feeds, a, b) && Groups(xs[0], a, c, c') && !Groups(xs[0], b, c, c')
    requires NamedAt(xs, a, i, 0, c) && NamedAt(xs, a, i', 0, c') && i' <= i
    ensures Groups(xs[0], a, c', c) && !Groups(xs[0], b, c', c) && i' < i
  {
    GroupsSwaps(xs[0], a, c, c');
    if Groups(xs[0], b, c', c) {
      GroupsSwaps(xs[0], b, c', c);
    }
    if i == i' {
      BothNamed(xs, feeds, a, b, i, 0, c);
      GroupsItself(xs, b, i, 0, c);
    }
  }

  lemma OrderIsLockstep(xs: seq<Tensor>, feeds: seq<Feed>, a: nat, b: nat, size: int)
    requires PairOfPeers(xs, feeds, a, b)
    ensures InLockstep(xs, Everywhere(), a, b, size) <==>
            OrderOf(OwnChunks(xs, Everywhere(), a), size) == OrderOf(OwnChunks(xs, Everywhere(), b), size)
  {
    PeersEverywhere(xs, feeds, a, b);
    AllKeysApart(xs, a);
    AllKeysApart(xs, b);
    LockstepIff(xs, feeds, Everywhere(), a, b, size);
  }

  lemma InLockstepSwaps(xs: seq<Tensor>, a: nat, b: nat, size: int)
    requires AllFit(xs)
    ensures InLockstep(xs, Everywhere(), a, b, size) <==> InLockstep(xs, Everywhere(), b, a, size)
  {
  }

  lemma PeersSwap(xs: seq<Tensor>, feeds: seq<Feed>, a: nat, b: nat)
    requires PairOfPeers(xs, feeds, a, b)
    ensures PairOfPeers(xs, feeds, b, a) && CellsFrom(xs[0].routes, a) == CellsFrom(xs[0].routes, b)
  {
    PartialGroups.LinkedSym(GroupsOf(xs[0].problem), a, b);
    PeersReduceAlike(xs[0], feeds[0].merged, feeds[0].expanded, a, b);
  }

  lemma LockstepGroupsAlike(xs: seq<Tensor>, feeds: seq<Feed>, a: nat, b: nat)
    requires PairOfPeers(xs, feeds, a, b) && |xs| >= 2 && forall size :: InLockstep(xs, Everywhere(), a, b, size)
    ensures GroupsAlike(xs[0], a, b)
  {
    PeersSwap(xs, feeds, a, b);
    forall c, c' | c in CellsFrom(xs[0].routes, a) && c' in CellsFrom(xs[0].routes, a)
      ensures Groups(xs[0], a, c, c') <==> Groups(xs[0], b, c, c')
    {
      if Groups(xs[0], a, c, c') && !Groups(xs[0], b, c, c') {
        DifferenceShows(xs, feeds, a, b, c, c');
      }
      if Groups(xs[0], b, c, c') && !Groups(xs[0], a, c, c') {
        DifferenceShows(xs, feeds, b, a, c, c');
        InLockstepSwaps(xs, a, b, AboveAll(OwnChunks(xs, Everywhere(), b), OwnChunks(xs, Everywhere(), a)));
      }
    }
  }

  /**
   Two or more tensors of one pair: their peers run the reductions they share in one order at every bucket
   size if and only if they put the same cells under a common key.
   */
  lemma OnePairLockstepIff(xs: seq<Tensor>, feeds: seq<Feed>, a: nat, b: nat)
    requires PairOfPeers(xs, feeds, a, b) && |xs| >= 2
    ensures (forall size :: InLockstep(xs, Everywhere(), a, b, size)) <==> GroupsAlike(xs[0], a, b)
  {
    if GroupsAlike(xs[0], a, b) {
      forall size ensures InLockstep(xs, Everywhere(), a, b, size) {
        GroupsAlikeLockstep(xs, feeds, a, b, size);
      }
    }
    if forall size :: InLockstep(xs, Everywhere(), a, b, size) {
      LockstepGroupsAlike(xs, feeds, a, b);
    }
  }
}
