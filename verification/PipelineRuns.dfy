/**
 The pipelined mode of the bucket executor (src/etha/comm/comm_methods.py): its loops end, every
 bucket passes every stage once and in order inside the window, and memory ends up as in sequential mode.
*/
module PipelineRuns {
  import opened Base
  import opened Pipeline
  import opened PipelineTiming

  // ------------------------------------------------------------------------------------------
  // Memory along a run

  ghost function Done(keys: seq<nat>, trace: seq<Event>): (r: set<nat>)
    ensures forall i :: i in r <==> 0 <= i < |keys| && i in Passed(keys, trace, Finalized, keys[i])
  {
    set i | 0 <= i < |keys| && i in Passed(keys, trace, Finalized, keys[i])
  }

  ghost predicate BufsOk<V>(p: Pipe<V>) {
    forall c, i :: 0 <= c < |p.channels| && i in p.channels[c].inFlight + p.channels[c].prepared ==> i in p.bufs
  }

  ghost predicate SnapsOk<V>(plan: Plan, start: Mem<V>, p: Pipe<V>)
    requires ValidPlan(plan)
  {
    forall i :: i in p.bufs && i < |plan.keys| ==> p.bufs[i] == Restrict(start, plan.sources[i])
  }

  ghost predicate MemOk<V>(plan: Plan, pay: Payload<V>, start: Mem<V>, p: Pipe<V>) {
    Disjoint(plan) ==>
      HasWritten(plan, pay, start, p.mem, Done(plan.keys, p.trace)) && SnapsOk(plan, start, p)
  }

  ghost predicate Inv<V>(plan: Plan, pay: Payload<V>, start: Mem<V>, window: int, p: Pipe<V>) {
    QueuesOk(plan, window, p) && BufsOk(p) && MemOk(plan, pay, start, p) && Timed(plan, window, p)
  }

  lemma DoneSame(keys: seq<nat>, trace: seq<Event>, e: Event)
    requires e.stage != Finalized
    ensures Done(keys, trace + [e]) == Done(keys, trace)
  {
    forall i | 0 <= i < |keys|
      ensures i in Passed(keys, trace + [e], Finalized, keys[i]) <==> i in Passed(keys, trace, Finalized, keys[i])
    {
      PassedSnoc(keys, trace, e, Finalized, keys[i]);
    }
  }

  lemma DoneGrows(keys: seq<nat>, trace: seq<Event>, i: nat)
    requires i < |keys|
    ensures Done(keys, trace + [Event(Finalized, i)]) == Done(keys, trace) + {i}
  {
    var e := Event(Finalized, i);
    forall k | 0 <= k < |keys|
      ensures k in Passed(keys, trace + [e], Finalized, keys[k]) <==>
              k in Passed(keys, trace, Finalized, keys[k]) || k == i
    {
      PassedSnoc(keys, trace, e, Finalized, keys[k]);
    }
  }

  lemma {:induction false} ListedDistinct(keys: seq<nat>, key: nat, n: nat)
    requires n <= |keys|
    ensures Distinct(Listed(keys, key, n))
  {
    if n > 0 {
      ListedDistinct(keys, key, n - 1);
      var q := Listed(keys, key, n - 1);
      forall k | 0 <= k < |q| ensures q[k] < n - 1 {
        assert q[k] in q;
        ListedHas(keys, key, n - 1, q[k]);
      }
    }
  }

  /** A bucket in flight has not been finalized. */
  lemma InFlightIsNotDone(keys: seq<nat>, trace: seq<Event>, ch: Channel, window: int)
    requires ChannelOk(keys, trace, ch, window) && ch.inFlight != []
    ensures ch.inFlight[0] < |keys| && keys[ch.inFlight[0]] == ch.key && ch.inFlight[0] !in Done(keys, trace)
  {
    var fin := Passed(keys, trace, Finalized, ch.key);
    QueuedIsOurs(keys, trace, ch, window, ch.inFlight[0]);
    ListedDistinct(keys, ch.key, |keys|);
    var all := Listed(keys, ch.key, |keys|);
    assert all[|fin|] == ch.inFlight[0];
    assert forall k :: 0 <= k < |fin| ==> fin[k] == all[k];
  }

  lemma PrepareInv<V>(plan: Plan, pay: Payload<V>, start: Mem<V>, window: int, p: Pipe<V>, c: nat)
    requires Inv(plan, pay, start, window, p) && c < |p.channels| && CanPrepare(p, c, window)
    ensures p.channels[c].candidate[0] < |plan.keys| && Inv(plan, pay, start, window, Prepare(plan, p, c))
  {
    PrepareKeeps(plan, window, p, c);
    var i := p.channels[c].candidate[0];
    DoneSame(plan.keys, p.trace, Event(Prepared, i));
    MoveTimed(plan, window, p, Event(Prepared, i), Prepare(plan, p, c));
    if Disjoint(plan) {
      SourcesUntouched(plan, pay, start, p.mem, Done(plan.keys, p.trace), i);
    }
  }

  lemma LaunchInv<V>(plan: Plan, pay: Payload<V>, start: Mem<V>, window: int, p: Pipe<V>, c: nat)
    requires Inv(plan, pay, start, window, p) && c < |p.channels| && p.channels[c].prepared != []
    ensures Inv(plan, pay, start, window, Launch(p, c))
  {
    LaunchKeeps(plan, window, p, c);
    DoneSame(plan.keys, p.trace, Event(Launched, p.channels[c].prepared[0]));
    MoveTimed(plan, window, p, Event(Launched, p.channels[c].prepared[0]), Launch(p, c));
  }

  lemma FinalizeReady<V>(plan: Plan, pay: Payload<V>, start: Mem<V>, window: int, p: Pipe<V>, c: nat)
    requires Inv(plan, pay, start, window, p) && c < |p.channels| && p.channels[c].inFlight != []
    ensures p.channels[c].inFlight[0] < |plan.keys| && p.channels[c].inFlight[0] in p.bufs
    ensures p.channels[c].inFlight[0] !in Done(plan.keys, p.trace)
  {
    var i := p.channels[c].inFlight[0];
    assert i in p.channels[c].inFlight + p.channels[c].prepared;
    assert ChannelOk(plan.keys, p.trace, p.channels[c], window);
    InFlightIsNotDone(plan.keys, p.trace, p.channels[c], window);
  }

  lemma FinalizeMem<V>(plan: Plan, pay: Payload<V>, start: Mem<V>, p: Pipe<V>, i: nat)
    requires MemOk(plan, pay, start, p) && i < |plan.keys| && i !in Done(plan.keys, p.trace) && i in p.bufs
    requires Disjoint(plan)
    ensures HasWritten(plan, pay, start, Written(pay, i, p.bufs[i], plan.targets[i], p.mem),
                       Done(plan.keys, p.trace + [Event(Finalized, i)]))
  {
    DoneGrows(plan.keys, p.trace, i);
    WriteOne(plan, pay, start, p.mem, Done(plan.keys, p.trace), i);
  }

  lemma FinalizeInv<V>(plan: Plan, pay: Payload<V>, start: Mem<V>, window: int, p: Pipe<V>, c: nat)
    requires Inv(plan, pay, start, window, p) && c < |p.channels| && p.channels[c].inFlight != []
    requires Ripe(plan.keys, p.trace, window)
    requires p.channels[c].inFlight[0] < |p.left| && p.left[p.channels[c].inFlight[0]] == 0
    ensures p.channels[c].inFlight[0] < |plan.keys| && p.channels[c].inFlight[0] in p.bufs
    ensures Inv(plan, pay, start, window, Finalize(plan, pay, p, c))
    ensures Ripe(plan.keys, Finalize(plan, pay, p, c).trace, window)
  {
    FinalizeReady(plan, pay, start, window, p, c);
    FinalizeKeeps(plan, pay, window, p, c);
    FinalizeTimed(plan, pay, window, p, c);
    if Disjoint(plan) {
      FinalizeMem(plan, pay, start, p, p.channels[c].inFlight[0]);
    }
  }

  // ------------------------------------------------------------------------------------------
  // What is left to do

  function Weight(ch: Channel): nat {
    3 * |ch.candidate| + 2 * |ch.prepared| + |ch.inFlight|
  }

  function Load(channels: seq<Channel>): nat {
    if channels == [] then 0 else Load(channels[..|channels| - 1]) + Weight(channels[|channels| - 1])
  }

  function Sum(left: seq<nat>): nat {
    if left == [] then 0 else Sum(left[..|left| - 1]) + left[|left| - 1]
  }

  function Effort<V>(p: Pipe<V>): nat {
    Load(p.channels) + Sum(p.left)
  }

  lemma {:induction false} LoadUpdate(channels: seq<Channel>, c: nat, ch: Channel)
    requires c < |channels|
    ensures Load(channels[c := ch]) + Weight(channels[c]) == Load(channels) + Weight(ch)
  {
    var n := |channels| - 1;
    if c < n {
      LoadUpdate(channels[..n], c, ch);
      assert channels[c := ch][..n] == channels[..n][c := ch];
    } else {
      assert channels[c := ch][..n] == channels[..n];
    }
  }

  lemma {:induction false} SumUpdate(left: seq<nat>, i: nat, x: nat)
    requires i < |left|
    ensures Sum(left[i := x]) + left[i] == Sum(left) + x
  {
    var n := |left| - 1;
    if i < n {
      SumUpdate(left[..n], i, x);
      assert left[i := x][..n] == left[..n][i := x];
    } else {
      assert left[i := x][..n] == left[..n];
    }
  }

  lemma PrepareShrinks<V>(plan: Plan, p: Pipe<V>, c: nat)
    requires c < |p.channels| && p.channels[c].candidate != [] && p.channels[c].candidate[0] < |plan.sources|
    ensures Effort(Prepare(plan, p, c)) < Effort(p)
  {
    var ch := p.channels[c];
    LoadUpdate(p.channels, c, ch.(candidate := ch.candidate[1..], prepared := ch.prepared + [ch.candidate[0]]));
  }

  lemma LaunchShrinks<V>(p: Pipe<V>, c: nat)
    requires c < |p.channels| && p.channels[c].prepared != []
    ensures Effort(Launch(p, c)) < Effort(p)
  {
    var ch := p.channels[c];
    LoadUpdate(p.channels, c, ch.(prepared := ch.prepared[1..], inFlight := ch.inFlight + [ch.prepared[0]]));
  }

  lemma FinalizeShrinks<V>(plan: Plan, pay: Payload<V>, p: Pipe<V>, c: nat)
    requires c < |p.channels| && p.channels[c].inFlight != []
    requires p.channels[c].inFlight[0] < |plan.targets| && p.channels[c].inFlight[0] in p.bufs
    ensures Effort(Finalize(plan, pay, p, c)) < Effort(p)
  {
    var ch := p.channels[c];
    LoadUpdate(p.channels, c, ch.(inFlight := ch.inFlight[1..]));
  }

  lemma PollShrinks<V>(p: Pipe<V>, i: nat)
    requires i < |p.left| && p.left[i] > 0
    ensures Effort(Poll(p, i)) < Effort(p)
  {
    SumUpdate(p.left, i, p.left[i] - 1);
  }

  // ------------------------------------------------------------------------------------------
  // The three inner loops

  /** Same channels, same number of buckets in each. */
  ghost predicate SameLoad<V>(p: Pipe<V>, p': Pipe<V>) {
    && |p'.channels| == |p.channels|
    && forall c :: 0 <= c < |p.channels| ==>
         && p'.channels[c].key == p.channels[c].key
         && |p'.channels[c].candidate| + |p'.channels[c].prepared| + |p'.channels[c].inFlight| ==
            |p.channels[c].candidate| + |p.channels[c].prepared| + |p.channels[c].inFlight|
  }

  method PrepareHead<V>(plan: Plan, pay: Payload<V>, start: Mem<V>, window: int, p0: Pipe<V>, c: nat)
    returns (p: Pipe<V>)
    requires Inv(plan, pay, start, window, p0) && c < |p0.channels| && CanPrepare(p0, c, window)
    ensures Inv(plan, pay, start, window, p) && SameLoad(p0, p) && Effort(p) < Effort(p0)
  {
    PrepareInv(plan, pay, start, window, p0, c);
    PrepareShrinks(plan, p0, c);
    p := Prepare(plan, p0, c);
    PrepareMoves(plan, p0, c);
  }

  lemma PrepareMoves<V>(plan: Plan, p: Pipe<V>, c: nat)
    requires c < |p.channels| && p.channels[c].candidate != [] && p.channels[c].candidate[0] < |plan.sources|
    ensures SameLoad(p, Prepare(plan, p, c))
  {
  }

  lemma SameLoadTrans<V>(a: Pipe<V>, b: Pipe<V>, c: Pipe<V>)
    requires SameLoad(a, b) && SameLoad(b, c)
    ensures SameLoad(a, c)
  {
  }

  method PreparePass<V>(plan: Plan, pay: Payload<V>, start: Mem<V>, window: int, p0: Pipe<V>)
    returns (p: Pipe<V>, progress: bool)
    requires Inv(plan, pay, start, window, p0)
    ensures Inv(plan, pay, start, window, p) && SameLoad(p0, p)
    ensures if progress then Effort(p) < Effort(p0) else p == p0 && forall c :: 0 <= c < |p.channels| ==>
      Blocked(p.channels[c], window)
  {
    p, progress := p0, false;
    for c := 0 to |p0.channels|
      invariant Inv(plan, pay, start, window, p) && SameLoad(p0, p)
      invariant if progress then Effort(p) < Effort(p0) else p == p0 && forall d :: 0 <= d < c ==>
        Blocked(p.channels[d], window)
    {
      if p.channels[c].candidate != [] && |p.channels[c].prepared| + |p.channels[c].inFlight| < window {
        var q := PrepareHead(plan, pay, start, window, p, c);
        SameLoadTrans(p0, p, q);
        p, progress := q, true;
      }
    }
  }

  method PrepareAll<V>(plan: Plan, pay: Payload<V>, start: Mem<V>, window: int, p0: Pipe<V>) returns (p: Pipe<V>)
    requires Inv(plan, pay, start, window, p0)
    ensures Inv(plan, pay, start, window, p) && SameLoad(p0, p) && Effort(p) <= Effort(p0)
    ensures forall c :: 0 <= c < |p.channels| ==> Blocked(p.channels[c], window)
  {
    p := p0;
    var progress := true;
    while progress
      invariant Inv(plan, pay, start, window, p) && SameLoad(p0, p) && Effort(p) <= Effort(p0)
      invariant !progress ==> forall c :: 0 <= c < |p.channels| ==> Blocked(p.channels[c], window)
      decreases Effort(p), if progress then 1 else 0
    {
      p, progress := PreparePass(plan, pay, start, window, p);
    }
  }

  /** Launching moves buckets from prepared to in flight and touches nothing else. */
  ghost predicate OnlyLaunched<V>(p: Pipe<V>, p': Pipe<V>) {
    && |p'.channels| == |p.channels|
    && forall c :: 0 <= c < |p.channels| ==>
         && p'.channels[c].key == p.channels[c].key && p'.channels[c].candidate == p.channels[c].candidate
         && |p'.channels[c].prepared| + |p'.channels[c].inFlight| == |p.channels[c].prepared| + |p.channels[c].inFlight|
  }

  method LaunchHead<V>(plan: Plan, pay: Payload<V>, start: Mem<V>, window: int, p0: Pipe<V>, c: nat)
    returns (p: Pipe<V>)
    requires Inv(plan, pay, start, window, p0) && c < |p0.channels| && p0.channels[c].prepared != []
    ensures Inv(plan, pay, start, window, p) && OnlyLaunched(p0, p) && Effort(p) < Effort(p0)
  {
    LaunchInv(plan, pay, start, window, p0, c);
    LaunchShrinks(p0, c);
    p := Launch(p0, c);
    LaunchMoves(p0, c);
  }

  lemma LaunchMoves<V>(p: Pipe<V>, c: nat)
    requires c < |p.channels| && p.channels[c].prepared != []
    ensures OnlyLaunched(p, Launch(p, c))
  {
  }

  lemma OnlyLaunchedTrans<V>(a: Pipe<V>, b: Pipe<V>, c: Pipe<V>)
    requires OnlyLaunched(a, b) && OnlyLaunched(b, c)
    ensures OnlyLaunched(a, c)
  {
  }

  method LaunchPass<V>(plan: Plan, pay: Payload<V>, start: Mem<V>, window: int, p0: Pipe<V>)
    returns (p: Pipe<V>, progress: bool)
    requires Inv(plan, pay, start, window, p0)
    ensures Inv(plan, pay, start, window, p) && OnlyLaunched(p0, p)
    ensures if progress then Effort(p) < Effort(p0) else p == p0 && forall c :: 0 <= c < |p.channels| ==>
      p.channels[c].prepared == []
  {
    p, progress := p0, false;
    for c := 0 to |p0.channels|
      invariant Inv(plan, pay, start, window, p) && OnlyLaunched(p0, p)
      invariant if progress then Effort(p) < Effort(p0) else p == p0 && forall d :: 0 <= d < c ==>
        p.channels[d].prepared == []
    {
      if p.channels[c].prepared != [] {
        var q := LaunchHead(plan, pay, start, window, p, c);
        OnlyLaunchedTrans(p0, p, q);
        p, progress := q, true;
      }
    }
  }

  method LaunchAll<V>(plan: Plan, pay: Payload<V>, start: Mem<V>, window: int, p0: Pipe<V>) returns (p: Pipe<V>)
    requires Inv(plan, pay, start, window, p0)
    ensures Inv(plan, pay, start, window, p) && OnlyLaunched(p0, p) && Effort(p) <= Effort(p0)
    ensures forall c :: 0 <= c < |p.channels| ==> p.channels[c].prepared == []
  {
    p := p0;
    var progress := true;
    while progress
      invariant Inv(plan, pay, start, window, p) && OnlyLaunched(p0, p) && Effort(p) <= Effort(p0)
      invariant !progress ==> forall c :: 0 <= c < |p.channels| ==> p.channels[c].prepared == []
      decreases Effort(p), if progress then 1 else 0
    {
      p, progress := LaunchPass(plan, pay, start, window, p);
    }
  }

  ghost predicate SomeInFlight<V>(p: Pipe<V>, n: nat)
    requires n <= |p.channels|
  {
    exists c :: 0 <= c < n && p.channels[c].inFlight != []
  }

  lemma OneMoreChannel<V>(p: Pipe<V>, c: nat)
    requires c < |p.channels|
    ensures SomeInFlight(p, c + 1) <==> SomeInFlight(p, c) || p.channels[c].inFlight != []
  {
  }

  lemma PollInv<V>(plan: Plan, pay: Payload<V>, start: Mem<V>, window: int, p: Pipe<V>, c: nat, i: nat)
    requires Inv(plan, pay, start, window, p) && Ripe(plan.keys, p.trace, window)
    requires c < |p.channels| && p.channels[c].inFlight != [] && p.channels[c].inFlight[0] == i
    requires i < |p.left| && p.left[i] > 0
    ensures Inv(plan, pay, start, window, Poll(p, i)) && Poll(p, i).channels == p.channels
    ensures Ripe(plan.keys, Poll(p, i).trace, window)
    ensures Effort(Poll(p, i)) < Effort(p)
  {
    PollKeeps(plan, window, p, i);
    PollTimed(plan, window, p, c);
    DoneSame(plan.keys, p.trace, Event(Running, i));
    PollShrinks(p, i);
  }

  /** Asks the head of one channel; it is finalized, or asked in vain. */
  method FinalizeHead<V>(plan: Plan, pay: Payload<V>, start: Mem<V>, window: int, p0: Pipe<V>, c: nat)
    returns (p: Pipe<V>, complete: bool)
    requires Inv(plan, pay, start, window, p0) && Ripe(plan.keys, p0.trace, window)
    requires c < |p0.channels| && p0.channels[c].inFlight != []
    ensures Inv(plan, pay, start, window, p) && Ripe(plan.keys, p.trace, window)
    ensures |p.channels| == |p0.channels| && Effort(p) < Effort(p0)
    ensures forall d :: 0 <= d < |p.channels| && d != c ==> p.channels[d] == p0.channels[d]
  {
    FinalizeReady(plan, pay, start, window, p0, c);
    var i := p0.channels[c].inFlight[0];
    complete := p0.left[i] == 0;
    if complete {
      FinalizeInv(plan, pay, start, window, p0, c);
      FinalizeShrinks(plan, pay, p0, c);
      p := Finalize(plan, pay, p0, c);
    } else {
      PollInv(plan, pay, start, window, p0, c, i);
      p := Poll(p0, i);
    }
  }

  method FinalizePass<V>(plan: Plan, pay: Payload<V>, start: Mem<V>, window: int, p0: Pipe<V>)
    returns (p: Pipe<V>, progress: bool)
    requires Inv(plan, pay, start, window, p0) && Ripe(plan.keys, p0.trace, window)
    ensures Inv(plan, pay, start, window, p) && Ripe(plan.keys, p.trace, window)
    ensures |p.channels| == |p0.channels| && Effort(p) <= Effort(p0)
    ensures progress || SomeInFlight(p0, |p0.channels|) ==> Effort(p) < Effort(p0)
  {
    p, progress := p0, false;
    for c := 0 to |p0.channels|
      invariant Inv(plan, pay, start, window, p) && Ripe(plan.keys, p.trace, window)
      invariant |p.channels| == |p0.channels| && Effort(p) <= Effort(p0)
      invariant forall d :: c <= d < |p.channels| ==> p.channels[d] == p0.channels[d]
      invariant progress || SomeInFlight(p0, c) ==> Effort(p) < Effort(p0)
    {
      OneMoreChannel(p0, c);
      if p.channels[c].inFlight != [] {
        var complete;
        p, complete := FinalizeHead(plan, pay, start, window, p, c);
        if complete {
          progress := true;
        }
      }
    }
  }

  method FinalizeAll<V>(plan: Plan, pay: Payload<V>, start: Mem<V>, window: int, p0: Pipe<V>) returns (p: Pipe<V>)
    requires Inv(plan, pay, start, window, p0) && Ripe(plan.keys, p0.trace, window)
    ensures Inv(plan, pay, start, window, p)
    ensures SomeInFlight(p0, |p0.channels|) ==> Effort(p) < Effort(p0)
  {
    var progress;
    p, progress := FinalizePass(plan, pay, start, window, p0);
    while progress
      invariant Inv(plan, pay, start, window, p) && Ripe(plan.keys, p.trace, window)
      invariant SomeInFlight(p0, |p0.channels|) ==> Effort(p) < Effort(p0)
      decreases Effort(p), if progress then 1 else 0
    {
      p, progress := FinalizePass(plan, pay, start, window, p);
    }
  }

  // ------------------------------------------------------------------------------------------
  // The whole run

  predicate HasWork<V>(p: Pipe<V>) {
    exists c :: 0 <= c < |p.channels| &&
      (p.channels[c].candidate != [] || p.channels[c].prepared != [] || p.channels[c].inFlight != [])
  }

  /** Nothing has run yet, and the first `n` buckets are queued. */
  ghost predicate Queued(keys: seq<nat>, channels: seq<Channel>, n: nat)
    requires n <= |keys|
  {
    && (forall a, b :: 0 <= a < b < |channels| ==> channels[a].key != channels[b].key)
    && (forall i :: 0 <= i < n ==> HasChannel(channels, keys[i]))
    && (forall c :: 0 <= c < |channels| ==>
          channels[c].candidate == Listed(keys, channels[c].key, n) && channels[c].prepared == [] &&
            channels[c].inFlight == [])
  }

  /** The channel of a key, if it has one. */
  method FindChannel(channels: seq<Channel>, key: nat) returns (c: nat)
    ensures c <= |channels| && (c < |channels| ==> channels[c].key == key)
    ensures forall d :: 0 <= d < c ==> channels[d].key != key
  {
    c := 0;
    while c < |channels| && channels[c].key != key
      invariant c <= |channels| && forall d :: 0 <= d < c ==> channels[d].key != key
    {
      c := c + 1;
    }
  }

  lemma QueueMore(keys: seq<nat>, channels: seq<Channel>, n: nat, c: nat, channels': seq<Channel>)
    requires n < |keys| && Queued(keys, channels, n) && c <= |channels| && forall d :: 0 <= d < c ==>
      channels[d].key != keys[n]
    requires c < |channels| ==> channels[c].key == keys[n]
    requires c < |channels| ==> channels' == channels[c := channels[c].(candidate := channels[c].candidate + [n])]
    requires c == |channels| ==> channels' == channels + [Channel(keys[n], [n], [], [])]
    ensures Queued(keys, channels', n + 1)
  {
    forall i | 0 <= i < n + 1 ensures HasChannel(channels', keys[i]) {
      if i < n {
        assert HasChannel(channels, keys[i]);
        var d :| 0 <= d < |channels| && channels[d].key == keys[i];
        assert channels'[d].key == keys[i];
      } else {
        assert channels'[c].key == keys[n];
      }
    }
    if c == |channels| {
      forall i | 0 <= i < n ensures keys[i] != keys[n] {
        assert HasChannel(channels, keys[i]);
      }
      NoneListed(keys, keys[n], n);
    }
  }

  method QueueAll(keys: seq<nat>) returns (channels: seq<Channel>)
    ensures Queued(keys, channels, |keys|)
  {
    channels := [];
    for n := 0 to |keys|
      invariant Queued(keys, channels, n)
    {
      var c := FindChannel(channels, keys[n]);
      ghost var before := channels;
      if c < |channels| {
        channels := channels[c := channels[c].(candidate := channels[c].candidate + [n])];
      } else {
        channels := channels + [Channel(keys[n], [n], [], [])];
      }
      QueueMore(keys, before, n, c, channels);
    }
  }

  lemma NothingPassed(keys: seq<nat>, key: nat, window: int)
    ensures ChannelGood(keys, [], key, window)
    ensures forall stage :: Passed(keys, [], stage, key) == []
  {
  }

  lemma QueuedChannel(keys: seq<nat>, ch: Channel, window: int)
    requires ch.candidate == Listed(keys, ch.key, |keys|) && ch.prepared == [] && ch.inFlight == []
    ensures ChannelOk(keys, [], ch, window)
  {
    NothingPassed(keys, ch.key, window);
    assert [] + ch.inFlight + ch.prepared + ch.candidate == ch.candidate;
    assert [] + ch.inFlight == [] && [] + ch.inFlight + ch.prepared == [];
  }

  lemma QueuedOk<V>(plan: Plan, window: int, p: Pipe<V>)
    requires ValidPlan(plan) && Queued(plan.keys, p.channels, |plan.keys|) && p.trace == [] && |p.left| == |plan.keys|
    ensures QueuesOk(plan, window, p)
  {
    forall c | 0 <= c < |p.channels| ensures ChannelOk(plan.keys, p.trace, p.channels[c], window) {
      QueuedChannel(plan.keys, p.channels[c], window);
    }
    forall key ensures ChannelGood(plan.keys, p.trace, key, window) {
      NothingPassed(plan.keys, key, window);
    }
    assert ChannelsCover(plan.keys, p.channels);
    assert TraceGood(plan.keys, p.trace, window);
  }

  lemma NothingWritten<V>(plan: Plan, pay: Payload<V>, start: Mem<V>)
    requires ValidPlan(plan)
    ensures Done(plan.keys, []) == {} && HasWritten(plan, pay, start, start, {})
  {
  }

  lemma QueuedInv<V>(plan: Plan, pay: Payload<V>, start: Mem<V>, window: int, channels: seq<Channel>)
    requires ValidPlan(plan) && Queued(plan.keys, channels, |plan.keys|)
    ensures Inv(plan, pay, start, window, Pipe(channels, plan.polls, start, map[], []))
  {
    var p: Pipe<V> := Pipe(channels, plan.polls, start, map[], []);
    QueuedOk(plan, window, p);
    NothingTimed(plan, window, p);
    NothingWritten(plan, pay, start);
    assert forall c :: 0 <= c < |channels| ==> channels[c].inFlight + channels[c].prepared == [];
  }

  /** With every queue empty, every stage has seen every bucket. */
  lemma AllPassed<V>(plan: Plan, window: int, p: Pipe<V>, stage: Stage, key: nat)
    requires QueuesOk(plan, window, p) && !HasWork(p) && stage != Running
    ensures Passed(plan.keys, p.trace, stage, key) == Listed(plan.keys, key, |plan.keys|)
  {
    if c :| 0 <= c < |p.channels| && p.channels[c].key == key {
      assert ChannelOk(plan.keys, p.trace, p.channels[c], window);
    } else {
      forall i | 0 <= i < |plan.keys| ensures plan.keys[i] != key {
        assert HasChannel(p.channels, plan.keys[i]);
      }
      ForeignKey(plan.keys, p.trace, stage, key);
      NoneListed(plan.keys, key, |plan.keys|);
    }
  }

  lemma EverythingDone<V>(plan: Plan, pay: Payload<V>, start: Mem<V>, window: int, p: Pipe<V>)
    requires Inv(plan, pay, start, window, p) && !HasWork(p) && Disjoint(plan)
    ensures p.mem == InOrder(plan, pay, start, |plan.keys|)
  {
    forall i | 0 <= i < |plan.keys| ensures i in Done(plan.keys, p.trace) {
      AllPassed(plan, window, p, Finalized, plan.keys[i]);
      ListedHas(plan.keys, plan.keys[i], |plan.keys|, i);
    }
    assert Done(plan.keys, p.trace) == Below(|plan.keys|);
    InOrderWrites(plan, pay, start, |plan.keys|);
    WrittenIsUnique(plan, pay, start, p.mem, InOrder(plan, pay, start, |plan.keys|), Below(|plan.keys|));
  }

  /** Once nothing can be prepared or launched, work left means something is in flight. */
  lemma WorkIsInFlight<V>(p0: Pipe<V>, p1: Pipe<V>, p2: Pipe<V>, window: int)
    requires HasWork(p0) && window >= 1 && SameLoad(p0, p1) && OnlyLaunched(p1, p2)
    requires forall c :: 0 <= c < |p1.channels| ==> Blocked(p1.channels[c], window)
    requires forall c :: 0 <= c < |p2.channels| ==> p2.channels[c].prepared == []
    ensures SomeInFlight(p2, |p2.channels|)
  {
    var c :| 0 <= c < |p0.channels| &&
      (p0.channels[c].candidate != [] || p0.channels[c].prepared != [] || p0.channels[c].inFlight != []);
    assert Blocked(p1.channels[c], window);
    assert p2.channels[c].prepared == [];
    assert |p2.channels[c].inFlight| > 0;
  }

  lemma FilledAndLaunched<V>(plan: Plan, window: int, p1: Pipe<V>, p2: Pipe<V>)
    requires QueuesOk(plan, window, p2) && OnlyLaunched(p1, p2)
    requires forall c :: 0 <= c < |p1.channels| ==> Blocked(p1.channels[c], window)
    requires forall c :: 0 <= c < |p2.channels| ==> p2.channels[c].prepared == []
    ensures Ripe(plan.keys, p2.trace, window)
  {
    forall c | 0 <= c < |p2.channels| ensures Blocked(p2.channels[c], window) && p2.channels[c].prepared == [] {
      assert Blocked(p1.channels[c], window);
    }
    AllBlockedIsRipe(plan, window, p2);
  }

  /**
   The pipelined mode. Every bucket passes each stage exactly once, in list order within its channel
   and inside the window at every moment; on disjoint regions memory ends as in sequential mode, with
   every copied value in its place.
   */
  method RunPipelined<V(!new)>(plan: Plan, pay: Payload<V>, start: Mem<V>, window: int)
    returns (end: Mem<V>, trace: seq<Event>)
    requires ValidPlan(plan) && (window >= 1 || plan.keys == [])
    ensures forall stage, key :: stage != Running ==>
      Passed(plan.keys, trace, stage, key) == Listed(plan.keys, key, |plan.keys|)
    ensures TraceGood(plan.keys, trace, window) && Timely(plan, window, trace)
    ensures Disjoint(plan) ==> end == InOrder(plan, pay, start, |plan.keys|)
    ensures Disjoint(plan) ==>
      forall from :: CopiesFrom(pay, from) && OriginsRead(plan, from, start) ==> Copied(plan, from, start, end)
  {
    var channels := QueueAll(plan.keys);
    var p := Pipe(channels, plan.polls, start, map[], []);
    QueuedInv(plan, pay, start, window, channels);
    while HasWork(p)
      invariant Inv(plan, pay, start, window, p)
      decreases Effort(p)
    {
      WorkNeedsBuckets(plan, window, p);
      var p1 := PrepareAll(plan, pay, start, window, p);
      var p2 := LaunchAll(plan, pay, start, window, p1);
      WorkIsInFlight(p, p1, p2, window);
      FilledAndLaunched(plan, window, p1, p2);
      p := FinalizeAll(plan, pay, start, window, p2);
    }
    forall stage, key | stage != Running
      ensures Passed(plan.keys, p.trace, stage, key) == Listed(plan.keys, key, |plan.keys|)
    {
      AllPassed(plan, window, p, stage, key);
    }
    if Disjoint(plan) {
      EverythingDone(plan, pay, start, window, p);
      InOrderWrites(plan, pay, start, |plan.keys|);
      forall from | CopiesFrom(pay, from) && OriginsRead(plan, from, start) ensures Copied(plan, from, start, p.mem) {
        AllWrittenIsCopied(plan, pay, from, start, p.mem);
      }
    }
    return p.mem, p.trace;
  }

  lemma WorkNeedsBuckets<V>(plan: Plan, window: int, p: Pipe<V>)
    requires QueuesOk(plan, window, p) && HasWork(p)
    ensures plan.keys != []
  {
    var c :| 0 <= c < |p.channels| &&
      (p.channels[c].candidate != [] || p.channels[c].prepared != [] || p.channels[c].inFlight != []);
    var ch := p.channels[c];
    assert ChannelOk(plan.keys, p.trace, ch, window);
    var q := ch.inFlight + ch.prepared + ch.candidate;
    assert q != [];
    QueuedIsOurs(plan.keys, p.trace, ch, window, q[0]);
  }

  /** With no window nothing moves, so a run with buckets never ends. */
  lemma NoWindowNoProgress<V>(keys: seq<nat>, p: Pipe<V>, window: int)
    requires window <= 0 && keys != [] && Queued(keys, p.channels, |keys|)
    ensures HasWork(p)
    ensures forall c :: 0 <= c < |p.channels| ==>
      !CanPrepare(p, c, window) && p.channels[c].prepared == [] && p.channels[c].inFlight == []
  {
    assert HasChannel(p.channels, keys[0]);
    var c :| 0 <= c < |p.channels| && p.channels[c].key == keys[0];
    ListedHas(keys, keys[0], |keys|, 0);
    assert p.channels[c].candidate != [];
  }
}
