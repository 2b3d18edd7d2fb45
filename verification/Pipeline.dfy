/**
 The bucket executor of one rank (src/etha/comm/comm_methods.py): per-channel queues with a bounded
 window, and the sequential mode it refines.
*/
module Pipeline {
  import opened Base

  /** What happens to a bucket; `Running` is a question whether it is complete, answered no. */
  datatype Stage = Prepared | Launched | Running | Finalized

  datatype Event = Event(stage: Stage, bucket: nat)

  /**
   The bucket list: channel key, memory read at preparation, memory written at finalization, and how
   often the launched operation reports that it is still running.
   */
  datatype Plan = Plan(keys: seq<nat>, sources: seq<set<nat>>, targets: seq<set<nat>>, polls: seq<nat>)

  ghost predicate ValidPlan(plan: Plan) {
    |plan.keys| == |plan.sources| == |plan.targets| == |plan.polls|
  }

  datatype Channel = Channel(key: nat, candidate: seq<nat>, prepared: seq<nat>, inFlight: seq<nat>)

  type Mem<V> = map<nat, V>

  /** What a bucket writes to a location, given what it read. */
  type Payload<!V> = (nat, Mem<V>, nat) -> V

  datatype Pipe<V> = Pipe(channels: seq<Channel>, left: seq<nat>, mem: Mem<V>, bufs: map<nat, Mem<V>>,
                          trace: seq<Event>)

  function Restrict<V>(mem: Mem<V>, locs: set<nat>): Mem<V> {
    map l | l in mem && l in locs :: mem[l]
  }

  function Written<V>(pay: Payload<V>, i: nat, buf: Mem<V>, targets: set<nat>, mem: Mem<V>): Mem<V> {
    map l | l in mem.Keys + targets :: if l in targets then pay(i, buf, l) else mem[l]
  }

  /** No two buckets write the same place, and none writes what another reads. */
  ghost predicate Disjoint(plan: Plan) {
    && ValidPlan(plan)
    && (forall i, j :: 0 <= i < j < |plan.keys| ==> plan.targets[i] !! plan.targets[j])
    && (forall i, j :: 0 <= i < |plan.keys| && 0 <= j < |plan.keys| ==> plan.sources[i] !! plan.targets[j])
  }

  // ------------------------------------------------------------------------------------------
  // Copying

  /** For every place a bucket writes, the place its value is read from. */
  type Origin = (nat, nat) -> nat

  /** A bucket writes the values found at their origins. */
  ghost predicate CopiesFrom<V(!new)>(pay: Payload<V>, from: Origin) {
    forall i: nat, buf: Mem<V>, l: nat {:trigger pay(i, buf, l)} :: from(i, l) in buf ==>
      pay(i, buf, l) == buf[from(i, l)]
  }

  /** All origins are among what the bucket reads, and hold a value. */
  ghost predicate OriginsRead<V>(plan: Plan, from: Origin, mem: Mem<V>)
    requires ValidPlan(plan)
  {
    forall i, l :: 0 <= i < |plan.keys| && l in plan.targets[i] ==> from(i, l) in plan.sources[i] && from(i, l) in mem
  }

  /** Every written place holds the value its origin had, and all others are as before. */
  ghost predicate Copied<V>(plan: Plan, from: Origin, start: Mem<V>, end: Mem<V>)
    requires ValidPlan(plan)
  {
    && (forall i, l :: 0 <= i < |plan.keys| && l in plan.targets[i] ==>
          from(i, l) in start && l in end && end[l] == start[from(i, l)])
    && (forall l :: (forall i :: 0 <= i < |plan.keys| ==> l !in plan.targets[i]) ==>
          (l in end <==> l in start) && (l in end ==> end[l] == start[l]))
  }

  // ------------------------------------------------------------------------------------------
  // Sequential mode

  /** The first `n` buckets, one after the other. */
  function InOrder<V>(plan: Plan, pay: Payload<V>, mem: Mem<V>, n: nat): Mem<V>
    requires ValidPlan(plan) && n <= |plan.keys|
  {
    if n == 0 then mem
    else
      var before := InOrder(plan, pay, mem, n - 1);
      Written(pay, n - 1, Restrict(before, plan.sources[n - 1]), plan.targets[n - 1], before)
  }

  // ------------------------------------------------------------------------------------------
  // Steps of the pipeline

  function Log<V>(p: Pipe<V>, stage: Stage, i: nat): Pipe<V> {
    p.(trace := p.trace + [Event(stage, i)])
  }

  predicate CanPrepare<V>(p: Pipe<V>, c: nat, window: int)
    requires c < |p.channels|
  {
    p.channels[c].candidate != [] && |p.channels[c].prepared| + |p.channels[c].inFlight| < window
  }

  function Prepare<V>(plan: Plan, p: Pipe<V>, c: nat): Pipe<V>
    requires c < |p.channels| && p.channels[c].candidate != [] && p.channels[c].candidate[0] < |plan.sources|
  {
    var ch := p.channels[c];
    var i := ch.candidate[0];
    Log(p.(channels := p.channels[c := ch.(candidate := ch.candidate[1..], prepared := ch.prepared + [i])],
           bufs := p.bufs[i := Restrict(p.mem, plan.sources[i])]), Prepared, i)
  }

  function Launch<V>(p: Pipe<V>, c: nat): Pipe<V>
    requires c < |p.channels| && p.channels[c].prepared != []
  {
    var ch := p.channels[c];
    var i := ch.prepared[0];
    Log(p.(channels := p.channels[c := ch.(prepared := ch.prepared[1..], inFlight := ch.inFlight + [i])]), Launched, i)
  }

  /** The operation at the head is asked once more and is still running. */
  function Poll<V>(p: Pipe<V>, i: nat): Pipe<V>
    requires i < |p.left| && p.left[i] > 0
  {
    Log(p.(left := p.left[i := p.left[i] - 1]), Running, i)
  }

  function Finalize<V>(plan: Plan, pay: Payload<V>, p: Pipe<V>, c: nat): Pipe<V>
    requires c < |p.channels| && p.channels[c].inFlight != []
    requires p.channels[c].inFlight[0] < |plan.targets| && p.channels[c].inFlight[0] in p.bufs
  {
    var ch := p.channels[c];
    var i := ch.inFlight[0];
    Log(p.(channels := p.channels[c := ch.(inFlight := ch.inFlight[1..])],
           mem := Written(pay, i, p.bufs[i], plan.targets[i], p.mem)), Finalized, i)
  }

  // ------------------------------------------------------------------------------------------
  // What the trace says about one channel

  /** The buckets of one channel that passed a stage, in that order. */
  function Passed(keys: seq<nat>, trace: seq<Event>, stage: Stage, key: nat): seq<nat> {
    if trace == [] then []
    else
      var e, rest := trace[|trace| - 1], Passed(keys, trace[..|trace| - 1], stage, key);
      if e.stage == stage && e.bucket < |keys| && keys[e.bucket] == key then rest + [e.bucket] else rest
  }

  /** The buckets of one channel in list order. */
  function Listed(keys: seq<nat>, key: nat, n: nat): seq<nat>
    requires n <= |keys|
  {
    if n == 0 then []
    else if keys[n - 1] == key then Listed(keys, key, n - 1) + [n - 1]
    else Listed(keys, key, n - 1)
  }

  /** At this point of the run: stages in order, list order, and the window respected. */
  ghost predicate ChannelGood(keys: seq<nat>, trace: seq<Event>, key: nat, window: int) {
    && Passed(keys, trace, Finalized, key) <= Passed(keys, trace, Launched, key)
    && Passed(keys, trace, Launched, key) <= Passed(keys, trace, Prepared, key)
    && Passed(keys, trace, Prepared, key) <= Listed(keys, key, |keys|)
    && (Passed(keys, trace, Prepared, key) != Passed(keys, trace, Finalized, key) ==>
          |Passed(keys, trace, Prepared, key)| - |Passed(keys, trace, Finalized, key)| <= window)
  }

  /** Good at every point of the run. */
  ghost predicate TraceGood(keys: seq<nat>, trace: seq<Event>, window: int) {
    && (forall key :: ChannelGood(keys, trace, key, window))
    && (trace != [] ==> TraceGood(keys, trace[..|trace| - 1], window))
  }

  lemma PassedSnoc(keys: seq<nat>, trace: seq<Event>, e: Event, stage: Stage, key: nat)
    ensures Passed(keys, trace + [e], stage, key) ==
            if e.stage == stage && e.bucket < |keys| && keys[e.bucket] == key
            then Passed(keys, trace, stage, key) + [e.bucket] else Passed(keys, trace, stage, key)
  {
    assert (trace + [e])[..|trace|] == trace;
  }

  /** The queues of a channel hold exactly what has not passed the next stage. */
  ghost predicate ChannelOk(keys: seq<nat>, trace: seq<Event>, ch: Channel, window: int) {
    var fin := Passed(keys, trace, Finalized, ch.key);
    && Passed(keys, trace, Launched, ch.key) == fin + ch.inFlight
    && Passed(keys, trace, Prepared, ch.key) == fin + ch.inFlight + ch.prepared
    && Listed(keys, ch.key, |keys|) == fin + ch.inFlight + ch.prepared + ch.candidate
    && (ch.prepared + ch.inFlight != [] ==> |ch.prepared| + |ch.inFlight| <= window)
  }

  ghost predicate HasChannel(channels: seq<Channel>, key: nat) {
    exists c :: 0 <= c < |channels| && channels[c].key == key
  }

  ghost predicate ChannelsCover(keys: seq<nat>, channels: seq<Channel>) {
    && (forall a, b :: 0 <= a < b < |channels| ==> channels[a].key != channels[b].key)
    && (forall i :: 0 <= i < |keys| ==> HasChannel(channels, keys[i]))
  }

  ghost predicate QueuesOk<V>(plan: Plan, window: int, p: Pipe<V>) {
    && ValidPlan(plan) && ChannelsCover(plan.keys, p.channels)
    && (forall c :: 0 <= c < |p.channels| ==> ChannelOk(plan.keys, p.trace, p.channels[c], window))
    && TraceGood(plan.keys, p.trace, window)
    && |p.left| == |plan.keys|
  }

  lemma {:induction false} ListedHas(keys: seq<nat>, key: nat, n: nat, i: nat)
    requires n <= |keys|
    ensures i in Listed(keys, key, n) <==> i < n && keys[i] == key
  {
    if n > 0 {
      ListedHas(keys, key, n - 1, i);
    }
  }

  lemma {:induction false} NoneListed(keys: seq<nat>, key: nat, n: nat)
    requires n <= |keys| && forall i :: 0 <= i < n ==> keys[i] != key
    ensures Listed(keys, key, n) == []
  {
    if n > 0 {
      NoneListed(keys, key, n - 1);
    }
  }

  /** Whatever waits in a queue is a bucket of that channel. */
  lemma QueuedIsOurs(keys: seq<nat>, trace: seq<Event>, ch: Channel, window: int, i: nat)
    requires ChannelOk(keys, trace, ch, window) && i in ch.inFlight + ch.prepared + ch.candidate
    ensures i < |keys| && keys[i] == ch.key
  {
    assert i in Listed(keys, ch.key, |keys|);
    ListedHas(keys, ch.key, |keys|, i);
  }

  /** A channel whose key no bucket has never moves. */
  lemma {:induction false} ForeignKey(keys: seq<nat>, trace: seq<Event>, stage: Stage, key: nat)
    requires forall i :: 0 <= i < |keys| ==> keys[i] != key
    ensures Passed(keys, trace, stage, key) == []
  {
    if trace != [] {
      ForeignKey(keys, trace[..|trace| - 1], stage, key);
    }
  }

  lemma ChannelIsGood(keys: seq<nat>, trace: seq<Event>, ch: Channel, window: int)
    requires ChannelOk(keys, trace, ch, window)
    ensures ChannelGood(keys, trace, ch.key, window)
  {
  }

  lemma AllGood(keys: seq<nat>, trace: seq<Event>, channels: seq<Channel>, window: int, key: nat)
    requires ChannelsCover(keys, channels) && forall c :: 0 <= c < |channels| ==>
      ChannelOk(keys, trace, channels[c], window)
    ensures ChannelGood(keys, trace, key, window)
  {
    if c :| 0 <= c < |channels| && channels[c].key == key {
      ChannelIsGood(keys, trace, channels[c], window);
    } else {
      forall i | 0 <= i < |keys| ensures keys[i] != key {
        assert HasChannel(channels, keys[i]);
      }
      ForeignKey(keys, trace, Finalized, key);
      ForeignKey(keys, trace, Launched, key);
      ForeignKey(keys, trace, Prepared, key);
    }
  }

  /** A step that moves one bucket of one channel. */
  lemma MoveKeeps<V>(plan: Plan, window: int, p: Pipe<V>, c: nat, ch: Channel, e: Event, p': Pipe<V>)
    requires QueuesOk(plan, window, p) && c < |p.channels| && ch.key == p.channels[c].key
    requires e.bucket < |plan.keys| && plan.keys[e.bucket] == ch.key
    requires p'.channels == p.channels[c := ch] && p'.trace == p.trace + [e] && p'.left == p.left
    requires ChannelOk(plan.keys, p'.trace, ch, window)
    ensures QueuesOk(plan, window, p')
  {
    forall d | 0 <= d < |p'.channels| ensures ChannelOk(plan.keys, p'.trace, p'.channels[d], window) {
      if d != c {
        OtherChannel(plan.keys, p.trace, p.channels[d], window, e);
      }
    }
    assert ChannelsCover(plan.keys, p'.channels) by {
      forall i | 0 <= i < |plan.keys| ensures HasChannel(p'.channels, plan.keys[i]) {
        assert HasChannel(p.channels, plan.keys[i]);
        var d :| 0 <= d < |p.channels| && p.channels[d].key == plan.keys[i];
        assert p'.channels[d].key == plan.keys[i];
      }
    }
    assert p'.trace[..|p'.trace| - 1] == p.trace;
    forall key ensures ChannelGood(plan.keys, p'.trace, key, window) {
      AllGood(plan.keys, p'.trace, p'.channels, window, key);
    }
  }

  lemma OtherChannel(keys: seq<nat>, trace: seq<Event>, ch: Channel, window: int, e: Event)
    requires ChannelOk(keys, trace, ch, window) && (e.bucket < |keys| ==> keys[e.bucket] != ch.key)
    ensures ChannelOk(keys, trace + [e], ch, window)
  {
    PassedSnoc(keys, trace, e, Finalized, ch.key);
    PassedSnoc(keys, trace, e, Launched, ch.key);
    PassedSnoc(keys, trace, e, Prepared, ch.key);
  }

  /** A channel only moves with its own buckets, and not while one is still running. */
  lemma RunningMovesNothing(keys: seq<nat>, trace: seq<Event>, ch: Channel, window: int, i: nat)
    requires ChannelOk(keys, trace, ch, window)
    ensures ChannelOk(keys, trace + [Event(Running, i)], ch, window)
  {
    PassedSnoc(keys, trace, Event(Running, i), Finalized, ch.key);
    PassedSnoc(keys, trace, Event(Running, i), Launched, ch.key);
    PassedSnoc(keys, trace, Event(Running, i), Prepared, ch.key);
  }

  /** Moving the head of one queue to the back of the one before it. */
  lemma ShiftHead(a: seq<nat>, b: seq<nat>, c: seq<nat>)
    requires c != []
    ensures a + (b + [c[0]]) == (a + b) + [c[0]]
    ensures (a + (b + [c[0]])) + c[1..] == (a + b) + c
  {
  }

  lemma PrepareChannel(keys: seq<nat>, trace: seq<Event>, ch: Channel, window: int)
    requires ChannelOk(keys, trace, ch, window) && ch.candidate != [] && |ch.prepared| + |ch.inFlight| < window
    ensures var i := ch.candidate[0];
            && i < |keys| && keys[i] == ch.key
            && ChannelOk(keys, trace + [Event(Prepared, i)],
                         ch.(candidate := ch.candidate[1..], prepared := ch.prepared + [i]), window)
  {
    var i := ch.candidate[0];
    QueuedIsOurs(keys, trace, ch, window, i);
    PassedSnoc(keys, trace, Event(Prepared, i), Finalized, ch.key);
    PassedSnoc(keys, trace, Event(Prepared, i), Launched, ch.key);
    PassedSnoc(keys, trace, Event(Prepared, i), Prepared, ch.key);
    ShiftHead(Passed(keys, trace, Finalized, ch.key) + ch.inFlight, ch.prepared, ch.candidate);
  }

  lemma LaunchChannel(keys: seq<nat>, trace: seq<Event>, ch: Channel, window: int)
    requires ChannelOk(keys, trace, ch, window) && ch.prepared != []
    ensures var i := ch.prepared[0];
            && i < |keys| && keys[i] == ch.key
            && ChannelOk(keys, trace + [Event(Launched, i)],
                         ch.(prepared := ch.prepared[1..], inFlight := ch.inFlight + [i]), window)
  {
    var i := ch.prepared[0];
    QueuedIsOurs(keys, trace, ch, window, i);
    PassedSnoc(keys, trace, Event(Launched, i), Finalized, ch.key);
    PassedSnoc(keys, trace, Event(Launched, i), Launched, ch.key);
    PassedSnoc(keys, trace, Event(Launched, i), Prepared, ch.key);
    ShiftHead(Passed(keys, trace, Finalized, ch.key), ch.inFlight, ch.prepared);
  }

  lemma FinalizeChannel(keys: seq<nat>, trace: seq<Event>, ch: Channel, window: int)
    requires ChannelOk(keys, trace, ch, window) && ch.inFlight != []
    ensures var i := ch.inFlight[0];
            && i < |keys| && keys[i] == ch.key
            && ChannelOk(keys, trace + [Event(Finalized, i)], ch.(inFlight := ch.inFlight[1..]), window)
  {
    var i := ch.inFlight[0];
    QueuedIsOurs(keys, trace, ch, window, i);
    PassedSnoc(keys, trace, Event(Finalized, i), Finalized, ch.key);
    PassedSnoc(keys, trace, Event(Finalized, i), Launched, ch.key);
    PassedSnoc(keys, trace, Event(Finalized, i), Prepared, ch.key);
    ShiftHead([], Passed(keys, trace, Finalized, ch.key), ch.inFlight);
    assert forall q: seq<nat> {:trigger [] + q} :: [] + q == q;
  }

  lemma PrepareKeeps<V>(plan: Plan, window: int, p: Pipe<V>, c: nat)
    requires QueuesOk(plan, window, p) && c < |p.channels| && CanPrepare(p, c, window)
    ensures p.channels[c].candidate[0] < |plan.keys| && QueuesOk(plan, window, Prepare(plan, p, c))
  {
    PrepareChannel(plan.keys, p.trace, p.channels[c], window);
    var i := p.channels[c].candidate[0];
    var p' := Prepare(plan, p, c);
    MoveKeeps(plan, window, p, c, p'.channels[c], Event(Prepared, i), p');
  }

  lemma LaunchKeeps<V>(plan: Plan, window: int, p: Pipe<V>, c: nat)
    requires QueuesOk(plan, window, p) && c < |p.channels| && p.channels[c].prepared != []
    ensures QueuesOk(plan, window, Launch(p, c))
  {
    LaunchChannel(plan.keys, p.trace, p.channels[c], window);
    var p' := Launch(p, c);
    MoveKeeps(plan, window, p, c, p'.channels[c], Event(Launched, p.channels[c].prepared[0]), p');
  }

  lemma FinalizeKeeps<V>(plan: Plan, pay: Payload<V>, window: int, p: Pipe<V>, c: nat)
    requires QueuesOk(plan, window, p) && c < |p.channels| && p.channels[c].inFlight != []
    requires p.channels[c].inFlight[0] in p.bufs
    ensures p.channels[c].inFlight[0] < |plan.keys| && QueuesOk(plan, window, Finalize(plan, pay, p, c))
  {
    FinalizeChannel(plan.keys, p.trace, p.channels[c], window);
    var p' := Finalize(plan, pay, p, c);
    MoveKeeps(plan, window, p, c, p'.channels[c], Event(Finalized, p.channels[c].inFlight[0]), p');
  }

  lemma PollKeeps<V>(plan: Plan, window: int, p: Pipe<V>, i: nat)
    requires QueuesOk(plan, window, p) && i < |p.left| && p.left[i] > 0
    ensures QueuesOk(plan, window, Poll(p, i))
  {
    var p' := Poll(p, i);
    forall c | 0 <= c < |p'.channels| ensures ChannelOk(plan.keys, p'.trace, p'.channels[c], window) {
      RunningMovesNothing(plan.keys, p.trace, p.channels[c], window, i);
    }
    assert p'.trace[..|p'.trace| - 1] == p.trace;
    forall key ensures ChannelGood(plan.keys, p'.trace, key, window) {
      AllGood(plan.keys, p'.trace, p'.channels, window, key);
    }
  }

  // ------------------------------------------------------------------------------------------
  // Memory

  ghost predicate Touched(plan: Plan, done: set<nat>, l: nat)
    requires ValidPlan(plan) && forall i :: i in done ==> i < |plan.keys|
  {
    exists i :: i in done && l in plan.targets[i]
  }

  /** The memory once exactly the buckets in `done` have written what they read at the start. */
  ghost predicate HasWritten<V>(plan: Plan, pay: Payload<V>, start: Mem<V>, mem: Mem<V>, done: set<nat>)
    requires ValidPlan(plan) && forall i :: i in done ==> i < |plan.keys|
  {
    && (forall l :: l in mem <==> l in start || Touched(plan, done, l))
    && (forall i, l :: i in done && l in plan.targets[i] ==>
          l in mem && mem[l] == pay(i, Restrict(start, plan.sources[i]), l))
    && (forall l :: l in start && !Touched(plan, done, l) ==> l in mem && mem[l] == start[l])
  }

  /** What a bucket reads is what was there at the start, whenever it is prepared. */
  lemma SourcesUntouched<V>(plan: Plan, pay: Payload<V>, start: Mem<V>, mem: Mem<V>, done: set<nat>, i: nat)
    requires Disjoint(plan) && (forall k :: k in done ==> k < |plan.keys|) && i < |plan.keys|
    requires HasWritten(plan, pay, start, mem, done)
    ensures Restrict(mem, plan.sources[i]) == Restrict(start, plan.sources[i])
  {
    forall l | l in plan.sources[i] ensures (l in mem <==> l in start) && (l in mem ==> mem[l] == start[l]) {
      forall k | k in done ensures l !in plan.targets[k] {
        assert plan.sources[i] !! plan.targets[k];
      }
    }
  }

  lemma WriteOne<V>(plan: Plan, pay: Payload<V>, start: Mem<V>, mem: Mem<V>, done: set<nat>, i: nat)
    requires Disjoint(plan) && (forall k :: k in done ==> k < |plan.keys|) && i < |plan.keys| && i !in done
    requires HasWritten(plan, pay, start, mem, done)
    ensures HasWritten(plan, pay, start, Written(pay, i, Restrict(start, plan.sources[i]), plan.targets[i], mem),
                       done + {i})
  {
    var mem' := Written(pay, i, Restrict(start, plan.sources[i]), plan.targets[i], mem);
    forall k, l | k in done && l in plan.targets[k] ensures l !in plan.targets[i] {
      assert plan.targets[k] !! plan.targets[i];
    }
    forall l ensures Touched(plan, done + {i}, l) <==> Touched(plan, done, l) || l in plan.targets[i] {
      if l in plan.targets[i] {
        assert i in done + {i};
      }
      if k :| k in done && l in plan.targets[k] {
        assert k in done + {i};
      }
    }
  }

  lemma WrittenIsUnique<V>(plan: Plan, pay: Payload<V>, start: Mem<V>, a: Mem<V>, b: Mem<V>, done: set<nat>)
    requires ValidPlan(plan) && forall i :: i in done ==> i < |plan.keys|
    requires HasWritten(plan, pay, start, a, done) && HasWritten(plan, pay, start, b, done)
    ensures a == b
  {
    forall l | l in a ensures l in b && a[l] == b[l] {
      if i :| i in done && l in plan.targets[i] {
        assert l in b;
      }
    }
    forall l | l in b ensures l in a {
      if i :| i in done && l in plan.targets[i] {
        assert l in a;
      }
    }
  }

  function Below(n: nat): (r: set<nat>)
    ensures forall i :: i in r <==> 0 <= i < n
  {
    if n == 0 then {} else Below(n - 1) + {n - 1}
  }

  lemma NoneWritten<V>(plan: Plan, pay: Payload<V>, start: Mem<V>)
    requires ValidPlan(plan)
    ensures HasWritten(plan, pay, start, start, {})
  {
  }

  lemma NextWritten<V>(plan: Plan, pay: Payload<V>, start: Mem<V>, before: Mem<V>, n: nat)
    requires Disjoint(plan) && n < |plan.keys| && HasWritten(plan, pay, start, before, Below(n))
    ensures HasWritten(plan, pay, start, Written(pay, n, Restrict(before, plan.sources[n]), plan.targets[n], before),
                       Below(n + 1))
  {
    SourcesUntouched(plan, pay, start, before, Below(n), n);
    WriteOne(plan, pay, start, before, Below(n), n);
    assert Below(n + 1) == Below(n) + {n};
  }

  lemma {:induction false} InOrderWrites<V>(plan: Plan, pay: Payload<V>, start: Mem<V>, n: nat)
    requires Disjoint(plan) && n <= |plan.keys|
    ensures HasWritten(plan, pay, start, InOrder(plan, pay, start, n), Below(n))
  {
    if n == 0 {
      NoneWritten(plan, pay, start);
    } else {
      InOrderWrites(plan, pay, start, n - 1);
      NextWritten(plan, pay, start, InOrder(plan, pay, start, n - 1), n - 1);
    }
  }

  /** Sequential mode step by step, on any plan: a bucket reads what the buckets before it have left. */
  lemma EachBucketCopies<V(!new)>(plan: Plan, pay: Payload<V>, from: Origin, start: Mem<V>, n: nat)
    requires ValidPlan(plan) && n < |plan.keys| && CopiesFrom(pay, from)
    ensures var before, after := InOrder(plan, pay, start, n), InOrder(plan, pay, start, n + 1);
            && (forall l :: l in plan.targets[n] && from(n, l) in plan.sources[n] && from(n, l) in before ==>
                  l in after && after[l] == before[from(n, l)])
            && (forall l :: l !in plan.targets[n] ==>
                  (l in after <==> l in before) && (l in after ==> after[l] == before[l]))
  {
  }

  /** Memory that every bucket has written is copied memory. */
  lemma AllWrittenIsCopied<V(!new)>(plan: Plan, pay: Payload<V>, from: Origin, start: Mem<V>, end: Mem<V>)
    requires ValidPlan(plan) && CopiesFrom(pay, from) && OriginsRead(plan, from, start)
    requires HasWritten(plan, pay, start, end, Below(|plan.keys|))
    ensures Copied(plan, from, start, end)
  {
    forall i, l | 0 <= i < |plan.keys| && l in plan.targets[i]
      ensures from(i, l) in start && l in end && end[l] == start[from(i, l)]
    {
      var buf := Restrict(start, plan.sources[i]);
      assert i in Below(|plan.keys|);
      assert pay(i, buf, l) == buf[from(i, l)];
    }
  }

  method RunSequential<V(!new)>(plan: Plan, pay: Payload<V>, mem: Mem<V>) returns (end: Mem<V>)
    requires ValidPlan(plan)
    ensures end == InOrder(plan, pay, mem, |plan.keys|)
    ensures Disjoint(plan) ==>
      forall from :: CopiesFrom(pay, from) && OriginsRead(plan, from, mem) ==> Copied(plan, from, mem, end)
  {
    end := mem;
    for i := 0 to |plan.keys|
      invariant end == InOrder(plan, pay, mem, i)
    {
      var buf := Restrict(end, plan.sources[i]);
      end := Written(pay, i, buf, plan.targets[i], end);
    }
    if Disjoint(plan) {
      InOrderWrites(plan, pay, mem, |plan.keys|);
      forall from | CopiesFrom(pay, from) && OriginsRead(plan, from, mem) ensures Copied(plan, from, mem, end) {
        AllWrittenIsCopied(plan, pay, from, mem, end);
      }
    }
  }
}
