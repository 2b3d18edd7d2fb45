/**
 When the pipelined executor asks and finalizes (src/etha/comm/comm_methods.py): only once every channel has filled its
 window and launched it, and a bucket only once it was reported complete.
*/
module PipelineTiming {
  import opened Base
  import opened Pipeline

  /** How often a bucket was found still running. */
  function Asked(trace: seq<Event>, i: nat): nat {
    if trace == [] then 0
    else Asked(trace[..|trace| - 1], i) + if trace[|trace| - 1] == Event(Running, i) then 1 else 0
  }

  /** Everything prepared is launched, and the window is full unless nothing is left to prepare. */
  ghost predicate WindowFull(keys: seq<nat>, trace: seq<Event>, key: nat, window: int) {
    var pre, fin := Passed(keys, trace, Prepared, key), Passed(keys, trace, Finalized, key);
    && Passed(keys, trace, Launched, key) == pre
    && (pre == Listed(keys, key, |keys|) || |pre| - |fin| >= window)
  }

  ghost predicate WindowsFull(keys: seq<nat>, trace: seq<Event>, window: int) {
    forall key :: WindowFull(keys, trace, key, window)
  }

  /** The executor may start to ask: it has just filled the windows, or it is asking already. */
  ghost predicate Ripe(keys: seq<nat>, trace: seq<Event>, window: int) {
    trace == [] || trace[|trace| - 1].stage == Prepared || trace[|trace| - 1].stage == Launched ==>
      WindowsFull(keys, trace, window)
  }

  /** The oldest launched bucket of its channel that is not finalized. */
  ghost predicate IsOldest(keys: seq<nat>, trace: seq<Event>, i: nat) {
    && i < |keys|
    && var launched, fin := Passed(keys, trace, Launched, keys[i]), Passed(keys, trace, Finalized, keys[i]);
       |fin| < |launched| && launched[|fin|] == i
  }

  /** Only the oldest bucket is asked, and it is finalized when, and only when, it is complete. */
  ghost predicate StepTimely(plan: Plan, window: int, trace: seq<Event>, e: Event)
    requires ValidPlan(plan)
  {
    e.stage == Running || e.stage == Finalized ==>
      && Ripe(plan.keys, trace, window) && IsOldest(plan.keys, trace, e.bucket)
      && (e.stage == Finalized <==> Asked(trace, e.bucket) == plan.polls[e.bucket])
  }

  ghost predicate Timely(plan: Plan, window: int, trace: seq<Event>)
    requires ValidPlan(plan)
  {
    trace != [] ==>
      && Timely(plan, window, trace[..|trace| - 1])
      && StepTimely(plan, window, trace[..|trace| - 1], trace[|trace| - 1])
  }

  /** What is left of the polls is what was not asked yet. */
  ghost predicate Timed<V>(plan: Plan, window: int, p: Pipe<V>) {
    && ValidPlan(plan) && |p.left| == |plan.keys| && Timely(plan, window, p.trace)
    && forall i :: 0 <= i < |plan.keys| ==> Asked(p.trace, i) + p.left[i] == plan.polls[i]
  }

  lemma AskedSnoc(trace: seq<Event>, e: Event, i: nat)
    ensures Asked(trace + [e], i) == Asked(trace, i) + if e == Event(Running, i) then 1 else 0
  {
    assert (trace + [e])[..|trace|] == trace;
  }

  lemma TimelySnoc(plan: Plan, window: int, trace: seq<Event>, e: Event)
    requires ValidPlan(plan) && Timely(plan, window, trace) && StepTimely(plan, window, trace, e)
    ensures Timely(plan, window, trace + [e])
  {
    assert (trace + [e])[..|trace|] == trace;
  }

  /** Preparing, launching and finalizing leave the polls alone. */
  lemma MoveTimed<V>(plan: Plan, window: int, p: Pipe<V>, e: Event, p': Pipe<V>)
    requires Timed(plan, window, p) && e.stage != Running && StepTimely(plan, window, p.trace, e)
    requires p'.trace == p.trace + [e] && p'.left == p.left
    ensures Timed(plan, window, p')
  {
    TimelySnoc(plan, window, p.trace, e);
    forall i | 0 <= i < |plan.keys| ensures Asked(p'.trace, i) + p'.left[i] == plan.polls[i] {
      AskedSnoc(p.trace, e, i);
    }
  }

  lemma HeadIsOldest(keys: seq<nat>, trace: seq<Event>, ch: Channel, window: int)
    requires ChannelOk(keys, trace, ch, window) && ch.inFlight != []
    ensures IsOldest(keys, trace, ch.inFlight[0])
  {
    QueuedIsOurs(keys, trace, ch, window, ch.inFlight[0]);
  }

  lemma PollTimed<V>(plan: Plan, window: int, p: Pipe<V>, c: nat)
    requires QueuesOk(plan, window, p) && Timed(plan, window, p) && Ripe(plan.keys, p.trace, window)
    requires c < |p.channels| && p.channels[c].inFlight != []
    requires p.channels[c].inFlight[0] < |p.left| && p.left[p.channels[c].inFlight[0]] > 0
    ensures Timed(plan, window, Poll(p, p.channels[c].inFlight[0]))
    ensures Ripe(plan.keys, Poll(p, p.channels[c].inFlight[0]).trace, window)
  {
    var i := p.channels[c].inFlight[0];
    var p' := Poll(p, i);
    HeadIsOldest(plan.keys, p.trace, p.channels[c], window);
    TimelySnoc(plan, window, p.trace, Event(Running, i));
    forall k | 0 <= k < |plan.keys| ensures Asked(p'.trace, k) + p'.left[k] == plan.polls[k] {
      AskedSnoc(p.trace, Event(Running, i), k);
    }
  }

  lemma FinalizeTimed<V>(plan: Plan, pay: Payload<V>, window: int, p: Pipe<V>, c: nat)
    requires QueuesOk(plan, window, p) && Timed(plan, window, p) && Ripe(plan.keys, p.trace, window)
    requires c < |p.channels| && p.channels[c].inFlight != [] && p.channels[c].inFlight[0] in p.bufs
    requires p.channels[c].inFlight[0] < |p.left| && p.left[p.channels[c].inFlight[0]] == 0
    ensures Timed(plan, window, Finalize(plan, pay, p, c))
    ensures Ripe(plan.keys, Finalize(plan, pay, p, c).trace, window)
  {
    var i := p.channels[c].inFlight[0];
    HeadIsOldest(plan.keys, p.trace, p.channels[c], window);
    MoveTimed(plan, window, p, Event(Finalized, i), Finalize(plan, pay, p, c));
  }

  lemma NothingTimed<V>(plan: Plan, window: int, p: Pipe<V>)
    requires ValidPlan(plan) && p.trace == [] && p.left == plan.polls
    ensures Timed(plan, window, p)
  {
  }

  // ------------------------------------------------------------------------------------------
  // Full windows

  /** A channel that cannot prepare more. */
  predicate Blocked(ch: Channel, window: int) {
    ch.candidate == [] || |ch.prepared| + |ch.inFlight| >= window
  }

  lemma BlockedIsFull(keys: seq<nat>, trace: seq<Event>, ch: Channel, window: int)
    requires ChannelOk(keys, trace, ch, window) && Blocked(ch, window) && ch.prepared == []
    ensures WindowFull(keys, trace, ch.key, window)
  {
  }

  /** With every channel blocked and nothing waiting to be launched, all windows are full. */
  lemma AllBlockedIsRipe<V>(plan: Plan, window: int, p: Pipe<V>)
    requires QueuesOk(plan, window, p)
    requires forall c :: 0 <= c < |p.channels| ==> Blocked(p.channels[c], window) && p.channels[c].prepared == []
    ensures Ripe(plan.keys, p.trace, window)
  {
    forall key ensures WindowFull(plan.keys, p.trace, key, window) {
      if c :| 0 <= c < |p.channels| && p.channels[c].key == key {
        BlockedIsFull(plan.keys, p.trace, p.channels[c], window);
      } else {
        forall i | 0 <= i < |plan.keys| ensures plan.keys[i] != key {
          assert HasChannel(p.channels, plan.keys[i]);
        }
        ForeignKey(plan.keys, p.trace, Launched, key);
        ForeignKey(plan.keys, p.trace, Prepared, key);
        NoneListed(plan.keys, key, |plan.keys|);
      }
    }
  }
}
