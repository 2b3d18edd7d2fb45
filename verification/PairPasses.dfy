/**
 What one poll achieves (src/etha/tensor_bus/agent.py): the leader logs exactly the unlogged pairs whose sides are
 complete, a retried pair is logged again, and a rank completes the logged pairs it waits for.
*/
module PairPasses {
  import opened Base
  import opened PairLog
  import opened PairAgents
  import PairOrder
  import PairKeys

  /** Only ranks of the world register. */
  ghost predicate Bounded(w: World) {
    forall k :: k in w.registered ==> k.rank < |w.ranks|
  }

  /** Every registered rank of the side wrote the number of registered ranks as its size. */
  ghost predicate Complete(w: World, pair: nat, name: nat) {
    exists q :: RollCall(w.registered, w.sizes, pair, name, q)
  }

  lemma CompleteIsReady(w: World, pair: nat, name: nat)
    requires Bounded(w)
    ensures Complete(w, pair, name) <==> SideReady(w, pair, name)
  {
    RollCallIs(w, pair, name, |w.ranks|, PresentUpTo(w.registered, pair, name, |w.ranks|));
    if Complete(w, pair, name) {
      var q :| RollCall(w.registered, w.sizes, pair, name, q);
      RollCallIs(w, pair, name, |w.ranks|, q);
    }
  }

  ghost predicate BothComplete(w: World, pair: nat, p: Pending) {
    Complete(w, pair, p.local) && Complete(w, pair, p.remote)
  }

  lemma BothAreReady(w: World, pair: nat, p: Pending)
    requires Bounded(w)
    ensures BothComplete(w, pair, p) <==> PairReady(w, pair, p)
  {
    CompleteIsReady(w, pair, p.local);
    CompleteIsReady(w, pair, p.remote);
  }

  // ------------------------------------------------------------------------------------------
  // The leader's pass

  /** The leader waits for the pair, has not logged it, and both sides are complete. */
  ghost predicate Loggable(w: World, p: nat)
    requires w.ranks != []
  {
    p !in w.marked && p in w.ranks[0].pending && BothComplete(w, p, w.ranks[0].pending[p])
  }

  /** One look at a pair logs it exactly if it can be logged. */
  lemma AppendLogsIff(w: World)
    requires Bounded(w) && Enabled(w, AppendNext)
    ensures var p, w' := LeastOf(w.ranks[0].phase.todo), Do(w, AppendNext);
            if Loggable(w, p)
            then w'.marked == w.marked + {p} && PairOrder.Names(w'.log) == PairOrder.Names(w.log) + [p]
            else w'.marked == w.marked && w'.log == w.log
  {
    var p := LeastOf(w.ranks[0].phase.todo);
    if p in w.ranks[0].pending {
      BothAreReady(w, p, w.ranks[0].pending[p]);
    }
  }

  lemma RunIsBounded(n: nat, acts: seq<Action>)
    requires After(n, acts).Some?
    ensures Bounded(After(n, acts).value)
  {
    PairKeys.RunCovers(n, acts);
    var w := After(n, acts).value;
    forall k | k in w.registered ensures k.rank < |w.ranks| {
      assert PairKeys.KeyOk(w, k);
    }
  }

  /** Who is counted for an entry: everybody registered on either side, each side being complete. */
  ghost predicate EntryIsRight(w: World, e: Entry, p: Pending) {
    && BothComplete(w, e.pair, p)
    && forall r :: r in e.counted <==> Key(e.pair, p.local, r) in w.registered || Key(e.pair, p.remote, r) in w.registered
  }

  /**
   In every run, when a step adds to the log, each side of the pair has exactly as many registered ranks as every one
   of them wrote down.
   */
  lemma LoggedSidesAreComplete(n: nat, acts: seq<Action>, w: World, a: Action)
    requires After(n, acts) == Some(w) && Enabled(w, a) && Do(w, a).log != w.log
    ensures |Do(w, a).log| == |w.log| + 1 && w.ranks != []
    ensures var e := Do(w, a).log[|w.log|];
            e.pair in w.ranks[0].pending && EntryIsRight(w, e, w.ranks[0].pending[e.pair])
  {
    RunIsBounded(n, acts);
    PairKeys.LogStep(w, a);
    var p := LeastOf(w.ranks[0].phase.todo);
    BothAreReady(w, p, w.ranks[0].pending[p]);
    CountedAre(w, p, w.ranks[0].pending[p]);
  }

  lemma CountedAre(w: World, pair: nat, p: Pending)
    ensures forall r :: r in Counted(w, pair, p) <==>
      Key(pair, p.local, r) in w.registered || Key(pair, p.remote, r) in w.registered
  {
    forall r ensures r in Counted(w, pair, p) <==>
      Key(pair, p.local, r) in w.registered || Key(pair, p.remote, r) in w.registered
    {
      PresentIs(w, pair, p.local, r);
      PresentIs(w, pair, p.remote, r);
    }
  }

  lemma PresentIs(w: World, pair: nat, name: nat, r: nat)
    ensures r in Present(w, pair, name) <==> Key(pair, name, r) in w.registered
  {
    if Key(pair, name, r) in w.registered {
      assert Key(pair, name, r).rank == r;
    }
  }

  /** The leader's pass changes its own phase, the log and the marks. */
  ghost predicate OnlyLog(w: World, w': World) {
    && |w'.ranks| == |w.ranks| && w.ranks != [] && w'.ranks[0] == w.ranks[0].(phase := w'.ranks[0].phase)
    && (forall q :: 0 < q < |w.ranks| ==> w'.ranks[q] == w.ranks[q])
    && w' == w.(ranks := w'.ranks, marked := w'.marked, log := w'.log)
  }

  lemma LoggableLater(w: World, w': World, p: nat)
    requires OnlyLog(w, w') && (p in w'.marked <==> p in w.marked)
    ensures Loggable(w', p) <==> Loggable(w, p)
  {
  }

  /** What one look adds. */
  function Added(w: World): seq<nat>
    requires Enabled(w, AppendNext)
  {
    if Do(w, AppendNext).log == w.log then [] else [LeastOf(w.ranks[0].phase.todo)]
  }

  lemma OneLook(w: World)
    requires Bounded(w) && Enabled(w, AppendNext)
    ensures var p, w' := LeastOf(w.ranks[0].phase.todo), Do(w, AppendNext);
            && OnlyLog(w, w') && Bounded(w') && w'.ranks[0].phase == Appending(w.ranks[0].phase.todo - {p})
            && (p in Added(w) <==> Loggable(w, p))
            && PairOrder.Names(w'.log) == PairOrder.Names(w.log) + Added(w)
            && w'.marked == w.marked + Elements(Added(w))
  {
    AppendFrame(w);
    AppendLogsIff(w);
  }

  ghost predicate IsLoggable(w: World, todo: set<nat>, added: seq<nat>)
    requires w.ranks != []
  {
    Rising(added) && forall p :: p in added <==> p in todo && Loggable(w, p)
  }

  lemma LoggableNext(w: World, w': World, todo: set<nat>, p: nat, one: seq<nat>, rest: seq<nat>)
    requires OnlyLog(w, w') && IsLeastOf(todo, p) && one <= [p] && (p in one <==> Loggable(w, p))
    requires w'.marked == w.marked + Elements(one) && IsLoggable(w', todo - {p}, rest)
    ensures IsLoggable(w, todo, one + rest)
  {
    forall q ensures q in one + rest <==> q in todo && Loggable(w, q) {
      if q != p {
        LoggableLater(w, w', q);
      }
    }
    forall i | 0 <= i < |rest| ensures p < rest[i] {
      assert rest[i] in rest;
    }
  }

  /** The log and the marks of a world grow by these pairs. */
  ghost predicate GrowsBy(w: World, w': World, added: seq<nat>) {
    && OnlyLog(w, w') && PairOrder.Names(w'.log) == PairOrder.Names(w.log) + added
    && w'.marked == w.marked + Elements(added)
  }

  lemma GrowsTwice(w: World, w': World, w'': World, a: seq<nat>, b: seq<nat>)
    requires GrowsBy(w, w', a) && GrowsBy(w', w'', b)
    ensures GrowsBy(w, w'', a + b)
  {
    assert Elements(a + b) == Elements(a) + Elements(b);
  }

  /** Exactly the loggable pairs of a pass are logged, each once, in order. */
  lemma {:induction false} PassLogs(w: World) returns (added: seq<nat>)
    requires Bounded(w) && w.ranks != [] && w.ranks[0].phase.Appending?
    ensures IsLoggable(w, w.ranks[0].phase.todo, added) && GrowsBy(w, Appended(w), added)
    decreases |w.ranks[0].phase.todo|
  {
    var todo := w.ranks[0].phase.todo;
    if todo == {} {
      added := [];
    } else {
      var w' := Do(w, AppendNext);
      OneLook(w);
      var rest := PassLogs(w');
      LoggableNext(w, w', todo, LeastOf(todo), Added(w), rest);
      GrowsTwice(w, w', Appended(w), Added(w), rest);
      added := Added(w) + rest;
    }
  }

  // ------------------------------------------------------------------------------------------
  // Retries

  /** The InitPair that asks for a pending pair to be logged again. */
  ghost predicate Retries(w: World, a: Action, p: nat) {
    && a.Finish? && AtStage(w, a.rank, Published)
    && w.ranks[a.rank].phase.msg.pair == p && p in w.ranks[a.rank].pending
  }

  ghost predicate Logs(w: World, a: Action, p: nat)
    requires Enabled(w, a)
  {
    |Do(w, a).log| == |w.log| + 1 && Do(w, a).log[|w.log|].pair == p
  }

  /** A pair is marked when it is logged, and until it is retried. */
  lemma MarksFollowTheLog(w: World, a: Action, p: nat)
    requires Enabled(w, a)
    ensures p in Do(w, a).marked <==> (p in w.marked && !Retries(w, a, p)) || Logs(w, a, p)
  {
    PairKeys.LogStep(w, a);
    match a
    case Begin(q, m) => BeginFrame(w, q, m);
    case Finish(q) =>
    case AppendNext =>
    case Consume(q, ok) => var known := ConsumeFrame(w, q, ok);
    case _ => PhaseFrame(w, a);
  }

  ghost predicate LoggedFrom(log: seq<Entry>, from: nat, p: nat) {
    exists i :: from <= i < |log| && log[i].pair == p
  }

  lemma NameIsLogged(log: seq<Entry>, before: seq<Entry>, added: seq<nat>, p: nat)
    requires PairOrder.Names(log) == PairOrder.Names(before) + added && p in added
    ensures LoggedFrom(log, |before|, p)
  {
    var k :| 0 <= k < |added| && added[k] == p;
    assert PairOrder.Names(log)[|before| + k] == p;
    assert log[|before| + k].pair == p;
  }

  /** A leader that polls logs every pair it can log. */
  lemma PollLogs(w: World, p: nat)
    requires Bounded(w) && Enabled(w, StartPoll(0)) && w.ranks[0].cursor <= |w.log| && Loggable(w, p)
    ensures LoggedFrom(Gathered(w, 0).log, |w.log|, p)
  {
    var w1 := Do(w, StartPoll(0));
    var added := PassLogs(w1);
    assert Loggable(w1, p) && p in w1.ranks[0].phase.todo;
    NameIsLogged(Appended(w1).log, w1.log, added, p);
  }

  /** A retry by any rank makes the leader's next poll log the pair once more, if both sides are complete. */
  lemma RetryIsLogged(w: World, r: nat, p: nat)
    requires Bounded(w) && Retries(w, Finish(r), p)
    requires var w1 := Do(w, Finish(r));
             && Enabled(w1, StartPoll(0)) && w1.ranks[0].cursor <= |w1.log|
             && p in w1.ranks[0].pending && BothComplete(w1, p, w1.ranks[0].pending[p])
    ensures LoggedFrom(Gathered(Do(w, Finish(r)), 0).log, |w.log|, p)
  {
    FinishFrame(w, r);
    MarksFollowTheLog(w, Finish(r), p);
    PollLogs(Do(w, Finish(r)), p);
  }

  // ------------------------------------------------------------------------------------------
  // A rank's reading of the log

  /** The rank is reading the log. */
  ghost predicate Reads(w: World, r: nat) {
    r < |w.ranks| && w.ranks[r].phase == Consuming && w.ranks[r].cursor <= |w.log|
  }

  /** Some entry it has not read names the pair. */
  ghost predicate Named(w: World, r: nat, p: nat)
    requires Reads(w, r)
  {
    exists i :: w.ranks[r].cursor <= i < |w.log| && w.log[i].pair == p
  }

  /** Some such entry, and the completion it starts succeeds. */
  ghost predicate Succeeds(w: World, r: nat, ok: nat -> bool, p: nat)
    requires Reads(w, r)
  {
    exists i :: w.ranks[r].cursor <= i < |w.log| && w.log[i].pair == p && ok(i)
  }

  ghost predicate Completes(w: World, r: nat, ok: nat -> bool, p: nat)
    requires Reads(w, r)
  {
    p in w.ranks[r].pending && BothComplete(w, p, w.ranks[r].pending[p]) && Succeeds(w, r, ok, p)
  }

  /** What the pair is known by: its two names, and how many registered under each. */
  ghost predicate KnownRight(w: World, pair: nat, p: Pending, known: Known) {
    && known.local == p.local && known.remote == p.remote
    && (exists q :: RollCall(w.registered, w.sizes, pair, p.local, q) && |q| == known.localSize)
    && (exists q :: RollCall(w.registered, w.sizes, pair, p.remote, q) && |q| == known.remoteSize)
  }

  /** How the reading rank stands to one pair afterwards. */
  ghost predicate Settled(w: World, r: nat, ok: nat -> bool, p: nat, w': World)
    requires Reads(w, r) && r < |w'.ranks|
  {
    var s, s' := w.ranks[r], w'.ranks[r];
    && (p in s'.matched <==> p in s.matched || Completes(w, r, ok, p))
    && (p in s'.pending <==> p in s.pending && !Completes(w, r, ok, p))
    && (Completes(w, r, ok, p) ==> p in s'.known && KnownRight(w, p, s.pending[p], s'.known[p]))
    && (!Completes(w, r, ok, p) ==> (p in s'.known <==> p in s.known) && (p in s.known ==> s'.known[p] == s.known[p]))
    && (p in s.pending && p in s'.pending && !Named(w, r, p) ==> s'.pending[p] == s.pending[p])
    && (p in s.pending && p in s'.pending && Named(w, r, p) ==> s'.pending[p] == s.pending[p].(sems := []))
  }

  lemma RollCallSize(w: World, pair: nat, name: nat)
    requires Bounded(w) && SideReady(w, pair, name)
    ensures exists q :: RollCall(w.registered, w.sizes, pair, name, q) && |q| == |Present(w, pair, name)|
  {
    var q := PresentUpTo(w.registered, pair, name, |w.ranks|);
    RollCallIs(w, pair, name, |w.ranks|, q);
    PresentUpToIs(w, pair, name, |w.ranks|);
    assert RollCall(w.registered, w.sizes, pair, name, q);
  }

  lemma KnownIsRight(w: World, pair: nat, p: Pending)
    requires Bounded(w) && PairReady(w, pair, p)
    ensures KnownRight(w, pair, p, KnownAs(w, pair, p))
  {
    RollCallSize(w, pair, p.local);
    RollCallSize(w, pair, p.remote);
  }

  /** Reading one entry that names another pair. */
  lemma ReadsPast(w: World, r: nat, p: nat, known: Known, ok: bool)
    requires r < |w.ranks| && w.ranks[r].cursor < |w.log| && w.log[w.ranks[r].cursor].pair != p
    ensures var s := w.ranks[r];
            var s' := ReadNext(s, w.log[s.cursor].pair, known, ok);
            && (p in s'.matched <==> p in s.matched) && (p in s'.pending <==> p in s.pending)
            && (p in s'.known <==> p in s.known) && (p in s.known ==> s'.known[p] == s.known[p])
            && (p in s.pending ==> s'.pending[p] == s.pending[p])
  {
  }

  /** Between two worlds only this rank and the callers it woke differ. */
  ghost predicate OnlyReader(w: World, r: nat, w': World) {
    && r < |w.ranks| == |w'.ranks| && (forall q :: 0 <= q < |w.ranks| && q != r ==> w'.ranks[q] == w.ranks[q])
    && w' == w.(ranks := w'.ranks, posted := w'.posted, errors := w'.errors)
  }

  lemma NamedNext(w: World, r: nat, ok: nat -> bool, p: nat, w': World)
    requires Reads(w, r) && Reads(w', r) && w'.log == w.log && w.ranks[r].cursor < |w.log|
    requires w'.ranks[r].cursor == w.ranks[r].cursor + 1
    ensures Named(w, r, p) <==> w.log[w.ranks[r].cursor].pair == p || Named(w', r, p)
    ensures Succeeds(w, r, ok, p) <==>
            (w.log[w.ranks[r].cursor].pair == p && ok(w.ranks[r].cursor)) || Succeeds(w', r, ok, p)
  {
  }

  lemma SameCompletes(w: World, r: nat, p: Pending, pair: nat, w': World)
    requires OnlyReader(w, r, w')
    ensures BothComplete(w', pair, p) <==> BothComplete(w, pair, p)
    ensures forall known :: KnownRight(w', pair, p, known) <==> KnownRight(w, pair, p, known)
  {
  }

  lemma ConsumedOnlyReads(w: World, r: nat, ok: nat -> bool)
    requires Reads(w, r)
    ensures OnlyReader(w, r, Consumed(w, r, ok))
    decreases |w.log| - w.ranks[r].cursor
  {
    if w.ranks[r].cursor < |w.log| {
      var known := ConsumeFrame(w, r, Outcome(w, r, ok));
      ConsumeFacts(w, r, Outcome(w, r, ok));
      ConsumedOnlyReads(Do(w, Consume(r, Outcome(w, r, ok))), r, ok);
    }
  }

  /** One entry of the log, read by rank `r` with the given outcome. */
  ghost predicate ReadsOne(w: World, r: nat, known: Known, ok: bool, w': World) {
    && Reads(w, r) && w.ranks[r].cursor < |w.log| && OnlyReader(w, r, w')
    && w'.ranks[r] == ReadNext(w.ranks[r], w.log[w.ranks[r].cursor].pair, known, ok)
  }

  lemma OtherEntrySettles(w: World, r: nat, ok: nat -> bool, p: nat, known: Known, o: bool, w1: World, end: World)
    requires ReadsOne(w, r, known, o, w1) && Reads(w1, r) && r < |end.ranks| && Settled(w1, r, ok, p, end)
    requires w.log[w.ranks[r].cursor].pair != p || p !in w.ranks[r].pending
    ensures Settled(w, r, ok, p, end)
  {
    var s, s1 := w.ranks[r], w1.ranks[r];
    NamedNext(w, r, ok, p, w1);
    if w.log[s.cursor].pair != p {
      ReadsPast(w, r, p, known, o);
    }
    if p in s.pending {
      SameCompletes(w, r, s.pending[p], p, w1);
    }
  }

  lemma FailureSettles(w: World, r: nat, ok: nat -> bool, p: nat, known: Known, w1: World, end: World)
    requires ReadsOne(w, r, known, false, w1) && Reads(w1, r) && r < |end.ranks| && Settled(w1, r, ok, p, end)
    requires w.log[w.ranks[r].cursor].pair == p && p in w.ranks[r].pending
    requires !BothComplete(w, p, w.ranks[r].pending[p]) || !ok(w.ranks[r].cursor)
    ensures Settled(w, r, ok, p, end)
  {
    var s, s1 := w.ranks[r], w1.ranks[r];
    NamedNext(w, r, ok, p, w1);
    assert s1.pending[p] == s.pending[p].(sems := []);
    SameCompletes(w, r, s.pending[p], p, w1);
    assert BothComplete(w1, p, s1.pending[p]) <==> BothComplete(w, p, s.pending[p]);
    assert forall known :: KnownRight(w1, p, s1.pending[p], known) <==> KnownRight(w1, p, s.pending[p], known);
    assert Completes(w1, r, ok, p) <==> Completes(w, r, ok, p);
  }

  lemma SuccessSettles(w: World, r: nat, ok: nat -> bool, p: nat, known: Known, w1: World, end: World)
    requires ReadsOne(w, r, known, true, w1) && Reads(w1, r) && r < |end.ranks| && Settled(w1, r, ok, p, end)
    requires w.log[w.ranks[r].cursor].pair == p && p in w.ranks[r].pending
    requires BothComplete(w, p, w.ranks[r].pending[p]) && ok(w.ranks[r].cursor)
    requires KnownRight(w, p, w.ranks[r].pending[p], known)
    ensures Settled(w, r, ok, p, end)
  {
    NamedNext(w, r, ok, p, w1);
    assert Completes(w, r, ok, p) && !Completes(w1, r, ok, p);
  }

  /**
   A rank that reads the log to its end completes exactly the pairs it waits for that an unread entry names, whose
   sides are complete and whose completion succeeds; the others stay, with their callers woken if an entry named them.
   */
  lemma {:induction false} ReadingSettles(w: World, r: nat, ok: nat -> bool, p: nat)
    requires Reads(w, r) && Bounded(w)
    ensures Settled(w, r, ok, p, Consumed(w, r, ok))
    decreases |w.log| - w.ranks[r].cursor
  {
    if w.ranks[r].cursor < |w.log| {
      var s, o := w.ranks[r], Outcome(w, r, ok);
      var pair := w.log[s.cursor].pair;
      var known := if pair in s.pending then KnownAs(w, pair, s.pending[pair]) else Known(0, 0, 0, 0);
      var w1 := Do(w, Consume(r, o));
      ConsumeFacts(w, r, o);
      assert ReadsOne(w, r, known, o, w1);
      ReadingSettles(w1, r, ok, p);
      var end := Consumed(w, r, ok);
      if pair != p || p !in s.pending {
        OtherEntrySettles(w, r, ok, p, known, o, w1, end);
      } else {
        BothAreReady(w, p, s.pending[p]);
        if o {
          KnownIsRight(w, p, s.pending[p]);
          SuccessSettles(w, r, ok, p, known, w1, end);
        } else {
          FailureSettles(w, r, ok, p, known, w1, end);
        }
      }
    }
  }

  /** The callers parked on a pair that an unread entry names are all woken. */
  lemma {:induction false} ReadingWakes(w: World, r: nat, ok: nat -> bool, p: nat)
    requires Reads(w, r) && p in w.ranks[r].pending && Named(w, r, p)
    ensures Elements(w.ranks[r].pending[p].sems) <= Consumed(w, r, ok).posted
    decreases |w.log| - w.ranks[r].cursor
  {
    var o := Outcome(w, r, ok);
    var w1 := Do(w, Consume(r, o));
    var known := ConsumeFrame(w, r, o);
    ConsumeFacts(w, r, o);
    if w.log[w.ranks[r].cursor].pair == p {
      PostedGrows(w1, r, ok);
    } else {
      ReadsPast(w, r, p, known, o);
      NamedNext(w, r, ok, p, w1);
      ReadingWakes(w1, r, ok, p);
    }
  }

  lemma {:induction false} PostedGrows(w: World, r: nat, ok: nat -> bool)
    requires Reads(w, r)
    ensures w.posted <= Consumed(w, r, ok).posted
    decreases |w.log| - w.ranks[r].cursor
  {
    if w.ranks[r].cursor < |w.log| {
      var o := Outcome(w, r, ok);
      var known := ConsumeFrame(w, r, o);
      ConsumeFacts(w, r, o);
      PostedGrows(Do(w, Consume(r, o)), r, ok);
    }
  }
}
