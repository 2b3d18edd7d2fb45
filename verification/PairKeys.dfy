/**
 The keys behind a completion-log entry (src/etha/tensor_bus/agent.py): every registration the
 readiness check counts belongs to a rank that waits for the pair, unless the ranks of that side
 disagree about its size.
*/
module PairKeys {
  import opened Base
  import opened PairLog

  // ------------------------------------------------------------------------------------------
  // What one step does to one rank

  /** Nothing matched is forgotten, and a pending pair keeps its sizes until it is matched. */
  ghost predicate Later(s: RankState, s': RankState) {
    && (forall p :: p in s.matched ==> p in s'.matched)
    && (forall p :: p in s.pending ==> p in s'.matched || p in s'.pending)
    && (forall p, name :: p in s.pending && p in s'.pending && name in s.pending[p].expected ==>
          name in s'.pending[p].expected && s'.pending[p].expected[name] == s.pending[p].expected[name])
  }

  lemma ReadLater(s: RankState, pair: nat, known: Known, ok: bool)
    ensures Later(s, ReadNext(s, pair, known, ok))
  {
  }

  lemma RankLater(w: World, a: Action, r: nat)
    requires Enabled(w, a) && r < |w.ranks|
    ensures |Do(w, a).ranks| == |w.ranks| && Later(w.ranks[r], Do(w, a).ranks[r])
  {
    match a
    case Begin(q, m) => BeginFrame(w, q, m);
    case Finish(q) => FinishFrame(w, q);
    case AppendNext => AppendFrame(w);
    case Consume(q, ok) =>
      var known := ConsumeFrame(w, q, ok);
      ReadLater(w.ranks[q], w.log[w.ranks[q].cursor].pair, known, ok);
    case _ => PhaseFrame(w, a);
  }

  /** A rank in the middle of an InitPair is moved by its own steps only. */
  lemma WriterStays(w: World, a: Action, r: nat)
    requires Enabled(w, a) && r < |w.ranks| && w.ranks[r].phase.Writing?
    requires !Advances(a, r)
    ensures |Do(w, a).ranks| == |w.ranks| && Do(w, a).ranks[r] == w.ranks[r]
  {
    match a
    case Begin(q, m) => BeginFrame(w, q, m);
    case Finish(q) => FinishFrame(w, q);
    case AppendNext => AppendFrame(w);
    case Consume(q, ok) =>
      var known := ConsumeFrame(w, q, ok);
      ReadFrame(w.ranks[q], w.log[w.ranks[q].cursor].pair, known, ok);
    case _ => PhaseFrame(w, a);
  }

  /** The InitPair that writes key `k`. */
  ghost predicate Writes(w: World, a: Action, k: Key) {
    && a.Begin? && a.rank < |w.ranks| && k == Key(a.msg.pair, a.msg.local, a.rank)
    && a.msg.pair !in w.ranks[a.rank].matched && !RefusedEarly(w.ranks[a.rank], a.msg)
  }

  /** The step that writes its size. */
  ghost predicate WritesSize(w: World, a: Action, k: Key) {
    && a.WriteSize? && AtStage(w, a.rank, Registered)
    && k == Key(w.ranks[a.rank].phase.msg.pair, w.ranks[a.rank].phase.msg.local, a.rank)
  }

  lemma RegisteredStep(w: World, a: Action, k: Key)
    requires Enabled(w, a)
    ensures k in Do(w, a).registered <==> k in w.registered || Writes(w, a, k)
  {
    match a
    case Begin(q, m) => BeginIs(w, q, m);
    case Finish(q) => FinishFrame(w, q);
    case AppendNext => AppendFrame(w);
    case Consume(q, ok) => var known := ConsumeFrame(w, q, ok);
    case _ => PhaseFrame(w, a);
  }

  lemma SizeStep(w: World, a: Action, k: Key)
    requires Enabled(w, a)
    ensures k in Do(w, a).sizes <==> k in w.sizes || WritesSize(w, a, k)
    ensures k in Do(w, a).sizes ==>
      Do(w, a).sizes[k] == if WritesSize(w, a, k) then w.ranks[a.rank].phase.msg.size else w.sizes[k]
  {
    match a
    case Begin(q, m) => BeginIs(w, q, m);
    case WriteSize(q) =>
    case Finish(q) => FinishFrame(w, q);
    case AppendNext => AppendFrame(w);
    case Consume(q, ok) => var known := ConsumeFrame(w, q, ok);
    case _ => PhaseFrame(w, a);
  }

  /** Keys are only added, and a size changes only when it is written again. */
  lemma KeysOnlyGrow(w: World, a: Action, k: Key)
    requires Enabled(w, a)
    ensures k in Do(w, a).registered <==> k in w.registered || Writes(w, a, k)
    ensures k in Do(w, a).sizes <==> k in w.sizes || WritesSize(w, a, k)
    ensures k in Do(w, a).sizes ==>
      Do(w, a).sizes[k] == if WritesSize(w, a, k) then w.ranks[a.rank].phase.msg.size else w.sizes[k]
  {
    RegisteredStep(w, a, k);
    SizeStep(w, a, k);
  }

  /** The shared size of a side is written by Publish only. */
  lemma ExpectedStep(w: World, a: Action, side: Side)
    requires Enabled(w, a) && !(a.Publish? && a.rank < |w.ranks| &&
                                Side(w.ranks[a.rank].phase.msg.pair, w.ranks[a.rank].phase.msg.local) == side)
    ensures side in Do(w, a).expected <==> side in w.expected
    ensures side in w.expected ==> Do(w, a).expected[side] == w.expected[side]
  {
    match a
    case Begin(q, m) => BeginFrame(w, q, m);
    case Finish(q) => FinishFrame(w, q);
    case AppendNext => AppendFrame(w);
    case Consume(q, ok) =>
      var known := ConsumeFrame(w, q, ok);
      ReadFrame(w.ranks[q], w.log[w.ranks[q].cursor].pair, known, ok);
    case _ =>
  }

  // ------------------------------------------------------------------------------------------
  // Registrations and the ranks behind them

  /** The rank waits for the pair under this name with this size, or has matched it. */
  ghost predicate Attached(w: World, k: Key) {
    && k.rank < |w.ranks| && k in w.registered && k in w.sizes
    && var s := w.ranks[k.rank];
       || k.pair in s.matched
       || (k.pair in s.pending && k.name in s.pending[k.pair].expected &&
           s.pending[k.pair].expected[k.name] == w.sizes[k])
  }

  ghost predicate WritingKey(w: World, k: Key) {
    && k.rank < |w.ranks| && w.ranks[k.rank].phase.Writing?
    && w.ranks[k.rank].phase.msg.pair == k.pair && w.ranks[k.rank].phase.msg.local == k.name
  }

  /** Past the comparison: nothing can refuse the InitPair any more. */
  ghost predicate Committing(w: World, k: Key) {
    && WritingKey(w, k) && k in w.registered && k in w.sizes
    && w.ranks[k.rank].phase.progress != Registered && w.ranks[k.rank].phase.progress != Written
  }

  ghost predicate Committed(w: World, k: Key) {
    Attached(w, k) || Committing(w, k)
  }

  /** Rank `q` is on the same side and sure of another size. */
  ghost predicate Disputes(w: World, k: Key, q: nat) {
    k in w.sizes && Committed(w, Key(k.pair, k.name, q)) && w.sizes[Key(k.pair, k.name, q)] != w.sizes[k]
  }

  ghost predicate Contested(w: World, k: Key) {
    exists q: nat :: Disputes(w, k, q)
  }

  /** A visible registration is backed by a waiting rank, unless it disagrees with one. */
  ghost predicate KeyOk(w: World, k: Key) {
    k.rank < |w.ranks| && (Attached(w, k) || WritingKey(w, k) || Contested(w, k))
  }

  /** Rank `q` is sure of the size the side has in the store. */
  ghost predicate Vouches(w: World, side: Side, q: nat) {
    && side in w.expected && Committed(w, Key(side.pair, side.name, q))
    && w.sizes[Key(side.pair, side.name, q)] == w.expected[side]
  }

  ghost predicate SideOk(w: World, side: Side) {
    exists q: nat :: Vouches(w, side, q)
  }

  ghost predicate WriterOk(w: World, r: nat)
    requires r < |w.ranks|
  {
    var s := w.ranks[r];
    s.phase.Writing? ==>
      var m := s.phase.msg;
      var k := Key(m.pair, m.local, r);
      && m.pair !in s.matched && !RefusedEarly(s, m) && k in w.registered
      && (s.phase.progress == Registered || (k in w.sizes && w.sizes[k] == m.size))
  }

  ghost predicate KeysInv(w: World) {
    && (forall k :: k in w.registered ==> KeyOk(w, k))
    && (forall side :: side in w.expected ==> SideOk(w, side))
    && (forall r :: 0 <= r < |w.ranks| ==> WriterOk(w, r))
  }

  /** An attached registration keeps its size and stays attached. */
  lemma AttachedStays(w: World, a: Action, k: Key)
    requires Enabled(w, a) && Attached(w, k) && WriterOk(w, k.rank)
    ensures Attached(Do(w, a), k) && Do(w, a).sizes[k] == w.sizes[k]
  {
    KeysOnlyGrow(w, a, k);
    RankLater(w, a, k.rank);
  }

  lemma FinishAttaches(w: World, r: nat)
    requires Enabled(w, Finish(r)) && WriterOk(w, r)
    ensures var m := w.ranks[r].phase.msg;
            Attached(DoFinish(w, r), Key(m.pair, m.local, r)) && DoFinish(w, r).sizes == w.sizes
  {
    FinishFrame(w, r);
  }

  lemma CommittedStays(w: World, a: Action, k: Key)
    requires Enabled(w, a) && Committed(w, k) && k.rank < |w.ranks| && WriterOk(w, k.rank)
    ensures Committed(Do(w, a), k) && Do(w, a).sizes[k] == w.sizes[k]
  {
    if Attached(w, k) {
      AttachedStays(w, a, k);
    } else {
      KeysOnlyGrow(w, a, k);
      if a == Finish(k.rank) {
        FinishAttaches(w, k.rank);
      } else if a == Publish(k.rank) || a == WriteLayout(k.rank) {
        PhaseFrame(w, a);
      } else {
        WriterStays(w, a, k.rank);
      }
    }
  }

  lemma ContestedStays(w: World, a: Action, k: Key)
    requires KeysInv(w) && Enabled(w, a) && Contested(w, k) && !WritesSize(w, a, k)
    ensures Contested(Do(w, a), k)
  {
    var q: nat :| Disputes(w, k, q);
    CommittedStays(w, a, Key(k.pair, k.name, q));
    KeysOnlyGrow(w, a, k);
    assert Disputes(Do(w, a), k, q);
  }

  /** A refused InitPair leaves a registration that a committed rank disputes. */
  lemma RefusedIsContested(w: World, r: nat)
    requires KeysInv(w) && Enabled(w, Check(r)) && DoCheck(w, r).ranks[r].phase == Idle
    ensures var m := w.ranks[r].phase.msg; Contested(DoCheck(w, r), Key(m.pair, m.local, r))
  {
    var m := w.ranks[r].phase.msg;
    var k, side := Key(m.pair, m.local, r), Side(m.pair, m.local);
    assert WriterOk(w, r) && SideOk(w, side);
    var q: nat :| Vouches(w, side, q);
    CommittedStays(w, Check(r), Key(m.pair, m.local, q));
    PhaseFrame(w, Check(r));
    assert Disputes(DoCheck(w, r), k, q);
  }

  lemma BeginWrites(w: World, a: Action, k: Key)
    requires Enabled(w, a) && Writes(w, a, k)
    ensures WritingKey(Do(w, a), k)
  {
    BeginIs(w, a.rank, a.msg);
  }

  lemma KeyStep(w: World, a: Action, k: Key)
    requires KeysInv(w) && Enabled(w, a) && k in Do(w, a).registered
    ensures KeyOk(Do(w, a), k)
  {
    KeysOnlyGrow(w, a, k);
    if Writes(w, a, k) {
      BeginWrites(w, a, k);
    } else {
      assert KeyOk(w, k);
      RanksKept(w, a);
      assert WriterOk(w, k.rank);
      if Committed(w, k) {
        CommittedStays(w, a, k);
      } else if a == WriteSize(k.rank) && WritingKey(w, k) {
        PhaseFrame(w, a);
      } else if Contested(w, k) {
        ContestedStays(w, a, k);
      } else if a == Check(k.rank) {
        PhaseFrame(w, a);
        if Do(w, a).ranks[k.rank].phase == Idle {
          RefusedIsContested(w, k.rank);
        }
      } else {
        WriterStays(w, a, k.rank);
      }
    }
  }

  lemma SideStep(w: World, a: Action, side: Side)
    requires KeysInv(w) && Enabled(w, a) && side in Do(w, a).expected
    ensures SideOk(Do(w, a), side)
  {
    var w' := Do(w, a);
    if a.Publish? && Side(w.ranks[a.rank].phase.msg.pair, w.ranks[a.rank].phase.msg.local) == side {
      PhaseFrame(w, a);
      assert WriterOk(w, a.rank);
      assert Vouches(w', side, a.rank);
    } else {
      ExpectedStep(w, a, side);
      assert SideOk(w, side);
      var q: nat :| Vouches(w, side, q);
      CommittedStays(w, a, Key(side.pair, side.name, q));
      assert Vouches(w', side, q);
    }
  }

  lemma WriterStep(w: World, a: Action, r: nat)
    requires KeysInv(w) && Enabled(w, a) && r < |w.ranks|
    ensures |Do(w, a).ranks| == |w.ranks| && WriterOk(Do(w, a), r)
  {
    RanksKept(w, a);
    assert WriterOk(w, r);
    if a.Begin? && a.rank == r {
      BeginWriter(w, r, a.msg);
    } else if !w.ranks[r].phase.Writing? {
      NotWriting(w, a, r);
    } else {
      var m := w.ranks[r].phase.msg;
      KeysOnlyGrow(w, a, Key(m.pair, m.local, r));
      if Advances(a, r) {
        OwnStep(w, a, r);
      } else {
        WriterStays(w, a, r);
      }
    }
  }

  lemma BeginWriter(w: World, r: nat, m: Init)
    requires Enabled(w, Begin(r, m))
    ensures |DoBegin(w, r, m).ranks| == |w.ranks| && WriterOk(DoBegin(w, r, m), r)
  {
    BeginIs(w, r, m);
  }

  lemma NotWriting(w: World, a: Action, r: nat)
    requires Enabled(w, a) && r < |w.ranks| && !w.ranks[r].phase.Writing? && !(a.Begin? && a.rank == r)
    ensures |Do(w, a).ranks| == |w.ranks| && !Do(w, a).ranks[r].phase.Writing?
  {
    match a
    case Begin(q, m) => BeginFrame(w, q, m);
    case Finish(q) => FinishFrame(w, q);
    case AppendNext => AppendFrame(w);
    case Consume(q, ok) =>
      var known := ConsumeFrame(w, q, ok);
      ReadFrame(w.ranks[q], w.log[w.ranks[q].cursor].pair, known, ok);
    case _ => PhaseFrame(w, a);
  }

  lemma KeysStep(w: World, a: Action)
    requires KeysInv(w) && Enabled(w, a)
    ensures KeysInv(Do(w, a))
  {
    var w' := Do(w, a);
    RanksKept(w, a);
    forall k | k in w'.registered ensures KeyOk(w', k) {
      KeyStep(w, a, k);
    }
    forall side | side in w'.expected ensures SideOk(w', side) {
      SideStep(w, a, side);
    }
    forall r | 0 <= r < |w'.ranks| ensures WriterOk(w', r) {
      WriterStep(w, a, r);
    }
  }

  /** When a side is ready, everyone counted is waiting, has matched, or is still writing its keys. */
  lemma ReadyAreBacked(w: World, pair: nat, name: nat, r: nat)
    requires KeysInv(w) && SideReady(w, pair, name) && r in Present(w, pair, name)
    ensures r < |w.ranks|
    ensures pair in w.ranks[r].pending || pair in w.ranks[r].matched || IsWriting(w.ranks[r], pair)
  {
    var k := Key(pair, name, r);
    assert k in w.registered;
    assert KeyOk(w, k);
    NotContested(w, pair, name, r);
  }

  lemma NotContested(w: World, pair: nat, name: nat, r: nat)
    requires SideReady(w, pair, name) && r in Present(w, pair, name)
    ensures !Contested(w, Key(pair, name, r))
  {
    forall q: nat | Committed(w, Key(pair, name, q)) ensures w.sizes[Key(pair, name, q)] == |Present(w, pair, name)| {
      assert q in Present(w, pair, name);
    }
  }

  /** Two ranks of a side past the comparison with different sizes, as a race lets through. */
  ghost predicate Split(w: World, pair: nat, name: nat, p: nat, q: nat) {
    Committed(w, Key(pair, name, p)) && Disputes(w, Key(pair, name, p), q)
  }

  /** Such a side is not ready, and no step mends it: the pair is never logged. */
  lemma SplitSideNeverReady(w: World, a: Action, pair: nat, name: nat, p: nat, q: nat)
    requires KeysInv(w) && Enabled(w, a) && Split(w, pair, name, p, q)
    ensures !SideReady(w, pair, name) && Split(Do(w, a), pair, name, p, q)
  {
    if SideReady(w, pair, name) {
      NotContested(w, pair, name, p);
    }
    CommittedStays(w, a, Key(pair, name, p));
    CommittedStays(w, a, Key(pair, name, q));
  }

  // ------------------------------------------------------------------------------------------
  // Nobody counted is skipped

  ghost predicate WasRejected(w: World, pair: nat, r: nat) {
    exists name: nat :: Key(pair, name, r) in w.rejected
  }

  /** Waiting for the pair, done with it, or caught between writing its keys and being rejected. */
  ghost predicate Covered(w: World, e: Entry, r: nat) {
    r < |w.ranks| &&
    var s := w.ranks[r];
    || e.pair in s.pending || e.pair in s.matched
    || (r in e.midway && (IsWriting(s, e.pair) || WasRejected(w, e.pair, r)))
  }

  ghost predicate CoverInv(w: World) {
    forall i, r :: 0 <= i < |w.log| && r in w.log[i].counted && r < |w.ranks| && w.ranks[r].cursor <= i ==>
      Covered(w, w.log[i], r)
  }

  lemma RejectedStays(w: World, a: Action, pair: nat, r: nat)
    requires Enabled(w, a) && WasRejected(w, pair, r)
    ensures WasRejected(Do(w, a), pair, r)
  {
    var name: nat :| Key(pair, name, r) in w.rejected;
    RejectedGrows(w, a);
    assert Key(pair, name, r) in Do(w, a).rejected;
  }

  lemma RejectedGrows(w: World, a: Action)
    requires Enabled(w, a)
    ensures w.rejected <= Do(w, a).rejected
  {
    match a
    case Begin(q, m) => BeginFrame(w, q, m);
    case Finish(q) => FinishFrame(w, q);
    case AppendNext => AppendFrame(w);
    case Consume(q, ok) =>
      var known := ConsumeFrame(w, q, ok);
      ReadFrame(w.ranks[q], w.log[w.ranks[q].cursor].pair, known, ok);
    case _ =>
  }

  lemma CoveredStays(w: World, a: Action, e: Entry, r: nat)
    requires Enabled(w, a) && Covered(w, e, r)
    ensures Covered(Do(w, a), e, r)
  {
    RankLater(w, a, r);
    if e.pair !in w.ranks[r].pending && e.pair !in w.ranks[r].matched {
      if WasRejected(w, e.pair, r) {
        RejectedStays(w, a, e.pair, r);
      } else {
        WriterMoves(w, a, e.pair, r);
      }
    }
  }

  /** An InitPair under way goes on, is rejected, or makes the pair pending. */
  lemma WriterMoves(w: World, a: Action, pair: nat, r: nat)
    requires Enabled(w, a) && r < |w.ranks| && IsWriting(w.ranks[r], pair)
    ensures |Do(w, a).ranks| == |w.ranks|
    ensures IsWriting(Do(w, a).ranks[r], pair) || pair in Do(w, a).ranks[r].pending || WasRejected(Do(w, a), pair, r)
  {
    if a == Finish(r) {
      FinishFrame(w, r);
    } else if a == WriteSize(r) || a == Publish(r) || a == WriteLayout(r) {
      PhaseFrame(w, a);
    } else if a == Check(r) {
      PhaseFrame(w, a);
      var m := w.ranks[r].phase.msg;
      if Do(w, a).ranks[r].phase == Idle {
        assert Key(pair, m.local, r) in Do(w, a).rejected;
      }
    } else {
      WriterStays(w, a, r);
    }
  }

  lemma AppendCovers(w: World, r: nat)
    requires KeysInv(w) && Enabled(w, AppendNext)
    requires |DoAppend(w).log| == |w.log| + 1 && r in DoAppend(w).log[|w.log|].counted
    ensures Covered(w, DoAppend(w).log[|w.log|], r)
  {
    var s := w.ranks[0];
    var p := LeastOf(s.phase.todo);
    var q := s.pending[p];
    var e := DoAppend(w).log[|w.log|];
    assert e == Entry(p, Counted(w, p, q), Midway(w, p, Counted(w, p, q)));
    if r in Present(w, p, q.local) {
      ReadyAreBacked(w, p, q.local, r);
    } else {
      ReadyAreBacked(w, p, q.remote, r);
    }
  }

  lemma CursorStays(w: World, a: Action, r: nat)
    requires Enabled(w, a) && r < |w.ranks|
    ensures |Do(w, a).ranks| == |w.ranks| && Do(w, a).ranks[r].cursor >= w.ranks[r].cursor
  {
    match a
    case Begin(q, m) => BeginFrame(w, q, m);
    case Finish(q) => FinishFrame(w, q);
    case AppendNext => AppendFrame(w);
    case Consume(q, ok) =>
      var known := ConsumeFrame(w, q, ok);
      ReadFrame(w.ranks[q], w.log[w.ranks[q].cursor].pair, known, ok);
    case _ => PhaseFrame(w, a);
  }

  lemma LogStep(w: World, a: Action)
    requires Enabled(w, a)
    ensures Do(w, a).log == w.log ||
            (a.AppendNext? && |Do(w, a).log| == |w.log| + 1 && Do(w, a).log[..|w.log|] == w.log)
  {
    match a
    case Begin(q, m) => BeginFrame(w, q, m);
    case Finish(q) => FinishFrame(w, q);
    case AppendNext =>
    case Consume(q, ok) =>
      var known := ConsumeFrame(w, q, ok);
      ReadFrame(w.ranks[q], w.log[w.ranks[q].cursor].pair, known, ok);
    case _ => PhaseFrame(w, a);
  }

  lemma CoverStep(w: World, a: Action)
    requires KeysInv(w) && CoverInv(w) && Enabled(w, a)
    ensures CoverInv(Do(w, a))
  {
    var w' := Do(w, a);
    LogStep(w, a);
    forall i, r | 0 <= i < |w'.log| && r in w'.log[i].counted && r < |w'.ranks| && w'.ranks[r].cursor <= i
      ensures Covered(w', w'.log[i], r)
    {
      RanksKept(w, a);
      CursorStays(w, a, r);
      if i < |w.log| {
        assert w'.log[i] == w.log[i];
      } else {
        AppendCovers(w, r);
      }
      CoveredStays(w, a, w'.log[i], r);
    }
  }

  lemma {:induction false} RunCovers(n: nat, acts: seq<Action>)
    requires After(n, acts).Some?
    ensures KeysInv(After(n, acts).value) && CoverInv(After(n, acts).value)
  {
    if acts != [] {
      var init := acts[..|acts| - 1];
      RunCovers(n, init);
      KeysStep(After(n, init).value, acts[|acts| - 1]);
      CoverStep(After(n, init).value, acts[|acts| - 1]);
    }
  }

  /**
   A rank that skips an entry was not counted for it, or has completed the pair already, or was
   caught by the check between writing its keys and having that InitPair rejected.
   */
  lemma SkipsAreSafe(n: nat, acts: seq<Action>, w: World, r: nat)
    requires After(n, acts) == Some(w) && CanConsume(w, r) && w.log[w.ranks[r].cursor].pair !in w.ranks[r].pending
    ensures var e := w.log[w.ranks[r].cursor];
            r !in e.counted || e.pair in w.ranks[r].matched || (r in e.midway && WasRejected(w, e.pair, r))
  {
    RunCovers(n, acts);
    NoWriterConsumes(w, r);
  }

  lemma NoWriterConsumes(w: World, r: nat)
    requires CanConsume(w, r)
    ensures forall pair :: !IsWriting(w.ranks[r], pair)
  {
  }

  // ------------------------------------------------------------------------------------------
  // Sizes that agree

  /** Some InitPair of the run names this size for this side. */
  ghost predicate Asked(acts: seq<Action>, side: Side, size: nat) {
    exists i :: 0 <= i < |acts| && acts[i].Begin? && Side(acts[i].msg.pair, acts[i].msg.local) == side &&
      acts[i].msg.size == size
  }

  /** All InitPairs of the run that name a side give it one size. */
  ghost predicate SizesAgree(acts: seq<Action>) {
    forall side, m: nat, n: nat :: Asked(acts, side, m) && Asked(acts, side, n) ==> m == n
  }

  ghost predicate SizesFrom(acts: seq<Action>, w: World) {
    && (forall side :: side in w.expected ==> Asked(acts, side, w.expected[side]))
    && (forall r :: 0 <= r < |w.ranks| && w.ranks[r].phase.Writing? ==>
          Asked(acts, Side(w.ranks[r].phase.msg.pair, w.ranks[r].phase.msg.local), w.ranks[r].phase.msg.size))
  }

  lemma AskedLater(acts: seq<Action>, a: Action, side: Side, size: nat)
    requires Asked(acts, side, size)
    ensures Asked(acts + [a], side, size)
  {
    var i :| 0 <= i < |acts| && acts[i].Begin? && Side(acts[i].msg.pair, acts[i].msg.local) == side &&
      acts[i].msg.size == size;
    assert (acts + [a])[i] == acts[i];
  }

  lemma BeginAsks(acts: seq<Action>, r: nat, m: Init)
    ensures Asked(acts + [Begin(r, m)], Side(m.pair, m.local), m.size)
  {
    assert (acts + [Begin(r, m)])[|acts|] == Begin(r, m);
  }

  lemma BeginMessage(w: World, r: nat, m: Init)
    requires Enabled(w, Begin(r, m))
    ensures |DoBegin(w, r, m).ranks| == |w.ranks|
    ensures DoBegin(w, r, m).ranks[r].phase == Idle || DoBegin(w, r, m).ranks[r].phase == Writing(m, Registered)
  {
    BeginIs(w, r, m);
  }

  /** Who is writing after a step, and for what. */
  lemma WriterFrom(w: World, a: Action, r: nat)
    requires Enabled(w, a) && r < |w.ranks| && |Do(w, a).ranks| == |w.ranks| && Do(w, a).ranks[r].phase.Writing?
    ensures (w.ranks[r].phase.Writing? && Do(w, a).ranks[r].phase.msg == w.ranks[r].phase.msg) ||
            (a.Begin? && a.rank == r && Do(w, a).ranks[r].phase.msg == a.msg)
  {
    if a.Begin? && a.rank == r {
      BeginMessage(w, r, a.msg);
    } else if !w.ranks[r].phase.Writing? {
      NotWriting(w, a, r);
    } else if Advances(a, r) {
      OwnStep(w, a, r);
    } else {
      WriterStays(w, a, r);
    }
  }

  /** The steps of an InitPair keep its message until it is over. */
  lemma OwnStep(w: World, a: Action, r: nat)
    requires Enabled(w, a) && Advances(a, r)
    ensures |Do(w, a).ranks| == |w.ranks|
    ensures Do(w, a).ranks[r].phase == Idle ||
            (Do(w, a).ranks[r] == w.ranks[r].(phase := Do(w, a).ranks[r].phase) && Do(w, a).ranks[r].phase.Writing? &&
             Do(w, a).ranks[r].phase.msg == w.ranks[r].phase.msg)
  {
    if a.Finish? {
      FinishFrame(w, r);
    } else {
      PhaseFrame(w, a);
    }
  }

  lemma SizesStep(acts: seq<Action>, w: World, a: Action)
    requires SizesFrom(acts, w) && Enabled(w, a)
    ensures SizesFrom(acts + [a], Do(w, a))
  {
    var w' := Do(w, a);
    RanksKept(w, a);
    forall r | 0 <= r < |w'.ranks| && w'.ranks[r].phase.Writing?
      ensures Asked(acts + [a], Side(w'.ranks[r].phase.msg.pair, w'.ranks[r].phase.msg.local),
                    w'.ranks[r].phase.msg.size)
    {
      WriterFrom(w, a, r);
      var m := w'.ranks[r].phase.msg;
      if a.Begin? && a.rank == r && m == a.msg {
        BeginAsks(acts, r, m);
      } else {
        AskedLater(acts, a, Side(m.pair, m.local), m.size);
      }
    }
    forall side | side in w'.expected ensures Asked(acts + [a], side, w'.expected[side]) {
      if a.Publish? && Side(w.ranks[a.rank].phase.msg.pair, w.ranks[a.rank].phase.msg.local) == side {
        AskedLater(acts, a, side, w.ranks[a.rank].phase.msg.size);
      } else {
        ExpectedStep(w, a, side);
        AskedLater(acts, a, side, w.expected[side]);
      }
    }
  }

  /** Only a comparison that finds another size rejects. */
  lemma RejectedStep(w: World, a: Action)
    requires Enabled(w, a)
    ensures Do(w, a).rejected == w.rejected ||
            (a.Check? && var m := w.ranks[a.rank].phase.msg;
             Side(m.pair, m.local) in w.expected && w.expected[Side(m.pair, m.local)] != m.size)
  {
    match a
    case Begin(q, m) => BeginFrame(w, q, m);
    case Finish(q) => FinishFrame(w, q);
    case AppendNext => AppendFrame(w);
    case Consume(q, ok) =>
      var known := ConsumeFrame(w, q, ok);
      ReadFrame(w.ranks[q], w.log[w.ranks[q].cursor].pair, known, ok);
    case _ =>
  }

  lemma {:induction false} RunSizes(n: nat, acts: seq<Action>)
    requires After(n, acts).Some?
    ensures SizesFrom(acts, After(n, acts).value)
    ensures After(n, acts).value.rejected != {} ==>
      exists side, x: nat, y: nat :: Asked(acts, side, x) && Asked(acts, side, y) && x != y
  {
    if acts != [] {
      var init, a := acts[..|acts| - 1], acts[|acts| - 1];
      var w := After(n, init).value;
      RunSizes(n, init);
      SizesStep(init, w, a);
      assert init + [a] == acts;
      RejectedStep(w, a);
      if w.rejected != {} {
        var side, x: nat, y: nat :| Asked(init, side, x) && Asked(init, side, y) && x != y;
        AskedLater(init, a, side, x);
        AskedLater(init, a, side, y);
      } else if a.Check? {
        var m := w.ranks[a.rank].phase.msg;
        var side := Side(m.pair, m.local);
        AskedLater(init, a, side, m.size);
        if side in w.expected {
          AskedLater(init, a, side, w.expected[side]);
        }
      }
    }
  }

  /**
   If the InitPairs of a run give each side one size, none is rejected once its keys are written,
   and every entry a rank skips did not count it or names a pair it has completed.
   */
  lemma AgreeingSizesLoseNothing(n: nat, acts: seq<Action>, w: World)
    requires After(n, acts) == Some(w) && SizesAgree(acts)
    ensures w.rejected == {}
    ensures forall r: nat :: CanConsume(w, r) && w.log[w.ranks[r].cursor].pair !in w.ranks[r].pending ==>
      r !in w.log[w.ranks[r].cursor].counted || w.log[w.ranks[r].cursor].pair in w.ranks[r].matched
  {
    RunSizes(n, acts);
    forall r: nat | CanConsume(w, r) && w.log[w.ranks[r].cursor].pair !in w.ranks[r].pending
      ensures r !in w.log[w.ranks[r].cursor].counted || w.log[w.ranks[r].cursor].pair in w.ranks[r].matched
    {
      SkipsAreSafe(n, acts, w, r);
    }
  }
}
