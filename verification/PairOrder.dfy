/**
 Agreement on the completion log (src/etha/tensor_bus/agent.py): it only grows, every rank reads a
 prefix of it, and ranks complete the pairs they share in one order.
*/
module PairOrder {
  import opened Base
  import opened PairLog

  function Names(log: seq<Entry>): (r: seq<nat>)
    ensures |r| == |log| && forall i :: 0 <= i < |r| ==> r[i] == log[i].pair
  {
    seq(|log|, i requires 0 <= i < |log| => log[i].pair)
  }

  /** `ok(i)` is the outcome of completing entry `i`, the same on every rank that does. */
  ghost predicate RankOk(log: seq<Entry>, ok: nat -> bool, s: RankState) {
    && s.cursor <= |log| && s.seen == Names(log[..s.cursor])
    && s.matched !! s.pending.Keys
    && Rising(s.completed) && forall c :: c in s.completed ==> c < s.cursor && ok(c)
  }

  /** What the leader has appended but not read is pending on it, and each pair once. */
  ghost predicate LeaderOk(log: seq<Entry>, ok: nat -> bool, s: RankState) {
    && s.cursor <= |log|
    && (forall i :: 0 <= i < s.cursor && ok(i) ==> log[i].pair in s.matched)
    && (forall i :: s.cursor <= i < |log| ==> log[i].pair in s.pending)
    && (forall i, j :: s.cursor <= i < j < |log| ==> log[i].pair != log[j].pair)
    && (s.phase.Appending? ==> forall i :: s.cursor <= i < |log| ==> log[i].pair !in s.phase.todo)
    && (s.phase.Idle? || s.phase.Writing? ==> s.cursor == |log|)
  }

  /** A pair completes at one entry only. */
  ghost predicate UniqueOk(log: seq<Entry>, ok: nat -> bool) {
    forall i, j :: 0 <= i < j < |log| && ok(i) && ok(j) ==> log[i].pair != log[j].pair
  }

  ghost predicate OrderInv(w: World, ok: nat -> bool) {
    && (forall r :: 0 <= r < |w.ranks| ==> RankOk(w.log, ok, w.ranks[r]))
    && (w.ranks != [] ==> LeaderOk(w.log, ok, w.ranks[0]))
    && UniqueOk(w.log, ok)
  }

  ghost predicate Uniform(w: World, a: Action, ok: nat -> bool) {
    a.Consume? && a.rank < |w.ranks| ==> a.ok == ok(w.ranks[a.rank].cursor)
  }

  /** Changing one rank without touching the log. */
  lemma SetKeeps(w: World, ok: nat -> bool, r: nat, s: RankState, w': World)
    requires OrderInv(w, ok) && r < |w.ranks| && w'.ranks == w.ranks[r := s] && w'.log == w.log
    requires RankOk(w.log, ok, s) && (r == 0 ==> LeaderOk(w.log, ok, s))
    ensures OrderInv(w', ok)
  {
  }

  lemma BeginKeeps(w: World, ok: nat -> bool, r: nat, m: Init)
    requires OrderInv(w, ok) && Enabled(w, Begin(r, m))
    ensures OrderInv(DoBegin(w, r, m), ok)
  {
    assert RankOk(w.log, ok, w.ranks[r]);
    var w' := DoBegin(w, r, m);
    if m.pair !in w.ranks[r].matched && !RefusedEarly(w.ranks[r], m) {
      SetKeeps(w, ok, r, w.ranks[r].(phase := Writing(m, Registered)), w');
    } else {
      assert w.ranks[r := w.ranks[r]] == w.ranks;
      SetKeeps(w, ok, r, w.ranks[r], w');
    }
  }

  /** While writing for a pair the rank has not matched it. */
  ghost predicate WritesUnmatched(s: RankState) {
    s.phase.Writing? ==> s.phase.msg.pair !in s.matched
  }

  lemma AttachOk(log: seq<Entry>, ok: nat -> bool, s: RankState, m: Init)
    requires RankOk(log, ok, s) && m.pair !in s.matched
    ensures RankOk(log, ok, Attach(s, m))
    ensures LeaderOk(log, ok, s) && s.cursor == |log| ==> LeaderOk(log, ok, Attach(s, m))
  {
  }

  lemma FinishKeeps(w: World, ok: nat -> bool, r: nat)
    requires OrderInv(w, ok) && Enabled(w, Finish(r)) && WritesUnmatched(w.ranks[r])
    ensures OrderInv(DoFinish(w, r), ok)
  {
    var s := w.ranks[r];
    assert RankOk(w.log, ok, s);
    AttachOk(w.log, ok, s, s.phase.msg);
    var w' := DoFinish(w, r);
    SetKeeps(w, ok, r, w'.ranks[r], w');
  }

  lemma AppendUnique(log: seq<Entry>, ok: nat -> bool, s: RankState, e: Entry)
    requires UniqueOk(log, ok) && LeaderOk(log, ok, s) && s.phase.Appending? && e.pair in s.phase.todo
    requires e.pair in s.pending && s.matched !! s.pending.Keys
    ensures UniqueOk(log + [e], ok)
    ensures LeaderOk(log + [e], ok, s.(phase := Appending(s.phase.todo - {e.pair})))
  {
    var log' := log + [e];
    forall i | 0 <= i < |log| && ok(i) ensures log[i].pair != e.pair {
      if i < s.cursor {
        assert log[i].pair in s.matched;
      }
    }
  }

  lemma RankOkLater(log: seq<Entry>, ok: nat -> bool, s: RankState, e: Entry)
    requires RankOk(log, ok, s)
    ensures RankOk(log + [e], ok, s)
  {
    assert (log + [e])[..s.cursor] == log[..s.cursor];
  }

  lemma AppendKeeps(w: World, ok: nat -> bool)
    requires OrderInv(w, ok) && Enabled(w, AppendNext)
    ensures OrderInv(DoAppend(w), ok)
  {
    var s := w.ranks[0];
    assert RankOk(w.log, ok, s);
    var p := LeastOf(s.phase.todo);
    var s1 := s.(phase := Appending(s.phase.todo - {p}));
    var w' := DoAppend(w);
    if w'.log == w.log {
      SetKeeps(w, ok, 0, s1, w');
    } else {
      var e := w'.log[|w.log|];
      assert w'.log == w.log + [e] && e.pair == p && p in s.pending;
      AppendUnique(w.log, ok, s, e);
      forall r | 0 <= r < |w.ranks| ensures RankOk(w'.log, ok, w'.ranks[r]) {
        RankOkLater(w.log, ok, w.ranks[r], e);
      }
    }
  }

  lemma ReadRankOk(log: seq<Entry>, ok: nat -> bool, s: RankState, known: Known)
    requires RankOk(log, ok, s) && s.cursor < |log|
    ensures RankOk(log, ok, ReadNext(s, log[s.cursor].pair, known, ok(s.cursor)))
  {
    NamesNext(log, s.cursor);
    assert forall i :: 0 <= i < |s.completed| ==> s.completed[i] in s.completed;
    assert Rising(s.completed + [s.cursor]);
  }

  lemma ReadLeaderOk(log: seq<Entry>, ok: nat -> bool, s: RankState, known: Known)
    requires LeaderOk(log, ok, s) && s.cursor < |log| && s.phase == Consuming
    ensures LeaderOk(log, ok, ReadNext(s, log[s.cursor].pair, known, ok(s.cursor)))
  {
    assert log[s.cursor].pair in s.pending;
  }

  lemma ConsumeKeeps(w: World, ok: nat -> bool, r: nat)
    requires OrderInv(w, ok) && CanConsume(w, r)
    ensures OrderInv(DoConsume(w, r, ok(w.ranks[r].cursor)), ok)
  {
    var w' := DoConsume(w, r, ok(w.ranks[r].cursor));
    var known := ConsumeFrame(w, r, ok(w.ranks[r].cursor));
    assert RankOk(w.log, ok, w.ranks[r]);
    ReadRankOk(w.log, ok, w.ranks[r], known);
    if r == 0 {
      ReadLeaderOk(w.log, ok, w.ranks[r], known);
    }
    SetKeeps(w, ok, r, w'.ranks[r], w');
  }

  lemma OrderStep(w: World, ok: nat -> bool, a: Action)
    requires OrderInv(w, ok) && Enabled(w, a) && Uniform(w, a, ok)
    requires forall r :: 0 <= r < |w.ranks| ==> WritesUnmatched(w.ranks[r])
    ensures OrderInv(Do(w, a), ok)
  {
    match a
    case Begin(r, m) => BeginKeeps(w, ok, r, m);
    case Finish(r) => FinishKeeps(w, ok, r);
    case AppendNext => AppendKeeps(w, ok);
    case Consume(r, _) => ConsumeKeeps(w, ok, r);
    case _ => PhaseKeeps(w, ok, a);
  }

  lemma PhaseKeeps(w: World, ok: nat -> bool, a: Action)
    requires OrderInv(w, ok) && Enabled(w, a) && MovesPhase(a)
    ensures OrderInv(Do(w, a), ok)
  {
    PhaseFrame(w, a);
    var r := Actor(a);
    assert RankOk(w.log, ok, w.ranks[r]);
    SetKeeps(w, ok, r, Do(w, a).ranks[r], Do(w, a));
  }

  lemma UnmatchedStep(w: World, a: Action, r: nat)
    requires Enabled(w, a) && r < |w.ranks| && WritesUnmatched(w.ranks[r])
    ensures |Do(w, a).ranks| == |w.ranks| && WritesUnmatched(Do(w, a).ranks[r])
  {
    match a
    case Begin(q, m) => BeginUnmatched(w, q, m, r);
    case Finish(q) => FinishFrame(w, q);
    case AppendNext => AppendFrame(w);
    case Consume(q, ok) =>
      var known := ConsumeFrame(w, q, ok);
      ReadFrame(w.ranks[q], w.log[w.ranks[q].cursor].pair, known, ok);
    case _ => PhaseUnmatched(w, a, r);
  }

  lemma BeginUnmatched(w: World, q: nat, m: Init, r: nat)
    requires Enabled(w, Begin(q, m)) && r < |w.ranks| && WritesUnmatched(w.ranks[r])
    ensures |DoBegin(w, q, m).ranks| == |w.ranks| && WritesUnmatched(DoBegin(w, q, m).ranks[r])
  {
    BeginIs(w, q, m);
  }

  lemma PhaseUnmatched(w: World, a: Action, r: nat)
    requires Enabled(w, a) && MovesPhase(a) && r < |w.ranks| && WritesUnmatched(w.ranks[r])
    ensures |Do(w, a).ranks| == |w.ranks| && WritesUnmatched(Do(w, a).ranks[r])
  {
    PhaseFrame(w, a);
  }

  // ------------------------------------------------------------------------------------------
  // Whole runs

  ghost predicate UniformRun(n: nat, acts: seq<Action>, ok: nat -> bool) {
    acts == [] ||
    var init := acts[..|acts| - 1];
    After(n, init).Some? && UniformRun(n, init, ok) && Uniform(After(n, init).value, acts[|acts| - 1], ok)
  }

  lemma {:induction false} RunUnmatched(n: nat, acts: seq<Action>)
    requires After(n, acts).Some?
    ensures |After(n, acts).value.ranks| == n
    ensures forall r :: 0 <= r < n ==> WritesUnmatched(After(n, acts).value.ranks[r])
  {
    if acts != [] {
      var init := acts[..|acts| - 1];
      RunUnmatched(n, init);
      forall r | 0 <= r < n
        ensures |After(n, acts).value.ranks| == n && WritesUnmatched(After(n, acts).value.ranks[r])
      {
        UnmatchedStep(After(n, init).value, acts[|acts| - 1], r);
      }
      RanksKept(After(n, init).value, acts[|acts| - 1]);
    }
  }

  lemma {:induction false} RunOrder(n: nat, acts: seq<Action>, ok: nat -> bool)
    requires After(n, acts).Some? && UniformRun(n, acts, ok)
    ensures OrderInv(After(n, acts).value, ok)
  {
    if acts != [] {
      var init := acts[..|acts| - 1];
      RunOrder(n, init, ok);
      RunUnmatched(n, init);
      OrderStep(After(n, init).value, ok, acts[|acts| - 1]);
    }
  }

  /** Entries are never rewritten, in any run, whatever the outcomes. */
  lemma LogOnlyGrows(w: World, a: Action)
    requires Enabled(w, a)
    ensures w.log <= Do(w, a).log
  {
    match a
    case Begin(q, m) => BeginFrame(w, q, m);
    case Finish(q) => FinishFrame(w, q);
    case AppendNext =>
    case Consume(q, ok) => var known := ConsumeFrame(w, q, ok);
    case _ => PhaseFrame(w, a);
  }

  ghost predicate PrefixOfLog(w: World) {
    forall r :: 0 <= r < |w.ranks| ==>
      w.ranks[r].cursor <= |w.log| && w.ranks[r].seen == Names(w.log[..w.ranks[r].cursor])
  }

  lemma NamesNext(log: seq<Entry>, n: nat)
    requires n < |log|
    ensures Names(log[..n + 1]) == Names(log[..n]) + [log[n].pair]
  {
  }

  /** Only consuming reads, and it reads the entry at the cursor. */
  lemma SeenStep(w: World, a: Action, r: nat)
    requires Enabled(w, a) && r < |w.ranks|
    ensures |Do(w, a).ranks| == |w.ranks|
    ensures var s, s' := w.ranks[r], Do(w, a).ranks[r];
            if a.Consume? && a.rank == r
            then s'.cursor == s.cursor + 1 && s'.seen == s.seen + [w.log[s.cursor].pair] && Do(w, a).log == w.log
            else s'.cursor == s.cursor && s'.seen == s.seen
  {
    match a
    case Begin(q, m) => BeginFrame(w, q, m);
    case Finish(q) => FinishFrame(w, q);
    case AppendNext => AppendFrame(w);
    case Consume(q, ok) =>
      var known := ConsumeFrame(w, q, ok);
      ReadFrame(w.ranks[q], w.log[w.ranks[q].cursor].pair, known, ok);
    case _ => PhaseFrame(w, a);
  }

  lemma PrefixStep(w: World, a: Action)
    requires PrefixOfLog(w) && Enabled(w, a)
    ensures PrefixOfLog(Do(w, a))
  {
    var w' := Do(w, a);
    LogOnlyGrows(w, a);
    forall r | 0 <= r < |w'.ranks|
      ensures w'.ranks[r].cursor <= |w'.log| && w'.ranks[r].seen == Names(w'.log[..w'.ranks[r].cursor])
    {
      RanksKept(w, a);
      SeenStep(w, a, r);
      assert w'.log[..w.ranks[r].cursor] == w.log[..w.ranks[r].cursor];
      if a.Consume? && a.rank == r {
        NamesNext(w.log, w.ranks[r].cursor);
      }
    }
  }

  /** What every rank has read is a prefix of the one log. */
  lemma {:induction false} EveryRankReadsThePrefix(n: nat, acts: seq<Action>)
    requires After(n, acts).Some?
    ensures PrefixOfLog(After(n, acts).value)
  {
    if acts != [] {
      EveryRankReadsThePrefix(n, acts[..|acts| - 1]);
      PrefixStep(After(n, acts[..|acts| - 1]).value, acts[|acts| - 1]);
    }
  }

  /** The pairs a rank completed, in the order it did. */
  ghost function CompletedPairs(w: World, r: nat): (q: seq<nat>)
    requires r < |w.ranks|
    ensures |q| == |w.ranks[r].completed|
    ensures forall i :: 0 <= i < |q| && w.ranks[r].completed[i] < |w.log| ==>
      q[i] == w.log[w.ranks[r].completed[i]].pair
  {
    var cs := w.ranks[r].completed;
    seq(|cs|, i requires 0 <= i < |cs| => if cs[i] < |w.log| then w.log[cs[i]].pair else 0)
  }

  /** Two ranks that completed the same pair did so at the same entry. */
  lemma SameEntry(w: World, ok: nat -> bool, a: nat, b: nat, i: nat, j: nat)
    requires OrderInv(w, ok) && a < |w.ranks| && b < |w.ranks|
    requires i < |w.ranks[a].completed| && j < |w.ranks[b].completed|
    requires CompletedPairs(w, a)[i] == CompletedPairs(w, b)[j]
    ensures w.ranks[a].completed[i] == w.ranks[b].completed[j]
  {
    assert RankOk(w.log, ok, w.ranks[a]) && RankOk(w.log, ok, w.ranks[b]);
    var ci, cj := w.ranks[a].completed[i], w.ranks[b].completed[j];
    assert ci in w.ranks[a].completed && cj in w.ranks[b].completed;
    assert ok(ci) && ok(cj);
  }

  lemma RisingOrder(w: World, ok: nat -> bool, r: nat, i: nat, j: nat)
    requires OrderInv(w, ok) && r < |w.ranks| && i < |w.ranks[r].completed| && j < |w.ranks[r].completed|
    ensures i < j <==> w.ranks[r].completed[i] < w.ranks[r].completed[j]
  {
    assert RankOk(w.log, ok, w.ranks[r]);
  }

  lemma OrderAgrees(w: World, ok: nat -> bool, a: nat, b: nat, i: nat, j: nat, k: nat, l: nat)
    requires OrderInv(w, ok) && a < |w.ranks| && b < |w.ranks|
    requires i < |CompletedPairs(w, a)| && j < |CompletedPairs(w, a)| && k < |CompletedPairs(w, b)|
    requires l < |CompletedPairs(w, b)|
    requires CompletedPairs(w, a)[i] == CompletedPairs(w, b)[k] && CompletedPairs(w, a)[j] == CompletedPairs(w, b)[l]
    ensures i < j <==> k < l
  {
    SameEntry(w, ok, a, b, i, k);
    SameEntry(w, ok, a, b, j, l);
    RisingOrder(w, ok, a, i, j);
    RisingOrder(w, ok, b, k, l);
  }

  /** In every uniform run, any two ranks complete the pairs they have in common in the same order. */
  lemma CompletionOrderAgrees(
    n: nat, acts: seq<Action>, ok: nat -> bool, w: World, a: nat, b: nat, i: nat, j: nat, k: nat, l: nat)
    requires After(n, acts) == Some(w) && UniformRun(n, acts, ok) && a < |w.ranks| && b < |w.ranks|
    requires i < |CompletedPairs(w, a)| && j < |CompletedPairs(w, a)| && k < |CompletedPairs(w, b)|
    requires l < |CompletedPairs(w, b)|
    requires CompletedPairs(w, a)[i] == CompletedPairs(w, b)[k] && CompletedPairs(w, a)[j] == CompletedPairs(w, b)[l]
    ensures i < j <==> k < l
  {
    RunOrder(n, acts, ok);
    OrderAgrees(w, ok, a, b, i, j, k, l);
  }
}
