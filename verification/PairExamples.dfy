/**
 Disagreeing sizes can lose a rank (src/etha/tensor_bus/agent.py): the readiness check counts it while
 its InitPair is under way, another rank then fixes a different size for the side, the InitPair is
 rejected, and the rank, which polls for another pair, reads past the entry.
*/
module PairExamples {
  import opened Base
  import opened PairLog
  import opened PairKeys

  function Ask(pair: nat, local: nat, remote: nat, size: nat): Init {
    Init(pair, local, remote, size, None, None, None)
  }

  // Rank 1 waits for pair 1. Then rank 0 joins side 1 of pair 0, rank 1 joins side 2 alone, and rank 2
  // joins side 2 with any other size.
  const OTHER := Ask(1, 5, 6, 7)
  const A := Ask(0, 1, 2, 1)
  const B := Ask(0, 2, 1, 1)

  const W0 := World([FRESH, FRESH, FRESH], {}, map[], map[], map[], {}, [], map[], {}, {}, {})

  /** Rank 1 after its first InitPair, rank 0 after its own. */
  const WAITING := FRESH.(pending := map[1 := Pending(5, 6, map[5 := 7], [])])
  const LEADER := FRESH.(pending := map[0 := Pending(1, 2, map[1 := 1], [])])

  const KEYS1 := {Key(1, 5, 1)}
  const KEYS2 := {Key(1, 5, 1), Key(0, 1, 0)}
  const KEYS3 := {Key(1, 5, 1), Key(0, 1, 0), Key(0, 2, 1)}
  const SIZES1 := map[Key(1, 5, 1) := 7]
  const SIZES2 := map[Key(1, 5, 1) := 7, Key(0, 1, 0) := 1]
  const SIZES3 := map[Key(1, 5, 1) := 7, Key(0, 1, 0) := 1, Key(0, 2, 1) := 1]

  const W1 := W0.(ranks := [FRESH, WAITING, FRESH], registered := KEYS1, sizes := SIZES1,
                  expected := map[Side(1, 5) := 7])
  const W2 := W1.(ranks := [LEADER, WAITING, FRESH], registered := KEYS2, sizes := SIZES2,
                  expected := map[Side(1, 5) := 7, Side(0, 1) := 1])
  const W2A := W2.(ranks := [LEADER, WAITING.(phase := Writing(B, Registered)), FRESH], registered := KEYS3)
  const W3 := W2A.(ranks := [LEADER, WAITING.(phase := Writing(B, Written)), FRESH], sizes := SIZES3)
  const W4 := W3.(ranks := [LEADER.(phase := Appending({0})), WAITING.(phase := Writing(B, Written)), FRESH])
  const W5 := W4.(ranks := [LEADER.(phase := Appending({})), WAITING.(phase := Writing(B, Written)), FRESH],
                  log := [Entry(0, {0, 1}, {1})], marked := {0})

  function W6(size: nat): World {
    W5.(ranks := [LEADER.(phase := Appending({})), WAITING.(phase := Writing(B, Written)),
                  FRESH.(phase := Writing(Ask(0, 2, 1, size), Published))],
        registered := KEYS3 + {Key(0, 2, 2)}, sizes := SIZES3[Key(0, 2, 2) := size],
        expected := map[Side(1, 5) := 7, Side(0, 1) := 1, Side(0, 2) := size])
  }

  function W7(size: nat): World {
    W6(size).(ranks := [LEADER.(phase := Appending({})), WAITING,
                        FRESH.(phase := Writing(Ask(0, 2, 1, size), Published))],
              rejected := {Key(0, 2, 1)})
  }

  function W8(size: nat): World {
    W7(size).(ranks := [LEADER.(phase := Appending({})), WAITING.(phase := Consuming),
                        FRESH.(phase := Writing(Ask(0, 2, 1, size), Published))])
  }

  /** Some run ends here. */
  ghost predicate Reachable(w: World) {
    exists acts :: After(3, acts) == Some(w)
  }

  lemma ReachNext(w: World, a: Action)
    requires Reachable(w) && Enabled(w, a)
    ensures Reachable(Do(w, a))
  {
    var acts :| After(3, acts) == Some(w);
    assert (acts + [a])[..|acts|] == acts;
    assert After(3, acts + [a]) == Some(Do(w, a));
  }

  /** An InitPair nobody interrupts, by a rank that waits for nothing under that pair, with no size fixed yet. */
  lemma WholeInit(w: World, r: nat, m: Init, w': World)
    requires Reachable(w) && r < |w.ranks| && w.ranks[r].phase == Idle && m.sem.None? && m.mesh.None?
    requires m.pair !in w.ranks[r].matched && m.pair !in w.ranks[r].pending && Side(m.pair, m.local) !in w.expected
    requires var k, p := Key(m.pair, m.local, r), Pending(m.local, m.remote, map[m.local := m.size], []);
             w' == w.(ranks := w.ranks[r := w.ranks[r].(pending := w.ranks[r].pending[m.pair := p])],
                      registered := w.registered + {k}, sizes := w.sizes[k := m.size],
                      expected := w.expected[Side(m.pair, m.local) := m.size])
    ensures Reachable(w')
  {
    var w1 := ToChecked(w, r, m);
    var w2 := w1.(ranks := w1.ranks[r := w1.ranks[r].(phase := Writing(m, Sized))],
                  expected := w.expected[Side(m.pair, m.local) := m.size]);
    assert Do(w1, Publish(r)) == w2;
    ReachNext(w1, Publish(r));
    var w3 := w2.(ranks := w2.ranks[r := w2.ranks[r].(phase := Writing(m, Published))]);
    assert Do(w2, WriteLayout(r)) == w3;
    ReachNext(w2, WriteLayout(r));
    ReachNext(w3, Finish(r));
    FinishIs(w3, r, m, w');
  }

  /** Up to the comparison, when nothing speaks against it. */
  lemma ToChecked(w: World, r: nat, m: Init) returns (w': World)
    requires Reachable(w) && r < |w.ranks| && w.ranks[r].phase == Idle && m.sem.None? && m.mesh.None?
    requires m.pair !in w.ranks[r].matched && m.pair !in w.ranks[r].pending && Side(m.pair, m.local) !in w.expected
    ensures Reachable(w')
    ensures w' == w.(ranks := w.ranks[r := w.ranks[r].(phase := Writing(m, Checked))],
                     registered := w.registered + {Key(m.pair, m.local, r)},
                     sizes := w.sizes[Key(m.pair, m.local, r) := m.size])
  {
    BeginIs(w, r, m);
    ReachNext(w, Begin(r, m));
    var w1 := StartWriting(w, r, m);
    var w2 := w1.(ranks := w1.ranks[r := w1.ranks[r].(phase := Writing(m, Written))],
                  sizes := w.sizes[Key(m.pair, m.local, r) := m.size]);
    assert Do(w1, WriteSize(r)) == w2;
    ReachNext(w1, WriteSize(r));
    w' := w2.(ranks := w2.ranks[r := w2.ranks[r].(phase := Writing(m, Checked))]);
    assert Do(w2, Check(r)) == w';
    ReachNext(w2, Check(r));
  }

  lemma FinishIs(w: World, r: nat, m: Init, w': World)
    requires r < |w.ranks| && w.ranks[r].phase == Writing(m, Published) && m.sem.None? && m.pair !in w.ranks[r].pending
    requires |w'.ranks| == |w.ranks| && w' == w.(ranks := w'.ranks)
    requires var p := Pending(m.local, m.remote, map[m.local := m.size], []);
             w'.ranks[r] == w.ranks[r].(phase := Idle, pending := w.ranks[r].pending[m.pair := p])
    requires forall q :: 0 <= q < |w.ranks| && q != r ==> w'.ranks[q] == w.ranks[q]
    ensures DoFinish(w, r) == w'
  {
    assert [] + OptSeq(m.sem) == [];
    assert map[][m.local := m.size] == map[m.local := m.size];
    assert Attach(w.ranks[r], m) == w'.ranks[r];
    assert w.ranks[r := w'.ranks[r]] == w'.ranks;
  }

  lemma FirstJoins()
    ensures Reachable(W2)
  {
    assert Boot(3).ranks == W0.ranks;
    assert After(3, []) == Some(W0);
    assert map[][1 := Pending(5, 6, map[5 := 7], [])] == map[1 := Pending(5, 6, map[5 := 7], [])];
    assert map[][Key(1, 5, 1) := 7] == SIZES1 && map[][Side(1, 5) := 7] == map[Side(1, 5) := 7];
    assert [FRESH, FRESH, FRESH][1 := WAITING] == [FRESH, WAITING, FRESH];
    WholeInit(W0, 1, OTHER, W1);
    assert map[][0 := Pending(1, 2, map[1 := 1], [])] == map[0 := Pending(1, 2, map[1 := 1], [])];
    assert SIZES1[Key(0, 1, 0) := 1] == SIZES2 && KEYS1 + {Key(0, 1, 0)} == KEYS2;
    WholeInit(W1, 0, A, W2);
  }

  lemma SecondBegins()
    ensures Enabled(W2, Begin(1, B)) && Do(W2, Begin(1, B)) == W2A
  {
    BeginIs(W2, 1, B);
    assert KEYS2 + {Key(0, 2, 1)} == KEYS3;
  }

  lemma LeaderPolls()
    ensures Enabled(W2A, WriteSize(1)) && Do(W2A, WriteSize(1)) == W3
    ensures Enabled(W3, StartPoll(0)) && Do(W3, StartPoll(0)) == W4
  {
    assert SIZES2[Key(0, 2, 1) := 1] == SIZES3;
    assert 0 in LEADER.pending;
    assert LEADER.pending.Keys == {0};
  }

  lemma Counts()
    ensures SideReady(W4, 0, 1) && SideReady(W4, 0, 2)
    ensures Counted(W4, 0, LEADER.pending[0]) == {0, 1} && Midway(W4, 0, {0, 1}) == {1}
  {
    assert Present(W4, 0, 1) == {0};
    assert Present(W4, 0, 2) == {1};
  }

  /** The last pair of a pass, ready and not marked, is logged. */
  lemma LogsLast(w: World, pair: nat, p: Pending)
    requires w.ranks != [] && w.ranks[0].phase == Appending({pair}) && pair !in w.marked
    requires pair in w.ranks[0].pending && w.ranks[0].pending[pair] == p && PairReady(w, pair, p)
    ensures var counted := Counted(w, pair, p);
            DoAppend(w) == w.(ranks := w.ranks[0 := w.ranks[0].(phase := Appending({}))],
                              log := w.log + [Entry(pair, counted, Midway(w, pair, counted))],
                              marked := w.marked + {pair})
  {
    assert LeastOf({pair}) == pair;
    assert {pair} - {pair} == {};
  }

  lemma Logs()
    ensures Enabled(W4, AppendNext) && Do(W4, AppendNext) == W5
  {
    Counts();
    LogsLast(W4, 0, LEADER.pending[0]);
  }

  lemma LeaderLogs()
    ensures Reachable(W5)
  {
    FirstJoins();
    SecondBegins();
    ReachNext(W2, Begin(1, B));
    LeaderPolls();
    ReachNext(W2A, WriteSize(1));
    ReachNext(W3, StartPoll(0));
    Logs();
    ReachNext(W4, AppendNext);
  }

  lemma Disagrees(size: nat)
    requires Reachable(W5)
    ensures Reachable(W6(size))
  {
    var m := Ask(0, 2, 1, size);
    var w1 := ToChecked(W5, 2, m);
    ReachNext(w1, Publish(2));
    ReachNext(Do(w1, Publish(2)), WriteLayout(2));
    Publishes(size, w1);
  }

  lemma Publishes(size: nat, w: World)
    requires w == W5.(ranks := [W5.ranks[0], W5.ranks[1], FRESH.(phase := Writing(Ask(0, 2, 1, size), Checked))],
                      registered := KEYS3 + {Key(0, 2, 2)}, sizes := SIZES3[Key(0, 2, 2) := size])
    ensures DoWriteLayout(DoPublish(w, 2), 2) == W6(size)
  {
    assert W5.expected[Side(0, 2) := size] == map[Side(1, 5) := 7, Side(0, 1) := 1, Side(0, 2) := size];
  }

  lemma Rejects(size: nat)
    requires size != 1
    ensures Enabled(W6(size), Check(1)) && Do(W6(size), Check(1)) == W7(size)
    ensures Enabled(W7(size), StartPoll(1)) && Do(W7(size), StartPoll(1)) == W8(size)
  {
    assert Side(0, 2) in W6(size).expected && W6(size).expected[Side(0, 2)] == size;
    assert 1 in WAITING.pending;
  }

  lemma SecondReads(size: nat)
    requires size != 1
    ensures Reachable(W8(size))
  {
    LeaderLogs();
    Disagrees(size);
    Rejects(size);
    ReachNext(W6(size), Check(1));
    ReachNext(W7(size), StartPoll(1));
  }

  /**
   For every size but one that rank 2 names, rank 1 was counted ready, reads the entry while it waits
   only for its other pair, and leaves it behind with neither side of pair 0 pending or matched.
   */
  lemma CountedButSkipped(size: nat, ok: bool) returns (w: World, after: World)
    requires size != 1
    ensures Reachable(w) && CanConsume(w, 1) && w.log[w.ranks[1].cursor] == Entry(0, {0, 1}, {1})
    ensures 0 !in w.ranks[1].pending && 0 !in w.ranks[1].matched && w.ranks[1].pending != map[]
    ensures after == Do(w, Consume(1, ok)) && Reachable(after) && after.ranks[1].cursor == |after.log|
    ensures 0 !in after.ranks[1].pending && 0 !in after.ranks[1].matched
  {
    SecondReads(size);
    w := W8(size);
    assert 1 in w.ranks[1].pending;
    ReachNext(w, Consume(1, ok));
    after := Do(w, Consume(1, ok));
    var known := ConsumeFrame(w, 1, ok);
  }
}
