/**
 Repeated InitPairs (src/etha/tensor_bus/agent.py): in every run, what a rank remembers of a pair agrees with the keys
 it wrote itself, so a repetition is accepted exactly if it says what those keys say.
*/
module PairRepeats {
  import opened Base
  import opened PairLog
  import opened PairAgents
  import PairKeys

  function SizeOf(known: Known, name: nat): nat {
    if name == known.local then known.localSize else known.remoteSize
  }

  predicate Knows(known: Known, name: nat) {
    name == known.local || name == known.remote
  }

  /** The size remembered for a side of a matched pair is the size this rank wrote for it. */
  ghost predicate KnownOk(w: World, r: nat)
    requires r < |w.ranks|
  {
    var s := w.ranks[r];
    && (forall p :: p in s.matched <==> p in s.known)
    && (forall p, name :: p in s.known && Knows(s.known[p], name) && Key(p, name, r) in w.registered ==>
          Key(p, name, r) in w.sizes && w.sizes[Key(p, name, r)] == SizeOf(s.known[p], name))
  }

  /** The size a pending pair expects of a side is the size this rank wrote for it. */
  ghost predicate ExpectedOk(w: World, r: nat)
    requires r < |w.ranks|
  {
    var s := w.ranks[r];
    forall p, name :: p in s.pending && name in s.pending[p].expected ==>
      && Key(p, name, r) in w.registered && Key(p, name, r) in w.sizes
      && w.sizes[Key(p, name, r)] == s.pending[p].expected[name]
  }

  /** A matched pair's keys are never written again. */
  lemma MatchedKeysStay(w: World, a: Action, r: nat, p: nat, name: nat)
    requires PairKeys.KeysInv(w) && Enabled(w, a) && r < |w.ranks| && p in w.ranks[r].matched
    ensures var k := Key(p, name, r);
            && (k in Do(w, a).registered <==> k in w.registered) && (k in Do(w, a).sizes <==> k in w.sizes)
            && (k in w.sizes ==> Do(w, a).sizes[k] == w.sizes[k])
  {
    PairKeys.KeysOnlyGrow(w, a, Key(p, name, r));
    assert PairKeys.WriterOk(w, r);
  }

  /** Only its own reading changes what a rank has matched. */
  lemma MemoryStep(w: World, a: Action, r: nat)
    requires Enabled(w, a) && r < |w.ranks| && !(a.Consume? && a.rank == r)
    ensures |Do(w, a).ranks| == |w.ranks|
    ensures var s, s' := w.ranks[r], Do(w, a).ranks[r];
            && s'.matched == s.matched && s'.known == s.known
            && (!(a.Finish? && a.rank == r) ==> s'.pending == s.pending)
  {
    match a
    case Begin(q, m) => BeginFrame(w, q, m);
    case Finish(q) => FinishFrame(w, q);
    case AppendNext => AppendFrame(w);
    case Consume(q, ok) => var known := ConsumeFrame(w, q, ok);
    case _ => PhaseFrame(w, a);
  }

  lemma ReadySize(w: World, pair: nat, name: nat, r: nat)
    requires SideReady(w, pair, name) && Key(pair, name, r) in w.registered
    ensures Key(pair, name, r) in w.sizes && w.sizes[Key(pair, name, r)] == |Present(w, pair, name)|
  {
    assert r in Present(w, pair, name);
  }

  /** A pair that completes is remembered with the sizes both sides agreed on. */
  lemma CompletionKnows(w: World, pair: nat, p: Pending, name: nat, r: nat)
    requires PairReady(w, pair, p) && Knows(KnownAs(w, pair, p), name) && Key(pair, name, r) in w.registered
    ensures Key(pair, name, r) in w.sizes && w.sizes[Key(pair, name, r)] == SizeOf(KnownAs(w, pair, p), name)
  {
    ReadySize(w, pair, name, r);
  }

  lemma KnownStep(w: World, a: Action, r: nat)
    requires PairKeys.KeysInv(w) && Enabled(w, a) && r < |w.ranks| && KnownOk(w, r)
    ensures |Do(w, a).ranks| == |w.ranks| && KnownOk(Do(w, a), r)
  {
    if a.Consume? && a.rank == r {
      ReadingKnows(w, r, a.ok);
    } else {
      MemoryStep(w, a, r);
      var s, w' := w.ranks[r], Do(w, a);
      forall p, name | p in s.known && Knows(s.known[p], name) && Key(p, name, r) in w'.registered
        ensures Key(p, name, r) in w'.sizes && w'.sizes[Key(p, name, r)] == SizeOf(s.known[p], name)
      {
        MatchedKeysStay(w, a, r, p, name);
      }
    }
  }

  lemma ReadingKnows(w: World, r: nat, ok: bool)
    requires Enabled(w, Consume(r, ok)) && KnownOk(w, r)
    ensures |Do(w, Consume(r, ok)).ranks| == |w.ranks| && KnownOk(Do(w, Consume(r, ok)), r)
  {
    var s, w' := w.ranks[r], Do(w, Consume(r, ok));
    var pair := w.log[s.cursor].pair;
    if pair in s.pending && ok {
      forall name | Knows(KnownAs(w, pair, s.pending[pair]), name) && Key(pair, name, r) in w.registered
        ensures Key(pair, name, r) in w.sizes &&
                w.sizes[Key(pair, name, r)] == SizeOf(KnownAs(w, pair, s.pending[pair]), name)
      {
        CompletionKnows(w, pair, s.pending[pair], name, r);
      }
    }
  }

  lemma ExpectedStep(w: World, a: Action, r: nat)
    requires PairKeys.KeysInv(w) && Enabled(w, a) && r < |w.ranks| && ExpectedOk(w, r)
    ensures |Do(w, a).ranks| == |w.ranks| && ExpectedOk(Do(w, a), r)
  {
    RanksKept(w, a);
    var s, w' := w.ranks[r], Do(w, a);
    assert PairKeys.WriterOk(w, r);
    forall p, name | p in w'.ranks[r].pending && name in w'.ranks[r].pending[p].expected
      ensures Key(p, name, r) in w'.registered && Key(p, name, r) in w'.sizes
      ensures w'.sizes[Key(p, name, r)] == w'.ranks[r].pending[p].expected[name]
    {
      PairKeys.KeysOnlyGrow(w, a, Key(p, name, r));
      ExpectedFrom(w, a, r, p, name);
    }
  }

  /** An expected size is kept, or was just joined by the rank's own InitPair. */
  lemma ExpectedFrom(w: World, a: Action, r: nat, p: nat, name: nat)
    requires Enabled(w, a) && r < |w.ranks| == |Do(w, a).ranks|
    requires p in Do(w, a).ranks[r].pending && name in Do(w, a).ranks[r].pending[p].expected
    ensures var s, s' := w.ranks[r], Do(w, a).ranks[r];
            || (p in s.pending && name in s.pending[p].expected &&
                s'.pending[p].expected[name] == s.pending[p].expected[name])
            || (a == Finish(r) && s.phase.msg.pair == p && s.phase.msg.local == name &&
                s'.pending[p].expected[name] == s.phase.msg.size)
  {
    if a.Finish? && a.rank == r {
      FinishFrame(w, r);
      JoinedExpects(w.ranks[r], w.ranks[r].phase.msg, p, name);
    } else if a.Consume? && a.rank == r {
      var known := ConsumeFrame(w, r, a.ok);
      ReadExpects(w.ranks[r], w.log[w.ranks[r].cursor].pair, known, a.ok, p);
    } else {
      MemoryStep(w, a, r);
    }
  }

  lemma JoinedExpects(s: RankState, m: Init, p: nat, name: nat)
    requires p in Attach(s, m).pending && name in Attach(s, m).pending[p].expected
    ensures var s' := Attach(s, m);
            || (p in s.pending && name in s.pending[p].expected &&
                s'.pending[p].expected[name] == s.pending[p].expected[name])
            || (m.pair == p && m.local == name && s'.pending[p].expected[name] == m.size)
  {
  }

  lemma ReadExpects(s: RankState, pair: nat, known: Known, ok: bool, p: nat)
    requires p in ReadNext(s, pair, known, ok).pending
    ensures p in s.pending && ReadNext(s, pair, known, ok).pending[p].expected == s.pending[p].expected
  {
  }

  /** In every run memory and own keys agree. */
  lemma {:induction false} RunRemembers(n: nat, acts: seq<Action>, r: nat)
    requires After(n, acts).Some? && r < n
    ensures |After(n, acts).value.ranks| == n
    ensures KnownOk(After(n, acts).value, r) && ExpectedOk(After(n, acts).value, r)
  {
    if acts != [] {
      var init := acts[..|acts| - 1];
      RunRemembers(n, init, r);
      PairKeys.RunCovers(n, init);
      KnownStep(After(n, init).value, acts[|acts| - 1], r);
      ExpectedStep(After(n, init).value, acts[|acts| - 1], r);
    }
  }

  // ------------------------------------------------------------------------------------------
  // Repetitions

  /** The layout the rank wrote for this side. */
  function OwnMesh(w: World, k: Key): Option<Payload> {
    if k in w.layouts then Some(w.layouts[k].0) else None
  }

  function OwnPlacements(w: World, k: Key): Option<Payload> {
    if k in w.layouts then Some(w.layouts[k].1) else None
  }

  /** The message says what this rank's own keys say, and all of it can be read. */
  ghost predicate SaysTheSame(w: World, k: Key, m: Init) {
    && k in w.sizes && m.size == w.sizes[k]
    && m.mesh == OwnMesh(w, k) && m.placements == OwnPlacements(w, k)
    && m.mesh != Some(Unreadable) && m.placements != Some(Unreadable)
  }

  /**
   Once a pair is matched, an InitPair of a side the rank registered is accepted exactly if it names the two peers and
   says what the rank's own keys say; either way it only settles its caller.
   */
  lemma RepetitionAcceptedIff(n: nat, acts: seq<Action>, w: World, r: nat, m: Init)
    requires After(n, acts) == Some(w) && Enabled(w, Begin(r, m)) && m.pair in w.ranks[r].matched
    requires Key(m.pair, m.local, r) in w.registered
    ensures m.pair in w.ranks[r].known
    ensures var w', known, k := Do(w, Begin(r, m)), w.ranks[r].known[m.pair], Key(m.pair, m.local, r);
            && w' == w.(issued := w'.issued, posted := w.posted + OptSet(m.sem), errors := w'.errors)
            && w'.errors == if Knows(known, m.local) && Knows(known, m.remote) && SaysTheSame(w, k, m)
               then w.errors else w.errors + OptSet(m.sem)
  {
    RunSize(n, acts);
    RunRemembers(n, acts, r);
  }

  lemma {:induction false} RunSize(n: nat, acts: seq<Action>)
    requires After(n, acts).Some?
    ensures |After(n, acts).value.ranks| == n
  {
    if acts != [] {
      RunSize(n, acts[..|acts| - 1]);
      RanksKept(After(n, acts[..|acts| - 1]).value, acts[|acts| - 1]);
    }
  }

  /**
   While a pair is pending, a further InitPair for it is refused before it writes anything exactly if it names a
   foreign peer, or gives another size for a side this rank has joined.
   */
  lemma RefusedBeforeWritingIff(n: nat, acts: seq<Action>, w: World, r: nat, m: Init)
    requires After(n, acts) == Some(w) && Enabled(w, Begin(r, m))
    requires m.pair in w.ranks[r].pending && m.pair !in w.ranks[r].matched
    ensures m.local in w.ranks[r].pending[m.pair].expected ==> Key(m.pair, m.local, r) in w.sizes
    ensures var w', p, k := Do(w, Begin(r, m)), w.ranks[r].pending[m.pair], Key(m.pair, m.local, r);
            if {m.local, m.remote} <= {p.local, p.remote} && (m.local in p.expected ==> m.size == w.sizes[k])
            then w'.ranks[r].phase == Writing(m, Registered) && w'.registered == w.registered + {k} &&
                 w'.errors == w.errors
            else w' == w.(issued := w'.issued, posted := w.posted + OptSet(m.sem), errors := w.errors + OptSet(m.sem))
  {
    RunSize(n, acts);
    RunRemembers(n, acts, r);
    BeginIs(w, r, m);
  }

  // ------------------------------------------------------------------------------------------
  // An InitPair that nobody interrupts

  /** The shared size of the side, if it has one, is the one the message gives. */
  predicate SizeAgrees(w: World, m: Init) {
    var side := Side(m.pair, m.local);
    side in w.expected ==> w.expected[side] == m.size
  }

  /** It is neither for a matched pair nor refused by a pending one. */
  ghost predicate Writable(w: World, r: nat, m: Init) {
    Enabled(w, Begin(r, m)) && m.pair !in w.ranks[r].matched && !RefusedEarly(w.ranks[r], m)
  }

  /** The world once registration and size are written. */
  function WithKeys(w: World, r: nat, m: Init, phase: Phase): World
    requires r < |w.ranks|
  {
    var k := Key(m.pair, m.local, r);
    Issue(w, r, m).(ranks := w.ranks[r := w.ranks[r].(phase := phase)], registered := w.registered + {k},
                    sizes := w.sizes[k := m.size])
  }

  lemma Compared(w: World, r: nat, m: Init)
    requires Writable(w, r, m)
    ensures var w1 := Do(w, Begin(r, m));
            && AtStage(w1, r, Registered)
            && Do(w1, WriteSize(r)) == WithKeys(w, r, m, Writing(m, Written))
  {
    BeginIs(w, r, m);
  }

  lemma ComparedAgreeing(w: World, r: nat, m: Init)
    requires Writable(w, r, m) && SizeAgrees(w, m)
    ensures WholeInit(w, r, m) == FromChecked(WithKeys(w, r, m, Writing(m, Checked)), r)
  {
    Compared(w, r, m);
    var w2 := WithKeys(w, r, m, Writing(m, Written));
    assert Do(w2, Check(r)) == WithKeys(w, r, m, Writing(m, Checked));
  }

  /** The pair waits under the names it was first given, for one caller more. */
  ghost predicate Parked(s: RankState, m: Init, s': RankState) {
    && s'.phase == Idle && m.pair in s'.pending && s'.pending.Keys == s.pending.Keys + {m.pair}
    && (forall p :: p in s.pending && p != m.pair ==> s'.pending[p] == s.pending[p])
    && var p := s'.pending[m.pair];
       if m.pair in s.pending
       then p.local == s.pending[m.pair].local && p.remote == s.pending[m.pair].remote &&
            p.sems == s.pending[m.pair].sems + OptSeq(m.sem) && m.local in p.expected && p.expected[m.local] == m.size
       else p == Pending(m.local, m.remote, map[m.local := m.size], OptSeq(m.sem))
  }

  lemma AttachParks(s: RankState, m: Init, phase: Phase)
    requires m.pair in s.pending && m.local in s.pending[m.pair].expected ==>
      s.pending[m.pair].expected[m.local] == m.size
    ensures Parked(s, m, Attach(s.(phase := phase), m))
  {
  }

  /** The last three writes. */
  function Joined(w: World, r: nat, m: Init): World
    requires r < |w.ranks|
  {
    var k := Key(m.pair, m.local, r);
    w.(ranks := w.ranks[r := Attach(w.ranks[r], m)], expected := w.expected[Side(m.pair, m.local) := m.size],
       layouts := if m.mesh.Some? && m.placements.Some? then w.layouts[k := (m.mesh.value, m.placements.value)]
                  else w.layouts,
       marked := if m.pair in w.ranks[r].pending then w.marked - {m.pair} else w.marked)
  }

  lemma JoinedIs(w: World, r: nat, m: Init)
    requires r < |w.ranks| && w.ranks[r].phase == Writing(m, Checked)
    ensures FromChecked(w, r) == Joined(w, r, m)
  {
    var w1 := Do(w, Publish(r));
    var w2 := Do(w1, WriteLayout(r));
    assert w2.ranks == w.ranks[r := w.ranks[r].(phase := Writing(m, Published))];
    assert Attach(w2.ranks[r], m) == Attach(w.ranks[r], m);
    assert Do(w2, Finish(r)).ranks == w.ranks[r := Attach(w.ranks[r], m)];
  }

  /** If the shared size differs, only registration and own size are written, and the caller is told. */
  lemma DisagreeingInit(w: World, r: nat, m: Init)
    requires Writable(w, r, m) && !SizeAgrees(w, m)
    ensures var w', k := WholeInit(w, r, m), Key(m.pair, m.local, r);
            && w' == w.(registered := w.registered + {k}, sizes := w.sizes[k := m.size], issued := w'.issued,
                        posted := w.posted + OptSet(m.sem), errors := w.errors + OptSet(m.sem),
                        rejected := w.rejected + {k})
  {
    Compared(w, r, m);
    assert WholeInit(w, r, m).ranks == w.ranks;
  }

  /**
   Otherwise registration, sizes and layout are in the store, the pair is pending with the caller parked, and a pair
   that was pending already is up for logging again.
   */
  lemma AgreeingInit(w: World, r: nat, m: Init)
    requires Writable(w, r, m) && SizeAgrees(w, m)
    ensures var w', s, k := WholeInit(w, r, m), w.ranks[r], Key(m.pair, m.local, r);
            && w' == w.(registered := w.registered + {k}, sizes := w.sizes[k := m.size],
                        expected := w.expected[Side(m.pair, m.local) := m.size], ranks := w'.ranks,
                        layouts := w'.layouts, marked := w'.marked, issued := w'.issued)
            && |w'.ranks| == |w.ranks| && Parked(s, m, w'.ranks[r])
            && (forall q :: 0 <= q < |w.ranks| && q != r ==> w'.ranks[q] == w.ranks[q])
            && w'.marked == (if m.pair in s.pending then w.marked - {m.pair} else w.marked)
  {
    ComparedAgreeing(w, r, m);
    JoinedIs(WithKeys(w, r, m, Writing(m, Checked)), r, m);
    AttachParks(w.ranks[r], m, Writing(m, Checked));
  }

  lemma JoinedLayout(w: World, r: nat, m: Init, k: Key)
    requires r < |w.ranks|
    ensures var w' := Joined(w, r, m);
            if k == Key(m.pair, m.local, r) && m.mesh.Some? && m.placements.Some?
            then OwnMesh(w', k) == m.mesh && OwnPlacements(w', k) == m.placements
            else OwnMesh(w', k) == OwnMesh(w, k) && OwnPlacements(w', k) == OwnPlacements(w, k)
  {
  }

  /** The layout in the store is the one the message has, if it has one, and otherwise what was there. */
  lemma LayoutIsWritten(w: World, r: nat, m: Init, k: Key)
    requires Writable(w, r, m) && SizeAgrees(w, m)
    ensures var w', own := WholeInit(w, r, m), Key(m.pair, m.local, r);
            if k == own && m.mesh.Some? && m.placements.Some?
            then OwnMesh(w', k) == m.mesh && OwnPlacements(w', k) == m.placements
            else OwnMesh(w', k) == OwnMesh(w, k) && OwnPlacements(w', k) == OwnPlacements(w, k)
  {
    var w1 := WithKeys(w, r, m, Writing(m, Checked));
    ComparedAgreeing(w, r, m);
    JoinedIs(w1, r, m);
    JoinedLayout(w1, r, m, k);
    assert w1.layouts == w.layouts;
  }

  /**
   An InitPair with only one of the two payloads leaves no layout in the store, and where there is none its repetition
   is refused.
   */
  lemma HalfLayoutIsRefused(n: nat, acts: seq<Action>, w: World, r: nat, m: Init)
    requires After(n, acts) == Some(w) && Enabled(w, Begin(r, m)) && m.pair in w.ranks[r].matched
    requires Key(m.pair, m.local, r) in w.registered && Key(m.pair, m.local, r) !in w.layouts
    requires m.mesh.Some? != m.placements.Some?
    ensures Do(w, Begin(r, m)).errors == w.errors + OptSet(m.sem)
  {
    RepetitionAcceptedIff(n, acts, w, r, m);
  }
}
