/** The InitPair handler, the readiness scan and the two log loops (src/etha/tensor_bus/agent.py), step by step. */
module PairAgents {
  import opened Base
  import opened Sorting
  import opened PairLog

  /** What one rank's InitPair does when nobody comes in between. */
  function WholeInit(w: World, r: nat, m: Init): World
    requires Enabled(w, Begin(r, m))
  {
    var w1 := Do(w, Begin(r, m));
    if AtStage(w1, r, Registered) then FromRegistered(w1, r) else w1
  }

  function FromRegistered(w: World, r: nat): World
    requires AtStage(w, r, Registered)
  {
    var w1 := Do(Do(w, WriteSize(r)), Check(r));
    if AtStage(w1, r, Checked) then FromChecked(w1, r) else w1
  }

  function FromChecked(w: World, r: nat): World
    requires AtStage(w, r, Checked)
  {
    Do(Do(Do(w, Publish(r)), WriteLayout(r)), Finish(r))
  }

  /** The leader's pass over its pending pairs. */
  function Appended(w: World): (w': World)
    requires w.ranks != [] && w.ranks[0].phase.Appending?
    ensures |w'.ranks| == |w.ranks| && w'.ranks[0].phase == Appending({})
    decreases |w.ranks[0].phase.todo|
  {
    if w.ranks[0].phase.todo == {} then w
    else
      AppendFrame(w);
      Appended(Do(w, AppendNext))
  }

  /** A completion that finds both sides ready may still fail. */
  predicate Outcome(w: World, r: nat, ok: nat -> bool)
    requires CanConsume(w, r)
  {
    MayComplete(w, r) && ok(w.ranks[r].cursor)
  }

  /** Reading the log to its end, with the outcome of each completion. */
  function Consumed(w: World, r: nat, ok: nat -> bool): (w': World)
    requires r < |w.ranks| && w.ranks[r].phase == Consuming && w.ranks[r].cursor <= |w.log|
    ensures |w'.ranks| == |w.ranks| && w'.ranks[r].phase == Consuming && w'.ranks[r].cursor == |w'.log|
    decreases |w.log| - w.ranks[r].cursor
  {
    if w.ranks[r].cursor < |w.log| then
      ConsumeFacts(w, r, Outcome(w, r, ok));
      Consumed(Do(w, Consume(r, Outcome(w, r, ok))), r, ok)
    else w
  }

  lemma ConsumeFacts(w: World, r: nat, ok: bool)
    requires CanConsume(w, r)
    ensures var w' := DoConsume(w, r, ok);
            && |w'.ranks| == |w.ranks| && w'.ranks[r].phase == w.ranks[r].phase
            && w'.ranks[r].cursor == w.ranks[r].cursor + 1 && w'.log == w.log
  {
    var known := ConsumeFrame(w, r, ok);
    ReadFrame(w.ranks[r], w.log[w.ranks[r].cursor].pair, known, ok);
  }

  lemma AppendedKeepsCursor(w: World)
    requires w.ranks != [] && w.ranks[0].phase.Appending? && w.ranks[0].cursor <= |w.log|
    ensures Appended(w).ranks[0].cursor <= |Appended(w).log|
    decreases |w.ranks[0].phase.todo|
  {
    if w.ranks[0].phase.todo != {} {
      AppendFrame(w);
      AppendedKeepsCursor(Do(w, AppendNext));
    }
  }

  /** The start of a poll: the leader appends first. */
  function Gathered(w: World, r: nat): (w': World)
    requires Enabled(w, StartPoll(r)) && w.ranks[r].cursor <= |w.log|
    ensures r < |w'.ranks| && w'.ranks[r].phase == Consuming && w'.ranks[r].cursor <= |w'.log|
  {
    var w1 := Do(w, StartPoll(r));
    if r == 0 then AppendedKeepsCursor(w1); Do(Appended(w1), StartConsuming) else w1
  }

  /** A whole poll: nothing without a pending pair; everybody reads the log to its end. */
  function Polled(w: World, r: nat, ok: nat -> bool): World
    requires r < |w.ranks| && w.ranks[r].phase == Idle && w.ranks[r].cursor <= |w.log|
  {
    if w.ranks[r].pending == map[] then w else Do(Consumed(Gathered(w, r), r, ok), EndPoll(r))
  }

  /** Registered ranks below `n`, in order. */
  function PresentUpTo(registered: set<Key>, pair: nat, name: nat, n: nat): seq<nat> {
    if n == 0 then []
    else if Key(pair, name, n - 1) in registered then PresentUpTo(registered, pair, name, n - 1) + [n - 1]
    else PresentUpTo(registered, pair, name, n - 1)
  }

  lemma {:induction false} PresentUpToIs(w: World, pair: nat, name: nat, n: nat)
    requires forall k :: k in w.registered ==> k.rank < n
    ensures forall r :: r in PresentUpTo(w.registered, pair, name, n) <==> r in Present(w, pair, name)
    ensures |PresentUpTo(w.registered, pair, name, n)| == |Present(w, pair, name)|
  {
    PresentBelow(w.registered, pair, name, n);
    var q := PresentUpTo(w.registered, pair, name, n);
    forall r ensures r in q <==> r in Present(w, pair, name) {
      if r in Present(w, pair, name) {
        assert Key(pair, name, r) in w.registered;
      }
    }
    assert Elements(q) == Present(w, pair, name);
    DistinctSize(q);
  }

  lemma {:induction false} PresentBelow(registered: set<Key>, pair: nat, name: nat, n: nat)
    ensures forall r :: r in PresentUpTo(registered, pair, name, n) <==> 0 <= r < n && Key(pair, name, r) in registered
    ensures Distinct(PresentUpTo(registered, pair, name, n))
  {
    if n > 0 {
      PresentBelow(registered, pair, name, n - 1);
      var q := PresentUpTo(registered, pair, name, n - 1);
      assert forall i :: 0 <= i < |q| ==> q[i] in q;
    }
  }

  lemma {:induction false} DistinctSize(q: seq<nat>)
    requires Distinct(q)
    ensures |Elements(q)| == |q|
  {
    if q != [] {
      var init, last := q[..|q| - 1], q[|q| - 1];
      DistinctSize(init);
      assert last !in Elements(init);
      assert Elements(q) == Elements(init) + {last};
    }
  }

  /** All registered ranks of a side, in order, each of which wrote that the side has as many. */
  ghost predicate RollCall(registered: set<Key>, sizes: map<Key, nat>, pair: nat, name: nat, q: seq<nat>) {
    && q != [] && Rising(q)
    && (forall r :: r in q <==> Key(pair, name, r) in registered)
    && (forall r :: r in q ==> Key(pair, name, r) in sizes && sizes[Key(pair, name, r)] == |q|)
  }

  lemma {:induction false} PresentRises(registered: set<Key>, pair: nat, name: nat, n: nat)
    ensures Rising(PresentUpTo(registered, pair, name, n))
  {
    if n > 0 {
      PresentRises(registered, pair, name, n - 1);
      PresentBelow(registered, pair, name, n - 1);
      var q := PresentUpTo(registered, pair, name, n - 1);
      assert forall i :: 0 <= i < |q| ==> q[i] in q;
    }
  }

  /** There is one way to list numbers in rising order. */
  lemma RisingIsUnique(a: seq<nat>, b: seq<nat>)
    requires Rising(a) && Rising(b) && forall x :: x in a <==> x in b
    ensures a == b
  {
    OrdersAreTotal();
    SortedIsUnique(NatLess, Elements(a), a);
    SortedIsUnique(NatLess, Elements(a), b);
  }

  lemma RollCallIs(w: World, pair: nat, name: nat, n: nat, q: seq<nat>)
    requires forall k :: k in w.registered ==> k.rank < n
    ensures RollCall(w.registered, w.sizes, pair, name, q) <==>
            SideReady(w, pair, name) && q == PresentUpTo(w.registered, pair, name, n)
  {
    var all := PresentUpTo(w.registered, pair, name, n);
    PresentUpToIs(w, pair, name, n);
    PresentBelow(w.registered, pair, name, n);
    PresentRises(w.registered, pair, name, n);
    if RollCall(w.registered, w.sizes, pair, name, q) {
      forall r ensures r in q <==> r in all {
        assert r in q <==> Key(pair, name, r) in w.registered;
      }
      RisingIsUnique(q, all);
      assert q[0] in Present(w, pair, name);
    }
    if SideReady(w, pair, name) && q == all {
      var r :| r in Present(w, pair, name);
      assert r in all;
      assert forall r :: r in q ==> r in Present(w, pair, name);
    }
  }

  /** Every agent's memory, and the store they share. */
  class Agents {
    var ranks: seq<RankState>
    var registered: set<Key>
    var sizes: map<Key, nat>
    var expected: map<Side, nat>
    var layouts: map<Key, (Payload, Payload)>
    var marked: set<nat>
    var log: seq<Entry>
    var posted: set<Sem>
    var errors: set<Sem>
    ghost var issued: map<Sem, Key>
    ghost var rejected: set<Key>

    ghost function View(): World
      reads this
    {
      World(ranks, registered, sizes, expected, layouts, marked, log, issued, posted, errors, rejected)
    }

    constructor (n: nat)
      ensures View() == Boot(n)
    {
      ranks := seq(n, _ => FRESH);
      registered, sizes, expected, layouts, marked, log := {}, map[], map[], map[], {}, [];
      posted, errors, issued, rejected := {}, {}, map[], {};
    }

    /** Scans every rank; a missing or differing size, or a wrong count, is not ready. */
    method CheckSideReady(pair: nat, name: nat) returns (ready: Option<seq<nat>>)
      requires forall k :: k in registered ==> k.rank < |ranks|
      ensures ready.Some? <==> SideReady(View(), pair, name)
      ensures ready.Some? ==> ready.value == PresentUpTo(registered, pair, name, |ranks|)
      ensures forall q :: RollCall(registered, sizes, pair, name, q) <==> ready == Some(q)
    {
      var present: seq<nat> := [];
      var first: Option<nat> := None;
      ghost var w := View();
      forall q
        ensures RollCall(registered, sizes, pair, name, q) <==>
                SideReady(w, pair, name) && q == PresentUpTo(registered, pair, name, |ranks|)
      {
        RollCallIs(w, pair, name, |ranks|, q);
      }
      PresentUpToIs(w, pair, name, |ranks|);
      for r := 0 to |ranks|
        invariant present == PresentUpTo(registered, pair, name, r)
        invariant first.None? <==> present == []
        invariant forall q :: q in present ==> Key(pair, name, q) in sizes && first == Some(sizes[Key(pair, name, q)])
      {
        PresentBelow(registered, pair, name, r);
        var k := Key(pair, name, r);
        if k in registered {
          if k !in sizes || (first.Some? && first.value != sizes[k]) {
            assert first.Some? ==> present[0] in present;
            MustFail(w, pair, name, r, present);
            return None;
          }
          present := present + [r];
          first := Some(sizes[k]);
        }
      }
      if first.None? || |present| != first.value {
        if present != [] {
          assert present[0] in Present(w, pair, name);
        }
        return None;
      }
      ready := Some(present);
    }

    lemma MustFail(w: World, pair: nat, name: nat, r: nat, present: seq<nat>)
      requires Key(pair, name, r) in w.registered
      requires forall q :: q in present ==> Key(pair, name, q) in w.registered
      requires Key(pair, name, r) in w.sizes ==>
        exists q :: q in present && Key(pair, name, q) in w.sizes &&
          w.sizes[Key(pair, name, q)] != w.sizes[Key(pair, name, r)]
      ensures !SideReady(w, pair, name)
    {
      assert r in Present(w, pair, name);
      if Key(pair, name, r) in w.sizes {
        var q :| q in present && Key(pair, name, q) in w.sizes &&
          w.sizes[Key(pair, name, q)] != w.sizes[Key(pair, name, r)];
        assert q in Present(w, pair, name);
      }
    }

    /** Writes the keys, then compares sizes, then waits; nothing here blocks. */
    method HandleInitPair(r: nat, m: Init)
      requires Enabled(View(), Begin(r, m))
      modifies this
      ensures View() == WholeInit(old(View()), r, m)
    {
      if m.sem.Some? {
        issued := issued[m.sem.value := Key(m.pair, m.local, r)];
      }
      if m.pair in ranks[r].matched {
        var same := RepeatsMatched(r, m);
        Settle(m.sem, !same);
        return;
      }
      if m.pair in ranks[r].pending {
        var p := ranks[r].pending[m.pair];
        if !(m.local == p.local || m.local == p.remote) || !(m.remote == p.local || m.remote == p.remote) ||
           (m.local in p.expected && p.expected[m.local] != m.size) {
          Settle(m.sem, true);
          return;
        }
      }
      WriteRegistration(r, m);
      assert View() == Do(old(View()), Begin(r, m));
      FinishInitPair(r, m);
    }

    /** A second InitPair for a matched pair has to name what the first did. */
    method RepeatsMatched(r: nat, m: Init) returns (same: bool)
      requires r < |ranks|
      ensures same == Repeats(View(), r, m)
    {
      if m.pair !in ranks[r].known {
        return false;
      }
      var known := ranks[r].known[m.pair];
      if !(m.local == known.local || m.local == known.remote) ||
        !(m.remote == known.local || m.remote == known.remote) {
        return false;
      }
      if m.size != (if m.local == known.local then known.localSize else known.remoteSize) {
        return false;
      }
      var k := Key(m.pair, m.local, r);
      var mesh := if k in layouts then Some(layouts[k].0) else None;
      var placements := if k in layouts then Some(layouts[k].1) else None;
      same := SamePayload(mesh, m.mesh) && SamePayload(placements, m.placements);
    }

    method Settle(sem: Option<Sem>, failed: bool)
      modifies this`posted, this`errors
      ensures View() == if failed then Fail(old(View()), OptSet(sem)) else Post(old(View()), OptSet(sem))
    {
      if sem.Some? {
        if failed {
          errors := errors + {sem.value};
        }
        posted := posted + {sem.value};
      }
    }

    method WriteRegistration(r: nat, m: Init)
      requires r < |ranks|
      modifies this`ranks, this`registered
      ensures View() == StartWriting(old(View()), r, m)
    {
      registered := registered + {Key(m.pair, m.local, r)};
      ranks := ranks[r := ranks[r].(phase := Writing(m, Registered))];
    }

    method WriteOwnSize(r: nat, m: Init)
      requires r < |ranks| && ranks[r].phase == Writing(m, Registered)
      modifies this`ranks, this`sizes
      ensures View() == DoWriteSize(old(View()), r) && r < |ranks| && ranks[r].phase == Writing(m, Written)
    {
      sizes := sizes[Key(m.pair, m.local, r) := m.size];
      ranks := ranks[r := ranks[r].(phase := Writing(m, Written))];
    }

    method CheckSize(r: nat, m: Init) returns (ok: bool)
      requires r < |ranks| && ranks[r].phase == Writing(m, Written)
      modifies this
      ensures View() == DoCheck(old(View()), r) && (ok <==> AtStage(View(), r, Checked))
      ensures ok ==> ranks[r].phase == Writing(m, Checked)
    {
      var side := Side(m.pair, m.local);
      if side in expected && expected[side] != m.size {
        rejected := rejected + {Key(m.pair, m.local, r)};
        ranks := ranks[r := ranks[r].(phase := Idle)];
        Settle(m.sem, true);
        return false;
      }
      ranks := ranks[r := ranks[r].(phase := Writing(m, Checked))];
      return true;
    }

    method PublishSize(r: nat, m: Init)
      requires r < |ranks| && ranks[r].phase == Writing(m, Checked)
      modifies this`ranks, this`expected
      ensures View() == DoPublish(old(View()), r) && r < |ranks| && ranks[r].phase == Writing(m, Sized)
    {
      expected := expected[Side(m.pair, m.local) := m.size];
      ranks := ranks[r := ranks[r].(phase := Writing(m, Sized))];
    }

    method PublishLayout(r: nat, m: Init)
      requires r < |ranks| && ranks[r].phase == Writing(m, Sized)
      modifies this`ranks, this`layouts
      ensures View() == DoWriteLayout(old(View()), r) && r < |ranks| && ranks[r].phase == Writing(m, Published)
    {
      if m.mesh.Some? && m.placements.Some? {
        layouts := layouts[Key(m.pair, m.local, r) := (m.mesh.value, m.placements.value)];
      }
      ranks := ranks[r := ranks[r].(phase := Writing(m, Published))];
    }

    method JoinPending(r: nat, m: Init)
      requires r < |ranks| && ranks[r].phase == Writing(m, Published)
      modifies this`ranks, this`marked
      ensures View() == DoFinish(old(View()), r)
    {
      var s := ranks[r];
      var p := Pending(m.local, m.remote, map[], []);
      if m.pair in s.pending {
        p := s.pending[m.pair];
        marked := marked - {m.pair};
      }
      if m.local !in p.expected {
        p := p.(expected := p.expected[m.local := m.size]);
      }
      p := p.(sems := p.sems + OptSeq(m.sem));
      ranks := ranks[r := s.(phase := Idle, pending := s.pending[m.pair := p])];
    }

    method FinishInitPair(r: nat, m: Init)
      requires r < |ranks| && ranks[r].phase == Writing(m, Registered)
      modifies this
      ensures View() == FromRegistered(old(View()), r)
    {
      WriteOwnSize(r, m);
      var ok := CheckSize(r, m);
      if ok {
        JoinPair(r, m);
      }
    }

    method JoinPair(r: nat, m: Init)
      requires r < |ranks| && ranks[r].phase == Writing(m, Checked)
      modifies this
      ensures View() == FromChecked(old(View()), r)
    {
      PublishSize(r, m);
      PublishLayout(r, m);
      JoinPending(r, m);
    }

    /** The log entry a ready pair gets. */
    method CountReady(pair: nat, p: Pending) returns (e: Option<Entry>)
      requires forall k :: k in registered ==> k.rank < |ranks|
      ensures e.Some? <==> PairReady(View(), pair, p)
      ensures e.Some? ==>
        e.value == Entry(pair, Counted(View(), pair, p), Midway(View(), pair, Counted(View(), pair, p)))
    {
      var local := CheckSideReady(pair, p.local);
      var remote := CheckSideReady(pair, p.remote);
      if local.None? || remote.None? {
        return None;
      }
      PresentUpToIs(View(), pair, p.local, |ranks|);
      PresentUpToIs(View(), pair, p.remote, |ranks|);
      var counted := Elements(local.value) + Elements(remote.value);
      assert counted == Counted(View(), pair, p);
      var midway := set q | q in counted && q < |ranks| && IsWriting(ranks[q], pair);
      assert midway == Midway(View(), pair, counted);
      e := Some(Entry(pair, counted, midway));
    }

    /** One pending pair of the leader. */
    method AppendOne()
      requires Enabled(View(), AppendNext) && forall k :: k in registered ==> k.rank < |ranks|
      modifies this`ranks, this`marked, this`log
      ensures View() == DoAppend(old(View()))
    {
      var s := ranks[0];
      var pair := LeastOf(s.phase.todo);
      if pair !in marked && pair in s.pending {
        var e := CountReady(pair, s.pending[pair]);
        if e.Some? {
          log := log + [e.value];
          marked := marked + {pair};
        }
      }
      ranks := ranks[0 := s.(phase := Appending(s.phase.todo - {pair}))];
    }

    method AppendReadyPairs()
      requires ranks != [] && ranks[0].phase.Appending? && forall k :: k in registered ==> k.rank < |ranks|
      modifies this`ranks, this`marked, this`log
      ensures View() == Appended(old(View()))
    {
      while ranks[0].phase.todo != {}
        invariant ranks != [] && ranks[0].phase.Appending? && forall k :: k in registered ==> k.rank < |ranks|
        invariant Appended(View()) == Appended(old(View()))
        decreases |ranks[0].phase.todo|
      {
        AppendOne();
      }
    }

    /** One log entry; both sides are read again, and what is found is what the pair is known by. */
    method ConsumeOne(r: nat, ok: bool)
      requires CanConsume(View(), r) && forall k :: k in registered ==> k.rank < |ranks|
      modifies this
      ensures View() == DoConsume(old(View()), r, old(MayComplete(View(), r)) && ok)
    {
      var s := ranks[r];
      var pair := log[s.cursor].pair;
      if pair !in s.pending {
        ranks := ranks[r := s.(cursor := s.cursor + 1, seen := s.seen + [pair])];
        return;
      }
      var p := s.pending[pair];
      var here := CheckSideReady(pair, p.local);
      var there := CheckSideReady(pair, p.remote);
      var done := here.Some? && there.Some? && ok;
      var known := Known(0, 0, 0, 0);
      if done {
        PresentUpToIs(View(), pair, p.local, |ranks|);
        PresentUpToIs(View(), pair, p.remote, |ranks|);
        known := Known(p.local, p.remote, |here.value|, |there.value|);
      }
      assert done ==> known == KnownAs(View(), pair, p);
      ranks := ranks[r := ReadNext(s, pair, known, done)];
      WakeAll(p.sems, !done);
    }

    method WakeAll(names: seq<Sem>, failed: bool)
      modifies this`posted, this`errors
      ensures View() == if failed then Fail(old(View()), Elements(names)) else Post(old(View()), Elements(names))
    {
      for i := 0 to |names|
        invariant View() == if failed then Fail(old(View()), Elements(names[..i]))
                  else Post(old(View()), Elements(names[..i]))
      {
        assert Elements(names[..i + 1]) == Elements(names[..i]) + {names[i]};
        if failed {
          errors := errors + {names[i]};
        }
        posted := posted + {names[i]};
      }
      assert names[..|names|] == names;
    }

    method ConsumeCompletionLog(r: nat, ok: nat -> bool)
      requires r < |ranks| && ranks[r].phase == Consuming && ranks[r].cursor <= |log|
      requires forall k :: k in registered ==> k.rank < |ranks|
      modifies this
      ensures View() == Consumed(old(View()), r, ok)
    {
      while ranks[r].cursor < |log|
        invariant r < |ranks| && ranks[r].phase == Consuming && ranks[r].cursor <= |log|
        invariant forall k :: k in registered ==> k.rank < |ranks|
        invariant Consumed(View(), r, ok) == Consumed(old(View()), r, ok)
        decreases |log| - ranks[r].cursor
      {
        ConsumeFacts(View(), r, Outcome(View(), r, ok));
        ConsumeOne(r, ok(ranks[r].cursor));
      }
    }

    method Gather(r: nat)
      requires Enabled(View(), StartPoll(r)) && ranks[r].cursor <= |log| && forall k :: k in registered ==>
        k.rank < |ranks|
      modifies this`ranks, this`marked, this`log
      ensures View() == Gathered(old(View()), r)
    {
      if r != 0 {
        ranks := ranks[r := ranks[r].(phase := Consuming)];
        return;
      }
      ranks := ranks[0 := ranks[0].(phase := Appending(ranks[0].pending.Keys))];
      AppendReadyPairs();
      ranks := ranks[0 := ranks[0].(phase := Consuming)];
    }

    /** Only a rank with a pending pair polls. */
    method PollPendingPairs(r: nat, ok: nat -> bool)
      requires r < |ranks| && ranks[r].phase == Idle && ranks[r].cursor <= |log|
      requires forall k :: k in registered ==> k.rank < |ranks|
      modifies this
      ensures View() == Polled(old(View()), r, ok)
    {
      if ranks[r].pending == map[] {
        return;
      }
      Gather(r);
      ConsumeCompletionLog(r, ok);
      StopPolling(r);
    }

    method StopPolling(r: nat)
      requires Enabled(View(), EndPoll(r))
      modifies this`ranks
      ensures View() == Do(old(View()), EndPoll(r))
    {
      ranks := ranks[r := ranks[r].(phase := Idle)];
    }
  }
}
