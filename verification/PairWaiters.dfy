/**
 InitPair callers (src/etha/tensor_bus/agent.py): every one is parked or woken, without an error only
 once its pair is matched.
*/
module PairWaiters {
  import opened Base
  import opened PairLog

  ghost predicate ParkedAt(w: World, x: Sem, k: Key) {
    && k.rank < |w.ranks|
    && var s := w.ranks[k.rank];
       || (k.pair in s.pending && x in s.pending[k.pair].sems)
       || (s.phase.Writing? && s.phase.msg.pair == k.pair && s.phase.msg.sem == Some(x))
  }

  /** Who a parked semaphore belongs to. */
  ghost predicate OwnersOk(w: World, r: nat)
    requires r < |w.ranks|
  {
    var s := w.ranks[r];
    && (forall p, x :: p in s.pending && x in s.pending[p].sems ==>
        x in w.issued && w.issued[x].pair == p && w.issued[x].rank == r)
    && (s.phase.Writing? && s.phase.msg.sem.Some? ==>
          s.phase.msg.sem.value in w.issued && w.issued[s.phase.msg.sem.value].pair == s.phase.msg.pair &&
          w.issued[s.phase.msg.sem.value].rank == r)
  }

  ghost predicate CallerOk(w: World, x: Sem)
    requires x in w.issued
  {
    var k := w.issued[x];
    && (x in w.posted || ParkedAt(w, x, k))
    && (x in w.posted && x !in w.errors ==> k.rank < |w.ranks| && k.pair in w.ranks[k.rank].matched)
  }

  ghost predicate CallersInv(w: World) {
    && (forall x :: x in w.posted ==> x in w.issued)
    && (forall x :: x in w.issued ==> CallerOk(w, x))
    && (forall r :: 0 <= r < |w.ranks| ==> OwnersOk(w, r))
  }

  /** A fresh semaphore changes no other owner. */
  lemma IssueOwners(w: World, r: nat, m: Init, q: nat)
    requires q < |w.ranks| && OwnersOk(w, q) && (m.sem.Some? ==> m.sem.value !in w.issued)
    ensures OwnersOk(Issue(w, r, m), q)
  {
  }

  lemma IssueCaller(w: World, r: nat, m: Init, x: Sem)
    requires x in w.issued && CallerOk(w, x) && (m.sem.Some? ==> m.sem.value !in w.issued)
    ensures x in Issue(w, r, m).issued && CallerOk(Issue(w, r, m), x)
  {
  }

  lemma SettledAtOnce(w: World, sems: set<Sem>, ok: bool)
    requires forall x :: x in w.posted ==> x in w.issued
    requires forall x :: x in sems ==> x in w.issued
    requires forall x :: x in w.issued && x !in sems ==> CallerOk(w, x)
    requires forall r :: 0 <= r < |w.ranks| ==> OwnersOk(w, r)
    requires ok ==> forall x :: x in sems ==>
      w.issued[x].rank < |w.ranks| && w.issued[x].pair in w.ranks[w.issued[x].rank].matched
    ensures CallersInv(if ok then Post(w, sems) else Fail(w, sems))
  {
    var w' := if ok then Post(w, sems) else Fail(w, sems);
    forall x | x in w'.issued ensures CallerOk(w', x) {
      if x !in sems {
        assert CallerOk(w, x);
      }
    }
    forall r | 0 <= r < |w'.ranks| ensures OwnersOk(w', r) {
      assert OwnersOk(w, r);
    }
  }

  lemma StartsWriting(w: World, r: nat, m: Init, w': World)
    requires r < |w.ranks| && w.ranks[r].phase == Idle
    requires w'.ranks == w.ranks[r := w.ranks[r].(phase := Writing(m, Registered))]
    requires w'.issued == w.issued && w'.posted == w.posted && w'.errors == w.errors
    requires forall x :: x in w.posted ==> x in w.issued
    requires forall x :: x in OptSet(m.sem) ==>
      x in w.issued && x !in w.posted && w.issued[x] == Key(m.pair, m.local, r)
    requires forall x :: x in w.issued && x !in OptSet(m.sem) ==> CallerOk(w, x)
    requires forall q :: 0 <= q < |w.ranks| ==> OwnersOk(w, q)
    ensures CallersInv(w')
  {
    forall x | x in w'.issued ensures CallerOk(w', x) {
      if x !in OptSet(m.sem) {
        assert CallerOk(w, x);
      }
    }
    forall q | 0 <= q < |w'.ranks| ensures OwnersOk(w', q) {
      assert OwnersOk(w, q);
    }
  }

  lemma BeginCallers(w: World, r: nat, m: Init)
    requires CallersInv(w) && Enabled(w, Begin(r, m))
    ensures CallersInv(DoBegin(w, r, m))
  {
    var w1, w' := Issue(w, r, m), DoBegin(w, r, m);
    forall q | 0 <= q < |w.ranks| ensures OwnersOk(w1, q) {
      IssueOwners(w, r, m, q);
    }
    forall x | x in w1.issued && x !in OptSet(m.sem) ensures CallerOk(w1, x) {
      IssueCaller(w, r, m, x);
    }
    BeginIs(w, r, m);
    if m.pair in w.ranks[r].matched || RefusedEarly(w.ranks[r], m) {
      SettledAtOnce(w1, OptSet(m.sem), w' == Post(w1, OptSet(m.sem)) && m.pair in w.ranks[r].matched);
    } else {
      StartsWriting(w1, r, m, w');
    }
  }

  /** The rejected caller is woken at once. */
  lemma RejectedCallers(w: World, r: nat, w': World)
    requires CallersInv(w) && r < |w.ranks| && w.ranks[r].phase.Writing?
    requires w'.ranks == w.ranks[r := w.ranks[r].(phase := Idle)] && w'.issued == w.issued
    requires w'.posted == w.posted + OptSet(w.ranks[r].phase.msg.sem)
    requires w'.errors == w.errors + OptSet(w.ranks[r].phase.msg.sem)
    ensures CallersInv(w')
  {
    assert OwnersOk(w, r);
    forall q | 0 <= q < |w'.ranks| ensures OwnersOk(w', q) {
      assert OwnersOk(w, q);
    }
    forall x | x in w'.issued ensures CallerOk(w', x) {
      assert CallerOk(w, x);
    }
  }

  lemma AttachedOwners(w: World, r: nat, m: Init, q: nat, w': World)
    requires r < |w.ranks| && q < |w.ranks| && w.ranks[r].phase == Writing(m, Published) && OwnersOk(w, q)
    requires OwnersOk(w, r)
    requires w'.ranks == w.ranks[r := Attach(w.ranks[r], m)] && w'.issued == w.issued
    ensures OwnersOk(w', q)
  {
    if q == r {
      var s, s' := w.ranks[r], Attach(w.ranks[r], m);
      forall p, x | p in s'.pending && x in s'.pending[p].sems
        ensures x in w.issued && w.issued[x].pair == p && w.issued[x].rank == r
      {
        assert (p in s.pending && x in s.pending[p].sems) || (p == m.pair && m.sem == Some(x));
      }
    }
  }

  lemma AttachedCaller(w: World, r: nat, m: Init, x: Sem, w': World)
    requires r < |w.ranks| && w.ranks[r].phase == Writing(m, Published) && x in w.issued && CallerOk(w, x)
    requires w'.ranks == w.ranks[r := Attach(w.ranks[r], m)] && w'.issued == w.issued && w'.posted == w.posted
    requires w'.errors == w.errors
    ensures CallerOk(w', x)
  {
    var s, s' := w.ranks[r], Attach(w.ranks[r], m);
    assert s'.matched == s.matched;
    assert forall p :: p in s.pending ==> p in s'.pending && s.pending[p].sems <= s'.pending[p].sems;
    if m.sem.Some? {
      assert m.sem.value in s'.pending[m.pair].sems;
    }
  }

  lemma FinishCallers(w: World, r: nat)
    requires CallersInv(w) && Enabled(w, Finish(r))
    ensures CallersInv(DoFinish(w, r))
  {
    var w' := DoFinish(w, r);
    var m := w.ranks[r].phase.msg;
    FinishFrame(w, r);
    assert w'.ranks == w.ranks[r := Attach(w.ranks[r], m)];
    forall q | 0 <= q < |w'.ranks| ensures OwnersOk(w', q) {
      assert OwnersOk(w, q) && OwnersOk(w, r);
      AttachedOwners(w, r, m, q, w');
    }
    forall x | x in w'.issued ensures CallerOk(w', x) {
      assert CallerOk(w, x);
      AttachedCaller(w, r, m, x, w');
    }
  }

  lemma CheckCallers(w: World, r: nat)
    requires CallersInv(w) && Enabled(w, Check(r))
    ensures CallersInv(DoCheck(w, r))
  {
    var w' := DoCheck(w, r);
    var m := w.ranks[r].phase.msg;
    if Side(m.pair, m.local) in w.expected && w.expected[Side(m.pair, m.local)] != m.size {
      RejectedCallers(w, r, w');
    } else {
      SameWaiters(w, r, w');
    }
  }

  /** Reading an entry takes semaphores out of the queues, wakes those, and puts none in. */
  lemma ReadQueues(s: RankState, pair: nat, known: Known, ok: bool)
    ensures var s' := ReadNext(s, pair, known, ok);
            && s'.phase == s.phase && s.matched <= s'.matched && (ok && pair in s.pending ==> pair in s'.matched)
            && (forall p :: p in s'.pending ==> p in s.pending && s'.pending[p].sems <= s.pending[p].sems)
            && (forall p, x :: p in s.pending && x in s.pending[p].sems ==>
                  (p in s'.pending && x in s'.pending[p].sems) || (p == pair && x in Woken(s, pair)))
  {
  }

  lemma ConsumeCallers(w: World, r: nat, ok: bool)
    requires CallersInv(w) && CanConsume(w, r)
    ensures CallersInv(DoConsume(w, r, ok))
  {
    var w' := DoConsume(w, r, ok);
    var known := ConsumeFrame(w, r, ok);
    ReadQueues(w.ranks[r], w.log[w.ranks[r].cursor].pair, known, ok);
    assert OwnersOk(w, r);
    QueuesRead(w, r, w.log[w.ranks[r].cursor].pair, ok, w');
  }

  lemma QueuesRead(w: World, r: nat, pair: nat, ok: bool, w': World)
    requires CallersInv(w) && r < |w.ranks| && |w'.ranks| == |w.ranks| && w'.issued == w.issued
    requires forall q :: 0 <= q < |w.ranks| && q != r ==> w'.ranks[q] == w.ranks[q]
    requires w'.posted == w.posted + Woken(w.ranks[r], pair)
    requires w'.errors == if ok then w.errors else w.errors + Woken(w.ranks[r], pair)
    requires var s, s' := w.ranks[r], w'.ranks[r];
             && s'.phase == s.phase && s.matched <= s'.matched && (ok && pair in s.pending ==> pair in s'.matched)
             && (forall p :: p in s'.pending ==> p in s.pending && s'.pending[p].sems <= s.pending[p].sems)
             && (forall p, x :: p in s.pending && x in s.pending[p].sems ==>
                   (p in s'.pending && x in s'.pending[p].sems) || (p == pair && x in Woken(s, pair)))
    ensures CallersInv(w')
  {
    assert OwnersOk(w, r);
    forall q | 0 <= q < |w'.ranks| ensures OwnersOk(w', q) {
      assert OwnersOk(w, q);
    }
    forall x | x in w'.issued ensures CallerOk(w', x) {
      assert CallerOk(w, x);
    }
  }

  /** Changing only what one rank is doing, not for whom, leaves every caller where it was. */
  lemma SameWaiters(w: World, r: nat, w': World)
    requires CallersInv(w) && r < |w.ranks| && w'.issued == w.issued && w'.posted == w.posted && w'.errors == w.errors
    requires |w'.ranks| == |w.ranks| && forall q :: 0 <= q < |w.ranks| && q != r ==> w'.ranks[q] == w.ranks[q]
    requires var s, s' := w.ranks[r], w'.ranks[r];
             && s' == s.(phase := s'.phase) && (s.phase.Writing? <==> s'.phase.Writing?)
             && (s.phase.Writing? ==> s'.phase.msg == s.phase.msg)
    ensures CallersInv(w')
  {
    forall q | 0 <= q < |w'.ranks| ensures OwnersOk(w', q) {
      assert OwnersOk(w, q);
    }
    forall x | x in w'.issued ensures CallerOk(w', x) {
      assert CallerOk(w, x);
    }
  }

  lemma PollCallers(w: World, a: Action)
    requires CallersInv(w) && Enabled(w, a) && MovesPhase(a) && !a.Check?
    ensures CallersInv(Do(w, a))
  {
    PhaseFrame(w, a);
    SameWaiters(w, Actor(a), Do(w, a));
  }

  lemma CallersStep(w: World, a: Action)
    requires CallersInv(w) && Enabled(w, a)
    ensures CallersInv(Do(w, a))
  {
    match a
    case Begin(r, m) => BeginCallers(w, r, m);
    case Check(r) => CheckCallers(w, r);
    case Finish(r) => FinishCallers(w, r);
    case AppendNext =>
      AppendFrame(w);
      SameWaiters(w, 0, Do(w, a));
    case Consume(r, ok) => ConsumeCallers(w, r, ok);
    case _ => PollCallers(w, a);
  }

  /**
   After every run each InitPair caller is parked on its rank or has been woken, and a wake-up
   without an error means its pair is matched there.
   */
  lemma {:induction false} NoCallerIsLost(n: nat, acts: seq<Action>)
    requires After(n, acts).Some?
    ensures CallersInv(After(n, acts).value)
  {
    if acts != [] {
      var init := acts[..|acts| - 1];
      NoCallerIsLost(n, init);
      CallersStep(After(n, init).value, acts[|acts| - 1]);
    }
  }
}
