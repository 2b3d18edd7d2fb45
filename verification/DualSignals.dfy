/**
 Waiters, signals and generations of a dual-endpoint batch (src/etha/tensor_bus/agent.py): exactly
 which commands lose a waiter, leave the completion key behind or let it overtake the request key,
 and what stale commands and queries can and cannot do.
*/
module DualSignals {
  import opened Base
  import opened DualBatch
  import opened DualRounds

  // ------------------------------------------------------------------------------------------
  // No lost waiter

  function ParkedAll(s: State): set<Sem> {
    if s.batch.Some? then ParkedSems(s.batch.value) else {}
  }

  /** Clients whose semaphore is neither posted nor parked anywhere: they wait forever. */
  function Lost(s: State): set<Sem> {
    s.issued.Keys - s.posted - ParkedAll(s)
  }

  /** The command makes the agent drop the live batch through the abort path. */
  predicate Aborts(s: State, m: Command) {
    m.Register? && s.batch.Some? &&
    if Refused(s, m) then s.batch.value.waiting != []
    else LayoutChanged(s, m) || m.generated.None?
  }

  /** The waiters an abort forgets: those parked on direction-rounds. */
  function Forgotten(s: State, m: Command): set<Sem> {
    if Aborts(s, m) then RoundSems(s.batch.value) else {}
  }

  lemma RoundSemsSplit(b: Batch, r: int)
    ensures RoundSems(b) == RoundSems(Without(b, r)) + Elements(Entry(b, r).sems)
  {
    var rest, here := RoundSems(Without(b, r)), Elements(Entry(b, r).sems);
    forall x | x in RoundSems(b) ensures x in rest + here {
      var k :| k in b.parked && x in b.parked[k].sems;
      if k != r {
        assert k in Without(b, r).parked;
      }
    }
    forall x | x in rest + here ensures x in RoundSems(b) {
      if x in rest {
        var k :| k in Without(b, r).parked && x in Without(b, r).parked[k].sems;
        assert k in b.parked && x in b.parked[k].sems;
      } else {
        assert r in b.parked && x in b.parked[r].sems;
      }
    }
  }

  lemma ParkedSplit(b: Batch, r: int)
    ensures ParkedSems(b) == ParkedSems(Without(b, r)) + Elements(Entry(b, r).sems)
  {
    RoundSemsSplit(b, r);
  }

  lemma JoinedSems(b: Batch, m: Command)
    requires m.Transfer? && m.role.Some?
    ensures Elements(Joined(b, m).sems) == Elements(Entry(b, m.round).sems) + OptSet(m.sem)
  {
  }

  lemma ParkLoses(s: State, b: Batch, m: Command)
    requires s.batch == Some(b) && m.Transfer? && m.role.Some?
    ensures Lost(Park(s, b, m)) == Lost(s) - OptSet(m.sem)
  {
    var b' := Park(s, b, m).batch.value;
    JoinedSems(b, m);
    ParkedSplit(b, m.round);
    ParkedSplit(b', m.round);
    assert Without(b', m.round) == Without(b, m.round);
  }

  lemma AcknowledgeLoses(s: State, b: Batch, r: int)
    requires s.batch == Some(b)
    ensures Lost(Acknowledge(s, b, r)) == Lost(s)
  {
    ParkedSplit(b, r);
    if r in b.parked {
      var s' := Acknowledge(s, b, r);
      assert ParkedAll(s') == ParkedSems(Without(b, r));
      assert Entry(b, r) == b.parked[r];
    }
  }

  lemma ExecuteLoses(s: State, b: Batch, d: Direction, m: Command)
    requires s.batch == Some(b) && m.Transfer? && m.role.Some?
    ensures Lost(ExecuteRound(s, b, d, m)) == Lost(s) - OptSet(m.sem)
  {
    ParkedSplit(b, m.round);
    JoinedSems(b, m);
    var s' := ExecuteRound(s, b, d, m);
    assert ParkedAll(s') == ParkedSems(Without(b, m.round));
  }

  lemma FailRoundLoses(s: State, b: Batch, d: Direction, m: Command)
    requires s.batch == Some(b) && m.Transfer? && m.role.Some?
    ensures Lost(FailRound(s, b, d, m)) == Lost(s) - OptSet(m.sem)
  {
    ParkedSplit(b, m.round);
    JoinedSems(b, m);
    var s' := FailRound(s, b, d, m);
    assert ParkedAll(s') == ParkedSems(Without(b, m.round));
  }

  lemma AdmitLoses(s: State, b: Batch, d: Direction, m: Command)
    requires s.batch == Some(b) && m.Transfer? && m.role.Some?
    ensures Lost(Admit(s, b, d, m)) == Lost(s) - OptSet(m.sem)
  {
    var s1 := Log(Publish(s, b, d, m.round), Accepted(b.generation, m.role.value, m.kind, m.round));
    assert Lost(s1) == Lost(s);
    if |Joined(b, m).roles| < 2 {
      ParkLoses(s1, b, m);
    } else if CanExecute(b, d, m) {
      ExecuteLoses(s1, b, d, m);
    } else {
      FailRoundLoses(s1, b, d, m);
    }
  }

  lemma PinLoses(s: State, b: Batch, d: Direction)
    requires s.batch == Some(b)
    ensures Lost(Pin(s, b, d)) == Lost(s) && Pin(s, b, d).batch.Some?
  {
    assert ParkedSems(b.(direction := Some(Pinned(s, b, d)))) == ParkedSems(b);
  }

  lemma PostLoses(s: State, sems: set<Sem>)
    ensures Lost(Post(s, sems)) == Lost(s) - sems && Lost(Fail(s, sems)) == Lost(s) - sems
  {
  }

  lemma TransferLoses(s: State, m: Command)
    requires m.Transfer?
    ensures Lost(TransferStep(s, m)) == Lost(s) - OptSet(m.sem)
  {
    if BadTransfer(s, m) {
      PostLoses(s, OptSet(m.sem));
    } else {
      var b0, d := s.batch.value, DirectionOf(m.role.value, m.kind);
      PinLoses(s, b0, d);
      var s1 := Pin(s, b0, d);
      var b := s1.batch.value;
      if Pinned(s, b0, d) != d {
        PostLoses(s1, OptSet(m.sem));
      } else if m.round <= b.done {
        AcknowledgeLoses(s1, b, m.round);
        PostLoses(Acknowledge(s1, b, m.round), OptSet(m.sem));
      } else {
        AdmitLoses(s1, b, d, m);
      }
    }
  }

  lemma AbortLoses(s: State)
    requires Inv(s) && s.batch.Some?
    ensures Lost(Abort(s)) == Lost(s) + RoundSems(s.batch.value)
  {
    var b := s.batch.value;
    forall x | x in RoundSems(b) ensures x in s.issued && x !in s.posted && x !in b.waiting {
      var r :| r in b.parked && x in b.parked[r].sems;
      assert s.issued[x] == ForTransfer(b.generation, r);
    }
  }

  lemma CompletionLoses(s: State, b: Batch, buckets: map<Direction, bool>, sems: set<Sem>)
    requires s.batch == Some(b)
    ensures Lost(Post(Registered(s, b, buckets), Elements(b.waiting) + sems)) == Lost(s) - sems
  {
    assert RoundSems(Registered(s, b, buckets).batch.value) == RoundSems(b);
    assert ParkedSems(Registered(s, b, buckets).batch.value) == RoundSems(b);
  }

  /** A registration while the batch is live, in closed form. */
  lemma LiveRegisterIs(s: State, m: Command)
    requires Inv(s) && m.Register? && s.batch.Some?
    ensures RegisterStep(s, m) ==
            if Aborts(s, m) then Fail(Abort(s), OptSet(m.sem))
            else if Refused(s, m) then Fail(s, OptSet(m.sem))
            else Post(Registered(s, s.batch.value, m.generated.value), Elements(s.batch.value.waiting) + OptSet(m.sem))
  {
    var b := s.batch.value;
    if !Refused(s, m) && !LayoutChanged(s, m) {
      assert m.signature.pairs * b.signature.pairs == m.signature.pairs;
      SecondRoleIs(s, b, m);
    }
  }

  /** The first registration of a generation, in closed form. */
  lemma FirstRegisterIs(s: State, m: Command)
    requires m.Register? && s.batch.None?
    ensures RegisterStep(s, m) ==
            if Refused(s, m) then Fail(s, OptSet(m.sem))
            else if LayoutChanged(s, m) then Fail(s.(lastGeneration := s.lastGeneration + 1), OptSet(m.sem))
            else s.(lastGeneration := s.lastGeneration + 1,
                    batch := Some(Batch(s.lastGeneration + 1, m.signature, {m.role.value}, OptSeq(m.sem), map[],
                                        None, -1, map[])))
  {
    if !Refused(s, m) {
      assert {} + {m.role.value} == {m.role.value};
      assert |{m.role.value}| == 1;
      assert [] + OptSeq(m.sem) == OptSeq(m.sem);
    }
  }

  lemma AbortedLoses(s: State, sems: set<Sem>)
    requires Inv(s) && s.batch.Some? && Free(s, sems)
    ensures Lost(Fail(Abort(s), sems)) == Lost(s) - sems + RoundSems(s.batch.value)
  {
    AbortLoses(s);
    PostLoses(Abort(s), sems);
    assert RoundSems(s.batch.value) !! sems;
  }

  /** The three outcomes of a registration while the batch is live. */
  lemma LiveOutcomeLoses(s: State, b: Batch, m: Command, s': State)
    requires Inv(s) && m.Register? && s.batch == Some(b) && Free(s, OptSet(m.sem))
    requires s' == if Aborts(s, m) then Fail(Abort(s), OptSet(m.sem))
                   else if Refused(s, m) then Fail(s, OptSet(m.sem))
                   else Post(Registered(s, b, m.generated.value), Elements(b.waiting) + OptSet(m.sem))
    ensures Lost(s') == Lost(s) - OptSet(m.sem) + Forgotten(s, m)
  {
    if Aborts(s, m) {
      AbortedLoses(s, OptSet(m.sem));
    } else if Refused(s, m) {
      PostLoses(s, OptSet(m.sem));
    } else {
      CompletionLoses(s, b, m.generated.value, OptSet(m.sem));
    }
  }

  lemma LiveRegisterLoses(s: State, m: Command)
    requires Inv(s) && m.Register? && s.batch.Some? && Free(s, OptSet(m.sem))
    ensures Lost(RegisterStep(s, m)) == Lost(s) - OptSet(m.sem) + Forgotten(s, m)
  {
    LiveRegisterIs(s, m);
    LiveOutcomeLoses(s, s.batch.value, m, RegisterStep(s, m));
  }

  lemma OpenedLoses(s: State, b: Batch)
    requires s.batch.None? && b.parked == map[]
    ensures Lost(s.(lastGeneration := s.lastGeneration + 1, batch := Some(b))) == Lost(s) - Elements(b.waiting)
    ensures Lost(s.(lastGeneration := s.lastGeneration + 1)) == Lost(s)
  {
    assert RoundSems(b) == {};
  }

  lemma FirstRegisterLoses(s: State, m: Command)
    requires m.Register? && s.batch.None?
    ensures Lost(RegisterStep(s, m)) == Lost(s) - OptSet(m.sem)
  {
    FirstRegisterIs(s, m);
    var role := if m.role.Some? then {m.role.value} else {};
    var b := Batch(s.lastGeneration + 1, m.signature, role, OptSeq(m.sem), map[], None, -1, map[]);
    OpenedLoses(s, b);
    assert Elements(OptSeq(m.sem)) == OptSet(m.sem);
    PostLoses(s, OptSet(m.sem));
    PostLoses(s.(lastGeneration := s.lastGeneration + 1), OptSet(m.sem));
  }

  lemma CleanupLoses(s: State, m: Command)
    requires m.Cleanup?
    ensures Lost(CleanupStep(s, m)) == Lost(s) - OptSet(m.sem)
  {
  }

  lemma QueryLoses(s: State, m: Command)
    requires m.Query?
    ensures Lost(QueryStep(s, m)) == Lost(s) - OptSet(m.sem)
  {
    var s1 := Recorded(s, m);
    assert Lost(s1) == Lost(s);
    PostLoses(s1, OptSet(m.sem));
  }

  lemma HandledLoses(s: State, m: Command)
    requires Inv(s) && Free(s, OptSet(m.sem))
    ensures Lost(Handled(s, m)) == Lost(s) - OptSet(m.sem) + Forgotten(s, m)
  {
    match m
    case Register(_, _, _, _, _, _, _, _, _) =>
      if s.batch.Some? {
        LiveRegisterLoses(s, m);
      } else {
        FirstRegisterLoses(s, m);
      }
    case Transfer(_, _, _, _, _, _) => TransferLoses(s, m);
    case Cleanup(_, _) => CleanupLoses(s, m);
    case Query(_, _, _) => QueryLoses(s, m);
  }

  lemma IssueLoses(s: State, m: Command)
    requires Inv(s) && Fresh(s, m)
    ensures var s1 := Issue(s, m.sem, PurposeOf(s, m)); Lost(s1) == Lost(s) + OptSet(m.sem) && Lost(s) !! OptSet(m.sem)
  {
    IssueKeeps(s, m);
    var s1 := Issue(s, m.sem, PurposeOf(s, m));
    assert ParkedAll(s1) == ParkedAll(s);
  }

  /** Exactly which waiters a command loses: none, unless it aborts a batch with parked transfers. */
  lemma StepLoses(s: State, m: Command)
    requires Inv(s) && Fresh(s, m)
    ensures Lost(Step(s, m)) == Lost(s) + Forgotten(s, m)
  {
    IssueKeeps(s, m);
    IssueLoses(s, m);
    var s1 := Issue(s, m.sem, PurposeOf(s, m));
    assert Forgotten(s1, m) == Forgotten(s, m);
    HandledLoses(s1, m);
  }

  /** No command of the run aborted a batch with transfers parked. */
  ghost predicate NeverDrops(cmds: seq<Command>) {
    cmds == [] ||
    (NeverDrops(cmds[..|cmds| - 1]) && Forgotten(After(cmds[..|cmds| - 1]), cmds[|cmds| - 1]) == {})
  }

  /**
   Every accepted command's semaphore is posted or parked after a run, if and only if the run never
   aborted a batch that had transfers parked.
   */
  lemma {:induction false} WaitersConserved(cmds: seq<Command>)
    requires IsRun(cmds)
    ensures Lost(After(cmds)) == {} <==> NeverDrops(cmds)
  {
    if cmds != [] {
      var init := cmds[..|cmds| - 1];
      WaitersConserved(init);
      RunKeepsInv(init);
      StepLoses(After(init), cmds[|cmds| - 1]);
    }
  }

  // ------------------------------------------------------------------------------------------
  // The completion key

  function LastDone(s: State): int {
    if s.batch.Some? then s.batch.value.done else -1
  }

  /** The completion key is the live generation's last executed round, or -1. */
  ghost predicate SignalSound(s: State) {
    s.signal == LastDone(s)
  }

  /** An abort of a batch that has executed a round: the key is left behind. */
  predicate LeavesSignal(s: State, m: Command) {
    Aborts(s, m) && s.batch.value.done >= 0
  }

  /** Signal and last executed round move together. */
  ghost predicate MoveTogether(s: State, s': State) {
    (s'.signal == s.signal && LastDone(s') == LastDone(s)) || s'.signal == LastDone(s')
  }

  lemma AdmitSignal(s: State, b: Batch, d: Direction, m: Command)
    requires s.batch == Some(b) && m.Transfer? && m.role.Some?
    ensures MoveTogether(s, Admit(s, b, d, m))
  {
  }

  lemma TransferSignal(s: State, m: Command)
    requires m.Transfer?
    ensures MoveTogether(s, TransferStep(s, m))
  {
    if !BadTransfer(s, m) {
      var b0, d := s.batch.value, DirectionOf(m.role.value, m.kind);
      PinSignal(s, b0, d);
      var s1 := Pin(s, b0, d);
      var b := s1.batch.value;
      if Pinned(s, b0, d) != d {
      } else if m.round <= b.done {
        AcknowledgeSignal(s1, b, m.round);
      } else {
        AdmitSignal(s1, b, d, m);
      }
    }
  }

  lemma PinSignal(s: State, b: Batch, d: Direction)
    requires s.batch == Some(b)
    ensures Pin(s, b, d).batch.Some? && Pin(s, b, d).signal == s.signal && LastDone(Pin(s, b, d)) == LastDone(s)
  {
  }

  lemma AcknowledgeSignal(s: State, b: Batch, r: int)
    requires s.batch == Some(b)
    ensures Acknowledge(s, b, r).signal == s.signal && LastDone(Acknowledge(s, b, r)) == LastDone(s)
  {
  }

  lemma AbortedSignal(s: State, sems: set<Sem>)
    requires s.batch.Some?
    ensures var s' := Fail(Abort(s), sems); s'.signal == s.signal && s'.batch.None?
  {
  }

  lemma CompletedSignal(s: State, b: Batch, buckets: map<Direction, bool>, sems: set<Sem>)
    requires s.batch == Some(b)
    ensures var s' := Post(Registered(s, b, buckets), sems); s'.signal == s.signal && LastDone(s') == b.done
  {
  }

  lemma FailedSignal(s: State, sems: set<Sem>)
    ensures Fail(s, sems).signal == s.signal && Fail(s, sems).batch == s.batch
  {
  }

  lemma RegisterSignal(s: State, m: Command)
    requires Inv(s) && m.Register?
    ensures RegisterStep(s, m).signal == s.signal
    ensures LastDone(RegisterStep(s, m)) == if Aborts(s, m) then -1 else LastDone(s)
  {
    if s.batch.Some? {
      LiveRegisterIs(s, m);
      if Aborts(s, m) {
        AbortedSignal(s, OptSet(m.sem));
      } else if Refused(s, m) {
        FailedSignal(s, OptSet(m.sem));
      } else {
        CompletedSignal(s, s.batch.value, m.generated.value, Elements(s.batch.value.waiting) + OptSet(m.sem));
      }
    } else {
      FirstRegisterIs(s, m);
    }
  }

  lemma CleanupSignal(s: State, m: Command)
    requires SignalSound(s) && (m.Cleanup? || m.Query?)
    ensures SignalSound(Handled(s, m))
  {
  }

  lemma HandledSignal(s: State, m: Command)
    requires Inv(s) && SignalSound(s)
    ensures SignalSound(Handled(s, m)) <==> !LeavesSignal(s, m)
  {
    if m.Register? {
      RegisterSignal(s, m);
    } else if m.Transfer? {
      TransferSignal(s, m);
    } else {
      CleanupSignal(s, m);
    }
  }

  /** Every command keeps the completion key right, except an abort after a round was executed. */
  lemma SignalKeptIff(s: State, m: Command)
    requires Inv(s) && Fresh(s, m) && SignalSound(s)
    ensures SignalSound(Step(s, m)) <==> !LeavesSignal(s, m)
  {
    IssueKeeps(s, m);
    var s1 := Issue(s, m.sem, PurposeOf(s, m));
    assert LastDone(s1) == LastDone(s) && Aborts(s1, m) == Aborts(s, m);
    HandledSignal(s1, m);
  }

  /** And such an abort can only be a registration whose layout differs from the live one. */
  lemma LeavesSignalIff(s: State, m: Command)
    requires Inv(s) && s.batch.Some? && s.batch.value.done >= 0
    ensures LeavesSignal(s, m) <==> m.Register? && !Refused(s, m) && LayoutChanged(s, m)
  {
    var b := s.batch.value;
    assert Both(b.roles);
    assert m.Register? && b.signature == m.signature ==> m.signature.pairs * b.signature.pairs == m.signature.pairs;
  }

  ghost predicate NeverLeavesSignal(cmds: seq<Command>) {
    cmds == [] ||
    (NeverLeavesSignal(cmds[..|cmds| - 1]) && !LeavesSignal(After(cmds[..|cmds| - 1]), cmds[|cmds| - 1]))
  }

  lemma {:induction false} RunKeepsSignal(cmds: seq<Command>)
    requires IsRun(cmds) && NeverLeavesSignal(cmds)
    ensures SignalSound(After(cmds))
  {
    if cmds != [] {
      var init := cmds[..|cmds| - 1];
      RunKeepsSignal(init);
      RunKeepsInv(init);
      SignalKeptIff(After(init), cmds[|cmds| - 1]);
    }
  }

  // ------------------------------------------------------------------------------------------
  // The request key

  /** The request key covers the last executed round and every round that is parked. */
  ghost predicate OrderOk(s: State) {
    && (forall d :: d in s.requests ==> s.requests[d] >= -1)
    && (s.batch.Some? && s.batch.value.direction.Some? ==>
          var b := s.batch.value;
          && b.done <= RequestOf(s, b.direction.value)
          && forall r :: r in b.parked ==> r <= RequestOf(s, b.direction.value))
  }

  /** The transfer that completes a round's two roles is rejected (no buckets, Partial target, mixed rounds). */
  predicate Rejects(s: State, m: Command) {
    m.Transfer? && !BadTransfer(s, m) &&
    var b, d := s.batch.value, DirectionOf(m.role.value, m.kind);
    b.direction == Some(d) && m.round > b.done && |Joined(b, m).roles| >= 2 && !CanExecute(b, d, m)
  }

  /** The rejection happens while a later round is parked. */
  predicate RollsBackRequest(s: State, m: Command) {
    Rejects(s, m) && exists r :: r in s.batch.value.parked && r != m.round && r > s.batch.value.done
  }

  /** A published request covers the round it is published for. */
  lemma PublishOrder(s: State, b: Batch, d: Direction, round: int)
    requires OrderOk(s) && s.batch == Some(b) && b.direction == Some(d)
    requires round in b.parked ==> b.parked[round].roles != {}
    ensures var s1 := Publish(s, b, d, round);
            OrderOk(s1) && round <= RequestOf(s1, d) && s1.batch == s.batch && s1.trace == s.trace
  {
  }

  /** Anything at or below the request may be parked, or run. */
  lemma AcceptOrder(s: State, b: Batch, d: Direction, m: Command)
    requires OrderOk(s) && s.batch == Some(b) && b.direction == Some(d) && m.Transfer? && m.role.Some?
    requires m.round <= RequestOf(s, d)
    ensures OrderOk(Park(s, b, m)) && OrderOk(ExecuteRound(s, b, d, m))
  {
    assert RequestOf(Park(s, b, m), d) == RequestOf(s, d);
    assert RequestOf(ExecuteRound(s, b, d, m), d) == RequestOf(s, d);
  }

  lemma AdmitOrder(s: State, b: Batch, d: Direction, m: Command)
    requires Inv(s) && OrderOk(s) && s.batch == Some(b) && b.direction == Some(d) && m.Transfer? && IsPeer(m.role)
    requires m.round >= 0 && m.round > b.done
    ensures |Joined(b, m).roles| < 2 || CanExecute(b, d, m) ==> OrderOk(Admit(s, b, d, m))
  {
    if m.round in b.parked {
      assert EntryOk(s, b, m.round);
    }
    PublishOrder(s, b, d, m.round);
    var s0 := Publish(s, b, d, m.round);
    var s1 := Log(s0, Accepted(b.generation, m.role.value, m.kind, m.round));
    OrderCarries(s0, s1);
    assert RequestOf(s1, d) == RequestOf(s0, d);
    AcceptOrder(s1, b, d, m);
  }

  lemma RejectOrder(s: State, b: Batch, d: Direction, m: Command)
    requires Inv(s) && OrderOk(s) && s.batch == Some(b) && b.direction == Some(d) && m.Transfer? && IsPeer(m.role)
    requires m.round >= 0 && m.round > b.done && |Joined(b, m).roles| >= 2 && !CanExecute(b, d, m)
    ensures OrderOk(Admit(s, b, d, m)) <==> !LaterParked(b, m.round)
  {
    var s' := Admit(s, b, d, m);
    assert RequestOf(s', d) == b.done;
    var b' := b.(parked := b.parked - {m.round});
    assert s'.batch == Some(b');
    if OrderOk(s') {
      forall r | r in b.parked && r != m.round ensures r <= b.done {
        assert r in b'.parked;
      }
    }
  }

  lemma PinOrder(s: State, b: Batch, d: Direction)
    requires Inv(s) && OrderOk(s) && s.batch == Some(b)
    ensures OrderOk(Pin(s, b, d)) && Pin(s, b, d).batch.Some?
  {
  }

  lemma UnpinnedIsEmpty(s: State, b: Batch, d: Direction, m: Command)
    requires Inv(s) && s.batch == Some(b) && b.direction.None? && m.Transfer? && IsPeer(m.role)
    ensures Pin(s, b, d).batch.Some? && |Joined(Pin(s, b, d).batch.value, m).roles| < 2
  {
    assert Joined(Pin(s, b, d).batch.value, m).roles == {m.role.value};
  }

  /** Nothing the order speaks of moves, or the batch loses parked rounds, or goes. */
  lemma OrderCarries(s: State, s': State)
    requires OrderOk(s) && s'.requests == s.requests
    requires s'.batch.Some? && s'.batch.value.direction.Some? ==>
               && s.batch.Some? && s.batch.value.direction == s'.batch.value.direction
               && s'.batch.value.done == s.batch.value.done && s'.batch.value.parked.Keys <= s.batch.value.parked.Keys
    ensures OrderOk(s')
  {
    if s'.batch.Some? && s'.batch.value.direction.Some? {
      var d := s'.batch.value.direction.value;
      assert RequestOf(s', d) == RequestOf(s, d);
      forall r | r in s'.batch.value.parked ensures r <= RequestOf(s', d) {
        assert r in s.batch.value.parked;
      }
    }
  }

  lemma PostOrder(s: State, sems: set<Sem>)
    requires OrderOk(s)
    ensures OrderOk(Post(s, sems)) && OrderOk(Fail(s, sems))
  {
  }

  lemma AcknowledgeOrder(s: State, b: Batch, r: int, sems: set<Sem>)
    requires OrderOk(s) && s.batch == Some(b)
    ensures OrderOk(Post(Acknowledge(s, b, r), sems)) && OrderOk(Fail(s, sems))
  {
    PostOrder(s, sems);
    if r in b.parked {
      var s1 := s.(batch := Some(Without(b, r)));
      OrderCarries(s, s1);
      PostOrder(s1, Elements(b.parked[r].sems));
      PostOrder(Post(s1, Elements(b.parked[r].sems)), sems);
    }
  }

  /** Past the pin, the round decides: acknowledge, admit, or reject. */
  lemma PinnedOrder(s: State, b: Batch, d: Direction, m: Command)
    requires Inv(s) && OrderOk(s) && s.batch == Some(b) && b.direction == Some(d) && m.Transfer? && IsPeer(m.role)
    requires m.round > b.done
    requires m.round >= 0
    ensures OrderOk(Admit(s, b, d, m)) <==>
            !(|Joined(b, m).roles| >= 2 && !CanExecute(b, d, m) && LaterParked(b, m.round))
  {
    if |Joined(b, m).roles| < 2 || CanExecute(b, d, m) {
      AdmitOrder(s, b, d, m);
    } else {
      RejectOrder(s, b, d, m);
    }
  }

  /** A transfer on a pinned batch, in closed form. */
  lemma PinnedTransferIs(s: State, b: Batch, d: Direction, m: Command)
    requires m.Transfer? && !BadTransfer(s, m) && s.batch == Some(b) && b.direction.Some?
    requires d == DirectionOf(m.role.value, m.kind)
    ensures TransferStep(s, m) ==
            if b.direction.value != d then Fail(s, OptSet(m.sem))
            else if m.round <= b.done then Post(Acknowledge(s, b, m.round), OptSet(m.sem))
            else Admit(s, b, d, m)
  {
  }

  ghost predicate LaterParked(b: Batch, round: int) {
    exists r :: r in b.parked && r != round && r > b.done
  }

  lemma RollsBackIs(s: State, b: Batch, d: Direction, m: Command)
    requires m.Transfer? && !BadTransfer(s, m) && s.batch == Some(b) && b.direction.Some?
    requires d == DirectionOf(m.role.value, m.kind)
    ensures RollsBackRequest(s, m) <==>
            b.direction.value == d && m.round > b.done && |Joined(b, m).roles| >= 2 && !CanExecute(b, d, m) &&
              LaterParked(b, m.round)
  {
  }

  lemma PinnedTransferOrder(s: State, b: Batch, m: Command)
    requires Inv(s) && OrderOk(s) && m.Transfer? && !BadTransfer(s, m) && s.batch == Some(b) && b.direction.Some?
    ensures OrderOk(TransferStep(s, m)) <==> !RollsBackRequest(s, m)
  {
    var d := DirectionOf(m.role.value, m.kind);
    PinnedTransferIs(s, b, d, m);
    RollsBackIs(s, b, d, m);
    if b.direction.value != d || m.round <= b.done {
      AcknowledgeOrder(s, b, m.round, OptSet(m.sem));
    } else {
      PinnedOrder(s, b, d, m);
    }
  }

  lemma FirstTransferOrder(s: State, b: Batch, m: Command)
    requires Inv(s) && OrderOk(s) && m.Transfer? && !BadTransfer(s, m) && s.batch == Some(b) && b.direction.None?
    ensures OrderOk(TransferStep(s, m)) && !RollsBackRequest(s, m)
  {
    var d := DirectionOf(m.role.value, m.kind);
    PinKeeps(s, b, d);
    PinOrder(s, b, d);
    var s1 := Pin(s, b, d);
    var b1 := s1.batch.value;
    AcknowledgeOrder(s1, b1, m.round, OptSet(m.sem));
    UnpinnedIsEmpty(s, b, d, m);
    if Pinned(s, b, d) == d && m.round > b1.done {
      PinnedOrder(s1, b1, d, m);
    }
  }

  lemma TransferOrder(s: State, m: Command)
    requires Inv(s) && OrderOk(s) && m.Transfer?
    ensures OrderOk(TransferStep(s, m)) <==> !RollsBackRequest(s, m)
  {
    if !BadTransfer(s, m) {
      if s.batch.value.direction.Some? {
        PinnedTransferOrder(s, s.batch.value, m);
      } else {
        FirstTransferOrder(s, s.batch.value, m);
      }
    }
  }

  lemma LiveOutcomeOrder(s: State, b: Batch, m: Command, s': State)
    requires OrderOk(s) && m.Register? && s.batch == Some(b)
    requires s' == if Aborts(s, m) then Fail(Abort(s), OptSet(m.sem))
                   else if Refused(s, m) then Fail(s, OptSet(m.sem))
                   else Post(Registered(s, b, m.generated.value), Elements(b.waiting) + OptSet(m.sem))
    ensures OrderOk(s')
  {
    OrderCarries(s, s');
  }

  lemma FirstRegisterOrder(s: State, m: Command)
    requires OrderOk(s) && m.Register? && s.batch.None?
    ensures OrderOk(RegisterStep(s, m))
  {
    FirstRegisterIs(s, m);
    OrderCarries(s, RegisterStep(s, m));
  }

  lemma RegisterOrder(s: State, m: Command)
    requires Inv(s) && OrderOk(s) && m.Register?
    ensures OrderOk(RegisterStep(s, m))
  {
    if s.batch.Some? {
      LiveRegisterIs(s, m);
      LiveOutcomeOrder(s, s.batch.value, m, RegisterStep(s, m));
    } else {
      FirstRegisterOrder(s, m);
    }
  }

  lemma CleanupOrder(s: State, m: Command)
    requires OrderOk(s) && m.Cleanup?
    ensures OrderOk(CleanupStep(s, m))
  {
  }

  lemma QueryOrder(s: State, m: Command)
    requires OrderOk(s) && m.Query?
    ensures OrderOk(QueryStep(s, m))
  {
    OrderCarries(s, QueryStep(s, m));
  }

  lemma HandledOrder(s: State, m: Command)
    requires Inv(s) && OrderOk(s)
    ensures OrderOk(Handled(s, m)) <==> !RollsBackRequest(s, m)
  {
    match m
    case Register(_, _, _, _, _, _, _, _, _) => RegisterOrder(s, m);
    case Transfer(_, _, _, _, _, _) => TransferOrder(s, m);
    case Cleanup(_, _) => CleanupOrder(s, m);
    case Query(_, _, _) => QueryOrder(s, m);
  }

  lemma IssueOrder(s: State, m: Command)
    requires OrderOk(s)
    ensures OrderOk(Issue(s, m.sem, PurposeOf(s, m)))
    ensures RollsBackRequest(Issue(s, m.sem, PurposeOf(s, m)), m) == RollsBackRequest(s, m)
  {
  }

  /** Completion stays at or below the request, except across a rejection with a later round parked. */
  lemma OrderKeptIff(s: State, m: Command)
    requires Inv(s) && Fresh(s, m) && OrderOk(s)
    ensures OrderOk(Step(s, m)) <==> !RollsBackRequest(s, m)
  {
    IssueKeeps(s, m);
    IssueOrder(s, m);
    HandledOrder(Issue(s, m.sem, PurposeOf(s, m)), m);
  }

  ghost predicate NeverRollsBack(cmds: seq<Command>) {
    cmds == [] ||
    (NeverRollsBack(cmds[..|cmds| - 1]) && !RollsBackRequest(After(cmds[..|cmds| - 1]), cmds[|cmds| - 1]))
  }

  lemma {:induction false} RunKeepsOrder(cmds: seq<Command>)
    requires IsRun(cmds) && NeverRollsBack(cmds)
    ensures OrderOk(After(cmds))
  {
    if cmds != [] {
      var init := cmds[..|cmds| - 1];
      RunKeepsOrder(init);
      RunKeepsInv(init);
      OrderKeptIff(After(init), cmds[|cmds| - 1]);
    }
  }

  /** Over whole runs: the completion key never passes the request key of the pinned direction. */
  lemma CompletionWithinRequest(cmds: seq<Command>)
    requires IsRun(cmds) && NeverRollsBack(cmds) && NeverLeavesSignal(cmds)
    requires After(cmds).batch.Some? && After(cmds).batch.value.direction.Some?
    ensures After(cmds).signal <= RequestOf(After(cmds), After(cmds).batch.value.direction.value)
  {
    RunKeepsOrder(cmds);
    RunKeepsSignal(cmds);
  }

  // ------------------------------------------------------------------------------------------
  // Generations

  /** Everything but the semaphores is as it was. */
  ghost predicate Undisturbed(s: State, s': State) {
    && s'.batch == s.batch && s'.signal == s.signal && s'.requests == s.requests && s'.pins == s.pins
    && s'.lastGeneration == s.lastGeneration && s'.trace == s.trace
  }

  lemma StaleTransfer(s: State, m: Command)
    requires s.batch.Some? && m.Transfer? && Stale(m.generation, s.batch.value)
    ensures TransferStep(s, m) == Fail(s, OptSet(m.sem))
  {
  }

  lemma StaleOthers(s: State, m: Command)
    requires s.batch.Some? && (m.Cleanup? || m.Query?) && Stale(m.generation, s.batch.value)
    ensures var s' := Handled(s, m);
            Undisturbed(s, s') && s'.posted == s.posted + OptSet(m.sem) && s'.errors == s.errors
  {
  }

  /** A command for another generation changes nothing but its own semaphore. */
  lemma StaleIsHarmless(s: State, m: Command)
    requires s.batch.Some? && !m.Register? && Stale(m.generation, s.batch.value)
    ensures Undisturbed(s, Step(s, m)) && Step(s, m).posted == s.posted + OptSet(m.sem)
    ensures Step(s, m).errors == if m.Transfer? then s.errors + OptSet(m.sem) else s.errors
  {
    var s1 := Issue(s, m.sem, PurposeOf(s, m));
    if m.Transfer? {
      StaleTransfer(s1, m);
    } else {
      StaleOthers(s1, m);
    }
  }

  /** A query sees a round as done only if that generation ran a round at or past it. */
  lemma QueryIsSound(cmds: seq<Command>, m: Command, r: int)
    requires IsRun(cmds) && NeverLeavesSignal(cmds) && m.Query? && m.probe == CompletionRound && r >= 0
    requires Answer(After(cmds), m).Some? && Answer(After(cmds), m).value.Round?
    requires Answer(After(cmds), m).value.round >= r
    ensures After(cmds).batch.Some? && (m.generation == 0 || m.generation == LiveGeneration(After(cmds)))
    ensures Reached(After(cmds).trace, LiveGeneration(After(cmds)), r)
  {
    RunKeepsSignal(cmds);
    RunKeepsInv(cmds);
    var s := After(cmds);
    var b := s.batch.value;
    assert Executed(b.generation, b.done, b.direction.value) in s.trace;
  }
}
