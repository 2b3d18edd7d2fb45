/** The command handlers of the agent for a dual-endpoint batch (src/etha/tensor_bus/agent.py), step by step. */
module DualAgents {
  import opened Base
  import opened DualBatch

  /** A handler returns, defers the semaphore to a later command, or raises. */
  datatype Outcome = Finished | Deferred | Raised

  /** What the dispatcher does with the command's own semaphore afterwards. */
  function Settle(s: State, o: Outcome, sem: Option<Sem>): State {
    match o
    case Finished => Post(s, OptSet(sem))
    case Deferred => s
    case Raised => Fail(s, OptSet(sem))
  }

  lemma FailedIs(s: State, b: Batch, d: Direction, m: Command, filed: Batch, end: State)
    requires m.Transfer? && m.role.Some? && filed == b.(parked := b.parked[m.round := Joined(b, m)])
    requires end == s.(
               batch := Some(filed.(parked := filed.parked - {m.round})), requests := s.requests[d := b.done],
               posted := s.posted + (Elements(Joined(b, m).sems) - OptSet(m.sem)),
               errors := s.errors + (Elements(Joined(b, m).sems) - OptSet(m.sem)))
    ensures Settle(end, Raised, m.sem) == DualBatch.FailRound(s, b, d, m)
  {
    assert filed.parked - {m.round} == b.parked - {m.round};
    var own, all := OptSet(m.sem), Elements(Joined(b, m).sems);
    assert s.posted + (all - own) + own == s.posted + (all + own);
    assert s.errors + (all - own) + own == s.errors + (all + own);
  }

  lemma RanIs(s: State, b: Batch, d: Direction, m: Command, filed: Batch, end: State)
    requires m.Transfer? && m.role.Some? && filed == b.(parked := b.parked[m.round := Joined(b, m)])
    requires end == Post(Log(s.(batch := Some(filed.(done := m.round, parked := filed.parked - {m.round})),
                                signal := m.round),
                             Executed(b.generation, m.round, d)), Elements(Joined(b, m).sems))
    ensures Settle(end, Finished, m.sem) == ExecuteRound(s, b, d, m)
  {
    assert filed.parked - {m.round} == b.parked - {m.round};
    var own, all := OptSet(m.sem), Elements(Joined(b, m).sems);
    assert s.posted + all + own == s.posted + (all + own);
  }

  class DualAgent {
    var batch: Option<Batch>
    var lastGeneration: nat
    var signal: int
    var requests: map<Direction, int>
    var pins: map<nat, Direction>
    var posted: set<Sem>
    var errors: set<Sem>
    var results: map<Sem, Reply>
    var board: map<Probe, Reply>
    ghost var issued: map<Sem, Purpose>
    ghost var trace: seq<Event>

    ghost function View(): State
      reads this
    {
      State(batch, lastGeneration, signal, requests, pins, issued, posted, errors, results, board, trace)
    }

    constructor ()
      ensures View() == BOOT
    {
      batch, lastGeneration, signal, requests, pins := None, 0, -1, map[], map[];
      posted, errors, results, board, issued, trace := {}, {}, map[], map[], map[], [];
    }

    /** Post-then-unlink. */
    method ReleaseSemaphore(name: Sem)
      modifies this`posted
      ensures posted == old(posted) + {name}
    {
      posted := posted + {name};
    }

    method ReleaseAll(names: seq<Sem>)
      modifies this`posted
      ensures posted == old(posted) + Elements(names)
    {
      for i := 0 to |names|
        invariant posted == old(posted) + Elements(names[..i])
      {
        assert Elements(names[..i + 1]) == Elements(names[..i]) + {names[i]};
        ReleaseSemaphore(names[i]);
      }
      assert names[..|names|] == names;
    }

    /** Records the error, then wakes the waiter, one after the other. */
    method FailAll(names: seq<Sem>)
      modifies this`posted, this`errors
      ensures posted == old(posted) + Elements(names) && errors == old(errors) + Elements(names)
    {
      for i := 0 to |names|
        invariant posted == old(posted) + Elements(names[..i]) && errors == old(errors) + Elements(names[..i])
      {
        assert Elements(names[..i + 1]) == Elements(names[..i]) + {names[i]};
        errors := errors + {names[i]};
        ReleaseSemaphore(names[i]);
      }
      assert names[..|names|] == names;
    }

    method PublishTransferRequest(d: Direction, round: int)
      modifies this`requests
      ensures requests == if round > RequestOf(old(View()), d) then old(requests)[d := round] else old(requests)
    {
      var current := if d in requests then requests[d] else -1;
      if round > current {
        requests := requests[d := round];
      }
    }

    /** Everybody on the list but the caller, whose error the dispatcher records. */
    method FailOthers(names: seq<Sem>, own: Option<Sem>)
      modifies this`posted, this`errors
      ensures posted == old(posted) + (Elements(names) - OptSet(own))
      ensures errors == old(errors) + (Elements(names) - OptSet(own))
    {
      for i := 0 to |names|
        invariant posted == old(posted) + (Elements(names[..i]) - OptSet(own))
        invariant errors == old(errors) + (Elements(names[..i]) - OptSet(own))
      {
        assert Elements(names[..i + 1]) == Elements(names[..i]) + {names[i]};
        if Some(names[i]) != own {
          errors := errors + {names[i]};
          ReleaseSemaphore(names[i]);
        }
      }
      assert names[..|names|] == names;
    }

    method FailRound(b: Batch, d: Direction, m: Command)
      requires m.Transfer? && m.role.Some? && batch == Some(b) && m.round in b.parked
      modifies this
      ensures View() == old(View()).(
                batch := Some(b.(parked := b.parked - {m.round})), requests := old(requests)[d := b.done],
                posted := old(posted) + (Elements(b.parked[m.round].sems) - OptSet(m.sem)),
                errors := old(errors) + (Elements(b.parked[m.round].sems) - OptSet(m.sem)))
    {
      batch := Some(b.(parked := b.parked - {m.round}));
      FailOthers(b.parked[m.round].sems, m.sem);
      requests := requests[d := b.done];
    }

    method RunRound(b: Batch, d: Direction, m: Command)
      requires m.Transfer? && m.role.Some? && batch == Some(b) && m.round in b.parked
      modifies this
      ensures View() == Post(Log(old(View()).(batch := Some(b.(done := m.round, parked := b.parked - {m.round})),
                                              signal := m.round),
                                 Executed(b.generation, m.round, d)), Elements(b.parked[m.round].sems))
    {
      trace := trace + [Executed(b.generation, m.round, d)];
      batch := Some(b.(done := m.round));
      signal := m.round;
      ReleaseAll(b.parked[m.round].sems);
      batch := Some(b.(done := m.round, parked := b.parked - {m.round}));
    }

    /** File the command under its round, publishing the request first. */
    method File(b: Batch, d: Direction, m: Command) returns (filed: Batch)
      requires m.Transfer? && m.role.Some? && batch == Some(b)
      modifies this
      ensures filed == b.(parked := b.parked[m.round := Joined(b, m)])
      ensures View() == Log(Publish(old(View()), b, d, m.round),
                            Accepted(b.generation, m.role.value, m.kind, m.round)).(batch := Some(filed))
    {
      var entry := Entry(b, m.round);
      if entry.roles == {} {
        PublishTransferRequest(d, m.round);
      }
      trace := trace + [Accepted(b.generation, m.role.value, m.kind, m.round)];
      filed := b.(parked := b.parked[m.round := Parked(entry.roles + {m.role.value}, entry.sems + OptSeq(m.sem))]);
      batch := Some(filed);
    }

    /** Park, run or fail one direction-round. */
    method Join(b: Batch, d: Direction, m: Command) returns (o: Outcome)
      requires m.Transfer? && m.role.Some? && batch == Some(b)
      modifies this
      ensures Settle(View(), o, m.sem) == Admit(old(View()), b, d, m)
    {
      var filed := File(b, d, m);
      ghost var s1 := Log(Publish(old(View()), b, d, m.round), Accepted(b.generation, m.role.value, m.kind, m.round));
      assert View() == s1.(batch := Some(filed));
      if |filed.parked[m.round].roles| < 2 {
        return Deferred;
      }
      if d !in b.buckets || !b.buckets[d] || m.mixedRounds {
        FailRound(filed, d, m);
        FailedIs(s1, b, d, m, filed, View());
        return Raised;
      }
      RunRound(filed, d, m);
      RanIs(s1, b, d, m, filed, View());
      return Finished;
    }

    method PinDirection(b: Batch, d: Direction) returns (pinned: Direction)
      requires batch == Some(b)
      modifies this`pins, this`batch
      ensures View() == Pin(old(View()), b, d) && pinned == Pinned(old(View()), b, d)
    {
      if b.direction.Some? {
        return b.direction.value;
      }
      if b.generation !in pins {
        pins := pins[b.generation := d];
      }
      pinned := pins[b.generation];
      batch := Some(b.(direction := Some(pinned)));
    }

    method HandleTransfer(m: Command) returns (o: Outcome)
      requires m.Transfer?
      modifies this
      ensures Settle(View(), o, m.sem) == TransferStep(old(View()), m)
    {
      if batch.None? || Stale(m.generation, batch.value) {
        return Raised;
      }
      if m.role.None? || m.role.value == Foreign {
        return Raised;
      }
      var role := m.role.value;
      var d := if m.kind == Send then Direction(role, Other(role)) else Direction(Other(role), role);
      if m.round < 0 {
        return Raised;
      }
      var pinned := PinDirection(batch.value, d);
      if d != pinned {
        return Raised;
      }
      var b := batch.value;
      if m.round <= b.done {
        if m.round in b.parked {
          batch := Some(b.(parked := b.parked - {m.round}));
          ReleaseAll(b.parked[m.round].sems);
        }
        return Finished;
      }
      o := Join(b, d, m);
    }

    method AbortDualRegistration()
      requires batch.Some?
      modifies this
      ensures View() == Abort(old(View()))
    {
      FailAll(batch.value.waiting);
      batch := None;
    }

    method RegisterDualRole(b: Batch, m: Command) returns (o: Outcome)
      requires m.Register? && m.role.Some? && batch == Some(b)
      modifies this
      ensures Settle(View(), o, m.sem) == RegisterRole(old(View()), b, m)
    {
      var b1 := b.(roles := b.roles + {m.role.value});
      batch := Some(b1);
      if |b1.roles| < 2 {
        batch := Some(b1.(waiting := b1.waiting + OptSeq(m.sem)));
        return Deferred;
      }
      if m.generated.None? {
        AbortDualRegistration();
        return Raised;
      }
      trace := trace + [Completed(b.generation)];
      ReleaseAll(b1.waiting);
      batch := Some(b1.(buckets := m.generated.value, waiting := []));
      return Finished;
    }

    method RefuseRegistration()
      modifies this
      ensures View() == AbortIfWaiting(old(View()))
    {
      if batch.Some? && batch.value.waiting != [] {
        AbortDualRegistration();
      }
    }

    method OpenBatch(m: Command)
      requires m.Register?
      modifies this
      ensures View() == Opened(old(View()), m)
    {
      if batch.None? {
        lastGeneration := lastGeneration + 1;
        batch := Some(Batch(lastGeneration, m.signature, {}, [], map[], None, -1, map[]));
      }
    }

    method HandleRegister(m: Command) returns (o: Outcome)
      requires m.Register?
      modifies this
      ensures Settle(View(), o, m.sem) == RegisterStep(old(View()), m)
    {
      var duplicate := batch.Some? && m.role.Some? && m.role.value in batch.value.roles &&
                       m.signature.pairs * batch.value.signature.pairs != {};
      var peer := m.role.Some? && m.role.value != Foreign;
      if m.othersDup || duplicate || m.othersBad || !m.mixOk || !peer || m.signature.pairs == {} || !m.membershipOk {
        RefuseRegistration();
        return Raised;
      }
      var existing := batch;
      OpenBatch(m);
      if m.othersDiffer || (existing.Some? && existing.value.signature != m.signature) {
        AbortDualRegistration();
        return Raised;
      }
      o := RegisterDualRole(batch.value, m);
    }

    method ResetSignals(b: Batch)
      modifies this`signal, this`requests
      ensures signal == -1 && requests == ResetRequests(old(View()), b)
    {
      signal := -1;
      var todo := ResetDirections(b);
      while todo != {}
        invariant todo <= ResetDirections(b) && signal == -1
        invariant requests.Keys == old(requests).Keys + (ResetDirections(b) - todo)
        invariant forall d :: d in requests ==>
          requests[d] == if d in ResetDirections(b) - todo then -1 else old(requests)[d]
      {
        var d :| d in todo;
        requests := requests[d := -1];
        todo := todo - {d};
      }
    }

    /** Everybody parked on some direction-round. */
    method FailRounds(b: Batch)
      modifies this`posted, this`errors
      ensures posted == old(posted) + RoundSems(b) && errors == old(errors) + RoundSems(b)
    {
      var todo := b.parked.Keys;
      while todo != {}
        invariant todo <= b.parked.Keys
        invariant posted == old(posted) + SemsOutside(b, todo) && errors == old(errors) + SemsOutside(b, todo)
      {
        var r := AnyOf(todo);
        FailAll(b.parked[r].sems);
        SemsOutsideStep(b, todo, r);
        todo := todo - {r};
      }
      assert SemsOutside(b, {}) == RoundSems(b);
    }

    method HandleCleanup(m: Command) returns (o: Outcome)
      requires m.Cleanup?
      modifies this
      ensures Settle(View(), o, m.sem) == CleanupStep(old(View()), m)
    {
      if batch.None? || Stale(m.generation, batch.value) {
        return Finished;
      }
      var b := batch.value;
      FailAll(b.waiting);
      FailRounds(b);
      ResetSignals(b);
      batch := None;
      assert posted == old(posted) + ParkedSems(b) && errors == old(errors) + ParkedSems(b);
      return Finished;
    }

    method HandleQuery(m: Command) returns (o: Outcome)
      requires m.Query?
      modifies this`results, this`board
      ensures Settle(View(), o, m.sem) == QueryStep(old(View()), m)
    {
      if batch.Some? {
        var answer := None;
        if Stale(m.generation, batch.value) {
          answer := Some(if m.probe == TransferFlag then Flag(false) else Round(-1));
        } else {
          match m.probe
          case TransferFlag => answer := Some(Flag(false));
          case CompletionRound => answer := Some(Round(signal));
          case RequestRound(d) => answer := Some(Round(if d in requests then requests[d] else -1));
          case UnknownState =>
        }
        if answer.Some? {
          if m.sem.Some? {
            results := results[m.sem.value := answer.value];
          } else {
            board := board[m.probe := answer.value];
          }
        }
      }
      return Finished;
    }

    method Handle(m: Command) returns (o: Outcome)
      modifies this
      ensures Settle(View(), o, m.sem) == Handled(old(View()), m)
    {
      match m
      case Register(_, _, _, _, _, _, _, _, _) => o := HandleRegister(m);
      case Transfer(_, _, _, _, _, _) => o := HandleTransfer(m);
      case Cleanup(_, _) => o := HandleCleanup(m);
      case Query(_, _, _) => o := HandleQuery(m);
    }

    method SettleOwn(o: Outcome, sem: Option<Sem>)
      modifies this`posted, this`errors
      ensures View() == Settle(old(View()), o, sem)
    {
      if sem.Some? {
        if o == Raised {
          errors := errors + {sem.value};
        }
        if o != Deferred {
          ReleaseSemaphore(sem.value);
        }
      }
    }

    /** Dispatch, then settle the command's own semaphore. */
    method ExecuteCommand(m: Command)
      modifies this
      ensures View() == Step(old(View()), m)
    {
      if m.sem.Some? {
        issued := issued[m.sem.value := PurposeOf(old(View()), m)];
      }
      var o := Handle(m);
      SettleOwn(o, m.sem);
    }
  }

  method AnyOf<T>(rounds: set<T>) returns (r: T)
    requires rounds != {}
    ensures r in rounds
  {
    r :| r in rounds;
  }

  /** The parked semaphores of the rounds that are not in `todo`. */
  function SemsOutside(b: Batch, todo: set<int>): set<Sem> {
    set r, x | r in b.parked && r !in todo && x in b.parked[r].sems :: x
  }

  lemma SemsOutsideStep(b: Batch, todo: set<int>, r: int)
    requires r in todo && r in b.parked
    ensures SemsOutside(b, todo - {r}) == SemsOutside(b, todo) + Elements(b.parked[r].sems)
  {
    forall x | x in SemsOutside(b, todo - {r}) ensures x in SemsOutside(b, todo) + Elements(b.parked[r].sems) {
      var k :| k in b.parked && k !in todo - {r} && x in b.parked[k].sems;
      assert k == r || k !in todo;
    }
    forall x | x in SemsOutside(b, todo) ensures x in SemsOutside(b, todo - {r}) {
      var k :| k in b.parked && k !in todo && x in b.parked[k].sems;
      assert k !in todo - {r};
    }
    forall x | x in Elements(b.parked[r].sems) ensures x in SemsOutside(b, todo - {r}) {
      assert r !in todo - {r};
    }
  }
}
