/** Runs on which a dual-endpoint batch falls short of its documentation (src/etha/tensor_bus/agent.py). */
module DualExamples {
  import opened Base
  import opened DualBatch
  import opened DualRounds
  import opened DualSignals

  const AB := Direction(First, Second)

  /** Buckets for both directions, neither target Partial. */
  const BOTH := map[AB := true, Direction(Second, First) := true]

  function Registration(sem: Sem, role: Role, pair: nat): Command {
    Register(Some(sem), Some(role), Signature({pair}, 0), true, true, false, false, false, Some(BOTH))
  }

  function Ask(sem: Sem, role: Role, round: int, mixed: bool): Command {
    Transfer(Some(sem), Some(role), if role == First then Send else Recv, round, 1, mixed)
  }

  lemma AfterSnoc(cmds: seq<Command>, m: Command)
    ensures After(cmds + [m]) == Step(After(cmds), m)
    ensures IsRun(cmds) && Fresh(After(cmds), m) ==> IsRun(cmds + [m])
  {
    assert (cmds + [m])[..|cmds|] == cmds;
  }

  /** States that no command with a fresh semaphore leaves. */
  ghost predicate Closed(states: iset<State>) {
    forall s, m :: s in states && Fresh(s, m) ==> Step(s, m) in states
  }

  /** In every such set that holds the first state. */
  ghost predicate Reachable(s: State) {
    forall states: iset<State> :: Closed(states) && BOOT in states ==> s in states
  }

  lemma ReachNext(s: State, m: Command)
    requires Reachable(s) && Fresh(s, m)
    ensures Reachable(Step(s, m))
  {
    forall states: iset<State> | Closed(states) && BOOT in states ensures Step(s, m) in states {
      assert s in states;
    }
  }

  lemma ReachInv(s: State)
    requires Reachable(s)
    ensures Inv(s)
  {
    var sound := iset x | Inv(x);
    forall x, m | x in sound && Fresh(x, m) ensures Step(x, m) in sound {
      StepKeeps(x, m);
    }
    assert Inv(BOOT);
    assert Closed(sound) && BOOT in sound;
  }

  ghost predicate EndsAt(cmds: seq<Command>, s: State) {
    IsRun(cmds) && After(cmds) == s
  }

  /** Some run of commands with fresh semaphores ends here. */
  ghost predicate Ends(s: State) {
    exists cmds :: EndsAt(cmds, s)
  }

  lemma {:induction false} RunsReach(cmds: seq<Command>)
    requires IsRun(cmds)
    ensures Reachable(After(cmds))
  {
    if cmds != [] {
      RunsReach(cmds[..|cmds| - 1]);
      ReachNext(After(cmds[..|cmds| - 1]), cmds[|cmds| - 1]);
    }
  }

  /** The reachable states are exactly the ends of runs. */
  lemma ReachableIff(s: State)
    ensures Reachable(s) <==> Ends(s)
  {
    if cmds :| EndsAt(cmds, s) {
      RunsReach(cmds);
    }
    if Reachable(s) {
      var ends := iset x | Ends(x);
      forall x, m | x in ends && Fresh(x, m) ensures Step(x, m) in ends {
        var cmds :| EndsAt(cmds, x);
        AfterSnoc(cmds, m);
        assert EndsAt(cmds + [m], Step(x, m));
      }
      assert EndsAt([], BOOT);
      assert Closed(ends) && BOOT in ends;
    }
  }

  const HALF := State(
    Some(Batch(1, Signature({7}, 0), {First}, [0], map[], None, -1, map[])), 1, -1, map[], map[],
    map[0 := ForRegister(1)], {}, {}, map[], map[], [])

  const LIVE := Batch(1, Signature({7}, 0), {First, Second}, [], BOTH, None, -1, map[])

  const READY := State(
    Some(LIVE), 1, -1, map[], map[], map[0 := ForRegister(1), 1 := ForRegister(1)], {0, 1}, {}, map[], map[],
    [Completed(1)])

  lemma FirstRegisters()
    ensures Step(BOOT, Registration(0, First, 7)) == HALF
  {
    var m := Registration(0, First, 7);
    FirstRegisterIs(Issue(BOOT, m.sem, PurposeOf(BOOT, m)), m);
  }

  lemma SecondRegisters()
    ensures Step(HALF, Registration(1, Second, 7)) == READY
  {
    var m := Registration(1, Second, 7);
    var s := Issue(HALF, m.sem, PurposeOf(HALF, m));
    var b := s.batch.value;
    assert b.roles + {Second} == {First, Second} && |{First, Second}| == 2;
    assert !Refused(s, m) && !LayoutChanged(s, m);
    SecondCompletes(s, b, m);
  }

  lemma SecondCompletes(s: State, b: Batch, m: Command)
    requires s == HALF.(issued := map[0 := ForRegister(1), 1 := ForRegister(1)]) && s.batch == Some(b)
    requires m == Registration(1, Second, 7) && b.roles + {Second} == {First, Second} && |{First, Second}| == 2
    ensures RegisterRole(s, b, m) == READY
  {
    var s' := RegisterRole(s, b, m);
    assert s'.batch == Some(LIVE);
    assert Elements([0]) == {0};
    assert s'.posted == {0, 1};
  }

  lemma SetFacts()
    ensures {} + {First} == {First} && |{First}| == 1 && {First} + {Second} == {First, Second} && |{First, Second}| == 2
  {
  }

  /** A command for a later round of a batch that is pinned, or pins now, to AB. */
  lemma AskIs(s: State, b: Batch, sem: Sem, role: Role, round: int, mixed: bool)
    requires role != Foreign && s.batch == Some(b) && b.generation == 1 && round >= 0 && round > b.done
    requires b.direction == Some(AB) || (b.direction.None? && 1 !in s.pins)
    ensures var m, b1 := Ask(sem, role, round, mixed), b.(direction := Some(AB));
            var s1 := s.(issued := s.issued[sem := ForTransfer(1, round)], batch := Some(b1),
                         pins := if b.direction.None? then s.pins[1 := AB] else s.pins);
            Step(s, m) == Admit(s1, b1, AB, m)
  {
    var m := Ask(sem, role, round, mixed);
    var s1 := Issue(s, m.sem, PurposeOf(s, m));
    assert !BadTransfer(s1, m) && DirectionOf(role, m.kind) == AB;
    assert b.direction.Some? ==> b.(direction := Some(AB)) == b;
  }

  /** A first command parks. */
  lemma Parks(s: State, b: Batch, sem: Sem, round: int) returns (s': State)
    requires Reachable(s) && sem !in s.issued
    requires s.batch == Some(b) && b.generation == 1 && round >= 0 && round !in b.parked && round > b.done
    requires b.direction == Some(AB) || (b.direction.None? && 1 !in s.pins)
    ensures Reachable(s')
    ensures s'.batch == Some(b.(direction := Some(AB), parked := b.parked[round := Parked({First}, [sem])]))
    ensures s'.signal == s.signal && RequestOf(s', AB) == if round > RequestOf(s, AB) then round else RequestOf(s, AB)
    ensures s'.issued.Keys == s.issued.Keys + {sem}
  {
    var m := Ask(sem, First, round, false);
    ReachNext(s, m);
    AskIs(s, b, sem, First, round, false);
    s' := Step(s, m);
    var b1 := b.(direction := Some(AB));
    var s1 := s.(issued := s.issued[sem := ForTransfer(1, round)], batch := Some(b1),
                 pins := if b.direction.None? then s.pins[1 := AB] else s.pins);
    ParksAdmit(s1, b1, sem, round);
  }

  lemma ParksAdmit(s: State, b: Batch, sem: Sem, round: int)
    requires round !in b.parked
    ensures var s' := Admit(s, b, AB, Ask(sem, First, round, false));
            && s'.batch == Some(b.(parked := b.parked[round := Parked({First}, [sem])])) && s'.signal == s.signal
            && RequestOf(s', AB) == (if round > RequestOf(s, AB) then round else RequestOf(s, AB))
            && s'.issued == s.issued
  {
    var m := Ask(sem, First, round, false);
    SetFacts();
    assert Joined(b, m) == Parked({First}, [sem]);
  }

  /** The second role's command runs the round, or fails it when the ranks disagree on the round. */
  lemma Meets(s: State, b: Batch, sem: Sem, other: Sem, round: int, mixed: bool) returns (s': State)
    requires Reachable(s) && sem !in s.issued
    requires s.batch == Some(b) && b.generation == 1 && b.direction == Some(AB) && AB in b.buckets && b.buckets[AB]
    requires round >= 0 && round > b.done && round in b.parked && b.parked[round] == Parked({First}, [other])
    ensures Reachable(s') && s'.issued.Keys == s.issued.Keys + {sem}
    ensures s'.batch == Some(b.(done := if mixed then b.done else round, parked := b.parked - {round}))
    ensures s'.signal == if mixed then s.signal else round
    ensures RequestOf(s', AB) == if mixed then b.done else RequestOf(s, AB)
  {
    var m := Ask(sem, Second, round, mixed);
    ReachNext(s, m);
    AskIs(s, b, sem, Second, round, mixed);
    s' := Step(s, m);
    assert b.(direction := Some(AB)) == b;
    MeetsAdmit(s.(issued := s.issued[sem := ForTransfer(1, round)], batch := Some(b), pins := s.pins), b, sem, other,
               round, mixed);
  }

  lemma MeetsAdmit(s: State, b: Batch, sem: Sem, other: Sem, round: int, mixed: bool)
    requires AB in b.buckets && b.buckets[AB] && round in b.parked && b.parked[round] == Parked({First}, [other])
    ensures var s' := Admit(s, b, AB, Ask(sem, Second, round, mixed));
            && s'.batch == Some(b.(done := if mixed then b.done else round, parked := b.parked - {round}))
            && s'.signal == (if mixed then s.signal else round)
            && RequestOf(s', AB) == (if mixed then b.done else RequestOf(s, AB)) && s'.issued == s.issued
  {
    var m := Ask(sem, Second, round, mixed);
    SetFacts();
    assert Joined(b, m) == Parked({First, Second}, [other, sem]);
  }

  lemma ReadyIsReachable()
    ensures Reachable(READY)
  {
    FirstRegisters();
    ReachNext(BOOT, Registration(0, First, 7));
    SecondRegisters();
    ReachNext(HALF, Registration(1, Second, 7));
  }

  /** What the runs below need to know about the state they have reached. */
  ghost predicate At(s: State, done: int, parked: map<int, Parked>, signal: int, request: int, n: nat) {
    && Reachable(s) && s.batch == Some(LIVE.(direction := Some(AB), done := done, parked := parked))
    && s.signal == signal && RequestOf(s, AB) == request && forall x :: x in s.issued ==> x < n
  }

  lemma FirstParks() returns (s: State)
    ensures At(s, -1, map[5 := Parked({First}, [2])], -1, 5, 3)
  {
    ReadyIsReachable();
    s := Parks(READY, LIVE, 2, 5);
    assert map[][5 := Parked({First}, [2])] == map[5 := Parked({First}, [2])];
  }

  lemma NextParks(s: State, done: int, parked: map<int, Parked>, signal: int, request: int, n: nat, round: int)
    returns (s': State)
    requires At(s, done, parked, signal, request, n)
    requires round >= 0 && round !in parked && round > done && round > request
    ensures At(s', done, parked[round := Parked({First}, [n])], signal, round, n + 1)
  {
    s' := Parks(s, s.batch.value, n, round);
  }

  lemma NextMeets(s: State, done: int, parked: map<int, Parked>, signal: int, request: int, n: nat,
                  other: Sem, round: int, mixed: bool)
    returns (s': State)
    requires At(s, done, parked, signal, request, n)
    requires round >= 0 && round in parked && parked[round] == Parked({First}, [other]) && round > done
    ensures if mixed then At(s', done, parked - {round}, signal, done, n + 1)
            else At(s', round, parked - {round}, round, request, n + 1)
  {
    s' := Meets(s, s.batch.value, n, other, round, mixed);
  }

  lemma TwoParked() returns (s: State)
    ensures At(s, -1, map[5 := Parked({First}, [2]), 6 := Parked({First}, [3])], -1, 6, 4)
  {
    var five, six := Parked({First}, [2]), Parked({First}, [3]);
    var s1 := FirstParks();
    s := NextParks(s1, -1, map[5 := five], -1, 5, 3, 6);
    assert map[5 := five][6 := six] == map[5 := five, 6 := six];
  }

  lemma RolledBack() returns (s: State)
    ensures At(s, -1, map[6 := Parked({First}, [3])], -1, -1, 5)
  {
    var five, six := Parked({First}, [2]), Parked({First}, [3]);
    var s1 := TwoParked();
    s := NextMeets(s1, -1, map[5 := five, 6 := six], -1, 6, 4, 2, 5, true);
    assert map[5 := five, 6 := six] - {5} == map[6 := six];
  }

  /**
   The completion key can pass the request key: a mixed-round rejection rolls the request back under a parked
   round.
   */
  lemma RequestOvertaken() returns (s: State)
    ensures Reachable(s) && s.signal == 6 && RequestOf(s, AB) == -1
  {
    var s1 := RolledBack();
    s := NextMeets(s1, -1, map[6 := Parked({First}, [3])], -1, -1, 5, 3, 6, false);
  }

  /** Any registration for pairs the live batch does not have aborts it, and keeps the completion key. */
  lemma OtherPairsAbort(s: State, sem: Sem, pair: nat)
    requires Inv(s) && s.batch.Some? && pair !in s.batch.value.signature.pairs && sem !in s.issued
    ensures var s' := Step(s, Registration(sem, First, pair));
            s'.batch.None? && s'.signal == s.signal && Lost(s') == Lost(s) + RoundSems(s.batch.value)
    ensures Step(s, Registration(sem, First, pair)).issued.Keys == s.issued.Keys + {sem}
  {
    var m := Registration(sem, First, pair);
    assert Aborts(s, m);
    StepLoses(s, m);
    IssueKeeps(s, m);
    LiveRegisterIs(Issue(s, m.sem, PurposeOf(s, m)), m);
  }

  /** A registration with no live batch opens the next generation and leaves the completion key. */
  lemma OpensNext(s: State, sem: Sem, pair: nat)
    requires s.batch.None?
    ensures var s', g := Step(s, Registration(sem, First, pair)), s.lastGeneration + 1;
            s'.batch.Some? && LiveGeneration(s') == g && s'.signal == s.signal && s'.trace == s.trace
  {
    var m := Registration(sem, First, pair);
    FirstRegisterIs(Issue(s, m.sem, PurposeOf(s, m)), m);
  }

  lemma NothingRan(s: State)
    requires Inv(s)
    ensures !Reached(s.trace, s.lastGeneration + 1, 0)
  {
    forall e | e in s.trace && e.Executed? ensures e.generation <= s.lastGeneration {
      var i :| 0 <= i < |s.trace| && s.trace[i] == e;
      assert e.generation in s.pins;
    }
  }

  lemma AnswersSignal(s: State)
    requires s.batch.Some?
    ensures Answer(s, Query(None, CompletionRound, LiveGeneration(s))) == Some(Round(s.signal))
  {
  }

  /** The first registration of the next generation inherits the key without having run anything. */
  lemma NextGeneration(s: State, sem: Sem, pair: nat)
    requires Inv(s) && s.batch.None? && sem !in s.issued
    ensures var s', g := Step(s, Registration(sem, First, pair)), s.lastGeneration + 1;
            && LiveGeneration(s') == g && Answer(s', Query(None, CompletionRound, g)) == Some(Round(s.signal))
            && !Reached(s'.trace, g, 0) && Lost(s') == Lost(s)
  {
    var m := Registration(sem, First, pair);
    StepLoses(s, m);
    assert Forgotten(s, m) == {};
    NothingRan(s);
    OpensNext(s, sem, pair);
    AnswersSignal(Step(s, m));
  }

  /**
   In every reachable state with a live batch: a registration for other pairs forgets all parked
   transfers, and the generation opened next answers with the old completion round, having run nothing.
   */
  lemma AbortMisleads(s: State, a: Sem, b: Sem, pair: nat) returns (s': State)
    requires Reachable(s) && s.batch.Some? && pair !in s.batch.value.signature.pairs
    requires a !in s.issued && b !in s.issued && a != b
    ensures Reachable(s') && RoundSems(s.batch.value) <= Lost(s')
    ensures Answer(s', Query(None, CompletionRound, LiveGeneration(s'))) == Some(Round(s.signal))
    ensures !Reached(s'.trace, LiveGeneration(s'), 0)
  {
    ReachInv(s);
    OtherPairsAbort(s, a, pair);
    ReachNext(s, Registration(a, First, pair));
    var aborted := Step(s, Registration(a, First, pair));
    ReachInv(aborted);
    NextGeneration(aborted, b, pair);
    ReachNext(aborted, Registration(b, First, pair));
    s' := Step(aborted, Registration(b, First, pair));
  }

  lemma FiveRan() returns (s: State)
    ensures At(s, 5, map[], 5, 5, 4)
  {
    var five := Parked({First}, [2]);
    var s1 := FirstParks();
    s := NextMeets(s1, -1, map[5 := five], -1, 5, 3, 2, 5, false);
    assert map[5 := five] - {5} == map[];
  }

  /** It happens: round 5 ran, transfer 4 is parked on round 6. */
  lemma AbortForgets() returns (s: State)
    ensures Reachable(s) && 4 in Lost(s)
    ensures Answer(s, Query(None, CompletionRound, LiveGeneration(s))) == Some(Round(5))
    ensures !Reached(s.trace, LiveGeneration(s), 0)
  {
    var s1 := FiveRan();
    var s2 := NextParks(s1, 5, map[], 5, 5, 4, 6);
    assert 4 in RoundSems(s2.batch.value) by {
      assert 6 in s2.batch.value.parked && 4 in s2.batch.value.parked[6].sems;
    }
    s := AbortMisleads(s2, 5, 6, 8);
  }
}
