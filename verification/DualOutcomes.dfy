/**
 What commands to a dual-endpoint batch achieve (src/etha/tensor_bus/agent.py): two registrations complete a batch,
 two transfers run a round in either order, and queries see exactly the rounds that were asked for or have run.
*/
module DualOutcomes {
  import opened Base
  import opened DualBatch
  import opened DualRounds
  import opened DualSignals

  // ------------------------------------------------------------------------------------------
  // Rounds

  /** The command a role sends for a round of a direction. */
  function Ask(d: Direction, role: Role, round: int, generation: nat, sem: Option<Sem>): Command {
    Transfer(sem, Some(role), KindFor(d, role), round, generation, false)
  }

  /** A round of a registered direction that neither ran nor was asked for. */
  ghost predicate CanRun(s: State, d: Direction, round: int) {
    && Proper(d) && s.batch.Some? && round >= 0
    && var b := s.batch.value;
       && d in b.buckets && b.buckets[d] && (b.direction.Some? ==> b.direction.value == d)
       && round > b.done && round !in b.parked
  }

  /** The command names the live generation, or none. */
  ghost predicate ForLive(s: State, generation: nat) {
    s.batch.Some? && (generation == 0 || generation == s.batch.value.generation)
  }

  /** The first of the two commands only parks, after it has published the request. */
  ghost predicate Waits(s: State, d: Direction, round: int, role: Role, sem: Option<Sem>, s': State) {
    && s.batch.Some? && s'.batch.Some?
    && var b, b' := s.batch.value, s'.batch.value;
       && b' == b.(direction := Some(d), parked := b.parked[round := Parked({role}, OptSeq(sem))])
       && RequestOf(s', d) >= round && s'.signal == s.signal && s'.posted == s.posted && s'.errors == s.errors
       && s'.trace == s.trace + [Accepted(b.generation, role, KindFor(d, role), round)]
  }

  lemma AskIsFor(d: Direction, role: Role)
    requires Proper(d) && role != Foreign
    ensures DirectionOf(role, KindFor(d, role)) == d
  {
  }

  /** The batch once its direction is pinned. */
  function Directed(s: State, d: Direction): State
    requires s.batch.Some?
  {
    var b := s.batch.value;
    if b.direction.Some? then s
    else s.(pins := s.pins[b.generation := d], batch := Some(b.(direction := Some(d))))
  }

  /** A proper command along the direction is acknowledged if its round is old and admitted if it is not. */
  lemma TransferIs(s: State, m: Command, d: Direction)
    requires m.Transfer? && !BadTransfer(s, m) && DirectionOf(m.role.value, m.kind) == d
    requires PinOk(s, s.batch.value) && (s.batch.value.direction.Some? ==> s.batch.value.direction.value == d)
    ensures var s1 := Directed(s, d);
            var b := s1.batch.value;
            TransferStep(s, m) ==
              if m.round <= b.done then Post(Acknowledge(s1, b, m.round), OptSet(m.sem)) else Admit(s1, b, d, m)
  {
    assert Pin(s, s.batch.value, d) == Directed(s, d);
  }

  /** The command can be judged: it names the live generation, a peer, a round and the direction. */
  ghost predicate Judged(s: State, d: Direction, round: int, role: Role, generation: nat) {
    && ForLive(s, generation) && PinOk(s, s.batch.value) && Proper(d) && role != Foreign && round >= 0
    && (s.batch.value.direction.Some? ==> s.batch.value.direction.value == d)
  }

  lemma AskIs(s: State, d: Direction, round: int, role: Role, generation: nat, sem: Option<Sem>)
    requires Judged(s, d, round, role, generation)
    ensures var m := Ask(d, role, round, generation, sem);
            var s1 := Directed(Issue(s, sem, PurposeOf(s, m)), d);
            var b := s1.batch.value;
            Step(s, m) == if round <= b.done then Post(Acknowledge(s1, b, round), OptSet(sem)) else Admit(s1, b, d, m)
  {
    var m := Ask(d, role, round, generation, sem);
    AskIsFor(d, role);
    TransferIs(Issue(s, sem, PurposeOf(s, m)), m, d);
  }

  lemma ParkedIs(s: State, b: Batch, d: Direction, m: Command)
    requires s.batch == Some(b) && m.Transfer? && m.role.Some? && m.round !in b.parked
    ensures var s' := Admit(s, b, d, m);
            && s' == s.(requests := s'.requests, trace := s'.trace, batch := s'.batch)
            && s'.batch == Some(b.(parked := b.parked[m.round := Parked({m.role.value}, OptSeq(m.sem))]))
            && RequestOf(s', d) >= m.round
            && s'.trace == s.trace + [Accepted(b.generation, m.role.value, m.kind, m.round)]
  {
    assert Joined(b, m) == Parked({m.role.value}, OptSeq(m.sem));
  }

  lemma FirstWaits(s: State, d: Direction, round: int, role: Role, generation: nat, sem: Option<Sem>)
    requires Inv(s) && CanRun(s, d, round) && ForLive(s, generation) && role != Foreign
    ensures Waits(s, d, round, role, sem, Step(s, Ask(d, role, round, generation, sem)))
  {
    var m := Ask(d, role, round, generation, sem);
    AskIs(s, d, round, role, generation, sem);
    var s1 := Directed(Issue(s, sem, PurposeOf(s, m)), d);
    ParkedIs(s1, s1.batch.value, d, m);
  }

  /** The second command ran the round. */
  ghost predicate Ran(s: State, d: Direction, round: int, sems: set<Sem>, s': State) {
    && s.batch.Some? && s'.batch.Some?
    && s'.batch.value == s.batch.value.(done := round, direction := Some(d), parked := s.batch.value.parked - {round})
    && s'.signal == round && s'.posted == s.posted + sems && s'.errors == s.errors
    && s'.trace != [] && s'.trace[|s'.trace| - 1] == Executed(s.batch.value.generation, round, d)
  }

  lemma TwoRoles(role: Role)
    requires role != Foreign
    ensures {role} + {Other(role)} == {First, Second} && |{First, Second}| == 2 && Other(role) != Foreign
  {
  }

  lemma ExecutedIs(s: State, b: Batch, d: Direction, m: Command, sems: set<Sem>)
    requires s.batch == Some(b) && m.Transfer? && m.role.Some? && m.round in b.parked && CanExecute(b, d, m)
    requires |Joined(b, m).roles| == 2 && Elements(Joined(b, m).sems) + OptSet(m.sem) == sems
    requires b.direction == Some(d) && b.parked[m.round].roles != {}
    ensures Ran(s, d, m.round, sems, Admit(s, b, d, m))
  {
  }

  lemma ElementsConcat(a: seq<Sem>, b: seq<Sem>)
    ensures Elements(a + b) == Elements(a) + Elements(b)
  {
  }

  lemma OptElements(sem: Option<Sem>)
    ensures Elements(OptSeq(sem)) == OptSet(sem)
  {
  }

  lemma SecondJoined(b: Batch, m: Command, role: Role, x: Option<Sem>)
    requires m.Transfer? && role != Foreign && m.role == Some(Other(role)) && m.round in b.parked
    requires b.parked[m.round] == Parked({role}, OptSeq(x))
    ensures |Joined(b, m).roles| == 2 && Elements(Joined(b, m).sems) + OptSet(m.sem) == OptSet(x) + OptSet(m.sem)
  {
    TwoRoles(role);
    ElementsConcat(OptSeq(x), OptSeq(m.sem));
    OptElements(x);
    OptElements(m.sem);
    var e := Joined(b, m);
    assert e == Parked({role} + {Other(role)}, OptSeq(x) + OptSeq(m.sem));
  }

  lemma SecondRuns(s: State, d: Direction, round: int, role: Role, x: Option<Sem>, generation: nat, y: Option<Sem>)
    requires Judged(s, d, round, role, generation)
    requires var b := s.batch.value;
             && b.direction == Some(d) && round > b.done && round in b.parked
             && b.parked[round] == Parked({role}, OptSeq(x)) && d in b.buckets && b.buckets[d]
    ensures Ran(s, d, round, OptSet(x) + OptSet(y), Step(s, Ask(d, Other(role), round, generation, y)))
  {
    var m := Ask(d, Other(role), round, generation, y);
    var b := s.batch.value;
    AskIs(s, d, round, Other(role), generation, y);
    SecondJoined(b, m, role, x);
    ExecutedIs(Issue(s, y, PurposeOf(s, m)), b, d, m, OptSet(x) + OptSet(y));
  }

  /** The second command failed the round for both callers; the request falls back to the last round that ran. */
  ghost predicate FailedBoth(s: State, d: Direction, round: int, sems: set<Sem>, s': State) {
    && s.batch.Some? && s'.batch.Some?
    && s'.batch.value == s.batch.value.(parked := s.batch.value.parked - {round})
    && s'.signal == s.signal && s'.posted == s.posted + sems && s'.errors == s.errors + sems
    && RequestOf(s', d) == s.batch.value.done
    && |s'.trace| == |s.trace| + 1 && s'.trace[..|s.trace|] == s.trace && s'.trace[|s.trace|].Accepted?
  }

  lemma FailedIs(s: State, b: Batch, d: Direction, m: Command, sems: set<Sem>)
    requires s.batch == Some(b) && m.Transfer? && m.role.Some? && !CanExecute(b, d, m)
    requires |Joined(b, m).roles| == 2 && Elements(Joined(b, m).sems) + OptSet(m.sem) == sems
    ensures FailedBoth(s, d, m.round, sems, Admit(s, b, d, m))
  {
  }

  /** Without buckets for the direction, as with a Partial target, the second command fails both callers. */
  lemma SecondFails(s: State, d: Direction, round: int, role: Role, x: Option<Sem>, generation: nat, y: Option<Sem>)
    requires Judged(s, d, round, role, generation)
    requires var b := s.batch.value;
             && b.direction == Some(d) && round > b.done && round in b.parked
             && b.parked[round] == Parked({role}, OptSeq(x)) && !(d in b.buckets && b.buckets[d])
    ensures FailedBoth(s, d, round, OptSet(x) + OptSet(y), Step(s, Ask(d, Other(role), round, generation, y)))
  {
    var m := Ask(d, Other(role), round, generation, y);
    var b := s.batch.value;
    AskIs(s, d, round, Other(role), generation, y);
    SecondJoined(b, m, role, x);
    FailedIs(Issue(s, y, PurposeOf(s, m)), b, d, m, OptSet(x) + OptSet(y));
  }

  lemma AskIsPinned(s: State, d: Direction, round: int, role: Role, generation: nat, sem: Option<Sem>)
    requires Inv(s) && CanRun(s, d, round) && ForLive(s, generation) && role != Foreign
    ensures var s' := Step(s, Ask(d, role, round, generation, sem)); s'.batch.Some? && PinOk(s', s'.batch.value)
  {
    var m := Ask(d, role, round, generation, sem);
    AskIs(s, d, round, role, generation, sem);
    var s1 := Directed(Issue(s, sem, PurposeOf(s, m)), d);
    ParkedIs(s1, s1.batch.value, d, m);
  }

  /** In every reachable state the two roles' commands run the round, whichever comes first, and wake both callers. */
  lemma RoundRuns(
    cmds: seq<Command>, d: Direction, round: int, role: Role, g: nat, g': nat, x: Option<Sem>, y: Option<Sem>)
    requires IsRun(cmds) && CanRun(After(cmds), d, round) && ForLive(After(cmds), g) && ForLive(After(cmds), g')
    requires role != Foreign
    ensures var s := After(cmds);
            var s1 := Step(s, Ask(d, role, round, g, x));
            && Waits(s, d, round, role, x, s1)
            && Ran(s1, d, round, OptSet(x) + OptSet(y), Step(s1, Ask(d, Other(role), round, g', y)))
  {
    RunKeepsInv(cmds);
    var s := After(cmds);
    FirstWaits(s, d, round, role, g, x);
    AskIsPinned(s, d, round, role, g, x);
    SecondRuns(Step(s, Ask(d, role, round, g, x)), d, round, role, x, g', y);
  }

  lemma AcknowledgedIs(s: State, b: Batch, round: int)
    requires s.batch == Some(b)
    ensures Acknowledge(s, b, round) ==
            s.(batch := Some(b.(parked := b.parked - {round})), posted := s.posted + Elements(Entry(b, round).sems))
  {
    if round !in b.parked {
      assert b.parked - {round} == b.parked;
      assert Elements(Entry(b, round).sems) == {};
    }
  }

  /** A command for a round at or below the last one wakes its caller and whoever still waits for it, and runs nothing. */
  lemma OldRoundIsAcknowledged(s: State, d: Direction, round: int, role: Role, generation: nat, sem: Option<Sem>)
    requires Inv(s) && ForLive(s, generation) && Proper(d) && role != Foreign
    requires s.batch.value.direction == Some(d) && 0 <= round <= s.batch.value.done
    ensures var s', b := Step(s, Ask(d, role, round, generation, sem)), s.batch.value;
            s' == s.(batch := Some(b.(parked := b.parked - {round})), issued := s'.issued,
                     posted := s.posted + Elements(Entry(b, round).sems) + OptSet(sem))
  {
    var m := Ask(d, role, round, generation, sem);
    AskIs(s, d, round, role, generation, sem);
    AcknowledgedIs(Issue(s, sem, PurposeOf(s, m)), s.batch.value, round);
  }

  /** Nobody can run it: there is no batch, no peer's role, a negative round, or another direction. */
  predicate Hopeless(s: State, m: Command)
    requires m.Transfer?
  {
    || s.batch.None? || !IsPeer(m.role) || m.round < 0
    || (s.batch.value.direction.Some? && s.batch.value.direction.value != DirectionOf(m.role.value, m.kind))
  }

  lemma HopelessIs(s: State, m: Command)
    requires m.Transfer? && Hopeless(s, m)
    ensures TransferStep(s, m) == Fail(s, OptSet(m.sem))
  {
  }

  /** Such a transfer changes nothing but its own semaphore. */
  lemma HopelessIsHarmless(s: State, m: Command)
    requires m.Transfer? && Hopeless(s, m)
    ensures Undisturbed(s, Step(s, m))
    ensures Step(s, m).posted == s.posted + OptSet(m.sem) && Step(s, m).errors == s.errors + OptSet(m.sem)
  {
    HopelessIs(Issue(s, m.sem, PurposeOf(s, m)), m);
  }

  // ------------------------------------------------------------------------------------------
  // Registration

  /** A registration with nothing to object to. */
  function Joins(role: Role, signature: Signature, buckets: map<Direction, bool>, sem: Option<Sem>): Command {
    Register(sem, Some(role), signature, true, true, false, false, false, Some(buckets))
  }

  lemma FirstJoins(s: State, role: Role, signature: Signature, buckets: map<Direction, bool>, sem: Option<Sem>)
    requires s.batch.None? && role != Foreign && signature.pairs != {}
    ensures var s' := Step(s, Joins(role, signature, buckets, sem));
            s' == s.(issued := s'.issued, lastGeneration := s.lastGeneration + 1,
                     batch := Some(Batch(s.lastGeneration + 1, signature, {role}, OptSeq(sem), map[], None, -1, map[])))
  {
    var m := Joins(role, signature, buckets, sem);
    FirstRegisterIs(Issue(s, sem, PurposeOf(s, m)), m);
  }

  lemma SecondJoins(s: State, b: Batch, role: Role, buckets: map<Direction, bool>, sem: Option<Sem>)
    requires s.batch == Some(b) && b.roles == {role} && role != Foreign && b.signature.pairs != {}
    ensures var s' := Step(s, Joins(Other(role), b.signature, buckets, sem));
            s' == s.(issued := s'.issued, batch := Some(b.(roles := {First, Second}, buckets := buckets, waiting := [])),
                     posted := s.posted + (Elements(b.waiting) + OptSet(sem)),
                     trace := s.trace + [Completed(b.generation)])
  {
    var m := Joins(Other(role), b.signature, buckets, sem);
    var s1 := Issue(s, sem, PurposeOf(s, m));
    TwoRoles(role);
    assert !Refused(s1, m) && !LayoutChanged(s1, m);
    assert b.roles + {Other(role)} == {First, Second};
  }

  /** From every state without a batch, the two roles' registrations open a new generation and complete it. */
  lemma RegistrationCompletes(
    s: State, role: Role, signature: Signature, b1: map<Direction, bool>, b2: map<Direction, bool>, x: Option<Sem>,
    y: Option<Sem>)
    requires s.batch.None? && role != Foreign && signature.pairs != {}
    ensures var s1 := Step(s, Joins(role, signature, b1, x));
            var s2 := Step(s1, Joins(Other(role), signature, b2, y));
            && s1.batch.Some? && s1.batch.value.roles == {role} && s1.posted == s.posted && s1.errors == s.errors
            && s2.batch == Some(Batch(s.lastGeneration + 1, signature, {First, Second}, [], b2, None, -1, map[]))
            && s2.posted == s.posted + (OptSet(x) + OptSet(y)) && s2.errors == s.errors
            && s2.trace == s.trace + [Completed(s.lastGeneration + 1)] && s2.signal == s.signal
  {
    FirstJoins(s, role, signature, b1, x);
    var s1 := Step(s, Joins(role, signature, b1, x));
    SecondJoins(s1, s1.batch.value, role, b2, y);
    assert Elements(OptSeq(x)) == OptSet(x);
  }

  /** Every rank gathered the same thing, and the command names a peer of some pair. */
  predicate Sane(m: Command)
    requires m.Register?
  {
    && m.mixOk && m.membershipOk && !m.othersDup && !m.othersBad && !m.othersDiffer
    && IsPeer(m.role) && m.signature.pairs != {}
  }

  /** It opens a batch, or is the other role of the one registration that waits, with the same layout. */
  ghost predicate Welcome(s: State, m: Command)
    requires m.Register?
  {
    Sane(m) &&
    (s.batch.Some? ==>
       var b := s.batch.value;
       One(b.roles) && m.role.value !in b.roles && m.signature == b.signature && m.generated.Some?)
  }

  lemma WelcomeIff(s: State, m: Command)
    requires Inv(s) && m.Register? && s.batch.Some?
    ensures Welcome(s, m) <==> !Refused(s, m) && !Aborts(s, m)
  {
    var b := s.batch.value;
    assert RegistrationOk(s, b);
    if !Refused(s, m) && !LayoutChanged(s, m) {
      assert m.signature.pairs * b.signature.pairs == m.signature.pairs;
    }
  }

  lemma LiveRegistration(s: State, m: Command)
    requires Inv(s) && m.Register? && s.batch.Some?
    ensures var s' := RegisterStep(s, m);
            if Welcome(s, m) then s'.errors == s.errors else OptSet(m.sem) <= s'.errors && s'.trace == s.trace
  {
    LiveRegisterIs(s, m);
    WelcomeIff(s, m);
  }

  lemma FirstRegistration(s: State, m: Command)
    requires m.Register? && s.batch.None?
    ensures var s' := RegisterStep(s, m);
            if Welcome(s, m) then s'.errors == s.errors else OptSet(m.sem) <= s'.errors && s'.trace == s.trace
  {
    FirstRegisterIs(s, m);
    assert Welcome(s, m) <==> !Refused(s, m) && !LayoutChanged(s, m);
  }

  /** A registration is taken up exactly if it is welcome; any other fails its caller and completes nothing. */
  lemma RegistrationAcceptedIff(s: State, m: Command)
    requires Inv(s) && Fresh(s, m) && m.Register?
    ensures var s' := Step(s, m);
            if Welcome(s, m) then s'.errors == s.errors else OptSet(m.sem) <= s'.errors && s'.trace == s.trace
  {
    IssueKeeps(s, m);
    var s1 := Issue(s, m.sem, PurposeOf(s, m));
    if s.batch.Some? {
      LiveRegistration(s1, m);
    } else {
      FirstRegistration(s1, m);
    }
    assert Welcome(s1, m) <==> Welcome(s, m);
  }

  // ------------------------------------------------------------------------------------------
  // Queries

  /** What the query's caller finds: under its own name, or under the state's name when nobody waits. */
  ghost function Heard(s: State, m: Command): Option<Reply>
    requires m.Query?
  {
    var s' := Step(s, m);
    if m.sem.Some? then if m.sem.value in s'.results then Some(s'.results[m.sem.value]) else None
    else if m.probe in s'.board then Some(s'.board[m.probe]) else None
  }

  lemma HeardIsAnswer(s: State, m: Command)
    requires m.Query? && Answer(s, m).Some?
    ensures Heard(s, m) == Answer(s, m)
  {
  }

  ghost predicate HearsAtLeast(s: State, m: Command, round: int)
    requires m.Query?
  {
    Heard(s, m).Some? && Heard(s, m).value.Round? && Heard(s, m).value.round >= round
  }

  lemma LastDoneReached(s: State, round: int)
    requires Inv(s) && s.batch.Some? && round >= 0
    ensures s.batch.value.done >= round <==> Reached(s.trace, s.batch.value.generation, round)
  {
    var b := s.batch.value;
    assert DoneOk(s, b);
    if b.done >= round {
      assert Executed(b.generation, b.done, b.direction.value) in s.trace;
    }
  }

  /** A query for the live generation sees a round as done exactly if that generation ran it or a later one. */
  lemma CompletionHeardIff(cmds: seq<Command>, m: Command, round: int)
    requires IsRun(cmds) && NeverLeavesSignal(cmds) && m.Query? && m.probe == CompletionRound && round >= 0
    requires ForLive(After(cmds), m.generation)
    ensures HearsAtLeast(After(cmds), m, round) <==>
            Reached(After(cmds).trace, After(cmds).batch.value.generation, round)
  {
    RunKeepsSignal(cmds);
    RunKeepsInv(cmds);
    HeardIsAnswer(After(cmds), m);
    LastDoneReached(After(cmds), round);
  }

  lemma RequestCovers(s: State, d: Direction, round: int)
    requires OrderOk(s) && s.batch.Some? && s.batch.value.direction == Some(d)
    requires round in s.batch.value.parked || round == s.batch.value.done
    ensures RequestOf(s, d) >= round
  {
  }

  /** Every round that somebody waits for, and the last that has run, is seen as requested. */
  lemma RequestIsHeard(cmds: seq<Command>, m: Command, d: Direction, round: int)
    requires IsRun(cmds) && NeverRollsBack(cmds) && m.Query? && m.probe == RequestRound(d)
    requires ForLive(After(cmds), m.generation) && After(cmds).batch.value.direction == Some(d)
    requires round in After(cmds).batch.value.parked || round == After(cmds).batch.value.done
    ensures HearsAtLeast(After(cmds), m, round)
  {
    RunKeepsOrder(cmds);
    HeardIsAnswer(After(cmds), m);
    RequestCovers(After(cmds), d, round);
  }

  ghost predicate WasAsked(trace: seq<Event>, d: Direction, round: int) {
    exists e :: e in trace && e.Accepted? && e.round == round && DirectionOf(e.role, e.kind) == d
  }

  /** Whatever a request key holds was asked for in that direction. */
  ghost predicate RequestsEarned(s: State) {
    forall d :: d in s.requests && s.requests[d] >= 0 ==> WasAsked(s.trace, d, s.requests[d])
  }

  lemma EarnedCarries(s: State, s': State)
    requires RequestsEarned(s) && s'.requests == s.requests && s.trace <= s'.trace
    ensures RequestsEarned(s')
  {
    forall d | d in s'.requests && s'.requests[d] >= 0 ensures WasAsked(s'.trace, d, s'.requests[d]) {
      var e :| e in s.trace && e.Accepted? && e.round == s.requests[d] && DirectionOf(e.role, e.kind) == d;
      assert e in s'.trace;
    }
  }

  lemma UpdateEarned(s: State, s': State, d: Direction, round: int)
    requires RequestsEarned(s) && s'.requests == s.requests[d := round] && s.trace <= s'.trace
    requires round >= 0 ==> WasAsked(s'.trace, d, round)
    ensures RequestsEarned(s')
  {
    forall k | k in s'.requests && s'.requests[k] >= 0 ensures WasAsked(s'.trace, k, s'.requests[k]) {
      if k != d {
        var e :| e in s.trace && e.Accepted? && e.round == s.requests[k] && DirectionOf(e.role, e.kind) == k;
        assert e in s'.trace;
      }
    }
  }

  /** The last executed round was asked for. */
  lemma DoneWasAsked(s: State, d: Direction)
    requires Inv(s) && s.batch.Some? && s.batch.value.direction == Some(d) && s.batch.value.done >= 0
    ensures WasAsked(s.trace, d, s.batch.value.done)
  {
    var b := s.batch.value;
    var i :| 0 <= i < |s.trace| && s.trace[i] == Executed(b.generation, b.done, d);
    assert BothAsked(s.trace, i);
    var e := Accepted(b.generation, d.src, Send, b.done);
    assert e in s.trace[..i];
    assert e in s.trace && Proper(d);
  }

  lemma PublishedEarned(s: State, b: Batch, d: Direction, m: Command)
    requires RequestsEarned(s) && m.Transfer? && m.role.Some? && DirectionOf(m.role.value, m.kind) == d
    ensures RequestsEarned(
              Log(Publish(s, b, d, m.round), Accepted(b.generation, m.role.value, m.kind, m.round)))
  {
    var e := Accepted(b.generation, m.role.value, m.kind, m.round);
    var s' := Log(Publish(s, b, d, m.round), e);
    if s'.requests == s.requests {
      EarnedCarries(s, s');
    } else {
      assert e in s'.trace;
      UpdateEarned(s, s', d, m.round);
    }
  }

  lemma AdmitEarned(s: State, b: Batch, d: Direction, m: Command)
    requires RequestsEarned(s) && m.Transfer? && m.role.Some? && DirectionOf(m.role.value, m.kind) == d
    requires b.done >= 0 ==> WasAsked(s.trace, d, b.done)
    ensures RequestsEarned(Admit(s, b, d, m))
  {
    var s1 := Log(Publish(s, b, d, m.round), Accepted(b.generation, m.role.value, m.kind, m.round));
    PublishedEarned(s, b, d, m);
    if |Joined(b, m).roles| >= 2 && !CanExecute(b, d, m) {
      if b.done >= 0 {
        var e :| e in s.trace && e.Accepted? && e.round == b.done && DirectionOf(e.role, e.kind) == d;
        assert e in s1.trace;
      }
      UpdateEarned(s1, Admit(s, b, d, m), d, b.done);
    } else {
      EarnedCarries(s1, Admit(s, b, d, m));
    }
  }

  lemma TransferEarned(s: State, m: Command)
    requires Inv(s) && RequestsEarned(s) && m.Transfer?
    ensures RequestsEarned(TransferStep(s, m))
  {
    if BadTransfer(s, m) {
      EarnedCarries(s, TransferStep(s, m));
    } else {
      var d := DirectionOf(m.role.value, m.kind);
      var s1 := Pin(s, s.batch.value, d);
      var b := s1.batch.value;
      assert s1.trace == s.trace && s1.requests == s.requests && b.done == s.batch.value.done;
      EarnedCarries(s, s1);
      if Pinned(s, s.batch.value, d) == d && m.round > b.done {
        if b.done >= 0 {
          DoneWasAsked(s, d);
        }
        AdmitEarned(s1, b, d, m);
      } else {
        EarnedCarries(s1, TransferStep(s, m));
      }
    }
  }

  lemma RegisterEarned(s: State, m: Command)
    requires Inv(s) && RequestsEarned(s) && m.Register?
    ensures RequestsEarned(RegisterStep(s, m))
  {
    if s.batch.Some? {
      LiveRegisterIs(s, m);
    } else {
      FirstRegisterIs(s, m);
    }
    EarnedCarries(s, RegisterStep(s, m));
  }

  lemma CleanedIs(s: State, b: Batch, m: Command)
    requires m.Cleanup? && s.batch == Some(b) && !Stale(m.generation, b)
    ensures CleanupStep(s, m) ==
            s.(batch := None, signal := -1, requests := ResetRequests(s, b), errors := s.errors + ParkedSems(b),
               posted := s.posted + ParkedSems(b) + OptSet(m.sem))
  {
  }

  lemma ResetEarned(s: State, b: Batch, s': State)
    requires RequestsEarned(s) && s'.requests == ResetRequests(s, b) && s'.trace == s.trace
    ensures RequestsEarned(s')
  {
  }

  lemma OthersEarned(s: State, m: Command)
    requires RequestsEarned(s) && (m.Cleanup? || m.Query?)
    ensures RequestsEarned(Handled(s, m))
  {
    if m.Query? || s.batch.None? || Stale(m.generation, s.batch.value) {
      EarnedCarries(s, Handled(s, m));
    } else {
      CleanedIs(s, s.batch.value, m);
      ResetEarned(s, s.batch.value, CleanupStep(s, m));
    }
  }

  lemma StepEarned(s: State, m: Command)
    requires Inv(s) && Fresh(s, m) && RequestsEarned(s)
    ensures RequestsEarned(Step(s, m))
  {
    IssueKeeps(s, m);
    var s1 := Issue(s, m.sem, PurposeOf(s, m));
    EarnedCarries(s, s1);
    if m.Register? {
      RegisterEarned(s1, m);
    } else if m.Transfer? {
      TransferEarned(s1, m);
    } else {
      OthersEarned(s1, m);
    }
  }

  lemma {:induction false} RunEarned(cmds: seq<Command>)
    requires IsRun(cmds)
    ensures RequestsEarned(After(cmds))
  {
    if cmds != [] {
      RunEarned(cmds[..|cmds| - 1]);
      RunKeepsInv(cmds[..|cmds| - 1]);
      StepEarned(After(cmds[..|cmds| - 1]), cmds[|cmds| - 1]);
    }
  }

  /** A query never hears of a request that nobody made: the round was asked for in that direction. */
  lemma HeardRequestsWereMade(cmds: seq<Command>, m: Command, d: Direction)
    requires IsRun(cmds) && m.Query? && m.probe == RequestRound(d) && ForLive(After(cmds), m.generation)
    ensures HearsAtLeast(After(cmds), m, 0) ==> WasAsked(After(cmds).trace, d, Heard(After(cmds), m).value.round)
  {
    RunEarned(cmds);
    HeardIsAnswer(After(cmds), m);
  }

  /** A query for another generation hears that nothing was requested and nothing has run. */
  lemma StaleQueryHearsNothing(s: State, m: Command)
    requires m.Query? && s.batch.Some? && Stale(m.generation, s.batch.value)
    ensures Heard(s, m) == Some(if m.probe == TransferFlag then Flag(false) else Round(-1))
  {
    HeardIsAnswer(s, m);
  }

  // ------------------------------------------------------------------------------------------
  // Cleanup

  lemma ResetIs(s: State, b: Batch, d: Direction)
    ensures RequestOf(s.(requests := ResetRequests(s, b)), d) ==
            if b.direction == Some(d) || d in b.buckets then -1 else RequestOf(s, d)
  {
  }

  /** Everybody parked fails, both signals of the batch's direction are gone, and rounds that ran stay on record. */
  lemma CleanupResets(s: State, m: Command, d: Direction)
    requires m.Cleanup? && ForLive(s, m.generation)
    ensures var s', b := Step(s, m), s.batch.value;
            && s'.batch.None? && s'.signal == -1 && s'.trace == s.trace && s'.lastGeneration == s.lastGeneration
            && RequestOf(s', d) == (if b.direction == Some(d) || d in b.buckets then -1 else RequestOf(s, d))
            && s'.errors == s.errors + ParkedSems(b) && s'.posted == s.posted + ParkedSems(b) + OptSet(m.sem)
  {
    var s1 := Issue(s, m.sem, PurposeOf(s, m));
    CleanedIs(s1, s.batch.value, m);
    ResetIs(s1, s.batch.value, d);
  }
}
