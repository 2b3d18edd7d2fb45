/**
 Directions across generations (src/etha/tensor_bus/agent.py): within a generation a colocated batch
 runs one direction only; a batch id that is cleaned up and registered again runs the opposite one.
*/
module DualReuse {
  import opened Base
  import opened DualBatch
  import opened DualRounds
  import opened DualSignals
  import opened DualExamples

  function Opposite(d: Direction): Direction {
    Direction(d.dst, d.src)
  }

  /** Within a generation a transfer against the pinned direction fails and changes nothing else. */
  lemma OppositeIsRefused(s: State, m: Command)
    requires s.batch.Some? && s.batch.value.direction.Some? && m.Transfer? && IsPeer(m.role)
    requires DirectionOf(m.role.value, m.kind) != s.batch.value.direction.value
    ensures Undisturbed(s, Step(s, m))
    ensures Step(s, m).posted == s.posted + OptSet(m.sem) && Step(s, m).errors == s.errors + OptSet(m.sem)
  {
    var s1 := Issue(s, m.sem, PurposeOf(s, m));
    if !BadTransfer(s1, m) {
      PinnedTransferIs(s1, s1.batch.value, DirectionOf(m.role.value, m.kind), m);
    }
  }

  function Joins(role: Role, pair: nat, buckets: map<Direction, bool>): Command {
    Register(None, Some(role), Signature({pair}, 0), true, true, false, false, false, Some(buckets))
  }

  function Asks(role: Role, d: Direction, round: int): Command {
    Transfer(None, Some(role), KindFor(d, role), round, 0, false)
  }

  lemma LiveNumbers(s: State)
    requires Reachable(s) && s.batch.Some?
    ensures s.batch.value.generation == s.lastGeneration && s.lastGeneration + 1 !in s.pins
  {
    ReachInv(s);
    assert Numbered(s);
  }

  lemma LiveRan(s: State, b: Batch)
    requires Reachable(s) && s.batch == Some(b) && b.done >= 0
    ensures b.direction.Some? && Proper(b.direction.value)
    ensures Executed(b.generation, b.done, b.direction.value) in s.trace
  {
    ReachInv(s);
    assert DoneOk(s, b) && PinOk(s, b) && Numbered(s);
  }

  // ------------------------------------------------------------------------------------------
  // The five commands, one by one

  lemma CleanupIs(s: State)
    requires s.batch.Some?
    ensures var s' := Step(s, Cleanup(None, 0));
            s'.batch.None? && s'.trace == s.trace && s'.pins == s.pins && s'.lastGeneration == s.lastGeneration
  {
  }

  lemma FirstJoinIs(s: State, pair: nat, buckets: map<Direction, bool>)
    requires s.batch.None?
    ensures var s' := Step(s, Joins(First, pair, buckets));
            && s'.trace == s.trace && s'.pins == s.pins && s'.lastGeneration == s.lastGeneration + 1
            && s'.batch == Some(Batch(s.lastGeneration + 1, Signature({pair}, 0), {First}, [], map[], None, -1, map[]))
  {
    var m := Joins(First, pair, buckets);
    FirstRegisterIs(s, m);
    assert !Refused(s, m) && !LayoutChanged(s, m);
  }

  lemma SecondJoinIs(s: State, pair: nat, buckets: map<Direction, bool>)
    requires s.batch == Some(Batch(s.lastGeneration, Signature({pair}, 0), {First}, [], map[], None, -1, map[]))
    ensures var s' := Step(s, Joins(Second, pair, buckets));
            && s.trace <= s'.trace && s'.pins == s.pins
            && s'.batch ==
              Some(Batch(s.lastGeneration, Signature({pair}, 0), {First, Second}, [], buckets, None, -1, map[]))
  {
    var m := Joins(Second, pair, buckets);
    assert !Refused(s, m) && !LayoutChanged(s, m);
    SetFacts();
  }

  lemma OneRole(role: Role)
    ensures {} + {role} == {role} && |{role}| == 1
  {
  }

  /** The first transfer of a generation pins its own direction. */
  lemma FirstAskIs(s: State, b: Batch, d: Direction, round: int)
    requires s.batch == Some(b) && b.direction.None? && b.parked == map[] && b.done == -1
    requires b.generation !in s.pins && round >= 0 && Proper(d)
    ensures var s' := Step(s, Asks(d.src, d, round));
            s.trace <= s'.trace &&
              s'.batch == Some(b.(direction := Some(d), parked := map[round := Parked({d.src}, [])]))
  {
    var m := Asks(d.src, d, round);
    var b1 := b.(direction := Some(d));
    var s1 := s.(pins := s.pins[b.generation := d], batch := Some(b1));
    PinsNow(s, b, d, m, s1);
    FirstParks(s1, b1, d, round);
  }

  lemma PinsNow(s: State, b: Batch, d: Direction, m: Command, s1: State)
    requires s.batch == Some(b) && b.direction.None? && b.done == -1 && b.generation !in s.pins
    requires m.Transfer? && IsPeer(m.role) && m.round >= 0 && m.generation == 0 && m.sem.None?
    requires DirectionOf(m.role.value, m.kind) == d
    requires s1 == s.(pins := s.pins[b.generation := d], batch := Some(b.(direction := Some(d))))
    ensures Step(s, m) == Admit(s1, b.(direction := Some(d)), d, m)
  {
    assert Pinned(s, b, d) == d && Pin(s, b, d) == s1;
  }

  lemma FirstParks(s: State, b: Batch, d: Direction, round: int)
    requires s.batch == Some(b) && b.parked == map[] && Proper(d)
    ensures var s' := Admit(s, b, d, Asks(d.src, d, round));
            s'.batch == Some(b.(parked := map[round := Parked({d.src}, [])])) && s.trace <= s'.trace
  {
    var m := Asks(d.src, d, round);
    OneRole(d.src);
    assert Joined(b, m) == Parked({d.src}, []);
    assert map[][round := Joined(b, m)] == map[round := Joined(b, m)];
  }

  lemma AdmitRuns(s: State, b: Batch, d: Direction, m: Command)
    requires m.Transfer? && m.role.Some? && |Joined(b, m).roles| >= 2 && CanExecute(b, d, m)
    ensures s.trace <= Admit(s, b, d, m).trace && Executed(b.generation, m.round, d) in Admit(s, b, d, m).trace
  {
    var s1 := Log(Publish(s, b, d, m.round), Accepted(b.generation, m.role.value, m.kind, m.round));
    assert Admit(s, b, d, m) == ExecuteRound(s1, b, d, m);
    assert ExecuteRound(s1, b, d, m).trace == s1.trace + [Executed(b.generation, m.round, d)];
  }

  /** And the other role's command runs the round. */
  lemma SecondAskIs(s: State, b: Batch, d: Direction, round: int)
    requires s.batch == Some(b) && b.direction == Some(d) && b.parked == map[round := Parked({d.src}, [])]
    requires b.done == -1 && round >= 0 && Proper(d) && d in b.buckets && b.buckets[d]
    ensures var s' := Step(s, Asks(d.dst, d, round));
            s.trace <= s'.trace && Executed(b.generation, round, d) in s'.trace
  {
    var m := Asks(d.dst, d, round);
    PinnedTransferIs(s, b, d, m);
    BothRoles(b, d, round);
    AdmitRuns(s, b, d, m);
  }

  lemma BothRoles(b: Batch, d: Direction, round: int)
    requires b.parked == map[round := Parked({d.src}, [])] && Proper(d)
    ensures |Joined(b, Asks(d.dst, d, round)).roles| == 2
  {
    SetFacts();
    assert Joined(b, Asks(d.dst, d, round)).roles == {First, Second};
  }

  // ------------------------------------------------------------------------------------------
  // The whole run

  lemma CleanedUp(s: State) returns (s': State)
    requires Reachable(s) && s.batch.Some?
    ensures Reachable(s') && s'.batch.None? && s'.trace == s.trace && s'.pins == s.pins
    ensures s'.lastGeneration == s.lastGeneration
  {
    CleanupIs(s);
    ReachNext(s, Cleanup(None, 0));
    s' := Step(s, Cleanup(None, 0));
  }

  lemma FirstJoins(s: State, pair: nat, buckets: map<Direction, bool>) returns (s': State)
    requires Reachable(s) && s.batch.None?
    ensures Reachable(s') && s'.trace == s.trace && s'.pins == s.pins && s'.lastGeneration == s.lastGeneration + 1
    ensures s'.batch == Some(Batch(s.lastGeneration + 1, Signature({pair}, 0), {First}, [], map[], None, -1, map[]))
  {
    FirstJoinIs(s, pair, buckets);
    ReachNext(s, Joins(First, pair, buckets));
    s' := Step(s, Joins(First, pair, buckets));
  }

  lemma SecondJoins(s: State, pair: nat, buckets: map<Direction, bool>) returns (s': State)
    requires Reachable(s)
    requires s.batch == Some(Batch(s.lastGeneration, Signature({pair}, 0), {First}, [], map[], None, -1, map[]))
    ensures Reachable(s') && s.trace <= s'.trace && s'.pins == s.pins
    ensures s'.batch ==
            Some(Batch(s.lastGeneration, Signature({pair}, 0), {First, Second}, [], buckets, None, -1, map[]))
  {
    SecondJoinIs(s, pair, buckets);
    ReachNext(s, Joins(Second, pair, buckets));
    s' := Step(s, Joins(Second, pair, buckets));
  }

  /** Cleaned up and registered again by both roles, a batch id opens the next generation without a pin. */
  lemma Reopened(s: State, pair: nat, buckets: map<Direction, bool>) returns (s': State)
    requires Reachable(s) && s.batch.Some?
    ensures Reachable(s') && s.trace <= s'.trace && s'.pins == s.pins
    ensures s'.batch ==
            Some(Batch(s.lastGeneration + 1, Signature({pair}, 0), {First, Second}, [], buckets, None, -1, map[]))
  {
    var s1 := CleanedUp(s);
    var s2 := FirstJoins(s1, pair, buckets);
    s' := SecondJoins(s2, pair, buckets);
  }

  lemma FirstAsks(s: State, b: Batch, d: Direction, round: int) returns (s': State)
    requires Reachable(s) && s.batch == Some(b) && b.direction.None? && b.parked == map[] && b.done == -1
    requires b.generation !in s.pins && round >= 0 && Proper(d)
    ensures Reachable(s') && s.trace <= s'.trace
    ensures s'.batch == Some(b.(direction := Some(d), parked := map[round := Parked({d.src}, [])]))
  {
    FirstAskIs(s, b, d, round);
    ReachNext(s, Asks(d.src, d, round));
    s' := Step(s, Asks(d.src, d, round));
  }

  lemma SecondAsks(s: State, b: Batch, d: Direction, round: int) returns (s': State)
    requires Reachable(s) && s.batch == Some(b) && b.direction == Some(d)
    requires b.parked == map[round := Parked({d.src}, [])] && b.done == -1 && round >= 0 && Proper(d) && d in b.buckets
    requires b.buckets[d]
    ensures Reachable(s') && s.trace <= s'.trace && Executed(b.generation, round, d) in s'.trace
  {
    SecondAskIs(s, b, d, round);
    ReachNext(s, Asks(d.dst, d, round));
    s' := Step(s, Asks(d.dst, d, round));
  }

  /** Clean up, register both roles, let both ask for a direction: it runs in the next generation. */
  lemma NextGenerationRuns(s: State, pair: nat, d: Direction, round: int) returns (s': State)
    requires Reachable(s) && s.batch.Some? && s.lastGeneration + 1 !in s.pins && round >= 0 && Proper(d)
    ensures Reachable(s') && s.trace <= s'.trace && Executed(s.lastGeneration + 1, round, d) in s'.trace
  {
    var s1 := Reopened(s, pair, map[d := true, Opposite(d) := true]);
    var b1 := s1.batch.value;
    var s2 := FirstAsks(s1, b1, d, round);
    s' := SecondAsks(s2, b1.(direction := Some(d), parked := map[round := Parked({d.src}, [])]), d, round);
  }

  /**
   From every reachable state whose live batch has run a round: clean up, register both roles again
   and let both ask for the opposite direction. It runs, in the next generation of the same batch id.
   */
  lemma ReuseRunsTheOppositeDirection(s: State, b: Batch, pair: nat, round: int) returns (s': State)
    requires Reachable(s) && s.batch == Some(b) && b.done >= 0 && round >= 0
    ensures b.direction.Some? && Reachable(s')
    ensures Executed(b.generation, b.done, b.direction.value) in s'.trace
    ensures Executed(b.generation + 1, round, Opposite(b.direction.value)) in s'.trace
  {
    LiveRan(s, b);
    LiveNumbers(s);
    s' := NextGenerationRuns(s, pair, Opposite(b.direction.value), round);
    InPrefix(s.trace, s'.trace, Executed(b.generation, b.done, b.direction.value));
  }

  lemma InPrefix(a: seq<Event>, b: seq<Event>, e: Event)
    requires a <= b && e in a
    ensures e in b
  {
    var i :| 0 <= i < |a| && a[i] == e;
    assert b[i] == e;
  }
}
