/**
 What every run of a dual-endpoint batch keeps (src/etha/tensor_bus/agent.py): rounds execute in
 increasing order, once, in one direction and only after both roles asked; a caller that is woken
 without an error got what it waited for.
*/
module DualRounds {
  import opened Base
  import opened DualBatch

  ghost predicate Proper(d: Direction) {
    d == Direction(First, Second) || d == Direction(Second, First)
  }

  /** The command a role issues for a direction. */
  function KindFor(d: Direction, role: Role): Kind {
    if role == d.src then Send else Recv
  }

  /** Generations are numbered in order and nothing is filed under a later one. */
  ghost predicate Numbered(s: State) {
    && (s.batch.Some? ==> s.batch.value.generation == s.lastGeneration && s.lastGeneration >= 1)
    && (forall g :: g in s.pins ==> g <= s.lastGeneration && Proper(s.pins[g]))
    && (forall e :: e in s.trace ==> e.generation <= s.lastGeneration)
  }

  ghost predicate PinOk(s: State, b: Batch) {
    if b.direction.Some? then b.generation in s.pins && s.pins[b.generation] == b.direction.value
    else b.generation !in s.pins && b.done == -1 && b.parked == map[]
  }

  /** A parked entry holds exactly one role, whose command was accepted. */
  ghost predicate EntryOk(s: State, b: Batch, r: int) {
    && r in b.parked && r >= 0 && b.direction.Some?
    && exists role :: role != Foreign && b.parked[r].roles == {role} &&
         Accepted(b.generation, role, KindFor(b.direction.value, role), r) in s.trace
  }

  /** The last executed round of the live generation. */
  ghost predicate DoneOk(s: State, b: Batch) {
    && b.done >= -1
    && (b.done >= 0 ==> b.direction.Some? && Executed(b.generation, b.done, b.direction.value) in s.trace)
    && forall e :: e in s.trace && e.Executed? && e.generation == b.generation ==> e.round <= b.done
  }

  ghost predicate Both(roles: set<Role>) {
    roles == {First, Second}
  }

  ghost predicate One(roles: set<Role>) {
    roles == {First} || roles == {Second}
  }

  ghost predicate RegistrationOk(s: State, b: Batch) {
    && (One(b.roles) || Both(b.roles))
    && (One(b.roles) ==> b.buckets == map[] && b.done == -1)
    && (Both(b.roles) ==> b.waiting == [] && Completed(b.generation) in s.trace)
  }

  ghost predicate SemsOk(s: State, b: Batch) {
    && (forall x :: x in b.waiting ==> x in s.issued && s.issued[x] == ForRegister(b.generation) && x !in s.posted)
    && (forall r, x :: r in b.parked && x in b.parked[r].sems ==>
          x in s.issued && s.issued[x] == ForTransfer(b.generation, r) && x !in s.posted)
  }

  ghost predicate BatchOk(s: State, b: Batch) {
    && PinOk(s, b) && DoneOk(s, b) && RegistrationOk(s, b) && SemsOk(s, b)
    && forall r :: r in b.parked ==> EntryOk(s, b, r)
  }

  ghost predicate Reached(trace: seq<Event>, g: nat, r: int) {
    exists e :: e in trace && e.Executed? && e.generation == g && e.round >= r
  }

  /** What a wake-up without an error promises. */
  ghost predicate Earned(s: State, x: Sem) {
    x in s.issued &&
    match s.issued[x]
    case ForRegister(g) => Completed(g) in s.trace
    case ForTransfer(g, r) => Reached(s.trace, g, r)
    case ForOther => true
  }

  ghost predicate PostsOk(s: State) {
    && (forall x :: x in s.posted ==> x in s.issued)
    && (forall x :: x in s.posted && x !in s.errors ==> Earned(s, x))
  }

  /** Both commands of a round came before it ran. */
  ghost predicate BothAsked(trace: seq<Event>, i: nat)
    requires i < |trace| && trace[i].Executed?
  {
    var e := trace[i];
    && Accepted(e.generation, e.direction.src, Send, e.round) in trace[..i]
    && Accepted(e.generation, e.direction.dst, Recv, e.round) in trace[..i]
  }

  ghost predicate TraceOk(s: State) {
    && (forall i :: 0 <= i < |s.trace| && s.trace[i].Executed? ==>
          && BothAsked(s.trace, i) && s.trace[i].generation in s.pins
          && s.pins[s.trace[i].generation] == s.trace[i].direction)
    && (forall i, j | 0 <= i < j < |s.trace| && s.trace[i].Executed? && s.trace[j].Executed? &&
          s.trace[i].generation == s.trace[j].generation :: s.trace[i].round < s.trace[j].round)
  }

  ghost predicate Inv(s: State) {
    Numbered(s) && PostsOk(s) && TraceOk(s) && (s.batch.Some? ==> BatchOk(s, s.batch.value))
  }

  // ------------------------------------------------------------------------------------------
  // Posting

  /** None of these is parked in the live batch. */
  ghost predicate Free(s: State, sems: set<Sem>) {
    s.batch.Some? ==> sems !! ParkedSems(s.batch.value)
  }

  /** A batch stays in order while its history and its parked semaphores do. */
  lemma BatchCarries(s: State, s': State, b: Batch)
    requires BatchOk(s, b) && s'.trace == s.trace && s'.pins == s.pins
    requires forall x :: x in ParkedSems(b) && x in s.issued ==> x in s'.issued && s'.issued[x] == s.issued[x]
    requires forall x :: x in ParkedSems(b) && x !in s.posted ==> x !in s'.posted
    ensures BatchOk(s', b)
  {
    assert forall x :: x in b.waiting ==> x in ParkedSems(b);
    assert forall r, x :: r in b.parked && x in b.parked[r].sems ==> x in RoundSems(b);
    forall r | r in b.parked ensures EntryOk(s', b, r) {
      assert EntryOk(s, b, r);
    }
  }

  lemma PostsCarry(s: State, s': State)
    requires PostsOk(s) && s'.trace == s.trace && (forall x :: x in s'.posted ==> x in s'.issued)
    requires forall x :: x in s.issued ==> x in s'.issued && s'.issued[x] == s.issued[x]
    requires forall x :: x in s'.posted && x !in s'.errors ==> (x in s.posted && x !in s.errors) || Earned(s', x)
    ensures PostsOk(s')
  {
    forall x | x in s'.posted && x !in s'.errors ensures Earned(s', x) {
      if x in s.posted && x !in s.errors {
        assert Earned(s, x);
      }
    }
  }

  lemma TraceCarries(s: State, s': State)
    requires Numbered(s) && TraceOk(s) && s'.trace == s.trace && s'.pins == s.pins
    requires s'.lastGeneration == s.lastGeneration
    requires s'.batch == s.batch
    ensures Numbered(s') && TraceOk(s')
  {
  }

  lemma PostKeeps(s: State, sems: set<Sem>)
    requires Inv(s) && Free(s, sems) && forall x :: x in sems ==> Earned(s, x)
    ensures Inv(Post(s, sems))
  {
    var s' := Post(s, sems);
    TraceCarries(s, s');
    forall x | x in sems ensures Earned(s', x) {
      assert Earned(s, x);
    }
    PostsCarry(s, s');
    if s.batch.Some? {
      BatchCarries(s, s', s.batch.value);
    }
  }

  lemma FailKeeps(s: State, sems: set<Sem>)
    requires Inv(s) && Free(s, sems) && forall x :: x in sems ==> x in s.issued
    ensures Inv(Fail(s, sems))
  {
    var s' := Fail(s, sems);
    TraceCarries(s, s');
    PostsCarry(s, s');
    if s.batch.Some? {
      BatchCarries(s, s', s.batch.value);
    }
  }

  lemma ParkedAreIssued(s: State, b: Batch)
    requires SemsOk(s, b)
    ensures forall x :: x in ParkedSems(b) ==> x in s.issued
  {
  }

  /** Taking a command with a fresh semaphore. */
  lemma IssueKeeps(s: State, m: Command)
    requires Inv(s) && Fresh(s, m)
    ensures var s1 := Issue(s, m.sem, PurposeOf(s, m));
            Inv(s1) && Free(s1, OptSet(m.sem)) && forall x :: x in OptSet(m.sem) ==> x in s1.issued && x !in s1.posted
  {
    var s1 := Issue(s, m.sem, PurposeOf(s, m));
    TraceCarries(s, s1);
    PostsCarry(s, s1);
    if s.batch.Some? {
      ParkedAreIssued(s, s.batch.value);
      BatchCarries(s, s1, s.batch.value);
    }
  }

  /** The command's own semaphore, just issued. */
  ghost predicate Own(s: State, m: Command, why: Purpose) {
    && Free(s, OptSet(m.sem))
    && forall x :: x in OptSet(m.sem) ==> x in s.issued && x !in s.posted && s.issued[x] == why
  }

  // ------------------------------------------------------------------------------------------
  // Transfer

  lemma PinKeeps(s: State, b: Batch, d: Direction)
    requires Inv(s) && s.batch == Some(b) && Proper(d)
    ensures Inv(Pin(s, b, d)) && Pin(s, b, d).batch.Some?
    ensures Pin(s, b, d).batch.value.direction == Some(Pinned(s, b, d))
    ensures Pin(s, b, d).batch.value == b.(direction := Some(Pinned(s, b, d)))
    ensures b.direction.Some? ==> Pin(s, b, d) == s
  {
    var s' := Pin(s, b, d);
    if b.direction.None? {
      forall x | x in s'.posted && x !in s'.errors ensures Earned(s', x) {
        assert Earned(s, x);
      }
      forall i | 0 <= i < |s.trace| && s.trace[i].Executed? ensures s.trace[i].generation != b.generation {
        assert s.trace[i].generation in s.pins;
      }
      assert TraceOk(s');
    }
  }

  ghost function Without(b: Batch, r: int): Batch {
    b.(parked := b.parked - {r})
  }

  lemma WithoutBatchOk(s: State, b: Batch, r: int)
    requires BatchOk(s, b)
    ensures BatchOk(s, Without(b, r))
  {
    var b' := Without(b, r);
    forall k | k in b'.parked ensures EntryOk(s, b', k) {
      assert EntryOk(s, b, k);
    }
  }

  lemma EntrySemsFree(s: State, b: Batch, r: int, x: Sem)
    requires SemsOk(s, b) && x in Entry(b, r).sems
    ensures x !in ParkedSems(Without(b, r))
  {
    assert s.issued[x] == ForTransfer(b.generation, r);
  }

  /** Taking an entry out leaves its semaphores free. */
  lemma RemoveKeeps(s: State, b: Batch, r: int)
    requires Inv(s) && s.batch == Some(b)
    ensures Inv(s.(batch := Some(Without(b, r))))
    ensures Free(s.(batch := Some(Without(b, r))), Elements(Entry(b, r).sems))
  {
    var s' := s.(batch := Some(Without(b, r)));
    HistoryCarries(s, s');
    WithoutBatchOk(s, b, r);
    BatchCarries(s, s', Without(b, r));
    forall x | x in Elements(Entry(b, r).sems) ensures x !in ParkedSems(Without(b, r)) {
      EntrySemsFree(s, b, r, x);
    }
  }

  lemma AcknowledgeKeeps(s: State, b: Batch, r: int)
    requires Inv(s) && s.batch == Some(b) && r <= b.done
    ensures Inv(Acknowledge(s, b, r))
  {
    RemoveKeeps(s, b, r);
    if r in b.parked {
      assert EntryOk(s, b, r);
      var s1 := s.(batch := Some(Without(b, r)));
      forall x | x in Elements(b.parked[r].sems) ensures Earned(s1, x) {
        assert s.issued[x] == ForTransfer(b.generation, r);
        assert Executed(b.generation, b.done, b.direction.value) in s1.trace;
      }
      PostKeeps(s1, Elements(b.parked[r].sems));
    }
  }

  /** The parts of the state the invariant reads. */
  ghost predicate SameCore(s: State, s': State) {
    s'.(signal := s.signal, requests := s.requests, results := s.results, board := s.board) == s
  }

  lemma SameCoreKeeps(s: State, s': State)
    requires Inv(s) && SameCore(s, s')
    ensures Inv(s')
  {
    TraceCarries(s, s');
    PostsCarry(s, s');
    if s.batch.Some? {
      BatchCarries(s, s', s.batch.value);
    }
  }

  lemma LogEarned(s: State, e: Event, x: Sem)
    requires Earned(s, x)
    ensures Earned(Log(s, e), x)
  {
    if s.issued[x].ForTransfer? {
      var g, r := s.issued[x].generation, s.issued[x].round;
      var f :| f in s.trace && f.Executed? && f.generation == g && f.round >= r;
      assert f in Log(s, e).trace;
    }
  }

  lemma BothAskedLater(trace: seq<Event>, e: Event, i: nat)
    requires i < |trace| && trace[i].Executed? && BothAsked(trace, i)
    ensures BothAsked(trace + [e], i)
  {
    assert (trace + [e])[..i] == trace[..i];
  }

  lemma LogTraceOk(s: State, e: Event)
    requires TraceOk(s) && !e.Executed?
    ensures TraceOk(Log(s, e))
  {
    var s' := Log(s, e);
    forall i | 0 <= i < |s'.trace| && s'.trace[i].Executed?
      ensures BothAsked(s'.trace, i) && s'.trace[i].generation in s'.pins
      ensures s'.pins[s'.trace[i].generation] == s'.trace[i].direction
    {
      BothAskedLater(s.trace, e, i);
    }
  }

  lemma LogBatchOk(s: State, b: Batch, e: Event)
    requires BatchOk(s, b) && !e.Executed?
    ensures BatchOk(Log(s, e), b)
  {
    forall r | r in b.parked ensures EntryOk(Log(s, e), b, r) {
      EntryLater(s, b, r, e);
    }
  }

  lemma LogPostsOk(s: State, e: Event)
    requires PostsOk(s)
    ensures PostsOk(Log(s, e))
  {
    forall x | x in s.posted && x !in s.errors ensures Earned(Log(s, e), x) {
      LogEarned(s, e, x);
    }
  }

  /** Logging anything but an execution. */
  lemma LogKeeps(s: State, e: Event)
    requires Inv(s) && !e.Executed? && e.generation <= s.lastGeneration
    ensures Inv(Log(s, e))
  {
    LogPostsOk(s, e);
    LogTraceOk(s, e);
    if s.batch.Some? {
      LogBatchOk(s, s.batch.value, e);
    }
  }

  lemma EntryLater(s: State, b: Batch, r: int, e: Event)
    requires EntryOk(s, b, r)
    ensures EntryOk(Log(s, e), b, r)
  {
    var role :| role != Foreign && b.parked[r].roles == {role} &&
         Accepted(b.generation, role, KindFor(b.direction.value, role), r) in s.trace;
    assert Accepted(b.generation, role, KindFor(b.direction.value, role), r) in Log(s, e).trace;
  }

  /** Joining an entry makes it hold one role, or both. */
  lemma JoinedRoles(s: State, b: Batch, m: Command)
    requires Inv(s) && s.batch == Some(b) && m.Transfer? && IsPeer(m.role)
    ensures |Joined(b, m).roles| < 2 ==> Joined(b, m).roles == {m.role.value}
    ensures |Joined(b, m).roles| >= 2 ==>
      && m.round in b.parked && b.direction.Some?
      && var other := Other(m.role.value);
         Accepted(b.generation, other, KindFor(b.direction.value, other), m.round) in s.trace
  {
    if m.round in b.parked {
      assert EntryOk(s, b, m.round);
      var role :| role != Foreign && b.parked[m.round].roles == {role} &&
           Accepted(b.generation, role, KindFor(b.direction.value, role), m.round) in s.trace;
      if role == m.role.value {
        assert Joined(b, m).roles == {role};
      } else {
        assert role == Other(m.role.value);
        assert Joined(b, m).roles == {role, m.role.value};
      }
    } else {
      assert Joined(b, m).roles == {m.role.value};
    }
  }

  lemma ParkEntries(s: State, b: Batch, m: Command, b': Batch, r: int)
    requires BatchOk(s, b) && m.Transfer? && IsPeer(m.role) && m.round >= 0 && b.direction.Some?
    requires Joined(b, m).roles == {m.role.value} && DirectionOf(m.role.value, m.kind) == b.direction.value
    requires Accepted(b.generation, m.role.value, m.kind, m.round) in s.trace
    requires b' == b.(parked := b.parked[m.round := Joined(b, m)]) && r in b'.parked
    ensures EntryOk(s, b', r)
  {
    if r == m.round {
      assert m.kind == KindFor(b.direction.value, m.role.value);
    } else {
      assert EntryOk(s, b, r);
    }
  }

  lemma ParkSems(s: State, b: Batch, m: Command, b': Batch)
    requires SemsOk(s, b) && m.Transfer? && m.role.Some? && b' == b.(parked := b.parked[m.round := Joined(b, m)])
    requires forall x :: x in OptSet(m.sem) ==>
      x in s.issued && x !in s.posted && s.issued[x] == ForTransfer(b.generation, m.round)
    ensures SemsOk(s, b')
  {
    forall x | x in Joined(b, m).sems
      ensures x in s.issued && s.issued[x] == ForTransfer(b.generation, m.round) && x !in s.posted
    {
      assert x in Entry(b, m.round).sems || x in OptSet(m.sem);
    }
  }

  lemma ParkKeeps(s: State, b: Batch, m: Command)
    requires Inv(s) && s.batch == Some(b) && m.Transfer? && IsPeer(m.role) && m.round >= 0 && b.direction.Some?
    requires Joined(b, m).roles == {m.role.value} && DirectionOf(m.role.value, m.kind) == b.direction.value
    requires Accepted(b.generation, m.role.value, m.kind, m.round) in s.trace
    requires Own(s, m, ForTransfer(b.generation, m.round))
    ensures Inv(Park(s, b, m))
  {
    var s' := Park(s, b, m);
    var b' := s'.batch.value;
    HistoryCarries(s, s');
    ParkSems(s, b, m, b');
    forall r | r in b'.parked ensures EntryOk(s, b', r) {
      ParkEntries(s, b, m, b', r);
    }
    assert BatchOk(s, b');
    BatchCarries(s, s', b');
  }

  lemma AskedNext(s: State, e: Event)
    requires TraceOk(s) && e.Executed? && e.generation in s.pins && s.pins[e.generation] == e.direction
    requires Accepted(e.generation, e.direction.src, Send, e.round) in s.trace
    requires Accepted(e.generation, e.direction.dst, Recv, e.round) in s.trace
    ensures forall i | 0 <= i < |s.trace + [e]| && (s.trace + [e])[i].Executed? ::
              && BothAsked(s.trace + [e], i) && (s.trace + [e])[i].generation in s.pins
              && s.pins[(s.trace + [e])[i].generation] == (s.trace + [e])[i].direction
  {
    var t := s.trace + [e];
    forall i | 0 <= i < |t| && t[i].Executed?
      ensures BothAsked(t, i) && t[i].generation in s.pins && s.pins[t[i].generation] == t[i].direction
    {
      if i < |s.trace| {
        BothAskedLater(s.trace, e, i);
      } else {
        assert t[..i] == s.trace;
      }
    }
  }

  lemma RisingNext(s: State, b: Batch, e: Event)
    requires TraceOk(s) && DoneOk(s, b) && e.Executed? && e.generation == b.generation && e.round > b.done
    ensures var t := s.trace + [e];
            forall i, j | 0 <= i < j < |t| && t[i].Executed? && t[j].Executed? && t[i].generation == t[j].generation ::
              t[i].round < t[j].round
  {
    var t := s.trace + [e];
    forall i, j | 0 <= i < j < |t| && t[i].Executed? && t[j].Executed? && t[i].generation == t[j].generation
      ensures t[i].round < t[j].round
    {
      assert t[i] == s.trace[i] && s.trace[i] in s.trace;
    }
  }

  lemma ExecutedTrace(s: State, b: Batch, d: Direction, r: int)
    requires Inv(s) && s.batch == Some(b) && b.direction == Some(d) && r > b.done
    requires Accepted(b.generation, d.src, Send, r) in s.trace && Accepted(b.generation, d.dst, Recv, r) in s.trace
    ensures TraceOk(Log(s, Executed(b.generation, r, d)))
  {
    AskedNext(s, Executed(b.generation, r, d));
    RisingNext(s, b, Executed(b.generation, r, d));
  }

  ghost function Ran(s: State, b: Batch, d: Direction, r: int): State {
    Log(s.(batch := Some(Without(b, r).(done := r)), signal := r), Executed(b.generation, r, d))
  }

  lemma RanBatchOk(s: State, b: Batch, d: Direction, r: int)
    requires Inv(s) && s.batch == Some(b) && b.direction == Some(d) && r > b.done && d in b.buckets
    ensures BatchOk(Ran(s, b, d, r), Without(b, r).(done := r))
  {
    var b', s' := Without(b, r).(done := r), Ran(s, b, d, r);
    var e := Executed(b.generation, r, d);
    forall k | k in b'.parked ensures EntryOk(s', b', k) {
      assert EntryOk(s, b, k);
      EntryLater(s, b, k, e);
    }
    assert e in s'.trace;
    assert DoneOk(s', b');
    assert RegistrationOk(s', b') by {
      assert Both(b.roles);
      assert Completed(b.generation) in s.trace;
    }
  }

  /** Running a round, before anyone is woken. */
  lemma RunKeeps(s: State, b: Batch, d: Direction, r: int)
    requires Inv(s) && s.batch == Some(b) && b.direction == Some(d) && r > b.done && d in b.buckets
    requires Accepted(b.generation, d.src, Send, r) in s.trace && Accepted(b.generation, d.dst, Recv, r) in s.trace
    ensures Inv(Ran(s, b, d, r))
  {
    ExecutedTrace(s, b, d, r);
    RanBatchOk(s, b, d, r);
    LogPostsOk(s, Executed(b.generation, r, d));
    var s1, s' := Log(s, Executed(b.generation, r, d)), Ran(s, b, d, r);
    HistoryCarries(s1, s');
  }

  /** The trace and the posts do not depend on the rest. */
  lemma HistoryCarries(s: State, s': State)
    requires s'.trace == s.trace && s'.pins == s.pins && s'.posted == s.posted && s'.errors == s.errors
    requires s'.issued == s.issued
    requires TraceOk(s) && PostsOk(s)
    ensures TraceOk(s') && PostsOk(s')
  {
    forall x | x in s'.posted && x !in s'.errors ensures Earned(s', x) {
      assert Earned(s, x);
    }
  }

  lemma RanEarns(s: State, b: Batch, d: Direction, m: Command, x: Sem)
    requires SemsOk(s, b) && m.Transfer? && m.role.Some? && Own(s, m, ForTransfer(b.generation, m.round))
    requires x in Elements(Joined(b, m).sems) + OptSet(m.sem)
    ensures Earned(Ran(s, b, d, m.round), x)
  {
    assert x in Elements(Entry(b, m.round).sems) || x in OptSet(m.sem);
    assert s.issued[x] == ForTransfer(b.generation, m.round);
    assert Executed(b.generation, m.round, d) in Ran(s, b, d, m.round).trace;
  }

  lemma ExecuteKeeps(s: State, b: Batch, d: Direction, m: Command)
    requires Inv(s) && s.batch == Some(b) && b.direction == Some(d) && m.Transfer? && m.role.Some? && m.round > b.done
    requires d in b.buckets && Own(s, m, ForTransfer(b.generation, m.round))
    requires Accepted(b.generation, d.src, Send, m.round) in s.trace
    requires Accepted(b.generation, d.dst, Recv, m.round) in s.trace
    ensures Inv(ExecuteRound(s, b, d, m))
  {
    RunKeeps(s, b, d, m.round);
    RemoveKeeps(s, b, m.round);
    var s1 := Ran(s, b, d, m.round);
    var sems := Elements(Joined(b, m).sems) + OptSet(m.sem);
    forall x | x in sems ensures Earned(s1, x) && x !in ParkedSems(s1.batch.value) {
      RanEarns(s, b, d, m, x);
      assert x in Elements(Entry(b, m.round).sems) || x in OptSet(m.sem);
    }
    PostKeeps(s1, sems);
  }

  lemma FailRoundKeeps(s: State, b: Batch, d: Direction, m: Command)
    requires Inv(s) && s.batch == Some(b) && m.Transfer? && m.role.Some?
    requires Own(s, m, ForTransfer(b.generation, m.round))
    ensures Inv(FailRound(s, b, d, m))
  {
    RemoveKeeps(s, b, m.round);
    var s0 := s.(batch := Some(Without(b, m.round)));
    var s1 := s0.(requests := s.requests[d := b.done]);
    SameCoreKeeps(s0, s1);
    var sems := Elements(Joined(b, m).sems) + OptSet(m.sem);
    forall x | x in sems ensures x in s1.issued && x !in ParkedSems(s1.batch.value) {
      assert x in Elements(Entry(b, m.round).sems) || x in OptSet(m.sem);
      assert s.issued[x] == ForTransfer(b.generation, m.round);
    }
    FailKeeps(s1, sems);
  }

  lemma PublishKeeps(s: State, b: Batch, d: Direction, round: int)
    requires Inv(s) && s.batch == Some(b)
    ensures var s0 := Publish(s, b, d, round);
            Inv(s0) && s0 == s.(requests := s0.requests)
  {
    SameCoreKeeps(s, Publish(s, b, d, round));
  }

  lemma AdmitKeeps(s: State, b: Batch, d: Direction, m: Command)
    requires Inv(s) && s.batch == Some(b) && b.direction == Some(d) && m.Transfer? && IsPeer(m.role)
    requires m.round >= 0 && m.round > b.done && DirectionOf(m.role.value, m.kind) == d
    requires Own(s, m, ForTransfer(b.generation, m.round))
    ensures Inv(Admit(s, b, d, m))
  {
    PublishKeeps(s, b, d, m.round);
    AcceptKeeps(Publish(s, b, d, m.round), b, d, m);
  }

  lemma AcceptKeeps(s: State, b: Batch, d: Direction, m: Command)
    requires Inv(s) && s.batch == Some(b) && b.direction == Some(d) && m.Transfer? && IsPeer(m.role)
    requires m.round >= 0 && m.round > b.done && DirectionOf(m.role.value, m.kind) == d
    requires Own(s, m, ForTransfer(b.generation, m.round))
    ensures Inv(Settled(Log(s, Accepted(b.generation, m.role.value, m.kind, m.round)), b, d, m))
  {
    var e := Accepted(b.generation, m.role.value, m.kind, m.round);
    LogKeeps(s, e);
    assert e in Log(s, e).trace;
    SettleKeeps(Log(s, e), b, d, m);
  }

  /** With the acceptance logged, the entry parks, runs or fails. */
  lemma SettleKeeps(s: State, b: Batch, d: Direction, m: Command)
    requires Inv(s) && s.batch == Some(b) && b.direction == Some(d) && m.Transfer? && IsPeer(m.role)
    requires m.round >= 0 && m.round > b.done && DirectionOf(m.role.value, m.kind) == d
    requires Own(s, m, ForTransfer(b.generation, m.round))
    requires Accepted(b.generation, m.role.value, m.kind, m.round) in s.trace
    ensures Inv(Settled(s, b, d, m))
  {
    JoinedRoles(s, b, m);
    assert m.kind == KindFor(d, m.role.value);
    if |Joined(b, m).roles| < 2 {
      ParkKeeps(s, b, m);
    } else if CanExecute(b, d, m) {
      ExecuteKeeps(s, b, d, m);
    } else {
      FailRoundKeeps(s, b, d, m);
    }
  }

  /** An executed round or an earlier one: everyone on it is woken without an error. */
  lemma LateKeeps(s: State, b: Batch, m: Command)
    requires Inv(s) && s.batch == Some(b) && m.Transfer? && 0 <= m.round <= b.done
    requires Own(s, m, ForTransfer(b.generation, m.round))
    ensures Inv(Post(Acknowledge(s, b, m.round), OptSet(m.sem)))
  {
    AcknowledgeKeeps(s, b, m.round);
    var s2 := Acknowledge(s, b, m.round);
    assert Executed(b.generation, b.done, b.direction.value) in s2.trace;
    PostKeeps(s2, OptSet(m.sem));
  }

  lemma TransferKeeps(s: State, m: Command)
    requires Inv(s) && m.Transfer? && Own(s, m, ForTransfer(LiveGeneration(s), m.round))
    ensures Inv(TransferStep(s, m))
  {
    if BadTransfer(s, m) {
      FailKeeps(s, OptSet(m.sem));
    } else {
      var b0, d := s.batch.value, DirectionOf(m.role.value, m.kind);
      PinKeeps(s, b0, d);
      var s1 := Pin(s, b0, d);
      var b := s1.batch.value;
      if Pinned(s, b0, d) != d {
        FailKeeps(s1, OptSet(m.sem));
      } else if m.round <= b.done {
        LateKeeps(s1, b, m);
      } else {
        AdmitKeeps(s1, b, d, m);
      }
    }
  }

  // ------------------------------------------------------------------------------------------
  // Register, Cleanup, Query

  lemma DropKeeps(s: State)
    requires Inv(s)
    ensures Inv(s.(batch := None))
  {
    HistoryCarries(s, s.(batch := None));
  }

  lemma AbortKeeps(s: State, sems: set<Sem>)
    requires Inv(s) && s.batch.Some? && forall x :: x in sems ==> x in s.issued
    ensures Inv(Fail(Abort(s), sems))
  {
    DropKeeps(s);
    var s1 := s.(batch := None);
    FailKeeps(s1, Elements(s.batch.value.waiting));
    FailKeeps(Abort(s), sems);
  }

  /** A new generation with nobody registered yet: only its number is taken. */
  lemma OpenKeeps(s: State)
    requires Inv(s) && s.batch.None?
    ensures Inv(s.(lastGeneration := s.lastGeneration + 1))
  {
    HistoryCarries(s, s.(lastGeneration := s.lastGeneration + 1));
  }

  lemma FirstRole(s: State, m: Command)
    requires Inv(s) && s.batch.None? && m.Register? && IsPeer(m.role) && Own(s, m, ForRegister(s.lastGeneration + 1))
    ensures var s1 := Opened(s, m); Inv(RegisterRole(s1, s1.batch.value, m))
  {
    var s1 := Opened(s, m);
    var s' := RegisterRole(s1, s1.batch.value, m);
    var role := m.role.value;
    assert {} + {role} == {role};
    assert s'.batch.value.roles == {role};
    OpenKeeps(s);
    HistoryCarries(s, s');
    forall e | e in s.trace && e.Executed? ensures e.generation <= s.lastGeneration {
    }
    assert BatchOk(s', s'.batch.value);
  }

  lemma SecondRoleIs(s: State, b: Batch, m: Command)
    requires Inv(s) && s.batch == Some(b) && m.Register? && IsPeer(m.role) && m.role.value !in b.roles
    ensures RegisterRole(s, b, m) ==
            if m.generated.None? then Fail(Abort(s), OptSet(m.sem))
            else Post(Registered(s, b, m.generated.value), Elements(b.waiting) + OptSet(m.sem))
  {
    assert One(b.roles);
    assert b.roles + {m.role.value} == {First, Second};
    assert |{First, Second}| == 2;
  }

  lemma SecondRole(s: State, b: Batch, m: Command)
    requires Inv(s) && s.batch == Some(b) && m.Register? && IsPeer(m.role) && m.role.value !in b.roles
    requires Own(s, m, ForRegister(b.generation))
    ensures Inv(RegisterRole(s, b, m))
  {
    SecondRoleIs(s, b, m);
    if m.generated.None? {
      AbortKeeps(s, OptSet(m.sem));
    } else {
      RegisterSems(s, b, m);
      CompletionWakes(s, b, m.generated.value, Elements(b.waiting) + OptSet(m.sem));
    }
  }

  lemma RegisterSems(s: State, b: Batch, m: Command)
    requires SemsOk(s, b) && s.batch == Some(b) && Own(s, m, ForRegister(b.generation))
    ensures forall x :: x in Elements(b.waiting) + OptSet(m.sem) ==>
      x in s.issued && s.issued[x] == ForRegister(b.generation)
    ensures Elements(b.waiting) + OptSet(m.sem) !! RoundSems(b)
  {
    forall x | x in RoundSems(b) ensures x !in Elements(b.waiting) + OptSet(m.sem) {
      var r :| r in b.parked && x in b.parked[r].sems;
      assert s.issued[x] == ForTransfer(b.generation, r);
    }
  }

  lemma CompletionWakes(s: State, b: Batch, buckets: map<Direction, bool>, sems: set<Sem>)
    requires Inv(s) && s.batch == Some(b)
    requires forall x :: x in sems ==> x in s.issued && s.issued[x] == ForRegister(b.generation)
    requires sems !! RoundSems(b)
    ensures Inv(Post(Registered(s, b, buckets), sems))
  {
    CompleteKeeps(s, b, buckets);
    var s1 := Registered(s, b, buckets);
    assert Completed(b.generation) in s1.trace;
    assert ParkedSems(s1.batch.value) == RoundSems(b);
    PostKeeps(s1, sems);
  }

  ghost function Registered(s: State, b: Batch, buckets: map<Direction, bool>): State {
    Log(s.(batch := Some(b.(roles := {First, Second}, buckets := buckets, waiting := []))), Completed(b.generation))
  }

  lemma CompleteBatchOk(s: State, b: Batch, b': Batch)
    requires BatchOk(s, b) && Completed(b.generation) in s.trace
    requires b' == b.(roles := {First, Second}, buckets := b'.buckets, waiting := [])
    ensures BatchOk(s, b')
  {
    forall r | r in b'.parked ensures EntryOk(s, b', r) {
      assert EntryOk(s, b, r);
    }
  }

  lemma CompleteKeeps(s: State, b: Batch, buckets: map<Direction, bool>)
    requires Inv(s) && s.batch == Some(b)
    ensures Inv(Registered(s, b, buckets))
  {
    var e := Completed(b.generation);
    LogKeeps(s, e);
    var s1, s' := Log(s, e), Registered(s, b, buckets);
    HistoryCarries(s1, s');
    assert e in s1.trace;
    CompleteBatchOk(s1, b, s'.batch.value);
    BatchCarries(s1, s', s'.batch.value);
  }

  lemma RegisterKeeps(s: State, m: Command)
    requires Inv(s) && m.Register? && Own(s, m, PurposeOf(s, m))
    ensures Inv(RegisterStep(s, m))
  {
    if Refused(s, m) {
      if s.batch.Some? && s.batch.value.waiting != [] {
        AbortKeeps(s, OptSet(m.sem));
      } else {
        FailKeeps(s, OptSet(m.sem));
      }
    } else if s.batch.None? {
      if LayoutChanged(s, m) {
        OpenKeeps(s);
        var s1 := s.(lastGeneration := s.lastGeneration + 1);
        assert Abort(Opened(s, m)) == s1;
        FailKeeps(s1, OptSet(m.sem));
      } else {
        FirstRole(s, m);
      }
    } else {
      var b := s.batch.value;
      if LayoutChanged(s, m) {
        AbortKeeps(s, OptSet(m.sem));
      } else {
        assert m.signature.pairs * b.signature.pairs == m.signature.pairs;
        SecondRole(s, b, m);
      }
    }
  }

  lemma CleanupKeeps(s: State, m: Command)
    requires Inv(s) && m.Cleanup? && Own(s, m, ForOther)
    ensures Inv(CleanupStep(s, m))
  {
    if s.batch.None? || Stale(m.generation, s.batch.value) {
      PostKeeps(s, OptSet(m.sem));
    } else {
      var b := s.batch.value;
      DropKeeps(s);
      var s0 := s.(batch := None);
      FailKeeps(s0, ParkedSems(b));
      var s1 := Fail(s0, ParkedSems(b));
      var s2 := s1.(signal := -1, requests := ResetRequests(s, b));
      SameCoreKeeps(s1, s2);
      PostKeeps(s2, OptSet(m.sem));
      assert CleanupStep(s, m) == Post(s2, OptSet(m.sem));
    }
  }

  lemma QueryKeeps(s: State, m: Command)
    requires Inv(s) && m.Query? && Own(s, m, ForOther)
    ensures Inv(QueryStep(s, m))
  {
    var s1 := Recorded(s, m);
    SameCoreKeeps(s, s1);
    PostKeeps(s1, OptSet(m.sem));
  }

  lemma StepKeeps(s: State, m: Command)
    requires Inv(s) && Fresh(s, m)
    ensures Inv(Step(s, m))
  {
    IssueKeeps(s, m);
    var s1 := Issue(s, m.sem, PurposeOf(s, m));
    assert Own(s1, m, PurposeOf(s, m));
    match m
    case Register(_, _, _, _, _, _, _, _, _) => RegisterKeeps(s1, m);
    case Transfer(_, _, _, _, _, _) => TransferKeeps(s1, m);
    case Cleanup(_, _) => CleanupKeeps(s1, m);
    case Query(_, _, _) => QueryKeeps(s1, m);
  }

  lemma {:induction false} RunKeepsInv(cmds: seq<Command>)
    requires IsRun(cmds)
    ensures Inv(After(cmds))
  {
    if cmds != [] {
      RunKeepsInv(cmds[..|cmds| - 1]);
      StepKeeps(After(cmds[..|cmds| - 1]), cmds[|cmds| - 1]);
    }
  }

  // ------------------------------------------------------------------------------------------
  // What it comes to

  /** Within a generation the executed rounds strictly increase and keep one direction. */
  lemma RoundsIncrease(cmds: seq<Command>, i: nat, j: nat)
    requires IsRun(cmds) && i < j < |After(cmds).trace|
    requires After(cmds).trace[i].Executed? && After(cmds).trace[j].Executed?
    requires After(cmds).trace[i].generation == After(cmds).trace[j].generation
    ensures After(cmds).trace[i].round < After(cmds).trace[j].round
    ensures After(cmds).trace[i].direction == After(cmds).trace[j].direction
  {
    RunKeepsInv(cmds);
  }

  /** A round runs only after the source's send and the destination's recv for it were accepted. */
  lemma RoundsNeedBothRoles(cmds: seq<Command>, i: nat)
    requires IsRun(cmds) && i < |After(cmds).trace| && After(cmds).trace[i].Executed?
    ensures BothAsked(After(cmds).trace, i)
    ensures Proper(After(cmds).trace[i].direction)
  {
    RunKeepsInv(cmds);
  }

  /** Between commands every parked entry holds exactly one role. */
  lemma ParkedHoldOneRole(cmds: seq<Command>, r: int)
    requires IsRun(cmds) && After(cmds).batch.Some? && r in After(cmds).batch.value.parked
    ensures |After(cmds).batch.value.parked[r].roles| == 1
  {
    RunKeepsInv(cmds);
    var s := After(cmds);
    assert EntryOk(s, s.batch.value, r);
  }

  /** Fail closed: a wake-up without an error means the registration completed or the round was reached. */
  lemma WakeUpsAreEarned(cmds: seq<Command>, x: Sem)
    requires IsRun(cmds) && x in After(cmds).posted && x !in After(cmds).errors
    ensures Earned(After(cmds), x)
  {
    RunKeepsInv(cmds);
  }
}
