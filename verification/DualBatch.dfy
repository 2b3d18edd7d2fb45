/**
 The dual-endpoint (colocated) batch of one agent (src/etha/tensor_bus/agent.py): both roles
 register into one batch, a direction-round runs once both roles asked for it, and blocking callers
 wait on semaphores that the agent parks.

 The state is that of the batch's leader for one batch id. What other ranks contributed to a
 gather is part of the command, as are the buckets that generation produced.
*/
module DualBatch {
  import opened Base

  type Sem = nat

  /** The pair's two peer names; anything else is foreign to the pair. */
  datatype Role = First | Second | Foreign

  datatype Direction = Direction(src: Role, dst: Role)

  datatype Kind = Send | Recv

  /** The gathered layout: pair names, and everything else that both registrations must agree on. */
  datatype Signature = Signature(pairs: set<nat>, rest: nat)

  /** The state names a query knows; `TransferFlag` is the boolean signal of split batches. */
  datatype Probe = TransferFlag | CompletionRound | RequestRound(direction: Direction) | UnknownState

  datatype Reply = Round(round: int) | Flag(on: bool)

  /** `mixOk`, `membershipOk` and the `others…` flags are what the WORLD gather showed. */
  datatype Command =
    | Register(sem: Option<Sem>, role: Option<Role>, signature: Signature, mixOk: bool, membershipOk: bool,
               othersDup: bool, othersBad: bool, othersDiffer: bool, generated: Option<map<Direction, bool>>)
    | Transfer(sem: Option<Sem>, role: Option<Role>, kind: Kind, round: int, generation: nat, mixedRounds: bool)
    | Cleanup(sem: Option<Sem>, generation: nat)
    | Query(sem: Option<Sem>, probe: Probe, generation: nat)

  datatype Parked = Parked(roles: set<Role>, sems: seq<Sem>)

  /** `buckets[d]` is false where the direction's target is Partial; `done` is -1 before the first round. */
  datatype Batch = Batch(
    generation: nat, signature: Signature, roles: set<Role>, waiting: seq<Sem>, buckets: map<Direction, bool>,
    direction: Option<Direction>, done: int, parked: map<int, Parked>)

  datatype Purpose = ForRegister(generation: nat) | ForTransfer(generation: nat, round: int) | ForOther

  datatype Event =
    | Accepted(generation: nat, role: Role, kind: Kind, round: int)
    | Executed(generation: nat, round: int, direction: Direction)
    | Completed(generation: nat)

  /** `signal`, `requests` and `pins` are store keys; `results` and `board` are what queries answered, to a
   waiting client or under the state's own name; `trace` records what happened, for reasoning only. */
  datatype State = State(
    batch: Option<Batch>, lastGeneration: nat, signal: int, requests: map<Direction, int>, pins: map<nat, Direction>,
    issued: map<Sem, Purpose>, posted: set<Sem>, errors: set<Sem>, results: map<Sem, Reply>,
    board: map<Probe, Reply>, trace: seq<Event>)

  function Elements(sems: seq<Sem>): set<Sem> {
    set x | x in sems
  }

  function OptSet(sem: Option<Sem>): set<Sem> {
    if sem.Some? then {sem.value} else {}
  }

  function OptSeq(sem: Option<Sem>): seq<Sem> {
    if sem.Some? then [sem.value] else []
  }

  /** Post-then-unlink: a second release of the same name does nothing, so posts form a set. */
  function Post(s: State, sems: set<Sem>): State {
    s.(posted := s.posted + sems)
  }

  /** The error is recorded before the waiter is woken. */
  function Fail(s: State, sems: set<Sem>): State {
    s.(errors := s.errors + sems, posted := s.posted + sems)
  }

  function Issue(s: State, sem: Option<Sem>, why: Purpose): State {
    if sem.Some? then s.(issued := s.issued[sem.value := why]) else s
  }

  function Log(s: State, e: Event): State {
    s.(trace := s.trace + [e])
  }

  function Other(r: Role): Role {
    if r == First then Second else First
  }

  function DirectionOf(role: Role, kind: Kind): Direction {
    if kind == Send then Direction(role, Other(role)) else Direction(Other(role), role)
  }

  /** A command that names a generation other than the live one. */
  predicate Stale(generation: nat, b: Batch) {
    generation != 0 && b.generation != 0 && generation != b.generation
  }

  predicate IsPeer(role: Option<Role>) {
    role.Some? && role.value != Foreign
  }

  function RequestOf(s: State, d: Direction): int {
    if d in s.requests then s.requests[d] else -1
  }

  // ------------------------------------------------------------------------------------------
  // Transfer

  function Pinned(s: State, b: Batch, d: Direction): Direction {
    if b.direction.Some? then b.direction.value
    else if b.generation in s.pins then s.pins[b.generation]
    else d
  }

  function Pin(s: State, b: Batch, d: Direction): State {
    if b.direction.Some? then s
    else s.(pins := s.pins[b.generation := Pinned(s, b, d)],
            batch := Some(b.(direction := Some(Pinned(s, b, d)))))
  }

  /** A round at or below the last executed one: wake whoever is still parked on it. */
  function Acknowledge(s: State, b: Batch, round: int): State {
    if round in b.parked
    then Post(s.(batch := Some(b.(parked := b.parked - {round}))), Elements(b.parked[round].sems))
    else s
  }

  function Entry(b: Batch, round: int): Parked {
    if round in b.parked then b.parked[round] else Parked({}, [])
  }

  /** The entry with this command in it. */
  function Joined(b: Batch, m: Command): Parked
    requires m.Transfer? && m.role.Some?
  {
    var e := Entry(b, m.round);
    Parked(e.roles + {m.role.value}, e.sems + OptSeq(m.sem))
  }

  /** The request key only grows, and is published when the entry is first used. */
  function Publish(s: State, b: Batch, d: Direction, round: int): State {
    if Entry(b, round).roles == {} && round > RequestOf(s, d) then s.(requests := s.requests[d := round]) else s
  }

  function Park(s: State, b: Batch, m: Command): State
    requires m.Transfer? && m.role.Some?
  {
    s.(batch := Some(b.(parked := b.parked[m.round := Joined(b, m)])))
  }

  predicate CanExecute(b: Batch, d: Direction, m: Command)
    requires m.Transfer?
  {
    d in b.buckets && b.buckets[d] && !m.mixedRounds
  }

  function ExecuteRound(s: State, b: Batch, d: Direction, m: Command): State
    requires m.Transfer? && m.role.Some?
  {
    var done := b.(done := m.round, parked := b.parked - {m.round});
    var ran := Log(s.(batch := Some(done), signal := m.round), Executed(b.generation, m.round, d));
    Post(ran, Elements(Joined(b, m).sems) + OptSet(m.sem))
  }

  /** The round is dropped, its waiters fail, and the request falls back to the last executed round. */
  function FailRound(s: State, b: Batch, d: Direction, m: Command): State
    requires m.Transfer? && m.role.Some?
  {
    var dropped := s.(batch := Some(b.(parked := b.parked - {m.round})), requests := s.requests[d := b.done]);
    Fail(dropped, Elements(Joined(b, m).sems) + OptSet(m.sem))
  }

  function Settled(s: State, b: Batch, d: Direction, m: Command): State
    requires m.Transfer? && m.role.Some?
  {
    if |Joined(b, m).roles| < 2 then Park(s, b, m)
    else if CanExecute(b, d, m) then ExecuteRound(s, b, d, m)
    else FailRound(s, b, d, m)
  }

  function Admit(s: State, b: Batch, d: Direction, m: Command): State
    requires m.Transfer? && m.role.Some?
  {
    Settled(Log(Publish(s, b, d, m.round), Accepted(b.generation, m.role.value, m.kind, m.round)), b, d, m)
  }

  predicate BadTransfer(s: State, m: Command)
    requires m.Transfer?
  {
    s.batch.None? || Stale(m.generation, s.batch.value) || !IsPeer(m.role) || m.round < 0
  }

  function TransferStep(s: State, m: Command): State
    requires m.Transfer?
  {
    if BadTransfer(s, m) then Fail(s, OptSet(m.sem))
    else
      var d := DirectionOf(m.role.value, m.kind);
      var s1 := Pin(s, s.batch.value, d);
      var b := s1.batch.value;
      if Pinned(s, s.batch.value, d) != d then Fail(s1, OptSet(m.sem))
      else if m.round <= b.done then Post(Acknowledge(s1, b, m.round), OptSet(m.sem))
      else Admit(s1, b, d, m)
  }

  // ------------------------------------------------------------------------------------------
  // Register

  /** Wakes parked registrations with the error and drops the batch, and only that. */
  function Abort(s: State): State
    requires s.batch.Some?
  {
    Fail(s.(batch := None), Elements(s.batch.value.waiting))
  }

  function AbortIfWaiting(s: State): State {
    if s.batch.Some? && s.batch.value.waiting != [] then Abort(s) else s
  }

  predicate Duplicate(s: State, m: Command)
    requires m.Register?
  {
    m.othersDup ||
    (s.batch.Some? && m.role.Some? && m.role.value in s.batch.value.roles &&
     m.signature.pairs * s.batch.value.signature.pairs != {})
  }

  predicate Refused(s: State, m: Command)
    requires m.Register?
  {
    Duplicate(s, m) || m.othersBad || !m.mixOk || !IsPeer(m.role) || m.signature.pairs == {} || !m.membershipOk
  }

  function Opened(s: State, m: Command): State
    requires m.Register?
  {
    if s.batch.Some? then s
    else s.(lastGeneration := s.lastGeneration + 1,
            batch := Some(Batch(s.lastGeneration + 1, m.signature, {}, [], map[], None, -1, map[])))
  }

  predicate LayoutChanged(s: State, m: Command)
    requires m.Register?
  {
    m.othersDiffer || (s.batch.Some? && s.batch.value.signature != m.signature)
  }

  function RegisterRole(s: State, b: Batch, m: Command): State
    requires m.Register? && m.role.Some?
  {
    var b1 := b.(roles := b.roles + {m.role.value});
    if |b1.roles| < 2 then s.(batch := Some(b1.(waiting := b1.waiting + OptSeq(m.sem))))
    else if m.generated.None? then Fail(Abort(s.(batch := Some(b1))), OptSet(m.sem))
    else
      var b2 := b1.(buckets := m.generated.value, waiting := []);
      Post(Log(s.(batch := Some(b2)), Completed(b.generation)), Elements(b.waiting) + OptSet(m.sem))
  }

  function RegisterStep(s: State, m: Command): State
    requires m.Register?
  {
    if Refused(s, m) then Fail(AbortIfWaiting(s), OptSet(m.sem))
    else
      var s1 := Opened(s, m);
      if LayoutChanged(s, m) then Fail(Abort(s1), OptSet(m.sem)) else RegisterRole(s1, s1.batch.value, m)
  }

  // ------------------------------------------------------------------------------------------
  // Cleanup and Query

  /** Every semaphore parked on some direction-round. */
  function RoundSems(b: Batch): set<Sem> {
    set r, x | r in b.parked && x in b.parked[r].sems :: x
  }

  function ParkedSems(b: Batch): set<Sem> {
    Elements(b.waiting) + RoundSems(b)
  }

  /** The directions whose request key is reset. */
  function ResetDirections(b: Batch): set<Direction> {
    b.buckets.Keys + if b.direction.Some? then {b.direction.value} else {}
  }

  function ResetRequests(s: State, b: Batch): map<Direction, int> {
    map d | d in s.requests.Keys + ResetDirections(b) :: if d in ResetDirections(b) then -1 else s.requests[d]
  }

  function CleanupStep(s: State, m: Command): State
    requires m.Cleanup?
  {
    if s.batch.None? || Stale(m.generation, s.batch.value) then Post(s, OptSet(m.sem))
    else
      var b := s.batch.value;
      var s1 := Fail(s, ParkedSems(b));
      Post(s1.(batch := None, signal := -1, requests := ResetRequests(s, b)), OptSet(m.sem))
  }

  /** A colocated batch never sets the boolean signal. */
  function Answer(s: State, m: Command): Option<Reply>
    requires m.Query?
  {
    if s.batch.None? then None
    else if Stale(m.generation, s.batch.value) then Some(if m.probe == TransferFlag then Flag(false) else Round(-1))
    else match m.probe
      case TransferFlag => Some(Flag(false))
      case CompletionRound => Some(Round(s.signal))
      case RequestRound(d) => Some(Round(RequestOf(s, d)))
      case UnknownState => None
  }

  /** To the waiting client, or under the state's own name when nobody waits. */
  function Recorded(s: State, m: Command): State
    requires m.Query?
  {
    var a := Answer(s, m);
    if a.None? then s
    else if m.sem.Some? then s.(results := s.results[m.sem.value := a.value])
    else s.(board := s.board[m.probe := a.value])
  }

  function QueryStep(s: State, m: Command): State
    requires m.Query?
  {
    Post(Recorded(s, m), OptSet(m.sem))
  }

  // ------------------------------------------------------------------------------------------
  // One command

  function LiveGeneration(s: State): nat {
    if s.batch.Some? then s.batch.value.generation else 0
  }

  /** What the waiting client asked for, fixed when the command is taken. */
  function PurposeOf(s: State, m: Command): Purpose {
    match m
    case Register(_, _, _, _, _, _, _, _, _) =>
      ForRegister(if s.batch.Some? then s.batch.value.generation else s.lastGeneration + 1)
    case Transfer(_, _, _, round, _, _) => ForTransfer(LiveGeneration(s), round)
    case _ => ForOther
  }

  function Handled(s: State, m: Command): State {
    match m
    case Register(_, _, _, _, _, _, _, _, _) => RegisterStep(s, m)
    case Transfer(_, _, _, _, _, _) => TransferStep(s, m)
    case Cleanup(_, _) => CleanupStep(s, m)
    case Query(_, _, _) => QueryStep(s, m)
  }

  function Step(s: State, m: Command): State {
    Handled(Issue(s, m.sem, PurposeOf(s, m)), m)
  }

  const BOOT := State(None, 0, -1, map[], map[], map[], {}, {}, map[], map[], [])

  /** Clients create a fresh semaphore for every command. */
  predicate Fresh(s: State, m: Command) {
    m.sem.Some? ==> m.sem.value !in s.issued
  }

  function After(cmds: seq<Command>): State {
    if cmds == [] then BOOT else Step(After(cmds[..|cmds| - 1]), cmds[|cmds| - 1])
  }

  predicate IsRun(cmds: seq<Command>) {
    cmds == [] || (IsRun(cmds[..|cmds| - 1]) && Fresh(After(cmds[..|cmds| - 1]), cmds[|cmds| - 1]))
  }
}
