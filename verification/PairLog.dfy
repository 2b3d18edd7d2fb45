/**
 Pair completion through the store (src/etha/tensor_bus/agent.py): N agents write their InitPair
 keys, the leader appends ready pairs to a log, and every agent completes pairs in log order. Agents
 interleave step by step over one store; a readiness check sees one snapshot of it.
*/
module PairLog {
  import opened Base

  type Sem = nat

  /** A registration key: one rank joined one side (peer name) of a pair. */
  datatype Key = Key(pair: nat, name: nat, rank: nat)

  datatype Side = Side(pair: nat, name: nat)

  /** A pickled mesh shape or placement list. */
  datatype Payload = Unreadable | Value(v: nat)

  datatype Init = Init(
    pair: nat, local: nat, remote: nat, size: nat, sem: Option<Sem>, mesh: Option<Payload>, placements: Option<Payload>)

  datatype Pending = Pending(local: nat, remote: nat, expected: map<nat, nat>, sems: seq<Sem>)

  /** How far an InitPair has come: registered, own size written, shared size compared, then written, layout written. */
  datatype Progress = Registered | Written | Checked | Sized | Published

  /** What a rank's single thread is in the middle of. */
  datatype Phase =
    | Idle
    | Writing(msg: Init, progress: Progress)
    | Appending(todo: set<nat>)
    | Consuming

  /** What a matched pair is known by. */
  datatype Known = Known(local: nat, remote: nat, localSize: nat, remoteSize: nat)

  /** `seen` and `completed` record, for reasoning, the entries read and the log positions completed. */
  datatype RankState = RankState(
    phase: Phase, pending: map<nat, Pending>, matched: set<nat>, known: map<nat, Known>, cursor: nat, seen: seq<nat>,
    completed: seq<nat>)

  /** `counted` and `midway` record who the readiness check counted, and who of them was still writing. */
  datatype Entry = Entry(pair: nat, counted: set<nat>, midway: set<nat>)

  /** `rejected` records, for reasoning, the InitPairs refused after they had written their keys. */
  datatype World = World(
    ranks: seq<RankState>, registered: set<Key>, sizes: map<Key, nat>, expected: map<Side, nat>,
    layouts: map<Key, (Payload, Payload)>, marked: set<nat>, log: seq<Entry>, issued: map<Sem, Key>, posted: set<Sem>,
    errors: set<Sem>, rejected: set<Key>)

  datatype Action =
    | Begin(rank: nat, msg: Init)
    | WriteSize(rank: nat)
    | Check(rank: nat)
    | Publish(rank: nat)
    | WriteLayout(rank: nat)
    | Finish(rank: nat)
    | StartPoll(rank: nat)
    | AppendNext
    | StartConsuming
    | Consume(rank: nat, ok: bool)
    | EndPoll(rank: nat)

  function OptSet(sem: Option<Sem>): set<Sem> {
    if sem.Some? then {sem.value} else {}
  }

  function OptSeq(sem: Option<Sem>): seq<Sem> {
    if sem.Some? then [sem.value] else []
  }

  function Elements(sems: seq<Sem>): set<Sem> {
    set x | x in sems
  }

  ghost predicate Rising(q: seq<nat>) {
    forall i, j :: 0 <= i < j < |q| ==> q[i] < q[j]
  }

  function Set(w: World, r: nat, s: RankState): World
    requires r < |w.ranks|
  {
    w.(ranks := w.ranks[r := s])
  }

  // ------------------------------------------------------------------------------------------
  // Readiness

  function Present(w: World, pair: nat, name: nat): set<nat> {
    set k | k in w.registered && k.pair == pair && k.name == name :: k.rank
  }

  /** Everybody present names the same size, and that many are present. */
  predicate SideReady(w: World, pair: nat, name: nat) {
    var here := Present(w, pair, name);
    && here != {}
    && (forall r :: r in here ==> Key(pair, name, r) in w.sizes && w.sizes[Key(pair, name, r)] == |here|)
  }

  predicate PairReady(w: World, pair: nat, p: Pending) {
    SideReady(w, pair, p.local) && SideReady(w, pair, p.remote)
  }

  function Counted(w: World, pair: nat, p: Pending): set<nat> {
    Present(w, pair, p.local) + Present(w, pair, p.remote)
  }

  predicate IsWriting(s: RankState, pair: nat) {
    s.phase.Writing? && s.phase.msg.pair == pair
  }

  function Midway(w: World, pair: nat, counted: set<nat>): set<nat> {
    set r | r in counted && r < |w.ranks| && IsWriting(w.ranks[r], pair)
  }

  // ------------------------------------------------------------------------------------------
  // InitPair

  /** Refused before anything is written. */
  predicate RefusedEarly(s: RankState, m: Init) {
    m.pair in s.pending &&
    var p := s.pending[m.pair];
    || m.local !in {p.local, p.remote} || m.remote !in {p.local, p.remote}
    || (m.local in p.expected && p.expected[m.local] != m.size)
  }

  function Issue(w: World, r: nat, m: Init): World {
    if m.sem.Some? then w.(issued := w.issued[m.sem.value := Key(m.pair, m.local, r)]) else w
  }

  function Post(w: World, sems: set<Sem>): World {
    w.(posted := w.posted + sems)
  }

  function Fail(w: World, sems: set<Sem>): World {
    w.(posted := w.posted + sems, errors := w.errors + sems)
  }

  predicate SamePayload(stored: Option<Payload>, asked: Option<Payload>) {
    stored != Some(Unreadable) && asked != Some(Unreadable) && stored == asked
  }

  /** An InitPair for a matched pair may only repeat it: names, size and stored layout. */
  predicate Repeats(w: World, r: nat, m: Init)
    requires r < |w.ranks|
  {
    m.pair in w.ranks[r].known &&
    var known, k := w.ranks[r].known[m.pair], Key(m.pair, m.local, r);
    && m.local in {known.local, known.remote} && m.remote in {known.local, known.remote}
    && m.size == (if m.local == known.local then known.localSize else known.remoteSize)
    && SamePayload(if k in w.layouts then Some(w.layouts[k].0) else None, m.mesh)
    && SamePayload(if k in w.layouts then Some(w.layouts[k].1) else None, m.placements)
  }

  /** The registration is the first key written. */
  function DoBegin(w: World, r: nat, m: Init): World
    requires r < |w.ranks|
  {
    var s, w1 := w.ranks[r], Issue(w, r, m);
    if m.pair in s.matched then
      if Repeats(w, r, m) then Post(w1, OptSet(m.sem)) else Fail(w1, OptSet(m.sem))
    else if RefusedEarly(s, m) then Fail(w1, OptSet(m.sem))
    else StartWriting(w1, r, m)
  }

  function StartWriting(w: World, r: nat, m: Init): World
    requires r < |w.ranks|
  {
    Set(w.(registered := w.registered + {Key(m.pair, m.local, r)}), r, w.ranks[r].(phase := Writing(m, Registered)))
  }

  predicate AtStage(w: World, r: nat, p: Progress) {
    r < |w.ranks| && w.ranks[r].phase.Writing? && w.ranks[r].phase.progress == p
  }

  /** Then this rank's size, before the shared one is compared. */
  function DoWriteSize(w: World, r: nat): World
    requires AtStage(w, r, Registered)
  {
    var s := w.ranks[r];
    var m := s.phase.msg;
    Set(w.(sizes := w.sizes[Key(m.pair, m.local, r) := m.size]), r, s.(phase := Writing(m, Written)))
  }

  /** The shared size is read and compared; a different one refuses the InitPair. */
  function DoCheck(w: World, r: nat): World
    requires AtStage(w, r, Written)
  {
    var s := w.ranks[r];
    var m := s.phase.msg;
    var side := Side(m.pair, m.local);
    if side in w.expected && w.expected[side] != m.size then
      Fail(Set(w.(rejected := w.rejected + {Key(m.pair, m.local, r)}), r, s.(phase := Idle)), OptSet(m.sem))
    else Set(w, r, s.(phase := Writing(m, Checked)))
  }

  /** The shared size is written, whatever it has become since it was read. */
  function DoPublish(w: World, r: nat): World
    requires AtStage(w, r, Checked)
  {
    var s := w.ranks[r];
    var m := s.phase.msg;
    Set(w.(expected := w.expected[Side(m.pair, m.local) := m.size]), r, s.(phase := Writing(m, Sized)))
  }

  /** And then the layout, if the message has one. */
  function DoWriteLayout(w: World, r: nat): World
    requires AtStage(w, r, Sized)
  {
    var s := w.ranks[r];
    var m := s.phase.msg;
    var layouts := if m.mesh.Some? && m.placements.Some?
                   then w.layouts[Key(m.pair, m.local, r) := (m.mesh.value, m.placements.value)] else w.layouts;
    Set(w.(layouts := layouts), r, s.(phase := Writing(m, Published)))
  }

  function Attach(s: RankState, m: Init): RankState {
    var p := if m.pair in s.pending then s.pending[m.pair] else Pending(m.local, m.remote, map[], []);
    var expected := if m.local in p.expected then p.expected else p.expected[m.local := m.size];
    s.(phase := Idle, pending := s.pending[m.pair := p.(expected := expected, sems := p.sems + OptSeq(m.sem))])
  }

  /** The pair is pending; an InitPair that joins one already pending asks for it to be logged again. */
  function DoFinish(w: World, r: nat): World
    requires AtStage(w, r, Published)
  {
    var s := w.ranks[r];
    var m := s.phase.msg;
    Set(w.(marked := if m.pair in s.pending then w.marked - {m.pair} else w.marked), r, Attach(s, m))
  }

  // ------------------------------------------------------------------------------------------
  // The log

  predicate IsLeastOf(todo: set<nat>, p: nat) {
    p in todo && forall q :: q in todo ==> p <= q
  }

  function LeastOf(todo: set<nat>): (p: nat)
    requires todo != {}
    ensures IsLeastOf(todo, p)
  {
    LeastOfExists(todo);
    var p :| IsLeastOf(todo, p);
    p
  }

  lemma {:induction false} LeastOfExists(todo: set<nat>)
    requires todo != {}
    ensures exists p :: IsLeastOf(todo, p)
    decreases |todo|
  {
    var x :| x in todo;
    if todo == {x} {
      assert IsLeastOf(todo, x);
    } else {
      LeastOfExists(todo - {x});
      var y :| IsLeastOf(todo - {x}, y);
      var least := if x < y then x else y;
      forall q | q in todo ensures least <= q {
        assert q == x || q in todo - {x};
      }
      assert IsLeastOf(todo, least);
    }
  }

  /** The leader looks at its pending pairs in order, each once per poll. */
  function DoAppend(w: World): World
    requires w.ranks != [] && w.ranks[0].phase.Appending? && w.ranks[0].phase.todo != {}
  {
    var s := w.ranks[0];
    var p := LeastOf(s.phase.todo);
    var w1 := Set(w, 0, s.(phase := Appending(s.phase.todo - {p})));
    if p in w.marked || p !in s.pending || !PairReady(w, p, s.pending[p]) then w1
    else
      var counted := Counted(w, p, s.pending[p]);
      w1.(log := w.log + [Entry(p, counted, Midway(w, p, counted))], marked := w.marked + {p})
  }

  function KnownAs(w: World, pair: nat, p: Pending): Known {
    Known(p.local, p.remote, |Present(w, pair, p.local)|, |Present(w, pair, p.remote)|)
  }

  function Completed(s: RankState, pair: nat, known: Known): RankState {
    s.(pending := s.pending - {pair}, matched := s.matched + {pair}, known := s.known[pair := known],
       completed := s.completed + [s.cursor])
  }

  function GivenUp(s: RankState, pair: nat): RankState
    requires pair in s.pending
  {
    s.(pending := s.pending[pair := s.pending[pair].(sems := [])])
  }

  /** A pair this rank is not waiting for is skipped, a failed completion keeps it pending. */
  function Took(s: RankState, pair: nat, known: Known, ok: bool): RankState {
    if pair !in s.pending then s else if ok then Completed(s, pair, known) else GivenUp(s, pair)
  }

  function ReadNext(s: RankState, pair: nat, known: Known, ok: bool): RankState {
    Took(s, pair, known, ok).(cursor := s.cursor + 1, seen := s.seen + [pair])
  }

  function Woken(s: RankState, pair: nat): set<Sem> {
    if pair in s.pending then Elements(s.pending[pair].sems) else {}
  }

  function Wake(w: World, sems: set<Sem>, ok: bool): World {
    if ok then Post(w, sems) else Fail(w, sems)
  }

  /** One entry of the log. */
  function DoConsume(w: World, r: nat, ok: bool): World
    requires r < |w.ranks| && w.ranks[r].cursor < |w.log|
  {
    var s := w.ranks[r];
    var pair := w.log[s.cursor].pair;
    var known := if pair in s.pending then KnownAs(w, pair, s.pending[pair]) else Known(0, 0, 0, 0);
    Wake(Set(w, r, ReadNext(s, pair, known, ok)), Woken(s, pair), ok)
  }

  // ------------------------------------------------------------------------------------------
  // Steps

  predicate CanConsume(w: World, r: nat) {
    r < |w.ranks| && w.ranks[r].cursor < |w.log| && w.ranks[r].phase == Consuming
  }

  /** Completing a pair reads the ranks of both sides again, and fails unless both are still ready. */
  predicate MayComplete(w: World, r: nat)
    requires CanConsume(w, r)
  {
    var s := w.ranks[r];
    var pair := w.log[s.cursor].pair;
    pair in s.pending ==> PairReady(w, pair, s.pending[pair])
  }

  /** Only a rank that waits for some pair polls; a poll reads the log to its end. */
  predicate Enabled(w: World, a: Action) {
    match a
    case Begin(r, m) => r < |w.ranks| && w.ranks[r].phase == Idle && (m.sem.Some? ==> m.sem.value !in w.issued)
    case WriteSize(r) => AtStage(w, r, Registered)
    case Check(r) => AtStage(w, r, Written)
    case Publish(r) => AtStage(w, r, Checked)
    case WriteLayout(r) => AtStage(w, r, Sized)
    case Finish(r) => AtStage(w, r, Published)
    case StartPoll(r) => r < |w.ranks| && w.ranks[r].phase == Idle && w.ranks[r].pending != map[]
    case AppendNext => w.ranks != [] && w.ranks[0].phase.Appending? && w.ranks[0].phase.todo != {}
    case StartConsuming => w.ranks != [] && w.ranks[0].phase == Appending({})
    case Consume(r, ok) => CanConsume(w, r) && (ok ==> MayComplete(w, r))
    case EndPoll(r) => r < |w.ranks| && w.ranks[r].phase == Consuming && w.ranks[r].cursor == |w.log|
  }

  function Do(w: World, a: Action): World
    requires Enabled(w, a)
  {
    match a
    case Begin(r, m) => DoBegin(w, r, m)
    case WriteSize(r) => DoWriteSize(w, r)
    case Check(r) => DoCheck(w, r)
    case Publish(r) => DoPublish(w, r)
    case WriteLayout(r) => DoWriteLayout(w, r)
    case Finish(r) => DoFinish(w, r)
    case StartPoll(r) =>
      Set(w, r, w.ranks[r].(phase := if r == 0 then Appending(w.ranks[0].pending.Keys) else Consuming))
    case AppendNext => DoAppend(w)
    case StartConsuming => Set(w, 0, w.ranks[0].(phase := Consuming))
    case Consume(r, ok) => DoConsume(w, r, ok)
    case EndPoll(r) => Set(w, r, w.ranks[r].(phase := Idle))
  }

  /** The steps that move one rank to another phase and touch none of its queues. */
  predicate MovesPhase(a: Action) {
    a.WriteSize? || a.Check? || a.Publish? || a.WriteLayout? || a.StartPoll? || a.StartConsuming? || a.EndPoll?
  }

  /** The steps of rank `r`'s own InitPair. */
  predicate Advances(a: Action, r: nat) {
    (a.WriteSize? || a.Check? || a.Publish? || a.WriteLayout? || a.Finish?) && a.rank == r
  }

  function Actor(a: Action): nat {
    if a.AppendNext? || a.StartConsuming? then 0 else a.rank
  }

  /** What such a step leaves alone. */
  ghost predicate OnlyPhase(w: World, r: nat, w': World) {
    && r < |w.ranks| == |w'.ranks| && (forall q :: 0 <= q < |w.ranks| && q != r ==> w'.ranks[q] == w.ranks[q])
    && w'.ranks[r] == w.ranks[r].(phase := w'.ranks[r].phase)
    && w'.registered == w.registered && w'.marked == w.marked && w'.log == w.log && w'.issued == w.issued
  }

  lemma WriterFrame(w: World, a: Action)
    requires Enabled(w, a) && MovesPhase(a) && Advances(a, Actor(a))
    ensures OnlyPhase(w, Actor(a), Do(w, a)) && (a.WriteSize? || Do(w, a).sizes == w.sizes)
  {
    match a
    case WriteSize(r) =>
    case Check(r) =>
    case Publish(r) =>
    case WriteLayout(r) =>
  }

  lemma PhaseFrame(w: World, a: Action)
    requires Enabled(w, a) && MovesPhase(a)
    ensures OnlyPhase(w, Actor(a), Do(w, a)) && (a.WriteSize? || Do(w, a).sizes == w.sizes)
  {
    if Advances(a, Actor(a)) {
      WriterFrame(w, a);
    }
  }

  /** Begin settles the caller at once or starts writing for it. */
  lemma BeginIs(w: World, r: nat, m: Init)
    requires Enabled(w, Begin(r, m))
    ensures var w1, w', s := Issue(w, r, m), DoBegin(w, r, m), w.ranks[r];
            if m.pair in s.matched || RefusedEarly(s, m)
            then w' == Fail(w1, OptSet(m.sem)) || (m.pair in s.matched && w' == Post(w1, OptSet(m.sem)))
            else w' == StartWriting(w1, r, m)
  {
  }

  lemma BeginFrame(w: World, r: nat, m: Init)
    requires Enabled(w, Begin(r, m))
    ensures var w' := DoBegin(w, r, m);
            && |w'.ranks| == |w.ranks| && w'.ranks[r] == w.ranks[r].(phase := w'.ranks[r].phase)
            && (forall q :: 0 <= q < |w.ranks| && q != r ==> w'.ranks[q] == w.ranks[q])
            && w'.expected == w.expected && w'.layouts == w.layouts && w'.marked == w.marked && w'.log == w.log
            && w'.rejected == w.rejected
  {
    BeginIs(w, r, m);
  }

  lemma FinishFrame(w: World, r: nat)
    requires Enabled(w, Finish(r))
    ensures var w', s := DoFinish(w, r), w.ranks[r];
            && |w'.ranks| == |w.ranks| && w'.ranks[r] == Attach(s, s.phase.msg)
            && (forall q :: 0 <= q < |w.ranks| && q != r ==> w'.ranks[q] == w.ranks[q])
            && w' == w.(ranks := w'.ranks, marked := w'.marked)
  {
  }

  lemma AppendFrame(w: World)
    requires Enabled(w, AppendNext)
    ensures var w' := DoAppend(w);
            && |w'.ranks| == |w.ranks| && w'.ranks[0] == w.ranks[0].(phase := w'.ranks[0].phase)
            && w'.ranks[0].phase.Appending?
            && (forall q :: 0 < q < |w.ranks| ==> w'.ranks[q] == w.ranks[q])
            && w' == w.(ranks := w'.ranks, marked := w'.marked, log := w'.log)
  {
  }

  lemma ConsumeFrame(w: World, r: nat, ok: bool) returns (known: Known)
    requires CanConsume(w, r)
    ensures var w', s := DoConsume(w, r, ok), w.ranks[r];
            && |w'.ranks| == |w.ranks| && w'.ranks[r] == ReadNext(s, w.log[s.cursor].pair, known, ok)
            && (forall q :: 0 <= q < |w.ranks| && q != r ==> w'.ranks[q] == w.ranks[q])
            && w' == w.(ranks := w'.ranks, posted := w'.posted, errors := w'.errors)
            && w'.posted == w.posted + Woken(s, w.log[s.cursor].pair)
            && w'.errors == if ok then w.errors else w.errors + Woken(s, w.log[s.cursor].pair)
  {
    var s := w.ranks[r];
    var pair := w.log[s.cursor].pair;
    known := if pair in s.pending then KnownAs(w, pair, s.pending[pair]) else Known(0, 0, 0, 0);
  }

  /** Reading an entry keeps the rank in its phase and moves its cursor by one. */
  lemma ReadFrame(s: RankState, pair: nat, known: Known, ok: bool)
    ensures var s' := ReadNext(s, pair, known, ok);
            s'.phase == s.phase && s'.cursor == s.cursor + 1 && s'.seen == s.seen + [pair]
  {
  }

  lemma RanksKept(w: World, a: Action)
    requires Enabled(w, a)
    ensures |Do(w, a).ranks| == |w.ranks|
  {
    match a
    case Begin(r, m) => BeginFrame(w, r, m);
    case Finish(r) => FinishFrame(w, r);
    case AppendNext => AppendFrame(w);
    case Consume(r, ok) => var known := ConsumeFrame(w, r, ok);
    case _ => PhaseFrame(w, a);
  }

  const FRESH := RankState(Idle, map[], {}, map[], 0, [], [])

  function Boot(n: nat): World {
    World(seq(n, _ => FRESH), {}, map[], map[], map[], {}, [], map[], {}, {}, {})
  }

  /** The world after a run of enabled actions, if they all were. */
  function After(n: nat, acts: seq<Action>): Option<World> {
    if acts == [] then Some(Boot(n))
    else
      var w := After(n, acts[..|acts| - 1]);
      if w.Some? && Enabled(w.value, acts[|acts| - 1]) then Some(Do(w.value, acts[|acts| - 1])) else None
  }
}
