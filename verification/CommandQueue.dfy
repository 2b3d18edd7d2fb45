/**
 The worker-to-agent command queue (src/etha/tensor_bus/command_queue.py): a ring of slots in
 a transactional store, guarded by two counting semaphores shared by every process.

 A transaction is atomic, so an operation is split only where another process can get in
 between: `enqueue` into taking a free-space permit and committing; a blocking `dequeue` into
 taking an item permit and committing; `dequeue_batch` into committing and posting the permits;
 `clear` into its transaction and every single acquire and release of its three loops.
*/
module CommandQueues {
  import opened Base

  /** The bytes in a slot: something the decoder accepts, or something it rejects. */
  datatype Payload<M> = Encoded(msg: M) | Corrupt

  /** Where a `clear` stands after its transaction. */
  datatype Clearing = NotClearing | DrainingItems | DrainingSpace | Refilling(left: nat)

  /**
   Everything the processes share, plus the books kept for the proof: permits taken by
   operations that have not committed (`heldSpace`, `heldItems`), permits a batch dequeue still
   has to post (`owedSpace`), permits lost to corrupt messages (`leaked`), the payload written at
   every position (`log`), and the progress of a `clear`.
  */
  datatype Queue<M> = Queue(
    capacity: nat, head: nat, tail: nat, slots: map<nat, Payload<M>>, items: nat, space: nat,
    heldSpace: nat, heldItems: nat, owedSpace: nat, leaked: nat, log: seq<Payload<M>>, clearing: Clearing)

  function SlotOf(capacity: nat, pos: nat): nat {
    if capacity == 0 then 0 else pos % capacity
  }

  predicate Draining<M>(q: Queue<M>) {
    q.clearing == DrainingItems || q.clearing == DrainingSpace
  }

  /** Permits a `clear` has still to put back. */
  function ToRefill<M>(q: Queue<M>): nat {
    if q.clearing.Refilling? then q.clearing.left else 0
  }

  /** Every free-space permit and where it is. */
  function Permits<M>(q: Queue<M>): int {
    (q.tail - q.head) + q.space + q.heldSpace + q.owedSpace + q.leaked + ToRefill(q)
  }

  ghost predicate InSlots<M>(q: Queue<M>) {
    && q.head <= q.tail == |q.log|
    && forall i :: q.head <= i < q.tail ==>
      SlotOf(q.capacity, i) in q.slots && q.slots[SlotOf(q.capacity, i)] == q.log[i]
  }

  ghost predicate Valid<M>(q: Queue<M>) {
    InSlots(q) && !Draining(q) && Permits(q) == q.capacity && q.items + q.heldItems >= q.tail - q.head
  }

  /** While a `clear` drains, no permit is there twice; more is not promised. */
  ghost predicate Sound<M>(q: Queue<M>) {
    InSlots(q) && Permits(q) <= q.capacity && (Draining(q) || Valid(q))
  }

  /** What a reader may still take, oldest first. */
  function Contents<M>(q: Queue<M>): seq<Payload<M>>
    requires q.head <= q.tail == |q.log|
  {
    q.log[q.head..q.tail]
  }

  // ------------------------------------------------------------------------------------------
  // Atomic steps

  function PutAt<M>(q: Queue<M>, p: Payload<M>): Queue<M>
    requires q.heldSpace > 0
  {
    q.(slots := q.slots[SlotOf(q.capacity, q.tail) := p], tail := q.tail + 1, items := q.items + 1,
       heldSpace := q.heldSpace - 1, log := q.log + [p])
  }

  /** One message leaves; a corrupt one takes its free-space permit with it. */
  function TakeOne<M>(q: Queue<M>, withToken: bool): Queue<M>
    requires withToken ==> q.heldItems > 0
  {
    var q' := if withToken then q.(heldItems := q.heldItems - 1) else q;
    if q.tail <= q.head then q'
    else
      var slot := SlotOf(q.capacity, q.head);
      if slot in q.slots && q.slots[slot].Encoded?
      then q'.(head := q.head + 1, space := q.space + 1)
      else q'.(head := q.head + 1, leaked := q.leaked + 1)
  }

  function BatchCount<M>(q: Queue<M>, maxCount: int): nat {
    var n := if maxCount < q.tail - q.head then maxCount else q.tail - q.head;
    if n < 0 then 0 else n
  }

  function TakeBatch<M>(q: Queue<M>, maxCount: int): Queue<M> {
    q.(head := q.head + BatchCount(q, maxCount), owedSpace := q.owedSpace + BatchCount(q, maxCount))
  }

  /** The transaction of `clear`; what was leaked comes back with the refill. */
  function Emptied<M>(q: Queue<M>, deleteCommands: bool): Queue<M> {
    q.(head := 0, tail := 0, slots := if deleteCommands then map[] else q.slots, leaked := 0, log := [],
       clearing := DrainingItems)
  }

  /** One acquire or release of the loops of `clear`, or the move to its next loop. */
  function ClearNext<M>(q: Queue<M>): Queue<M> {
    match q.clearing
    case NotClearing => q
    case DrainingItems => if q.items > 0 then q.(items := q.items - 1) else q.(clearing := DrainingSpace)
    case DrainingSpace => if q.space > 0 then q.(space := q.space - 1) else q.(clearing := Refilling(q.capacity))
    case Refilling(left) =>
      if left > 0 then q.(space := q.space + 1, clearing := Refilling(left - 1)) else q.(clearing := NotClearing)
  }

  datatype Step<M> =
    | AcquireSpace | CommitEnqueue(payload: Payload<M>)
    | AcquireItem | CommitDequeue(withToken: bool)
    | CommitBatch(maxCount: int) | PostSpace
    | Reset(deleteCommands: bool) | ClearStep

  /** The next shared state, or nothing while the step has to wait. */
  function Next<M>(q: Queue<M>, s: Step<M>): Option<Queue<M>> {
    match s
    case AcquireSpace =>
      if q.space == 0 then None else Some(q.(space := q.space - 1, heldSpace := q.heldSpace + 1))
    case CommitEnqueue(p) => if q.heldSpace == 0 then None else Some(PutAt(q, p))
    case AcquireItem =>
      if q.items == 0 then None else Some(q.(items := q.items - 1, heldItems := q.heldItems + 1))
    case CommitDequeue(withToken) =>
      if withToken && q.heldItems == 0 then None else Some(TakeOne(q, withToken))
    case CommitBatch(maxCount) => Some(TakeBatch(q, maxCount))
    case PostSpace =>
      if q.owedSpace == 0 then None else Some(q.(space := q.space + 1, owedSpace := q.owedSpace - 1))
    case Reset(deleteCommands) => if q.clearing == NotClearing then Some(Emptied(q, deleteCommands)) else None
    case ClearStep => if q.clearing == NotClearing then None else Some(ClearNext(q))
  }

  /** One interleaving: any order of steps by any number of processes. */
  function Exec<M>(q: Queue<M>, steps: seq<Step<M>>): Option<Queue<M>> {
    if steps == [] then Some(q)
    else
      var before := Exec(q, steps[..|steps| - 1]);
      if before.None? then None else Next(before.value, steps[|steps| - 1])
  }

  // ------------------------------------------------------------------------------------------
  // Invariant

  /** Positions of one window of `capacity` never share a slot. */
  lemma SlotsDiffer(capacity: nat, i: nat, j: nat)
    requires i < j < i + capacity
    ensures SlotOf(capacity, i) != SlotOf(capacity, j)
  {
    var d := j / capacity - i / capacity;
    assert i == capacity * (i / capacity) + i % capacity;
    assert j == capacity * (j / capacity) + j % capacity;
    if i % capacity == j % capacity {
      assert j - i == capacity * d;
      MultipleGap(capacity, d);
    }
  }

  lemma MultipleGap(c: nat, d: int)
    ensures c * d >= c || c * d <= 0
  {
    if d >= 1 {
      assert c * d == c + c * (d - 1);
    }
  }

  /** A commit never lands on a slot whose message nobody has read. */
  lemma NeverOverwritesUnread<M>(q: Queue<M>, i: nat)
    requires Sound(q) && q.heldSpace > 0 && q.head <= i < q.tail
    ensures SlotOf(q.capacity, q.tail) != SlotOf(q.capacity, i)
  {
    SlotsDiffer(q.capacity, i, q.tail);
  }

  /** The moment the space loop of `clear` finds the semaphore empty and turns to refilling. */
  predicate DrainEnds<M>(q: Queue<M>, s: Step<M>) {
    s == ClearStep && q.clearing == DrainingSpace && q.space == 0
  }

  /** No permit outside the semaphore: none held, none owed, none in the ring, none leaked since the reset. */
  predicate Quiet<M>(q: Queue<M>) {
    q.head == q.tail && q.heldSpace == 0 && q.owedSpace == 0 && q.leaked == 0
  }

  /** A `clear` that ends its space drain does so with nothing outside the semaphore. */
  ghost predicate Allowed<M>(q: Queue<M>, s: Step<M>) {
    DrainEnds(q, s) ==> Quiet(q)
  }

  lemma PutKeepsSlots<M>(q: Queue<M>, p: Payload<M>)
    requires Sound(q) && q.heldSpace > 0
    ensures InSlots(PutAt(q, p))
  {
    var q' := PutAt(q, p);
    forall i | q'.head <= i < q'.tail
      ensures SlotOf(q'.capacity, i) in q'.slots && q'.slots[SlotOf(q'.capacity, i)] == q'.log[i]
    {
      if i < q.tail {
        NeverOverwritesUnread(q, i);
      }
    }
  }

  lemma SlotsKept<M>(q: Queue<M>, s: Step<M>)
    requires Sound(q) && Next(q, s).Some?
    ensures InSlots(Next(q, s).value)
  {
    if s.CommitEnqueue? {
      PutKeepsSlots(q, s.payload);
    } else if s.CommitDequeue? || s.CommitBatch? {
      HeadKeepsSlots(q, s);
    }
  }

  lemma HeadKeepsSlots<M>(q: Queue<M>, s: Step<M>)
    requires InSlots(q) && Next(q, s).Some? && (s.CommitDequeue? || s.CommitBatch?)
    ensures InSlots(Next(q, s).value)
  {
    var q' := Next(q, s).value;
    assert q.head <= q'.head <= q'.tail == q.tail && q'.slots == q.slots && q'.log == q.log &&
           q'.capacity == q.capacity;
  }

  /** Ordinary steps move permits about; none is made and none vanishes. */
  lemma PermitsConserved<M>(q: Queue<M>, s: Step<M>)
    requires q.head <= q.tail && Next(q, s).Some? && !s.Reset? && !s.ClearStep?
    ensures Permits(Next(q, s).value) == Permits(q) && Next(q, s).value.clearing == q.clearing
    ensures Next(q, s).value.capacity == q.capacity
  {
  }

  lemma ClearStepPermits<M>(q: Queue<M>)
    ensures var q' := ClearNext(q);
            Permits(q') == if DrainEnds(q, ClearStep) then Permits(q) + q.capacity
                           else if q.clearing == DrainingSpace then Permits(q) - 1 else Permits(q)
    ensures ClearNext(q).capacity == q.capacity && (Draining(ClearNext(q)) ==> Draining(q))
  {
  }

  lemma WakeUpsKept<M>(q: Queue<M>, s: Step<M>)
    requires Valid(q) && Next(q, s).Some? && !s.Reset?
    ensures var q' := Next(q, s).value; q'.items + q'.heldItems >= q'.tail - q'.head
  {
  }

  lemma StepKeepsSound<M>(q: Queue<M>, s: Step<M>)
    requires Sound(q) && Allowed(q, s) && Next(q, s).Some?
    ensures Sound(Next(q, s).value) && Next(q, s).value.capacity == q.capacity
  {
    SlotsKept(q, s);
    if s.ClearStep? {
      ClearStepPermits(q);
    } else if !s.Reset? {
      PermitsConserved(q, s);
    }
    if !Draining(q) && !s.Reset? {
      WakeUpsKept(q, s);
    }
  }

  /** Every step of the run is allowed where it happens: each `clear` ends its space drain quiet. */
  ghost predicate AllowedRun<M>(q: Queue<M>, steps: seq<Step<M>>) {
    steps == [] ||
    var init := steps[..|steps| - 1];
    AllowedRun(q, init) && Exec(q, init).Some? && Allowed(Exec(q, init).value, steps[|steps| - 1])
  }

  /** In every run whose `clear`s end their space drain quiet, the ring is sound and every permit accounted for. */
  lemma {:induction false} RunKeepsSound<M>(q: Queue<M>, steps: seq<Step<M>>)
    requires Sound(q) && AllowedRun(q, steps) && Exec(q, steps).Some?
    ensures Sound(Exec(q, steps).value)
    ensures Exec(q, steps).value.capacity == q.capacity
  {
    if steps != [] {
      RunKeepsSound(q, steps[..|steps| - 1]);
      StepKeepsSound(Exec(q, steps[..|steps| - 1]).value, steps[|steps| - 1]);
    }
  }

  /**
   No wake-up is lost in such a run: outside a drain a waiting message has an item permit, or a reader that
   took one.
   */
  lemma NoLostWakeUp<M>(q: Queue<M>, steps: seq<Step<M>>)
    requires Sound(q) && AllowedRun(q, steps) && Exec(q, steps).Some? && !Draining(Exec(q, steps).value)
    ensures var r := Exec(q, steps).value;
            r.head < r.tail ==> Next(r, AcquireItem).Some? || Next(r, CommitDequeue(true)).Some?
  {
    RunKeepsSound(q, steps);
  }

  // ------------------------------------------------------------------------------------------
  // When `clear` is safe

  /** More permits than slots. */
  ghost predicate Overdrawn<M>(q: Queue<M>) {
    q.head <= q.tail && !Draining(q) && Permits(q) > q.capacity
  }

  lemma OverdrawnStays<M>(q: Queue<M>, s: Step<M>)
    requires Overdrawn(q) && Next(q, s).Some? && !s.Reset?
    ensures Overdrawn(Next(q, s).value)
  {
    if s.ClearStep? {
      ClearStepPermits(q);
    } else {
      PermitsConserved(q, s);
    }
  }

  ghost predicate NoReset<M>(steps: seq<Step<M>>) {
    forall i :: 0 <= i < |steps| ==> !steps[i].Reset?
  }

  lemma {:induction false} RunStaysOverdrawn<M>(q: Queue<M>, steps: seq<Step<M>>)
    requires Overdrawn(q) && NoReset(steps) && Exec(q, steps).Some?
    ensures Overdrawn(Exec(q, steps).value)
  {
    if steps != [] {
      RunStaysOverdrawn(q, steps[..|steps| - 1]);
      OverdrawnStays(Exec(q, steps[..|steps| - 1]).value, steps[|steps| - 1]);
    }
  }

  lemma {:induction false} RunStaysValid<M>(q: Queue<M>, steps: seq<Step<M>>)
    requires Valid(q) && NoReset(steps) && Exec(q, steps).Some?
    ensures Valid(Exec(q, steps).value) && Exec(q, steps).value.capacity == q.capacity
  {
    if steps != [] {
      RunStaysValid(q, steps[..|steps| - 1]);
      var before, s := Exec(q, steps[..|steps| - 1]).value, steps[|steps| - 1];
      StepKeepsSound(before, s);
      StaysOutOfDrain(before, s);
    }
  }

  lemma StaysOutOfDrain<M>(q: Queue<M>, s: Step<M>)
    requires !Draining(q) && Next(q, s).Some? && !s.Reset?
    ensures !Draining(Next(q, s).value)
  {
  }

  /**
   Exactly when a `clear` leaves a sound queue, whatever other processes do while it runs: if and
   only if no permit is outside the semaphore at the moment its drain ends. Until then anything in
   between counts; afterwards nothing can spoil it, and nothing but another `clear` can mend it.
   */
  lemma ClearIsSafeIffQuiet<M>(q: Queue<M>, steps: seq<Step<M>>)
    requires Sound(q) && DrainEnds(q, ClearStep) && NoReset(steps) && Exec(ClearNext(q), steps).Some?
    ensures Valid(Exec(ClearNext(q), steps).value) <==> Quiet(q)
  {
    ClearStepPermits(q);
    if Quiet(q) {
      StepKeepsSound(q, ClearStep);
      RunStaysValid(ClearNext(q), steps);
    } else {
      RunStaysOverdrawn(ClearNext(q), steps);
    }
  }

  ghost predicate OnlyClear<M>(steps: seq<Step<M>>) {
    forall i :: 0 <= i < |steps| ==> steps[i] == ClearStep
  }

  lemma {:induction false} ExecConcat<M>(q: Queue<M>, a: seq<Step<M>>, b: seq<Step<M>>)
    requires Exec(q, a).Some?
    ensures Exec(q, a + b) == Exec(Exec(q, a).value, b)
  {
    if b == [] {
      assert a + b == a;
    } else {
      assert (a + b)[..|a + b| - 1] == a + b[..|b| - 1];
      ExecConcat(q, a, b[..|b| - 1]);
    }
  }

  lemma ExecFirst<M>(q: Queue<M>, s: Step<M>, rest: seq<Step<M>>)
    requires Next(q, s).Some?
    ensures Exec(q, [s] + rest) == Exec(Next(q, s).value, rest)
  {
    assert [s][..0] == [];
    ExecConcat(q, [s], rest);
  }

  function Drained<M>(q: Queue<M>): Queue<M> {
    q.(items := 0, space := 0, clearing := DrainingSpace)
  }

  /** With nobody in between, both loops empty their semaphore. */
  lemma {:induction false} DrainAlone<M>(q: Queue<M>) returns (steps: seq<Step<M>>)
    requires Draining(q)
    ensures OnlyClear(steps)
    ensures Exec(q, steps) == Some(Drained(q).(items := if q.clearing == DrainingItems then 0 else q.items))
    decreases if q.clearing == DrainingItems then 1 else 0, q.items + q.space
  {
    if q.clearing == DrainingSpace && q.space == 0 {
      steps := [];
    } else {
      var rest := DrainAlone(ClearNext(q));
      steps := [ClearStep] + rest;
      ExecFirst(q, ClearStep, rest);
    }
  }

  lemma {:induction false} RefillAlone<M>(q: Queue<M>) returns (steps: seq<Step<M>>)
    requires q.clearing.Refilling?
    ensures OnlyClear(steps) && Exec(q, steps) == Some(q.(space := q.space + q.clearing.left, clearing := NotClearing))
    decreases q.clearing.left
  {
    if q.clearing.left == 0 {
      steps := [ClearStep];
      assert steps[..0] == [];
    } else {
      var rest := RefillAlone(ClearNext(q));
      steps := [ClearStep] + rest;
      ExecFirst(q, ClearStep, rest);
    }
  }

  /** The rest of a `clear`, from its first loop on, with nobody in between. */
  lemma FinishClear<M>(mid: Queue<M>) returns (steps: seq<Step<M>>)
    requires mid.clearing == DrainingItems
    ensures OnlyClear(steps)
    ensures Exec(mid, steps) == Some(mid.(items := 0, space := mid.capacity, clearing := NotClearing))
  {
    var drain := DrainAlone(mid);
    var d := Drained(mid);
    var refill := RefillAlone(ClearNext(d));
    ExecFirst(d, ClearStep, refill);
    ExecConcat(mid, drain, [ClearStep] + refill);
    steps := drain + ([ClearStep] + refill);
  }

  /** A whole `clear` that no other process gets into. */
  function Cleared<M>(q: Queue<M>, deleteCommands: bool): Queue<M> {
    Emptied(q, deleteCommands).(items := 0, space := q.capacity, clearing := NotClearing)
  }

  lemma ClearAlone<M>(q: Queue<M>, deleteCommands: bool) returns (steps: seq<Step<M>>)
    requires q.clearing == NotClearing
    ensures OnlyClear(steps) && Exec(q, [Reset(deleteCommands)] + steps) == Some(Cleared(q, deleteCommands))
  {
    steps := FinishClear(Emptied(q, deleteCommands));
    ExecFirst(q, Reset(deleteCommands), steps);
  }

  /** Alone, `clear` is safe if and only if no permit is held and none is owed when it is called. */
  lemma ClearAloneIsSafeIff<M>(q: Queue<M>, deleteCommands: bool)
    requires q.clearing == NotClearing
    ensures Valid(Cleared(q, deleteCommands)) <==> q.heldSpace == 0 && q.owedSpace == 0
  {
    var c := Cleared(q, deleteCommands);
    assert Permits(c) == q.capacity + q.heldSpace + q.owedSpace;
  }

  /** The steps that get in between right after the transaction of `clear`, and then the rest of it. */
  lemma InterruptedClear<M>(q: Queue<M>, mid: Queue<M>, between: seq<Step<M>>) returns (steps: seq<Step<M>>)
    requires q.clearing == NotClearing && Exec(Emptied(q, true), between) == Some(mid) && mid.clearing == DrainingItems
    ensures Exec(q, [Reset(true)] + (between + steps)) ==
            Some(mid.(items := 0, space := mid.capacity, clearing := NotClearing))
    ensures OnlyClear(steps)
  {
    steps := FinishClear(mid);
    ExecConcat(Emptied(q, true), between, steps);
    ExecFirst(q, Reset(true), between + steps);
  }

  /**
   On every quiet queue with a free slot: a producer that takes its permit between the transaction
   and the space loop leaves one permit too many, for good.
   */
  lemma ClearRaceMintsPermit<M>(q: Queue<M>) returns (steps: seq<Step<M>>)
    requires Valid(q) && q.clearing == NotClearing && q.heldSpace == 0 && q.owedSpace == 0 && q.space > 0
    ensures OnlyClear(steps)
    ensures var end := Exec(q, [Reset(true)] + ([AcquireSpace] + steps));
            end.Some? && Overdrawn(end.value) && end.value.heldSpace == 1 && end.value.space == q.capacity
  {
    var e := Emptied(q, true);
    var mid := Next(e, AcquireSpace).value;
    var between: seq<Step<M>> := [AcquireSpace];
    ExecFirst(e, AcquireSpace, []);
    assert between + [] == between;
    steps := InterruptedClear(q, mid, between);
  }

  /** A whole enqueue in the same place loses its wake-up: the message waits and no reader can be woken for it. */
  lemma ClearRaceLosesWakeUp<M>(q: Queue<M>, p: Payload<M>) returns (steps: seq<Step<M>>)
    requires Valid(q) && q.clearing == NotClearing && q.heldSpace == 0 && q.owedSpace == 0 && q.heldItems == 0
    requires q.space > 0
    ensures OnlyClear(steps)
    ensures var end := Exec(q, [Reset(true)] + ([AcquireSpace, CommitEnqueue(p)] + steps));
            && end.Some? && end.value.head == 0 && end.value.log == [p] && end.value.tail == 1
            && Next(end.value, AcquireItem).None? && Next(end.value, CommitDequeue(true)).None?
  {
    var e := Emptied(q, true);
    var one := Next(e, AcquireSpace).value;
    var mid := PutAt(one, p);
    ExecFirst(one, CommitEnqueue(p), []);
    ExecFirst(e, AcquireSpace, [CommitEnqueue(p)] + []);
    assert [AcquireSpace] + ([CommitEnqueue(p)] + []) == [AcquireSpace, CommitEnqueue(p)];
    assert [] + [p] == [p];
    steps := InterruptedClear(q, mid, [AcquireSpace, CommitEnqueue(p)]);
  }

  // ------------------------------------------------------------------------------------------
  // First in, first out

  /** What a step puts in. */
  function Sent<M>(s: Step<M>): seq<Payload<M>> {
    if s.CommitEnqueue? then [s.payload] else []
  }

  function TakenCount<M>(q: Queue<M>, s: Step<M>): nat {
    if s.CommitBatch? then BatchCount(q, s.maxCount)
    else if s.CommitDequeue? && q.head < q.tail then 1 else 0
  }

  /** The payload the code finds at a position. */
  function Peek<M>(q: Queue<M>, pos: nat): Payload<M> {
    if SlotOf(q.capacity, pos) in q.slots then q.slots[SlotOf(q.capacity, pos)] else Corrupt
  }

  /** What a step takes out. */
  function Taken<M>(q: Queue<M>, s: Step<M>): seq<Payload<M>> {
    seq(TakenCount(q, s), k requires 0 <= k => Peek(q, q.head + k))
  }

  function AllSent<M>(steps: seq<Step<M>>): seq<Payload<M>> {
    if steps == [] then [] else AllSent(steps[..|steps| - 1]) + Sent(steps[|steps| - 1])
  }

  function AllTaken<M>(q: Queue<M>, steps: seq<Step<M>>): seq<Payload<M>> {
    if steps == [] then []
    else
      var before := Exec(q, steps[..|steps| - 1]);
      AllTaken(q, steps[..|steps| - 1]) +
      (if before.None? then [] else Taken(before.value, steps[|steps| - 1]))
  }

  lemma TakenFromLog<M>(q: Queue<M>, s: Step<M>)
    requires InSlots(q)
    ensures q.head + TakenCount(q, s) <= q.tail
    ensures Taken(q, s) == q.log[q.head..q.head + TakenCount(q, s)]
  {
    var t := Taken(q, s);
    forall k | 0 <= k < |t| ensures t[k] == q.log[q.head + k] {
      assert t[k] == Peek(q, q.head + k);
    }
  }

  lemma StepMovesWindow<M>(q: Queue<M>, s: Step<M>)
    requires InSlots(q) && !s.Reset? && Next(q, s).Some?
    ensures var q' := Next(q, s).value; q'.head == q.head + TakenCount(q, s) && q'.log == q.log + Sent(s)
  {
  }

  lemma SlideWindow<T>(log: seq<T>, sent: seq<T>, head: nat, n: nat)
    requires head + n <= |log|
    ensures log[head..head + n] + (log + sent)[head + n..] == log[head..] + sent
  {
  }

  lemma StepIsFifo<M>(q: Queue<M>, s: Step<M>)
    requires InSlots(q) && !s.Reset? && Next(q, s).Some? && InSlots(Next(q, s).value)
    ensures Taken(q, s) + Contents(Next(q, s).value) == Contents(q) + Sent(s)
  {
    var q', n := Next(q, s).value, TakenCount(q, s);
    TakenFromLog(q, s);
    StepMovesWindow(q, s);
    SlideWindow(q.log, Sent(s), q.head, n);
    assert Contents(q') == (q.log + Sent(s))[q.head + n..];
    assert Contents(q) == q.log[q.head..];
  }

  lemma ChainFifo<T>(taken: seq<T>, mid: seq<T>, start: seq<T>, sent: seq<T>, t: seq<T>, end: seq<T>, s: seq<T>)
    requires taken + mid == start + sent && t + end == mid + s
    ensures (taken + t) + end == start + (sent + s)
  {
    assert (taken + t) + end == taken + (t + end);
    assert taken + (mid + s) == (taken + mid) + s;
    assert (start + sent) + s == start + (sent + s);
  }

  /** In such a run the ring is a bounded first-in-first-out queue, also while a `clear` drains or refills. */
  lemma {:induction false} RunIsFifo<M>(q: Queue<M>, steps: seq<Step<M>>)
    requires Sound(q) && AllowedRun(q, steps) && Exec(q, steps).Some? && NoReset(steps)
    ensures var r := Exec(q, steps).value;
            && r.head <= r.tail == |r.log| && r.tail - r.head <= r.capacity == q.capacity
            && AllTaken(q, steps) + Contents(r) == Contents(q) + AllSent(steps)
  {
    RunKeepsSound(q, steps);
    if steps != [] {
      var init, s := steps[..|steps| - 1], steps[|steps| - 1];
      RunKeepsSound(q, init);
      RunIsFifo(q, init);
      var mid, end := Exec(q, init).value, Exec(q, steps).value;
      StepIsFifo(mid, s);
      ChainFifo(AllTaken(q, init), Contents(mid), Contents(q), AllSent(init), Taken(mid, s), Contents(end), Sent(s));
    }
  }

  /** The corrupt messages taken one by one in a run. */
  ghost function CorruptSingles<M>(q: Queue<M>, steps: seq<Step<M>>): nat {
    if steps == [] then 0
    else
      var init, s := steps[..|steps| - 1], steps[|steps| - 1];
      var before := Exec(q, init);
      CorruptSingles(q, init) +
      if before.Some? && s.CommitDequeue? && Taken(before.value, s) == [Corrupt] then 1 else 0
  }

  lemma LeakStep<M>(q: Queue<M>, s: Step<M>)
    requires InSlots(q) && !s.Reset? && Next(q, s).Some?
    ensures Next(q, s).value.leaked == q.leaked + (if s.CommitDequeue? && Taken(q, s) == [Corrupt] then 1 else 0)
  {
    if s.CommitDequeue? && q.head < q.tail {
      assert Taken(q, s) == [Peek(q, q.head)];
      assert Taken(q, s)[0] == Peek(q, q.head);
    }
  }

  /** Over such a run, capacity is lost one unit per corrupt message taken singly, and in no other way. */
  lemma {:induction false} LeakIsCorruptSingles<M>(q: Queue<M>, steps: seq<Step<M>>)
    requires Sound(q) && AllowedRun(q, steps) && Exec(q, steps).Some? && NoReset(steps)
    ensures Exec(q, steps).value.leaked == q.leaked + CorruptSingles(q, steps)
  {
    if steps != [] {
      var init, s := steps[..|steps| - 1], steps[|steps| - 1];
      RunKeepsSound(q, init);
      LeakIsCorruptSingles(q, init);
      LeakStep(Exec(q, init).value, s);
    }
  }

  /**
   With a producer mid-enqueue on a one-slot queue, a `clear` mints a second permit, and the second
   of the two commits overwrites a message nobody read.
  */
  lemma ClearRaceOverwrites<M>(q: Queue<M>, first: Payload<M>, second: Payload<M>)
    requires Valid(q) && q.capacity == 1 && q.heldSpace == 1 && q.clearing == NotClearing
    ensures var raced := Next(Cleared(q, true), AcquireSpace);
            && raced.Some? && raced.value.heldSpace == 2
            && var end := PutAt(PutAt(raced.value, first), second);
            end.head == 0 && end.log == [first, second] && Peek(end, 0) == second
  {
    var raced := Next(Cleared(q, true), AcquireSpace).value;
    var mid := PutAt(raced, first);
    assert SlotOf(1, 0) == 0 && SlotOf(1, 1) == 0;
    assert mid.tail == 1 && mid.capacity == 1;
  }

  // ------------------------------------------------------------------------------------------
  // The queue object

  class CommandQueue<M> {
    const capacity: nat
    var head: nat
    var tail: nat
    var slots: map<nat, Payload<M>>
    var items: nat
    var space: nat
    ghost var heldSpace: nat
    ghost var heldItems: nat
    ghost var owedSpace: nat
    ghost var leaked: nat
    ghost var log: seq<Payload<M>>
    ghost var clearing: Clearing

    ghost function View(): Queue<M>
      reads this
    {
      Queue(capacity, head, tail, slots, items, space, heldSpace, heldItems, owedSpace, leaked, log, clearing)
    }

    /** The leader opens stored pointers and slots and sizes both semaphores from them. */
    constructor (capacity: nat, head: nat, tail: nat, slots: map<nat, Payload<M>>)
      requires head <= tail <= head + capacity
      requires forall i :: head <= i < tail ==> SlotOf(capacity, i) in slots
      ensures Valid(View())
      ensures this.capacity == capacity && this.head == head && this.tail == tail && this.slots == slots
      ensures items == tail - head && space == capacity - (tail - head)
      ensures heldSpace == heldItems == owedSpace == leaked == 0 && clearing == NotClearing
    {
      this.capacity := capacity;
      this.head, this.tail, this.slots := head, tail, slots;
      this.items, this.space := tail - head, capacity - (tail - head);
      this.heldSpace, this.heldItems, this.owedSpace, this.leaked, this.clearing := 0, 0, 0, 0, NotClearing;
      this.log := seq(tail, i requires 0 <= i < tail =>
        if SlotOf(capacity, i) in slots then slots[SlotOf(capacity, i)] else Corrupt);
    }

    /** Free-space permit; false is the full-queue error of a non-blocking or timed-out call. */
    method TakeSpacePermit() returns (ok: bool)
      modifies this
      ensures ok <==> old(space) > 0
      ensures if ok then Next(old(View()), AcquireSpace) == Some(View()) else View() == old(View())
    {
      ok := space > 0;
      if ok {
        space := space - 1;
        heldSpace := heldSpace + 1;
      }
    }

    method Enqueue(p: Payload<M>) returns (pos: Option<nat>)
      requires Valid(View())
      modifies this
      ensures Valid(View())
      ensures pos.Some? <==> old(space) > 0
      ensures pos.None? ==> View() == old(View())
      ensures pos.Some? ==> pos.value == old(tail) && Contents(View()) == old(Contents(View())) + [p]
      ensures heldSpace == old(heldSpace) && heldItems == old(heldItems) && owedSpace == old(owedSpace)
    {
      var ok := TakeSpacePermit();
      if !ok {
        return None;
      }
      ghost var mid := View();
      pos := Some(tail);
      slots := slots[SlotOf(capacity, tail) := p];
      tail := tail + 1;
      items := items + 1;
      heldSpace := heldSpace - 1;
      log := log + [p];
      assert Next(mid, CommitEnqueue(p)) == Some(View());
      StepKeepsSound(old(View()), AcquireSpace);
      StepKeepsSound(mid, CommitEnqueue(p));
      StepIsFifo(mid, CommitEnqueue(p));
    }

    /** Item permit; false is a timeout. */
    method TakeItemPermit() returns (ok: bool)
      modifies this
      ensures ok <==> old(items) > 0
      ensures if ok then Next(old(View()), AcquireItem) == Some(View()) else View() == old(View())
    {
      ok := items > 0;
      if ok {
        items := items - 1;
        heldItems := heldItems + 1;
      }
    }

    /** The transaction of `dequeue`. */
    method TakeHead(withToken: bool) returns (msg: Option<M>)
      requires InSlots(View()) && (withToken ==> heldItems > 0)
      modifies this
      ensures View() == TakeOne(old(View()), withToken)
      ensures old(head < tail) ==> msg == if log[old(head)].Encoded? then Some(log[old(head)].msg) else None
      ensures old(head >= tail) ==> msg.None?
    {
      if withToken {
        heldItems := heldItems - 1;
      }
      if tail <= head {
        return None;
      }
      var slot := SlotOf(capacity, head);
      assert slot in slots && slots[slot] == log[head];
      msg := if slots[slot].Encoded? then Some(slots[slot].msg) else None;
      head := head + 1;
      if msg.Some? {
        space := space + 1;
      } else {
        leaked := leaked + 1;
      }
    }

    /** `blocking` callers gave up an item permit first; an absent permit is a timeout. */
    method Dequeue(blocking: bool) returns (msg: Option<M>)
      requires Valid(View())
      modifies this
      ensures Valid(View())
      ensures var was := old(Contents(View()));
              if was == [] || (blocking && old(items) == 0)
              then msg.None? && Contents(View()) == was
              else Contents(View()) == was[1..] && msg == (if was[0].Encoded? then Some(was[0].msg) else None)
      ensures space == old(space) + (if msg.Some? then 1 else 0)
    {
      if blocking {
        var ok := TakeItemPermit();
        if !ok {
          return None;
        }
        StepKeepsSound(old(View()), AcquireItem);
      }
      ghost var mid := View();
      StepKeepsSound(mid, CommitDequeue(blocking));
      msg := TakeHead(blocking);
    }

    /** The decodable messages at the first `count` positions. */
    method ReadAhead(count: nat) returns (msgs: seq<M>)
      requires Valid(View()) && count <= tail - head
      ensures msgs == Decoded(Contents(View())[..count])
    {
      ghost var was := Contents(View());
      msgs := [];
      for i := 0 to count
        invariant msgs == Decoded(was[..i])
      {
        var slot := SlotOf(capacity, head + i);
        assert slot in slots && slots[slot] == was[i];
        assert was[..i + 1][..i] == was[..i];
        if slots[slot].Encoded? {
          msgs := msgs + [slots[slot].msg];
        }
      }
    }

    method PostSpacePermits(count: nat)
      requires count <= owedSpace
      modifies this`space, this`owedSpace
      ensures space == old(space) + count && owedSpace == old(owedSpace) - count
    {
      for k := 0 to count
        invariant space == old(space) + k && owedSpace == old(owedSpace) - k
      {
        space := space + 1;
        owedSpace := owedSpace - 1;
      }
    }

    /** The transaction of `dequeue_batch`. */
    method AdvanceHead(ghost maxCount: int, count: nat)
      requires Valid(View()) && count == BatchCount(View(), maxCount)
      modifies this`head, this`owedSpace
      ensures Valid(View()) && owedSpace == old(owedSpace) + count
      ensures Contents(View()) == old(Contents(View()))[count..]
    {
      ghost var q := View();
      head := head + count;
      owedSpace := owedSpace + count;
      assert View() == TakeBatch(q, maxCount);
      StepKeepsSound(q, CommitBatch(maxCount));
    }

    /** Up to `maxCount` messages in one transaction, then their permits one by one. */
    method DequeueBatch(maxCount: int) returns (msgs: seq<M>)
      requires Valid(View())
      modifies this
      ensures Valid(View())
      ensures var was := old(Contents(View()));
              var n := |was| - |Contents(View())|;
              && 0 <= n <= |was| && Contents(View()) == was[n..] && msgs == Decoded(was[..n])
              && n == (if maxCount <= 0 then 0 else if maxCount < |was| then maxCount else |was|)
              && space == old(space) + n
      ensures owedSpace == old(owedSpace) && leaked == old(leaked)
    {
      var count := if maxCount < tail - head then maxCount else tail - head;
      if count > 0 {
        msgs := ReadAhead(count);
        AdvanceHead(maxCount, count);
        PostSpacePermits(count);
      } else {
        msgs := [];
      }
    }

    /**
     Resets the ring, drains both semaphores and refills the free-space one; safe if and only if nothing is
     held or owed.
     */
    method Clear(deleteCommands: bool)
      requires clearing == NotClearing
      modifies this
      ensures View() == Cleared(old(View()), deleteCommands)
      ensures head == tail == items == 0 && space == capacity
      ensures slots == if deleteCommands then map[] else old(slots)
      ensures Valid(View()) <==> old(heldSpace) == 0 && old(owedSpace) == 0
    {
      ghost var q := View();
      head, tail := 0, 0;
      if deleteCommands {
        slots := map[];
      }
      log, leaked := [], 0;
      while items > 0
        invariant View() == Cleared(q, deleteCommands).(items := items, space := q.space)
      {
        items := items - 1;
      }
      while space > 0
        invariant View() == Cleared(q, deleteCommands).(space := space)
      {
        space := space - 1;
      }
      for k := 0 to capacity
        invariant View() == Cleared(q, deleteCommands).(space := k)
      {
        space := space + 1;
      }
      ClearAloneIsSafeIff(q, deleteCommands);
    }
  }

  /** The messages among the payloads, in order. */
  function Decoded<M>(ps: seq<Payload<M>>): seq<M> {
    if ps == [] then []
    else
      var last := ps[|ps| - 1];
      Decoded(ps[..|ps| - 1]) + (if last.Encoded? then [last.msg] else [])
  }
}
