/**
 Sequential execution again (src/etha/comm/comm_methods.py), when the ranks' lists are not cut from one
 common list but agree on an order: each list is increasing in a key, and an operation is in the list of
 every rank it needs.
*/
module OrderedRendezvous {
  import opened Base
  import opened Sorting
  import opened Rendezvous

  ghost predicate Rising<T>(key: T -> seq<nat>, ops: seq<T>) {
    forall i, j :: 0 <= i < j < |ops| ==> LexLess(key(ops[i]), key(ops[j]))
  }

  /** Everyone the operation needs still has it, and only they do. */
  ghost predicate Expected<T>(parts: T -> set<nat>, left: Lists<T>, r: nat, op: T) {
    r in parts(op) && forall q :: q in parts(op) ==> q in left && op in left[q]
  }

  ghost predicate InStep<T(!new)>(parts: T -> set<nat>, key: T -> seq<nat>, left: Lists<T>) {
    && (forall r :: r in left ==> Rising(key, left[r]))
    && forall r, op :: r in left && op in left[r] ==> Expected(parts, left, r, op)
  }

  lemma HeadIsOnce<T>(key: T -> seq<nat>, ops: seq<T>)
    requires Rising(key, ops) && ops != []
    ensures Rising(key, ops[1..]) && ops[0] !in ops[1..]
  {
    LexIrreflexive(key(ops[0]));
    forall i | 0 <= i < |ops[1..]| ensures ops[1..][i] != ops[0] {
      assert LexLess(key(ops[0]), key(ops[i + 1]));
    }
  }

  /** Another operation survives. */
  lemma OtherStays<T(!new)>(parts: T -> set<nat>, key: T -> seq<nat>, left: Lists<T>, op: T, r: nat, other: T)
    requires InStep(parts, key, left) && Enabled(parts, left, op) && r in left && other in Fire(parts, left, op)[r]
    ensures Expected(parts, Fire(parts, left, op), r, other)
  {
    assert other in left[r] && Expected(parts, left, r, other);
    if r in parts(op) {
      HeadIsOnce(key, left[r]);
    }
    forall q | q in parts(other) ensures q in left && other in Fire(parts, left, op)[q] {
      OtherInRest(parts, left, op, q, other);
    }
  }

  lemma OtherInRest<T>(parts: T -> set<nat>, left: Lists<T>, op: T, q: nat, other: T)
    requires Enabled(parts, left, op) && q in left && other in left[q] && other != op
    ensures other in Fire(parts, left, op)[q]
  {
    if q in parts(op) {
      assert left[q] == [op] + left[q][1..];
    }
  }

  lemma FireKeepsStep<T(!new)>(parts: T -> set<nat>, key: T -> seq<nat>, left: Lists<T>, op: T)
    requires InStep(parts, key, left) && Enabled(parts, left, op)
    ensures InStep(parts, key, Fire(parts, left, op))
  {
    var left' := Fire(parts, left, op);
    forall r | r in left' ensures Rising(key, left'[r]) {
      if r in parts(op) {
        HeadIsOnce(key, left[r]);
      }
    }
    forall r, other | r in left' && other in left'[r] ensures Expected(parts, left', r, other) {
      OtherStays(parts, key, left, op, r, other);
    }
  }

  lemma {:induction false} RunKeepsStep<T(!new)>(
    parts: T -> set<nat>, key: T -> seq<nat>, start: Lists<T>, trace: seq<T>, end: Lists<T>)
    requires InStep(parts, key, start) && Run(parts, start, trace, end)
    ensures InStep(parts, key, end)
    decreases trace
  {
    if trace != [] {
      FireKeepsStep(parts, key, start, trace[0]);
      RunKeepsStep(parts, key, Fire(parts, start, trace[0]), trace[1..], end);
    }
  }

  ghost function HeadKeys<T>(key: T -> seq<nat>, left: Lists<T>): set<seq<nat>> {
    set r | r in left && left[r] != [] :: key(left[r][0])
  }

  lemma FirstIsLeast<T>(key: T -> seq<nat>, ops: seq<T>, i: nat)
    requires Rising(key, ops) && i < |ops| && !LexLess(key(ops[0]), key(ops[i]))
    ensures i == 0
  {
  }

  /** The operation with the least key of all heads can go next. */
  lemma LeastHeadIsEnabled<T(!new)>(parts: T -> set<nat>, key: T -> seq<nat>, left: Lists<T>, r: nat)
    requires InStep(parts, key, left) && r in left && left[r] != []
    requires forall q :: q in left && left[q] != [] ==> !LexLess(key(left[q][0]), key(left[r][0]))
    ensures Enabled(parts, left, left[r][0])
  {
    var op := left[r][0];
    assert op in left[r] && Expected(parts, left, r, op);
    forall q | q in parts(op) ensures q in left && left[q] != [] && left[q][0] == op {
      assert q in left && op in left[q];
      var i :| 0 <= i < |left[q]| && left[q][i] == op;
      FirstIsLeast(key, left[q], i);
    }
  }

  lemma LeastHead<T>(key: T -> seq<nat>, left: Lists<T>, r0: nat) returns (r: nat)
    requires r0 in left && left[r0] != []
    ensures r in left && left[r] != []
    ensures forall q :: q in left && left[q] != [] ==> !LexLess(key(left[q][0]), key(left[r][0]))
  {
    OrdersAreTotal();
    var keys := HeadKeys(key, left);
    assert key(left[r0][0]) in keys;
    var least := Least(LexLess, keys);
    r :| r in left && left[r] != [] && key(left[r][0]) == least;
    forall q | q in left && left[q] != [] ensures !LexLess(key(left[q][0]), least) {
      assert key(left[q][0]) in keys;
      LeastIsLeast(keys, least, key(left[q][0]));
    }
  }

  lemma LeastIsLeast(keys: set<seq<nat>>, least: seq<nat>, k: seq<nat>)
    requires IsLeast(LexLess, keys, least) && k in keys
    ensures !LexLess(k, least)
  {
    LexIrreflexive(k);
    if LexLess(k, least) && LexLess(least, k) {
      LexTransitive(k, least, k);
    }
  }

  /** Lists in step cannot deadlock: while some list is not empty, some operation can go next. */
  lemma StepNeverDeadlocks<T(!new)>(
    parts: T -> set<nat>, key: T -> seq<nat>, start: Lists<T>, trace: seq<T>, end: Lists<T>)
    requires InStep(parts, key, start) && Run(parts, start, trace, end)
    ensures (forall r :: r in end ==> end[r] == []) || exists op :: Enabled(parts, end, op)
  {
    RunKeepsStep(parts, key, start, trace, end);
    if r0 :| r0 in end && end[r0] != [] {
      var r := LeastHead(key, end, r0);
      LeastHeadIsEnabled(parts, key, end, r);
    }
  }

  lemma HeadFires<T>(parts: T -> set<nat>, left: Lists<T>, op: T, r: nat)
    requires Enabled(parts, left, op) && r in left
    ensures left[r] == if r in parts(op) then [op] + Fire(parts, left, op)[r] else Fire(parts, left, op)[r]
  {
  }

  lemma Regroup<T>(x: T, a: seq<T>, b: seq<T>)
    ensures [x] + (a + b) == ([x] + a) + b
  {
  }

  /** And every rank runs its own list, in order. */
  lemma {:induction false} RunFollowsLists<T>(
    parts: T -> set<nat>, start: Lists<T>, trace: seq<T>, end: Lists<T>, r: nat)
    requires Run(parts, start, trace, end) && r in start
    ensures r in end && start[r] == Mine(parts, r, trace) + end[r]
    decreases trace
  {
    if trace != [] {
      RunFollowsLists(parts, Fire(parts, start, trace[0]), trace[1..], end, r);
      HeadFires(parts, start, trace[0], r);
      Regroup(trace[0], Mine(parts, r, trace[1..]), end[r]);
    }
  }
}
