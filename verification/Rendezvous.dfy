/**
 Sequential execution (src/etha/comm/comm_methods.py): every rank walks its own list in order, and
 an operation happens when it is at the head of the list of each of its participants.
*/
module Rendezvous {

  /** The part of a common list that concerns rank `r`. */
  function Mine<T>(parts: T -> set<nat>, r: nat, ops: seq<T>): seq<T> {
    if ops == [] then []
    else if r in parts(ops[0]) then [ops[0]] + Mine(parts, r, ops[1..])
    else Mine(parts, r, ops[1..])
  }

  /** What every rank still has to do. */
  type Lists<T> = map<nat, seq<T>>

  ghost predicate Enabled<T>(parts: T -> set<nat>, left: Lists<T>, op: T) {
    && parts(op) != {}
    && forall r :: r in parts(op) ==> r in left && left[r] != [] && left[r][0] == op
  }

  function Fire<T>(parts: T -> set<nat>, left: Lists<T>, op: T): Lists<T> {
    map r | r in left :: if r in parts(op) && left[r] != [] then left[r][1..] else left[r]
  }

  /** `trace` is a possible run from `start`, leaving `end`. */
  ghost predicate Run<T>(parts: T -> set<nat>, start: Lists<T>, trace: seq<T>, end: Lists<T>)
    decreases trace
  {
    if trace == [] then start == end
    else Enabled(parts, start, trace[0]) && Run(parts, Fire(parts, start, trace[0]), trace[1..], end)
  }

  /** Each rank's list is its own projection of one common list. */
  ghost predicate Projected<T>(parts: T -> set<nat>, left: Lists<T>, common: seq<T>) {
    && (forall r :: r in left ==> left[r] == Mine(parts, r, common))
    && (forall i, r :: 0 <= i < |common| && r in parts(common[i]) ==> r in left)
    && forall i :: 0 <= i < |common| ==> parts(common[i]) != {}
  }

  /** Where the head of rank `r`'s list sits in the common list. */
  lemma {:induction false} HeadPosition<T>(parts: T -> set<nat>, r: nat, ops: seq<T>) returns (j: nat)
    requires Mine(parts, r, ops) != []
    ensures j < |ops| && r in parts(ops[j]) && Mine(parts, r, ops)[0] == ops[j]
    ensures forall i :: 0 <= i < j ==> r !in parts(ops[i])
  {
    if r in parts(ops[0]) {
      j := 0;
    } else {
      j := HeadPosition(parts, r, ops[1..]);
      j := j + 1;
    }
  }

  function Without<T>(ops: seq<T>, j: nat): seq<T>
    requires j < |ops|
  {
    ops[..j] + ops[j + 1..]
  }

  lemma {:induction false} MineWithout<T>(parts: T -> set<nat>, r: nat, ops: seq<T>, j: nat)
    requires j < |ops| && forall i :: 0 <= i < j ==> r in parts(ops[j]) ==> r !in parts(ops[i])
    ensures Mine(parts, r, ops) ==
            if r in parts(ops[j]) then [ops[j]] + Mine(parts, r, Without(ops, j)) else Mine(parts, r, Without(ops, j))
  {
    var w := Without(ops, j);
    if j == 0 {
      assert w == ops[1..];
    } else {
      assert w[1..] == Without(ops[1..], j - 1);
      MineWithout(parts, r, ops[1..], j - 1);
    }
  }

  /** One operation off every participant's head is one operation off the common list. */
  lemma FireKeepsProjection<T>(parts: T -> set<nat>, left: Lists<T>, common: seq<T>, op: T) returns (rest: seq<T>)
    requires Projected(parts, left, common) && Enabled(parts, left, op)
    ensures Projected(parts, Fire(parts, left, op), rest)
    ensures |rest| == |common| - 1 && multiset(common) == multiset(rest) + multiset{op}
  {
    var r0 :| r0 in parts(op);
    var j := HeadPosition(parts, r0, common);
    rest := Without(common, j);
    var left' := Fire(parts, left, op);
    forall r | r in left' ensures left'[r] == Mine(parts, r, rest) {
      if r in parts(op) {
        var k := HeadPosition(parts, r, common);
        assert k == j;
      }
      MineWithout(parts, r, common, j);
    }
    forall i, r | 0 <= i < |rest| && r in parts(rest[i]) ensures r in left' {
      assert rest[i] == common[if i < j then i else i + 1];
    }
    forall i | 0 <= i < |rest| ensures parts(rest[i]) != {} {
      assert rest[i] == common[if i < j then i else i + 1];
    }
    assert common == common[..j] + [common[j]] + common[j + 1..];
  }

  /** Every reachable state is the projection of what the run has not executed yet. */
  lemma {:induction false} RunKeepsProjection<T>(
    parts: T -> set<nat>, start: Lists<T>, common: seq<T>, trace: seq<T>, end: Lists<T>) returns (rest: seq<T>)
    requires Projected(parts, start, common) && Run(parts, start, trace, end)
    ensures Projected(parts, end, rest)
    ensures multiset(common) == multiset(rest) + multiset(trace) && |common| == |rest| + |trace|
    decreases trace
  {
    if trace == [] {
      rest := common;
    } else {
      var next := FireKeepsProjection(parts, start, common, trace[0]);
      rest := RunKeepsProjection(parts, Fire(parts, start, trace[0]), next, trace[1..], end);
      assert trace == [trace[0]] + trace[1..];
    }
  }

  /**
   Lists projected from one common list cannot deadlock: in every reachable state either all lists
   are empty and the run executed each operation exactly once, or some operation can go next.
  */
  lemma NoDeadlock<T>(parts: T -> set<nat>, start: Lists<T>, common: seq<T>, trace: seq<T>, end: Lists<T>)
    requires Projected(parts, start, common) && Run(parts, start, trace, end)
    ensures |trace| <= |common|
    ensures (exists op :: op in common && Enabled(parts, end, op)) ||
            ((forall r :: r in end ==> end[r] == []) && multiset(trace) == multiset(common))
  {
    var rest := RunKeepsProjection(parts, start, common, trace, end);
    if rest != [] {
      assert Enabled(parts, end, rest[0]);
      assert rest[0] in multiset(rest);
      assert rest[0] in multiset(common);
    }
  }
}
