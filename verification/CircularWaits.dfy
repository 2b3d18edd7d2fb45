/**
 When lists run in rendezvous cannot all be finished (src/etha/comm/comm_methods.py): a list fixes the order
 of its steps in every run, so steps that wait for one another in a circle never run.
*/
module CircularWaits {
  import opened Base
  import opened Rendezvous
  import opened OrderedRendezvous

  /** Wherever `b` stands in the list, `a` stands before it. */
  ghost predicate Precedes<T>(ops: seq<T>, a: T, b: T) {
    forall j :: 0 <= j < |ops| && ops[j] == b ==> a in ops[..j]
  }

  lemma {:induction false} MineSplits<T>(parts: T -> set<nat>, r: nat, x: seq<T>, y: seq<T>)
    ensures Mine(parts, r, x + y) == Mine(parts, r, x) + Mine(parts, r, y)
  {
    if x == [] {
      assert x + y == y;
    } else {
      MineSplits(parts, r, x[1..], y);
      assert (x + y)[1..] == x[1..] + y;
    }
  }

  lemma {:induction false} MineIsThere<T>(parts: T -> set<nat>, r: nat, ops: seq<T>, a: T)
    requires a in Mine(parts, r, ops)
    ensures a in ops
  {
    if a != ops[0] {
      MineIsThere(parts, r, ops[1..], a);
    }
  }

  /** What the list of a participant puts first, the run puts first. */
  lemma ListOrdersRun<T>(parts: T -> set<nat>, r: nat, trace: seq<T>, a: T, b: T)
    requires r in parts(b) && Precedes(Mine(parts, r, trace), a, b)
    ensures Precedes(trace, a, b)
  {
    forall j | 0 <= j < |trace| && trace[j] == b ensures a in trace[..j] {
      var mine, before := Mine(parts, r, trace), Mine(parts, r, trace[..j]);
      assert trace == trace[..j] + trace[j..];
      MineSplits(parts, r, trace[..j], trace[j..]);
      assert mine[|before|] == b && mine[..|before|] == before;
      MineIsThere(parts, r, trace[..j], a);
    }
  }

  /** Each step waits for the one before it, and the first for the last. */
  ghost predicate Circle<T>(trace: seq<T>, steps: seq<T>) {
    forall i :: 0 <= i < |steps| ==> Precedes(trace, steps[if i == 0 then |steps| - 1 else i - 1], steps[i])
  }

  lemma {:induction false} CircleNeverRuns<T>(trace: seq<T>, steps: seq<T>, j: nat)
    requires Circle(trace, steps) && j < |trace|
    ensures trace[j] !in steps
  {
    if trace[j] in steps {
      var i :| 0 <= i < |steps| && steps[i] == trace[j];
      var a := steps[if i == 0 then |steps| - 1 else i - 1];
      assert Precedes(trace, a, steps[i]);
      var k :| 0 <= k < j && trace[k] == a;
      CircleNeverRuns(trace, steps, k);
    }
  }

  lemma PrecedesLater<T>(x: seq<T>, y: seq<T>, a: T, b: T)
    requires Precedes(x, a, b) && (b in y ==> a in x || Precedes(y, a, b))
    ensures Precedes(x + y, a, b)
  {
    forall j | 0 <= j < |x + y| && (x + y)[j] == b ensures a in (x + y)[..j] {
      if j < |x| {
        assert (x + y)[..j] == x[..j];
      } else {
        assert (x + y)[..j] == x + y[..j - |x|] && y[j - |x|] == b;
      }
    }
  }

  lemma {:induction false} NotInFlatten<T>(blocks: seq<seq<T>>, b: T)
    requires forall m :: 0 <= m < |blocks| ==> b !in blocks[m]
    ensures b !in Flatten(blocks)
  {
    if blocks != [] {
      NotInFlatten(blocks[..|blocks| - 1], b);
    }
  }

  /** In blocks: `b` is in one block only, and `a` in an earlier one, or earlier in the same. */
  lemma {:induction false} BlocksOrder<T>(blocks: seq<seq<T>>, i: nat, j: nat, a: T, b: T)
    requires i <= j < |blocks| && forall m :: 0 <= m < |blocks| && b in blocks[m] ==> m == j
    requires if i < j then a in blocks[i] else Precedes(blocks[j], a, b)
    ensures Precedes(Flatten(blocks), a, b)
  {
    var n := |blocks| - 1;
    if j < n {
      BlocksOrder(blocks[..n], i, j, a, b);
    } else {
      NotInFlatten(blocks[..n], b);
      if i < j {
        InFlatten(blocks[..n], blocks[i], a);
      }
    }
    PrecedesLater(Flatten(blocks[..n]), blocks[n], a, b);
  }

  // ------------------------------------------------------------------------------------------
  // Lists that never get stuck can be finished

  ghost predicate Finished<T>(left: Lists<T>) {
    forall r :: r in left ==> left[r] == []
  }

  /** In every reachable state everything is done or some step can go next. */
  ghost predicate NeverStuck<T(!new)>(parts: T -> set<nat>, start: Lists<T>) {
    forall trace, end: Lists<T> :: Run(parts, start, trace, end) ==>
      Finished(end) || exists op :: Enabled(parts, end, op)
  }

  /** The steps still to be done, by rank and position. */
  ghost function Pending<T>(left: Lists<T>): set<(nat, nat)> {
    set r, i | r in left && 0 <= i < |left[r]| :: (r, i)
  }

  lemma FireShrinks<T>(parts: T -> set<nat>, left: Lists<T>, op: T)
    requires Enabled(parts, left, op)
    ensures Pending(Fire(parts, left, op)) < Pending(left)
  {
    var r :| r in parts(op);
    var next := Fire(parts, left, op);
    assert forall q, i :: (q, i) in Pending(next) ==> (q, i) in Pending(left);
    assert (r, |left[r]| - 1) in Pending(left) && (r, |left[r]| - 1) !in Pending(next);
  }

  lemma {:induction false} CanFinish<T(
    !new)>(parts: T -> set<nat>, start: Lists<T>) returns (trace: seq<T>, end: Lists<T>)
    requires NeverStuck(parts, start)
    ensures Run(parts, start, trace, end) && Finished(end)
    decreases Pending(start)
  {
    trace, end := [], start;
    assert Run(parts, start, trace, end);
    if !Finished(start) {
      var op :| Enabled(parts, start, op);
      var next := Fire(parts, start, op);
      FireShrinks(parts, start, op);
      forall t, e: Lists<T> | Run(parts, next, t, e) ensures Finished(e) || exists o :: Enabled(parts, e, o) {
        assert ([op] + t)[1..] == t;
        assert Run(parts, start, [op] + t, e);
      }
      var rest;
      rest, end := CanFinish(parts, next);
      trace := [op] + rest;
      assert trace[1..] == rest;
    }
  }
}
