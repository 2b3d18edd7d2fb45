/** Python's `sorted` on sets: the one increasing enumeration of a set under a total order. */
module Sorting {
  import opened Base

  ghost predicate StrictTotal<T(!new)>(less: (T, T) -> bool) {
    && (forall a :: !less(a, a))
    && (forall a, b :: less(a, b) || a == b || less(b, a))
    && (forall a, b, c :: less(a, b) && less(b, c) ==> less(a, c))
  }

  ghost predicate Increasing<T>(less: (T, T) -> bool, q: seq<T>) {
    forall i, j :: 0 <= i < j < |q| ==> less(q[i], q[j])
  }

  predicate IsLeast<T(==)>(less: (T, T) -> bool, s: set<T>, x: T) {
    x in s && forall y :: y in s ==> y == x || less(x, y)
  }

  lemma {:induction false} LeastExists<T(!new)>(less: (T, T) -> bool, s: set<T>)
    requires StrictTotal(less) && s != {}
    ensures exists x :: IsLeast(less, s, x)
    decreases |s|
  {
    var x :| x in s;
    if s == {x} {
      assert IsLeast(less, s, x);
    } else {
      LeastExists(less, s - {x});
      var y :| IsLeast(less, s - {x}, y);
      if less(x, y) {
        forall z | z in s ensures z == x || less(x, z) {
          assert z == x || z in s - {x};
        }
        assert IsLeast(less, s, x);
      } else {
        assert IsLeast(less, s, y);
      }
    }
  }

  ghost function Least<T(!new)>(less: (T, T) -> bool, s: set<T>): (x: T)
    requires StrictTotal(less) && s != {}
    ensures IsLeast(less, s, x)
  {
    LeastExists(less, s);
    var x :| IsLeast(less, s, x);
    x
  }

  ghost function Sorted<T(!new)>(less: (T, T) -> bool, s: set<T>): seq<T>
    requires StrictTotal(less)
    decreases |s|
  {
    if s == {} then [] else [Least(less, s)] + Sorted(less, s - {Least(less, s)})
  }

  lemma {:induction false} SortedEnumerates<T(!new)>(less: (T, T) -> bool, s: set<T>)
    requires StrictTotal(less)
    ensures Increasing(less, Sorted(less, s))
    ensures forall x :: x in Sorted(less, s) <==> x in s
    decreases |s|
  {
    if s != {} {
      var x := Least(less, s);
      SortedEnumerates(less, s - {x});
      var rest := Sorted(less, s - {x});
      forall i | 0 <= i < |rest| ensures less(x, rest[i]) {
        assert rest[i] in s - {x};
      }
    }
  }

  lemma IncreasingIsDistinct<T(!new)>(less: (T, T) -> bool, q: seq<T>)
    requires StrictTotal(less) && Increasing(less, q)
    ensures Distinct(q)
  {
  }

  /** There is only one increasing enumeration. */
  lemma {:induction false} SortedIsUnique<T(!new)>(less: (T, T) -> bool, s: set<T>, q: seq<T>)
    requires StrictTotal(less) && Increasing(less, q) && forall x :: x in q <==> x in s
    ensures q == Sorted(less, s)
    decreases |s|
  {
    assert q == [] || q[0] in s;
    if s != {} {
      var x := Least(less, s);
      assert q != [] && q[0] == x by {
        assert x in q;
        assert q[0] in s;
      }
      RestEnumerates(less, s, q);
      SortedIsUnique(less, s - {x}, q[1..]);
    }
  }

  lemma RestEnumerates<T(!new)>(less: (T, T) -> bool, s: set<T>, q: seq<T>)
    requires StrictTotal(less) && Increasing(less, q) && q != [] && forall x :: x in q <==> x in s
    ensures Increasing(less, q[1..]) && forall y :: y in q[1..] <==> y in s - {q[0]}
  {
    var rest := q[1..];
    forall y ensures y in rest <==> y in s - {q[0]} {
      if y in rest {
        var i :| 0 <= i < |rest| && rest[i] == y;
        assert less(q[0], q[i + 1]);
      }
      if y in s - {q[0]} {
        assert y in q;
      }
    }
  }

  // ------------------------------------------------------------------------------------------
  // The two orders the code sorts by

  predicate NatLess(a: nat, b: nat) {
    a < b
  }

  /** Tuple comparison. */
  predicate LexLess(a: seq<nat>, b: seq<nat>) {
    if a == [] then b != []
    else if b == [] then false
    else a[0] < b[0] || (a[0] == b[0] && LexLess(a[1..], b[1..]))
  }

  lemma {:induction false} LexIrreflexive(a: seq<nat>)
    ensures !LexLess(a, a)
  {
    if a != [] {
      LexIrreflexive(a[1..]);
    }
  }

  lemma {:induction false} LexTotal(a: seq<nat>, b: seq<nat>)
    ensures LexLess(a, b) || a == b || LexLess(b, a)
  {
    if a != [] && b != [] && a[0] == b[0] {
      LexTotal(a[1..], b[1..]);
      assert a == [a[0]] + a[1..] && b == [b[0]] + b[1..];
    }
  }

  lemma {:induction false} LexTransitive(a: seq<nat>, b: seq<nat>, c: seq<nat>)
    requires LexLess(a, b) && LexLess(b, c)
    ensures LexLess(a, c)
  {
    if a != [] && a[0] == b[0] && b[0] == c[0] {
      LexTransitive(a[1..], b[1..], c[1..]);
    }
  }

  lemma OrdersAreTotal()
    ensures StrictTotal(NatLess) && StrictTotal(LexLess)
  {
    forall a: seq<nat>, b: seq<nat>, c: seq<nat>
      ensures !LexLess(a, a) && (LexLess(a, b) || a == b || LexLess(b, a))
      ensures LexLess(a, b) && LexLess(b, c) ==> LexLess(a, c)
    {
      LexIrreflexive(a);
      LexTotal(a, b);
      if LexLess(a, b) && LexLess(b, c) {
        LexTransitive(a, b, c);
      }
    }
  }

  ghost function SortedNats(s: set<nat>): seq<nat> {
    OrdersAreTotal();
    Sorted(NatLess, s)
  }

  ghost function SortedTuples(s: set<seq<nat>>): seq<seq<nat>> {
    OrdersAreTotal();
    Sorted(LexLess, s)
  }

  lemma LeastIsUnique<T(!new)>(less: (T, T) -> bool, s: set<T>, x: T, y: T)
    requires StrictTotal(less) && IsLeast(less, s, x) && IsLeast(less, s, y)
    ensures x == y
  {
  }

  method SortSet<T(==, !new)>(less: (T, T) -> bool, s: set<T>) returns (q: seq<T>)
    requires StrictTotal(less)
    ensures q == Sorted(less, s)
  {
    var todo := s;
    q := [];
    while todo != {}
      invariant q + Sorted(less, todo) == Sorted(less, s)
    {
      LeastExists(less, todo);
      var x :| IsLeast(less, todo, x);
      LeastIsUnique(less, todo, x, Least(less, todo));
      q := q + [x];
      todo := todo - {x};
    }
  }
}
