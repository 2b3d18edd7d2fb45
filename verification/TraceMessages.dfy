/** Who sends the stamped tensor to whom (src/etha/comm/get_m2m_map.py). */
module TraceMessages {
  import opened Base
  import opened Radix

  /** Source position `i` serves every |source|-th target position, except ranks that are sources themselves. */
  ghost predicate Sends(source: seq<nat>, target: seq<nat>, i: nat, rank: nat)
    requires |source| > 0
  {
    rank !in source && exists j :: 0 <= j < |target| && target[j] == rank && j % |source| == i
  }

  lemma StrideClass(i: nat, j: nat, n: nat)
    requires i < n && j % n == i
    ensures (j + n) % n == i && forall k :: j < k < j + n ==> k % n != i
  {
    Recompose(j, n);
    assert j + n == (j / n + 1) * n + i by {
      assert (j / n + 1) * n == (j / n) * n + n;
    }
    DivModOf(j / n + 1, i, n);
    forall k | j < k < j + n ensures k % n != i {
      var d := k - j;
      if i + d < n {
        DivModOf(j / n, i + d, n);
      } else {
        assert k == (j / n + 1) * n + (i + d - n);
        DivModOf(j / n + 1, i + d - n, n);
      }
    }
  }

  /** The strided send loop of one source rank. */
  method SendTargets(source: seq<nat>, target: seq<nat>, i: nat) returns (sends: seq<nat>)
    requires i < |source| && Distinct(target)
    ensures forall r :: r in sends <==> Sends(source, target, i, r)
    ensures Distinct(sends)
  {
    sends := [];
    var n := |source|;
    var j := i;
    DivModOf(0, i, n);
    while j < |target|
      invariant j % n == i
      invariant forall r :: r in sends ==>
        r !in source && exists k :: 0 <= k < |target| && k < j && target[k] == r && k % n == i
      invariant forall k :: 0 <= k < |target| && k < j && k % n == i && target[k] !in source ==> target[k] in sends
      invariant Distinct(sends)
    {
      ghost var before := sends;
      if target[j] !in source {
        sends := sends + [target[j]];
      }
      StrideClass(i, j, n);
      ghost var j0 := j;
      j := j + n;
      forall r | r in sends
        ensures r !in source && exists k :: 0 <= k < |target| && k < j && target[k] == r && k % n == i
      {
        if r in before {
          var k :| 0 <= k < |target| && k < j0 && target[k] == r && k % n == i;
        } else {
          assert target[j0] == r;
        }
      }
    }
  }

  /** The one receive of a target rank outside the source mesh. */
  function ReceivesFrom(source: seq<nat>, j: nat): nat
    requires |source| > 0
  {
    source[j % |source|]
  }

  /**
   Sends and receives match one to one: every target outside the source mesh is sent to by exactly
   the rank it receives from, and nothing else is sent.
  */
  lemma TraceMessagesMatch(source: seq<nat>, target: seq<nat>, i: nat, rank: nat)
    requires i < |source| && Distinct(source) && Distinct(target)
    ensures Sends(source, target, i, rank) <==>
            rank !in source &&
            exists j :: 0 <= j < |target| && target[j] == rank && ReceivesFrom(source, j) == source[i]
  {
    if rank !in source && exists j :: 0 <= j < |target| && target[j] == rank && ReceivesFrom(source, j) == source[i] {
      var j :| 0 <= j < |target| && target[j] == rank && ReceivesFrom(source, j) == source[i];
      Recompose(j, |source|);
      assert j % |source| == i;
    }
    if Sends(source, target, i, rank) {
      var j :| 0 <= j < |target| && target[j] == rank && j % |source| == i;
      assert ReceivesFrom(source, j) == source[i];
    }
  }

  /** No target outside the source mesh is left waiting. */
  lemma EveryReceiveIsServed(source: seq<nat>, target: seq<nat>, j: nat)
    requires |source| > 0 && Distinct(target) && j < |target| && target[j] !in source
    ensures j % |source| < |source| && Sends(source, target, j % |source|, target[j])
    ensures forall i :: 0 <= i < |source| && Sends(source, target, i, target[j]) ==> i == j % |source|
  {
    Recompose(j, |source|);
  }
}
