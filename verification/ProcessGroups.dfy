/**
 The process-group cache (src/etha/pg_utils.py) and the canonical creation pass that keeps the
 world-collective `new_group` calls in one order on every rank (src/etha/comm/get_chunks.py).
*/
module ProcessGroups {
  import opened Base
  import opened IR
  import opened Sorting

  /** Cached groups by sorted membership, and every `new_group` call so far; a group is named by its call number. */
  datatype Groups = Groups(cache: map<seq<nat>, nat>, created: seq<seq<nat>>)

  function Touch(g: Groups, key: seq<nat>): Groups {
    if key in g.cache then g else Groups(g.cache[key := |g.created|], g.created + [key])
  }

  function TouchAll(g: Groups, keys: seq<seq<nat>>): Groups {
    if keys == [] then g else Touch(TouchAll(g, keys[..|keys| - 1]), keys[|keys| - 1])
  }

  ghost function Members(r: Route): seq<nat> {
    SortedNats({r.src.rank} + set d | d in r.dsts :: d.rank)
  }

  /** The memberships one map broadcasts over. */
  ghost function BroadcastKeys(routes: seq<Route>): set<seq<nat>> {
    set r | r in routes && r.kind == Broadcast :: Members(r)
  }

  ghost function AllKeys(maps: seq<Option<seq<Route>>>): set<seq<nat>> {
    set m, r | m in maps && m.Some? && r in m.value && r.kind == Broadcast :: Members(r)
  }

  /** Union first, then one sorted pass. */
  ghost function Prewarmed(g: Groups, maps: seq<Option<seq<Route>>>): Groups {
    TouchAll(g, SortedTuples(AllKeys(maps)))
  }

  /** The pass at the head of chunk building for one map. */
  ghost function ChunkPass(g: Groups, routes: seq<Route>): Groups {
    TouchAll(g, SortedTuples(BroadcastKeys(routes)))
  }

  function RankSet(ranks: seq<nat>): set<nat> {
    set r | r in ranks
  }

  class GroupCache {
    var cache: map<seq<nat>, nat>
    var created: seq<seq<nat>>

    ghost function View(): Groups
      reads this
    {
      Groups(cache, created)
    }

    method GetOrCreate(ranks: seq<nat>) returns (group: nat)
      modifies this
      ensures var key := SortedNats(RankSet(ranks));
              View() == Touch(old(View()), key) && key in cache && group == cache[key]
    {
      OrdersAreTotal();
      var key := SortSet(NatLess, RankSet(ranks));
      if key !in cache {
        cache := cache[key := |created|];
        created := created + [key];
      }
      group := cache[key];
    }

    method GroupRanks(routes: seq<Route>) returns (groups: set<seq<nat>>)
      ensures groups == BroadcastKeys(routes)
    {
      OrdersAreTotal();
      groups := {};
      for i := 0 to |routes|
        invariant groups == BroadcastKeys(routes[..i])
      {
        assert routes[..i + 1] == routes[..i] + [routes[i]];
        if routes[i].kind == Broadcast {
          var members := SortSet(NatLess, {routes[i].src.rank} + set d | d in routes[i].dsts :: d.rank);
          groups := groups + {members};
        }
      }
      assert routes[..|routes|] == routes;
    }

    method TouchEach(order: seq<seq<nat>>)
      requires forall k :: k in order ==> Canonical(k)
      modifies this
      ensures View() == TouchAll(old(View()), order)
    {
      for i := 0 to |order|
        invariant View() == TouchAll(old(View()), order[..i])
      {
        TouchNext(old(View()), order, i);
        assert Canonical(order[i]);
        var _ := GetOrCreate(order[i]);
      }
      assert order[..|order|] == order;
    }

    method TouchSorted(keys: set<seq<nat>>)
      requires forall k :: k in keys ==> Canonical(k)
      modifies this
      ensures View() == TouchAll(old(View()), SortedTuples(keys))
    {
      var order := SortKeys(keys);
      TouchEach(order);
    }

    method Prewarm(maps: seq<Option<seq<Route>>>)
      modifies this
      ensures View() == Prewarmed(old(View()), maps)
    {
      var groups: set<seq<nat>> := {};
      for i := 0 to |maps|
        invariant View() == old(View())
        invariant groups == AllKeys(maps[..i])
      {
        assert maps[..i + 1] == maps[..i] + [maps[i]];
        if maps[i].Some? {
          var more := GroupRanks(maps[i].value);
          groups := groups + more;
        }
      }
      assert maps[..|maps|] == maps;
      KeysAreCanonical(maps);
      TouchSorted(groups);
    }
  }

  method SortKeys(keys: set<seq<nat>>) returns (order: seq<seq<nat>>)
    ensures order == SortedTuples(keys)
    ensures forall k :: k in order ==> k in keys
  {
    OrdersAreTotal();
    order := SortSet(LexLess, keys);
    SortedEnumerates(LexLess, keys);
  }

  /** A key the cache leaves as it is: a sorted membership. */
  ghost predicate Canonical(key: seq<nat>) {
    SortedNats(RankSet(key)) == key
  }

  lemma SortedIsCanonical(s: set<nat>)
    ensures Canonical(SortedNats(s))
  {
    OrdersAreTotal();
    SortedEnumerates(NatLess, s);
    var key := SortedNats(s);
    assert RankSet(key) == s;
  }

  lemma KeysAreCanonical(maps: seq<Option<seq<Route>>>)
    ensures forall k :: k in AllKeys(maps) ==> Canonical(k)
  {
    forall m, r | m in maps && m.Some? && r in m.value ensures Canonical(Members(r)) {
      SortedIsCanonical({r.src.rank} + set d | d in r.dsts :: d.rank);
    }
  }

  lemma TouchNext(g: Groups, order: seq<seq<nat>>, i: nat)
    requires i < |order|
    ensures TouchAll(g, order[..i + 1]) == Touch(TouchAll(g, order[..i]), order[i])
  {
    assert order[..i + 1][..i] == order[..i];
  }

  /** The order in which the maps are listed does not matter: same calls, same names, same cache. */
  lemma PrewarmIgnoresMapOrder(g: Groups, a: seq<Option<seq<Route>>>, b: seq<Option<seq<Route>>>)
    requires forall m :: m in a <==> m in b
    ensures Prewarmed(g, a) == Prewarmed(g, b)
  {
    assert AllKeys(a) == AllKeys(b);
  }

  lemma {:induction false} TouchAllCaches(g: Groups, keys: seq<seq<nat>>)
    ensures forall k :: k in TouchAll(g, keys).cache <==> k in g.cache || k in keys
  {
    if keys != [] {
      TouchAllCaches(g, keys[..|keys| - 1]);
      assert keys == keys[..|keys| - 1] + [keys[|keys| - 1]];
    }
  }

  lemma {:induction false} TouchAllHits(g: Groups, keys: seq<seq<nat>>)
    requires forall k :: k in keys ==> k in g.cache
    ensures TouchAll(g, keys) == g
  {
    if keys != [] {
      TouchAllHits(g, keys[..|keys| - 1]);
    }
  }

  /** After prewarming, building the chunks of any of the maps calls `new_group` no more. */
  lemma ChunkBuildingHits(g: Groups, maps: seq<Option<seq<Route>>>, routes: seq<Route>)
    requires Some(routes) in maps
    ensures ChunkPass(Prewarmed(g, maps), routes) == Prewarmed(g, maps)
  {
    OrdersAreTotal();
    var keys := SortedTuples(AllKeys(maps));
    SortedEnumerates(LexLess, AllKeys(maps));
    SortedEnumerates(LexLess, BroadcastKeys(routes));
    TouchAllCaches(g, keys);
    forall k | k in SortedTuples(BroadcastKeys(routes)) ensures k in Prewarmed(g, maps).cache {
      assert k in BroadcastKeys(routes);
      var r :| r in routes && r.kind == Broadcast && Members(r) == k;
      assert k in AllKeys(maps);
    }
    TouchAllHits(Prewarmed(g, maps), SortedTuples(BroadcastKeys(routes)));
  }

  /** And every broadcast finds its group. */
  lemma BroadcastHits(g: Groups, maps: seq<Option<seq<Route>>>, routes: seq<Route>, r: Route)
    requires Some(routes) in maps && r in routes && r.kind == Broadcast
    ensures Members(r) in Prewarmed(g, maps).cache
    ensures Touch(Prewarmed(g, maps), Members(r)) == Prewarmed(g, maps)
  {
    OrdersAreTotal();
    SortedEnumerates(LexLess, AllKeys(maps));
    TouchAllCaches(g, SortedTuples(AllKeys(maps)));
    assert Members(r) in AllKeys(maps);
  }

  lemma TouchTwo(g: Groups, a: seq<nat>, b: seq<nat>)
    ensures TouchAll(g, [a, b]) == Touch(Touch(g, a), b)
  {
    var one, two := [a], [a, b];
    assert two[..1] == one && one[..0] == [];
    assert TouchAll(g, one) == Touch(TouchAll(g, []), a);
  }

  /**
   Without the pass, the two sides of a pair first-touch their directions in opposite orders and name groups
   apart.
   */
  lemma FirstTouchDiverges(g: Groups, a: seq<nat>, b: seq<nat>)
    requires a !in g.cache && b !in g.cache && a != b
    ensures TouchAll(g, [a, b]).created != TouchAll(g, [b, a]).created
    ensures a in TouchAll(g, [a, b]).cache && a in TouchAll(g, [b, a]).cache
    ensures TouchAll(g, [a, b]).cache[a] != TouchAll(g, [b, a]).cache[a]
  {
    TouchTwo(g, a, b);
    TouchTwo(g, b, a);
    var x, y := TouchAll(g, [a, b]), TouchAll(g, [b, a]);
    assert x.created[|g.created|] == a && y.created[|g.created|] == b;
  }
}
