/**
 Reduce-only entries for Partial peers (src/etha/comm/get_m2m_map.py): a union-find with path
 halving over the sub-groups, then every member of a component gets the cells of every other.
*/
module Shadows {
  import opened Base
  import opened IR
  import opened Radix
  import opened Layouts
  import opened Routing
  import opened PartialGroups

  ghost predicate InSome(groups: seq<seq<nat>>, r: nat) {
    exists g :: g in groups && r in g
  }

  ghost predicate NoneEmpty(groups: seq<seq<nat>>) {
    forall g :: g in groups ==> g != []
  }

  // ------------------------------------------------------------------------------------------
  // Parent maps

  /** Following `parent` from `x` goes down in `depth` and stays under `root[x]`. */
  ghost predicate NodeOk(parent: map<nat, nat>, root: map<nat, nat>, depth: map<nat, nat>, x: nat) {
    && x in parent && x in root && x in depth && parent[x] in parent && parent[x] in root && parent[x] in depth
    && root[x] in parent && root[x] in root
    && root[parent[x]] == root[x] && root[root[x]] == root[x]
    && (parent[x] == x <==> root[x] == x)
    && (parent[x] != x ==> depth[parent[x]] < depth[x])
  }

  ghost predicate IsForest(parent: map<nat, nat>, root: map<nat, nat>, depth: map<nat, nat>) {
    && parent.Keys == root.Keys && parent.Keys == depth.Keys
    && forall x {:trigger NodeOk(parent, root, depth, x)} :: x in parent ==> NodeOk(parent, root, depth, x)
  }

  /** Pointing a node at its grandparent changes no root and no depth. */
  lemma HalvingKeepsForest(parent: map<nat, nat>, root: map<nat, nat>, depth: map<nat, nat>, x: nat)
    requires IsForest(parent, root, depth) && x in parent && parent[x] != x
    ensures NodeOk(parent, root, depth, x) && NodeOk(parent, root, depth, parent[x])
    ensures IsForest(parent[x := parent[parent[x]]], root, depth)
    ensures depth[parent[parent[x]]] < depth[x] && root[parent[parent[x]]] == root[x]
  {
    assert NodeOk(parent, root, depth, x);
    assert NodeOk(parent, root, depth, parent[x]);
    var up := parent[parent[x]];
    assert NodeOk(parent, root, depth, up);
    var next := parent[x := up];
    assert next.Keys == parent.Keys;
    forall y | y in next ensures NodeOk(next, root, depth, y) {
      assert NodeOk(parent, root, depth, y);
    }
  }

  ghost function Rerooted(root: map<nat, nat>, ra: nat, rb: nat): map<nat, nat> {
    map x | x in root :: if root[x] == ra then rb else root[x]
  }

  ghost function Deepened(root: map<nat, nat>, depth: map<nat, nat>, ra: nat, lift: nat): map<nat, nat>
    requires root.Keys == depth.Keys
  {
    map x | x in root :: if root[x] == ra then depth[x] + lift else depth[x]
  }

  /** Hanging one root under another merges exactly their two trees. */
  lemma LinkingKeepsForest(parent: map<nat, nat>, root: map<nat, nat>, depth: map<nat, nat>, ra: nat, rb: nat)
    requires IsForest(parent, root, depth) && ra in parent && rb in parent && root[ra] == ra && root[rb] == rb
    requires ra != rb
    ensures IsForest(parent[ra := rb], Rerooted(root, ra, rb), Deepened(root, depth, ra, depth[rb] + 1))
  {
    var next, root', depth' := parent[ra := rb], Rerooted(root, ra, rb), Deepened(root, depth, ra, depth[rb] + 1);
    assert next.Keys == parent.Keys && root'.Keys == root.Keys && depth'.Keys == root.Keys;
    assert NodeOk(parent, root, depth, ra) && NodeOk(parent, root, depth, rb);
    forall y | y in next ensures NodeOk(next, root', depth', y) {
      assert NodeOk(parent, root, depth, y);
      LinkedNode(parent, root, depth, ra, rb, y);
    }
  }

  lemma LinkedNode(parent: map<nat, nat>, root: map<nat, nat>, depth: map<nat, nat>, ra: nat, rb: nat, y: nat)
    requires root.Keys == depth.Keys && NodeOk(parent, root, depth, y) && NodeOk(parent, root, depth, ra)
    requires NodeOk(parent, root, depth, rb)
    requires root[ra] == ra && root[rb] == rb && ra != rb
    ensures NodeOk(parent[ra := rb], Rerooted(root, ra, rb), Deepened(root, depth, ra, depth[rb] + 1), y)
  {
  }

  /** Ranks under one root stay under one root. */
  ghost predicate Coarser(before: map<nat, nat>, after: map<nat, nat>) {
    && before.Keys == after.Keys
    && forall x, y :: x in before && y in before && before[x] == before[y] ==> after[x] == after[y]
  }

  ghost predicate Uniform(root: map<nat, nat>, g: seq<nat>) {
    forall i, j :: 0 <= i < |g| && 0 <= j < |g| ==> g[i] in root && g[j] in root && root[g[i]] == root[g[j]]
  }

  lemma UniformKept(before: map<nat, nat>, after: map<nat, nat>, g: seq<nat>)
    requires Coarser(before, after) && Uniform(before, g)
    ensures Uniform(after, g)
  {
  }

  lemma CoarserTrans(a: map<nat, nat>, b: map<nat, nat>, c: map<nat, nat>)
    requires Coarser(a, b) && Coarser(b, c)
    ensures Coarser(a, c)
  {
  }

  lemma UniformGrows(before: map<nat, nat>, after: map<nat, nat>, g: seq<nat>, i: nat)
    requires Coarser(before, after) && 0 < i < |g| && Uniform(before, g[..i])
    requires g[i] in after && g[0] in after && after[g[0]] == after[g[i]]
    ensures Uniform(after, g[..i + 1])
  {
    UniformKept(before, after, g[..i]);
    var next := g[..i + 1];
    assert g[..i][0] == g[0];
    forall j | 0 <= j < |next| ensures next[j] in after && after[next[j]] == after[g[0]] {
      assert j < i ==> next[j] == g[..i][j];
    }
  }

  lemma GroupTogether(groups: seq<seq<nat>>, k: nat, i: nat)
    requires k < |groups| && i < |groups[k]|
    ensures Together(groups, groups[k][0], groups[k][i])
  {
    var g := groups[k];
    assert g in groups && g[0] in g && g[i] in g;
  }

  /** The parent dictionary. `root` and `depth` are what makes following parents end, and where. */
  class Forest {
    var parent: map<nat, nat>
    ghost var root: map<nat, nat>
    ghost var depth: map<nat, nat>

    ghost predicate Valid()
      reads this
    {
      IsForest(parent, root, depth)
    }

    constructor (ranks: set<nat>)
      ensures Valid() && parent.Keys == ranks && forall r :: r in ranks ==> root[r] == r
    {
      parent := map r | r in ranks :: r;
      root := map r | r in ranks :: r;
      depth := map r | r in ranks :: 0;
    }

    /** Path halving shortens paths and moves no rank to another root. */
    method Find(start: nat) returns (r: nat)
      requires Valid() && start in parent
      modifies this`parent
      ensures Valid() && parent.Keys == old(parent.Keys)
      ensures r in root && r == root[start] && root[r] == r
    {
      var x := start;
      while parent[x] != x
        invariant Valid() && parent.Keys == old(parent.Keys)
        invariant x in parent && root[x] == root[start]
        decreases depth[x]
      {
        HalvingKeepsForest(parent, root, depth, x);
        parent := parent[x := parent[parent[x]]];
        x := parent[x];
      }
      assert NodeOk(parent, root, depth, x);
      r := x;
    }

    method Union(a: nat, b: nat)
      requires Valid() && a in parent && b in parent
      modifies this
      ensures Valid() && parent.Keys == old(parent.Keys)
      ensures root == Rerooted(old(root), old(root[a]), old(root[b]))
    {
      var ra := Find(a);
      var rb := Find(b);
      if ra != rb {
        LinkingKeepsForest(parent, root, depth, ra, rb);
        depth := Deepened(root, depth, ra, depth[rb] + 1);
        root := Rerooted(root, ra, rb);
        parent := parent[ra := rb];
      }
    }

    ghost predicate Sound(groups: seq<seq<nat>>)
      reads this
    {
      forall x :: x in root ==> Linked(groups, x, root[x])
    }

    lemma UnionIsSound(groups: seq<seq<nat>>, a: nat, b: nat, x: nat)
      requires Valid() && Sound(groups) && a in parent && b in parent && x in parent
      requires Together(groups, a, b) && root[x] == root[a]
      ensures Linked(groups, x, root[b])
    {
      LinkedSym(groups, a, root[a]);
      LinkedTrans(groups, x, root[a], a);
      LinkedStep(groups, a, b);
      LinkedTrans(groups, x, a, b);
      LinkedTrans(groups, x, b, root[b]);
    }

    method JoinOne(groups: seq<seq<nat>>, a: nat, b: nat)
      requires Valid() && Sound(groups) && a in parent && b in parent && Together(groups, a, b)
      modifies this
      ensures Valid() && Sound(groups) && parent.Keys == old(parent.Keys) && root[a] == root[b]
      ensures Coarser(old(root), root)
    {
      forall x | x in parent && root[x] == root[a] ensures Linked(groups, x, root[b]) {
        UnionIsSound(groups, a, b, x);
      }
      Union(a, b);
    }

    method JoinGroup(groups: seq<seq<nat>>, k: nat)
      requires Valid() && Sound(groups) && k < |groups| && groups[k] != []
      requires forall i :: 0 <= i < |groups[k]| ==> groups[k][i] in parent
      modifies this
      ensures Valid() && Sound(groups) && parent.Keys == old(parent.Keys) && Uniform(root, groups[k])
      ensures Coarser(old(root), root)
    {
      var g := groups[k];
      for i := 1 to |g|
        invariant Valid() && Sound(groups) && parent.Keys == old(parent.Keys)
        invariant Uniform(root, g[..i]) && Coarser(old(root), root)
      {
        GroupTogether(groups, k, i);
        ghost var before := root;
        JoinOne(groups, g[0], g[i]);
        UniformGrows(before, root, g, i);
        CoarserTrans(old(root), before, root);
      }
      assert g[..|g|] == g;
    }

    ghost predicate Partitioned(groups: seq<seq<nat>>)
      reads this
    {
      && (forall r :: r in parent <==> InSome(groups, r))
      && (forall a, b :: a in root && b in root ==> (root[a] == root[b] <==> Linked(groups, a, b)))
    }

    lemma RootsAreComponents(groups: seq<seq<nat>>, a: nat, b: nat)
      requires Valid() && Sound(groups) && a in root && b in root
      requires forall i :: 0 <= i < |groups| ==> Uniform(root, groups[i])
      ensures root[a] == root[b] <==> Linked(groups, a, b)
    {
      if root[a] == root[b] {
        LinkedSym(groups, b, root[b]);
        LinkedTrans(groups, a, root[a], b);
      }
      if Linked(groups, a, b) {
        var roots := root;
        var mark := (r: nat) => if r in roots then roots[r] else r;
        forall x, y | Together(groups, x, y) ensures mark(x) == mark(y) {
          var g :| g in groups && x in g && y in g;
          var i :| 0 <= i < |groups| && groups[i] == g;
          assert Uniform(root, g);
        }
        LinkedKeepsLabel(groups, mark, a, b);
      }
    }

    /** The partition is the smallest equivalence that joins the members of every sub-group. */
    method JoinAll(groups: seq<seq<nat>>)
      requires Valid() && NoneEmpty(groups) && forall r :: r in parent <==> InSome(groups, r)
      requires forall r :: r in parent ==> root[r] == r
      modifies this
      ensures Valid() && Partitioned(groups) && parent.Keys == old(parent.Keys)
    {
      forall r | r in parent ensures Linked(groups, r, root[r]) {
        LinkedRefl(groups, r);
      }
      for k := 0 to |groups|
        invariant Valid() && Sound(groups) && parent.Keys == old(parent.Keys)
        invariant forall i :: 0 <= i < k ==> Uniform(root, groups[i])
      {
        forall i | 0 <= i < |groups[k]| ensures groups[k][i] in parent {
          assert groups[k] in groups && groups[k][i] in groups[k];
        }
        assert groups[k] in groups;
        ghost var before := root;
        JoinGroup(groups, k);
        forall i | 0 <= i < k ensures Uniform(root, groups[i]) {
          UniformKept(before, root, groups[i]);
        }
      }
      forall a, b | a in root && b in root ensures root[a] == root[b] <==> Linked(groups, a, b) {
        RootsAreComponents(groups, a, b);
      }
    }

    /** Every rank filed under its root. */
    method Components() returns (members: map<nat, set<nat>>)
      requires Valid()
      modifies this`parent
      ensures Valid() && parent.Keys == old(parent.Keys)
      ensures forall r :: r in parent ==> root[r] in members
      ensures forall c, r :: c in members ==> (r in members[c] <==> r in parent && root[r] == c)
    {
      members := map[];
      var todo := parent.Keys;
      while todo != {}
        invariant Valid() && parent.Keys == old(parent.Keys) && todo <= parent.Keys
        invariant forall r :: r in parent && r !in todo ==> root[r] in members
        invariant forall c, r :: c in members ==> (r in members[c] <==> r in parent && r !in todo && root[r] == c)
      {
        var r :| r in todo;
        var c := Find(r);
        members := members[c := (if c in members then members[c] else {}) + {r}];
        todo := todo - {r};
      }
    }
  }

  // ------------------------------------------------------------------------------------------
  // Expansion

  /** Another member of the rank's component has an entry at this cell. */
  ghost predicate Shadowed(groups: seq<seq<nat>>, m: FeedMap, e: Endpoint) {
    exists r :: Endpoint(r, e.cell) in m && r != e.rank && Linked(groups, r, e.rank)
  }

  /** The exact closure: nothing else is added, entries that were there are kept, added ones are empty. */
  ghost predicate IsExpansion(groups: seq<seq<nat>>, m: FeedMap, x: FeedMap) {
    && (forall e :: e in x <==> e in m || Shadowed(groups, m, e))
    && forall e :: e in x ==> x[e] == Lookup(m, e)
  }

  lemma LinkedAreMembers(groups: seq<seq<nat>>, a: nat, b: nat)
    requires Linked(groups, a, b) && a != b
    ensures InSome(groups, a) && InSome(groups, b)
  {
    var p :| Chain(groups, p) && p[0] == a && p[|p| - 1] == b;
    assert Together(groups, p[0], p[1]);
    assert Together(groups, p[|p| - 2], p[|p| - 1]);
  }

  /** Entries of one cell for the rest of a component. */
  method ShadowCell(x: FeedMap, rank: nat, cell: seq<nat>, comp: set<nat>) returns (y: FeedMap)
    ensures forall e :: e in y <==> e in x || (e.cell == cell && e.rank in comp && e.rank != rank)
    ensures forall e :: e in y ==> y[e] == Lookup(x, e)
  {
    y := x;
    var todo := comp;
    while todo != {}
      invariant todo <= comp
      invariant forall e :: e in y <==> e in x || (e.cell == cell && e.rank in comp - todo && e.rank != rank)
      invariant forall e :: e in y ==> y[e] == Lookup(x, e)
    {
      var r :| r in todo;
      if r != rank && Endpoint(r, cell) !in y {
        y := y[Endpoint(r, cell) := []];
      }
      todo := todo - {r};
    }
  }

  method ShadowRank(x: FeedMap, rank: nat, cells: set<seq<nat>>, comp: set<nat>) returns (y: FeedMap)
    ensures forall e :: e in y <==> e in x || (e.cell in cells && e.rank in comp && e.rank != rank)
    ensures forall e :: e in y ==> y[e] == Lookup(x, e)
  {
    y := x;
    var todo := cells;
    while todo != {}
      invariant todo <= cells
      invariant forall e :: e in y <==> e in x || (e.cell in cells - todo && e.rank in comp && e.rank != rank)
      invariant forall e :: e in y ==> y[e] == Lookup(x, e)
    {
      var cell :| cell in todo;
      y := ShadowCell(y, rank, cell, comp);
      todo := todo - {cell};
    }
  }

  method CollectGroups(l: Layout) returns (groups: seq<seq<nat>>)
    requires ValidLayout(l)
    ensures groups == PartialSubGroups(l)
  {
    groups := [];
    for i := 0 to |l.placements|
      invariant groups == GroupsUpTo(l.mesh, l.placements, i)
    {
      if l.placements[i].Partial? {
        var lines := EnumerateSubGroups(l.mesh, i);
        groups := groups + lines.value;
      }
    }
  }

  function MembersUpTo(groups: seq<seq<nat>>, n: nat): set<nat>
    requires n <= |groups|
  {
    set i, j | 0 <= i < n && 0 <= j < |groups[i]| :: groups[i][j]
  }

  lemma MembersAre(groups: seq<seq<nat>>, r: nat)
    ensures r in MembersUpTo(groups, |groups|) <==> InSome(groups, r)
  {
    if InSome(groups, r) {
      var g :| g in groups && r in g;
      var i :| 0 <= i < |groups| && groups[i] == g;
      var j :| 0 <= j < |g| && g[j] == r;
    }
    if r in MembersUpTo(groups, |groups|) {
      var i, j :| 0 <= i < |groups| && 0 <= j < |groups[i]| && groups[i][j] == r;
      assert groups[i] in groups && r in groups[i];
    }
  }

  lemma {:induction false} GroupsAreNotEmpty(l: Layout)
    requires ValidLayout(l)
    ensures NoneEmpty(PartialSubGroups(l))
  {
    forall g | g in PartialSubGroups(l) ensures g != [] {
      var i := GroupsUpToOnly(l.mesh, l.placements, |l.placements|, g);
      var v :| 0 <= v < |SubGroups(l.mesh, i)| && SubGroups(l.mesh, i)[v] == g;
      assert |g| == l.mesh.shape[i];
    }
  }

  /** The ranks from `done` have had their components filled in. */
  ghost predicate FilledFrom(groups: seq<seq<nat>>, m: FeedMap, done: set<nat>, x: FeedMap) {
    && (forall e :: e in x <==>
        e in m || exists r :: r in done && Endpoint(r, e.cell) in m && r != e.rank && Linked(groups, r, e.rank))
    && forall e :: e in x ==> x[e] == Lookup(m, e)
  }

  lemma FillOne(groups: seq<seq<nat>>, m: FeedMap, done: set<nat>, x: FeedMap, rank: nat, comp: set<nat>, y: FeedMap)
    requires FilledFrom(groups, m, done, x)
    requires forall s :: s != rank ==> (s in comp <==> Linked(groups, rank, s))
    requires forall e :: e in y <==> e in x || (Endpoint(rank, e.cell) in m && e.rank in comp && e.rank != rank)
    requires forall e :: e in y ==> y[e] == Lookup(x, e)
    ensures FilledFrom(groups, m, done + {rank}, y)
  {
    forall e
      ensures e in y <==>
              e in m ||
              exists r :: r in done + {rank} && Endpoint(r, e.cell) in m && r != e.rank && Linked(groups, r, e.rank)
    {
      if e in y && e !in m && e !in x {
        assert rank in done + {rank};
      }
    }
  }

  /** The component index built over the forest. */
  ghost predicate Filed(forest: Forest, groups: seq<seq<nat>>, members: map<nat, set<nat>>)
    reads forest
  {
    && forest.Valid() && forest.Partitioned(groups)
    && (forall r :: r in forest.parent ==> forest.root[r] in members)
    && (forall c, r :: c in members ==> (r in members[c] <==> r in forest.parent && forest.root[r] == c))
  }

  method BuildForest(groups: seq<seq<nat>>) returns (forest: Forest, members: map<nat, set<nat>>)
    requires NoneEmpty(groups)
    ensures fresh(forest) && Filed(forest, groups, members)
  {
    forall r ensures r in MembersUpTo(groups, |groups|) <==> InSome(groups, r) {
      MembersAre(groups, r);
    }
    forest := new Forest(MembersUpTo(groups, |groups|));
    forest.JoinAll(groups);
    members := forest.Components();
  }

  method ComponentOf(forest: Forest, groups: seq<seq<nat>>, members: map<nat, set<nat>>, rank: nat)
    returns (comp: set<nat>)
    requires Filed(forest, groups, members) && rank in forest.parent
    modifies forest`parent
    ensures Filed(forest, groups, members) && forest.parent.Keys == old(forest.parent.Keys)
    ensures forall s :: s != rank ==> (s in comp <==> Linked(groups, rank, s))
  {
    var c := forest.Find(rank);
    comp := members[c];
    forall s | s != rank ensures s in comp <==> Linked(groups, rank, s) {
      if Linked(groups, rank, s) {
        LinkedAreMembers(groups, rank, s);
      }
    }
  }

  lemma LoneRank(groups: seq<seq<nat>>, rank: nat)
    requires !InSome(groups, rank)
    ensures forall s :: s != rank ==> !Linked(groups, rank, s) && !Linked(groups, s, rank)
  {
    forall s | s != rank ensures !Linked(groups, rank, s) && !Linked(groups, s, rank) {
      if Linked(groups, rank, s) {
        LinkedAreMembers(groups, rank, s);
      }
      if Linked(groups, s, rank) {
        LinkedAreMembers(groups, s, rank);
      }
    }
  }

  function CellsOf(m: FeedMap, rank: nat): (r: set<seq<nat>>)
    ensures forall c :: c in r <==> Endpoint(rank, c) in m
  {
    set e | e in m && e.rank == rank :: e.cell
  }

  method FillRank(forest: Forest, groups: seq<seq<nat>>, members: map<nat, set<nat>>, m: FeedMap, ghost done: set<nat>,
                  x: FeedMap, rank: nat) returns (y: FeedMap)
    requires Filed(forest, groups, members) && FilledFrom(groups, m, done, x)
    modifies forest`parent
    ensures Filed(forest, groups, members) && FilledFrom(groups, m, done + {rank}, y)
  {
    if rank !in forest.parent {
      LoneRank(groups, rank);
      FillOne(groups, m, done, x, rank, {}, x);
      return x;
    }
    var comp := ComponentOf(forest, groups, members, rank);
    y := ShadowRank(x, rank, CellsOf(m, rank), comp);
    FillOne(groups, m, done, x, rank, comp, y);
  }

  method FillAll(forest: Forest, groups: seq<seq<nat>>, members: map<nat, set<nat>>, m: FeedMap) returns (x: FeedMap)
    requires Filed(forest, groups, members)
    modifies forest`parent
    ensures IsExpansion(groups, m, x)
  {
    x := m;
    var todo := set e | e in m :: e.rank;
    ghost var done: set<nat> := {};
    while todo != {}
      invariant Filed(forest, groups, members)
      invariant forall e :: e in m ==> e.rank in done || e.rank in todo
      invariant FilledFrom(groups, m, done, x)
    {
      var rank :| rank in todo;
      x := FillRank(forest, groups, members, m, done, x, rank);
      todo := todo - {rank};
      done := done + {rank};
    }
  }

  lemma NoGroupsNoShadows(m: FeedMap)
    ensures IsExpansion([], m, m)
  {
    forall e | Shadowed([], m, e) ensures false {
      LoneRank([], e.rank);
    }
  }

  method ExpandShadows(m: FeedMap, l: Layout) returns (x: FeedMap)
    requires ValidLayout(l)
    ensures IsExpansion(PartialSubGroups(l), m, x)
  {
    var groups := CollectGroups(l);
    if groups == [] {
      NoGroupsNoShadows(m);
      return m;
    }
    GroupsAreNotEmpty(l);
    var forest, members := BuildForest(groups);
    x := FillAll(forest, groups, members, m);
  }
}
