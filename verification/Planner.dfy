/**
 Planning a tensor from end to end (src/etha/comm/get_m2m_map.py): grid, stamps, gather, reduce-only entries
 and table, each as the planner runs it, give what execution needs.
*/
module Planner {
  import opened Base
  import opened IR
  import opened Radix
  import opened TagCodec
  import opened Layouts
  import opened Routing
  import opened RouteTables
  import opened ChunkLists
  import opened Shadows
  import opened Sequential
  import opened PartialBatches
  import opened MeshPlaces
  import opened PartialSequential
  import opened TraceMessages
  import Coalescing

  /** Where a rank is in a list that has it. */
  function PositionOf(ranks: seq<nat>, rank: nat): (i: nat)
    requires rank in ranks
    ensures i < |ranks| && ranks[i] == rank
  {
    if ranks[0] == rank then 0 else 1 + PositionOf(ranks[1..], rank)
  }

  /** Targets that are sources look at themselves, the others at the rank they receive the traced tensor from. */
  function ViewOf(p: Problem): nat -> nat {
    (t: nat) =>
      if t < |p.target.mesh.ranks| && p.target.mesh.ranks[t] in p.source.mesh.ranks
      then PositionOf(p.source.mesh.ranks, p.target.mesh.ranks[t])
      else if p.source.mesh.ranks == [] then 0
      else t % |p.source.mesh.ranks|
  }

  /** The rank whose gathered tensor a target reads: its own, or the one it receives. */
  function SeenBy(p: Problem, t: nat): (r: nat)
    requires |p.source.mesh.ranks| > 0 && t < |p.target.mesh.ranks|
    ensures r in p.source.mesh.ranks
  {
    if p.target.mesh.ranks[t] in p.source.mesh.ranks then p.target.mesh.ranks[t]
    else ReceivesFrom(p.source.mesh.ranks, t)
  }

  ghost predicate TracedViews(p: Problem, view: nat -> nat) {
    |p.source.mesh.ranks| > 0 &&
    forall t: nat :: t < |p.target.mesh.ranks| ==>
      view(t) < |p.source.mesh.ranks| && p.source.mesh.ranks[view(t)] == SeenBy(p, t)
  }

  /** The code blocks of all source ranks lie below two to the 24th. */
  ghost predicate TagsFit(p: Problem) {
    forall r :: r in p.source.mesh.ranks ==> (r + 1) * Power(TagBase(p), |p.sourceCuts|) <= EXACT
  }

  lemma HeldIsExact(p: Problem, e: Endpoint)
    requires ValidProblem(p) && TagsFit(p) && e.rank in p.source.mesh.ranks && InRange(p.sourceCuts, e.cell)
    ensures TagExact(e.rank, e.cell, TagBase(p))
  {
    SourceCellBelowBase(p, e);
    assert |e.cell| == |p.sourceCuts|;
    TagsSurviveBelowBound(e.rank, e.cell, TagBase(p));
  }

  lemma StampIsExact(p: Problem, view: nat -> nat, t: nat, g: seq<nat>)
    requires ValidProblem(p) && TagsFit(p) && InRange(p.grid, g)
    ensures Holds(p, ReplicaStamp(p, view, t, g), g)
    ensures TagExact(ReplicaStamp(p, view, t, g).rank, ReplicaStamp(p, view, t, g).cell, TagBase(p))
  {
    ReplicaStampIsValid(p, view, t, g);
    HeldIsOnMesh(p, ReplicaStamp(p, view, t, g), g);
    HeldIsExact(p, ReplicaStamp(p, view, t, g));
  }

  lemma HeldIsOnMesh(p: Problem, e: Endpoint, g: seq<nat>)
    requires ValidProblem(p) && Holds(p, e, g)
    ensures e.rank in p.source.mesh.ranks && InRange(p.sourceCuts, e.cell)
  {
  }

  lemma StampsAreExact(p: Problem, stamp: Stamp, view: nat -> nat)
    requires ValidProblem(p) && TagsFit(p) && Coalescing.FullTensor(p, stamp, view)
    ensures ValidStamp(p, stamp) && TagsExact(p, stamp)
  {
    forall t: nat, g | t < |p.target.mesh.ranks| && InRange(p.grid, g)
      ensures Holds(p, stamp(t, g), g) && TagExact(stamp(t, g).rank, stamp(t, g).cell, TagBase(p))
    {
      assert stamp(t, g) == ReplicaStamp(p, view, t, g);
      StampIsExact(p, view, t, g);
    }
  }

  lemma ViewsAreTraced(p: Problem)
    requires ValidProblem(p)
    ensures TracedViews(p, ViewOf(p)) && OwnView(p, ViewOf(p))
  {
    ProdPositive(p.source.mesh.shape);
  }

  /** Whoever feeds a target is in the replica of the rank the target reads from. */
  ghost predicate FedFromSeen(p: Problem, routes: seq<Route>)
    requires ValidProblem(p)
  {
    forall i: nat, t: nat :: i < |routes| && t < |p.target.mesh.ranks| && Feeds(routes[i], p.target.mesh.ranks[t]) ==>
      FromReplicaOf(p, routes[i].src.rank, t)
  }

  ghost predicate FromReplicaOf(p: Problem, src: nat, t: nat)
    requires ValidProblem(p)
  {
    && |p.source.mesh.ranks| > 0 && t < |p.target.mesh.ranks| && src in p.source.mesh.ranks
    && SameReplica(p.source, src, SeenBy(p, t))
  }

  lemma FeedersAreSeen(x: Tensor, s: Setting)
    requires Settled(x, s) && TracedViews(x.problem, s.view)
    ensures FedFromSeen(x.problem, x.routes)
  {
    var p := x.problem;
    forall i: nat, t: nat | i < |x.routes| && t < |p.target.mesh.ranks| && Feeds(x.routes[i], p.target.mesh.ranks[t])
      ensures FromReplicaOf(p, x.routes[i].src.rank, t)
    {
      FeederInReplica(x, s, i, t);
      ViewCoords(p, s.view(t), SeenBy(p, t));
    }
  }

  lemma ViewCoords(p: Problem, pos: nat, rank: nat)
    requires ValidProblem(p) && pos < |p.source.mesh.ranks| && p.source.mesh.ranks[pos] == rank
    ensures Coords(p.source.mesh, rank) == Digits(p.source.mesh.shape, pos)
  {
    DigitsInRange(p.source.mesh.shape, pos);
    ValueOfDigits(p.source.mesh.shape, pos);
    CoordsAre(p.source.mesh, rank, Digits(p.source.mesh.shape, pos));
  }

  /** What `full_tensor` on the stamped tensor gives each target. */
  function StampOf(p: Problem): Stamp
    requires Positive(p.source.mesh.shape) && |p.source.placements| == |p.source.mesh.shape| && Positive(p.sourceCuts)
  {
    (t: nat, g: seq<nat>) => if |g| == |p.sourceCuts| then ReplicaStamp(p, ViewOf(p), t, g) else Endpoint(0, [])
  }

  /** One possible gather: in mesh order. */
  function InMeshOrder(p: Problem): (r: seq<nat>)
    ensures |r| == |p.target.mesh.ranks| && forall i :: 0 <= i < |r| ==> r[i] == i
  {
    seq(|p.target.mesh.ranks|, i => i)
  }

  lemma MeshOrderGathers(p: Problem)
    ensures FullGather(p, InMeshOrder(p))
  {
    forall t: nat | t < |p.target.mesh.ranks| ensures t in InMeshOrder(p) {
      assert InMeshOrder(p)[t] == t;
    }
  }

  /**
   A planned tensor is fit for execution, and settled; `gather` is the order in which the group of the pair
   gathers the local maps of the targets.
   */
  method PlanTensor(
    p: Problem, gather: seq<nat>, block: seq<nat>, itemsize: nat, partials: map<nat, seq<PartialGroup>>)
    returns (x: Tensor, ghost s: Setting)
    requires ValidProblem(p) && FullGather(p, gather) && TagsFit(p) && SetUp(p.source, partials) && |block| >= |p.grid|
    ensures x.problem == p && x.block == block && x.itemsize == itemsize && x.partials == partials
    ensures FitTensor(x) && FedFromSeen(p, x.routes)
    ensures Settled(x, s) && s.gather == gather && TracedViews(p, s.view)
  {
    StampsAreExact(p, StampOf(p), ViewOf(p));
    ViewsAreTraced(p);
    var collected := GatherMaps(p, StampOf(p), gather);
    var expanded := ExpandShadows(collected, p.source);
    var routes := DictToRoutes(expanded);
    x := Tensor(p, routes, block, itemsize, partials);
    s := Setting(StampOf(p), ViewOf(p), gather, expanded);
    PlannedPartialIsFit(p, StampOf(p), gather, expanded, routes, block, itemsize, partials);
    FeedersAreSeen(x, s);
  }
}
