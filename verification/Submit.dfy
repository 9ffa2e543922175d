/**
 The device request a submission makes, against the step that runs later: what is
 asked for per node at submit time is enough for every rank at run time.
 */
module Submit {
  import opened Text
  import opened Spread
  import opened Placement
  import opened PlacementLaws
  import Devices

  /** The geometry and device part of a submission; have.. says whether a flag was given. */
  datatype Submission = Submission(nodes: int, ntasks: int, tasksPerNode: int, cpusPerTask: int,
                                   haveNTasks: bool, havePerNode: bool,
                                   haveGpus: bool, gpus: int, haveGpusPerTask: bool, gpusPerTask: int)

  datatype Geometry = Geometry(ntasks: nat, cpusPerTask: nat)

  function AtLeastOne(n: int): (r: nat)
    ensures r >= 1
  {
    if n < 1 then 1 else n
  }

  function ResolveGeometry(s: Submission): (g: Geometry)
    ensures g.ntasks >= 1 && g.cpusPerTask >= 1
  {
    var ntasks :=
      if s.haveNTasks then s.ntasks
      else if s.nodes > 0 && s.havePerNode then s.nodes * s.tasksPerNode
      else if s.nodes > 0 then s.nodes
      else if s.havePerNode then s.tasksPerNode
      else 1;
    Geometry(AtLeastOne(ntasks), AtLeastOne(s.cpusPerTask))
  }

  /** Go's / for a non-negative dividend. */
  function CeilDiv(a: nat, b: nat): (r: nat)
    requires b >= 1
  {
    (a + b - 1) / b
  }

  function TasksOnNode(s: Submission, nodeCount: int): (r: nat)
    ensures r >= 1
  {
    if s.havePerNode && s.tasksPerNode > 0 then s.tasksPerNode
    else
      var perNode := CeilDiv(ResolveGeometry(s).ntasks, AtLeastOne(nodeCount));
      if perNode > 0 then perNode else 1
  }

  /** The per-node device count a submission asks for, if it asks. */
  function GpuRequest(s: Submission): Option<int> {
    if s.haveGpus then Some(s.gpus)
    else if s.haveGpusPerTask then Some(s.gpusPerTask * TasksOnNode(s, s.nodes))
    else None
  }

  // ---------- Equal nodes share evenly ----------

  lemma {:induction false} SumAtLeast(counts: seq<int>, low: nat)
    requires forall i | 0 <= i < |counts| :: counts[i] >= low
    ensures Sum(counts) >= low * |counts|
  {
    if counts != [] {
      var n := |counts| - 1;
      SumAtLeast(counts[..n], low);
      assert low * |counts| == low * n + low;
    }
  }

  lemma CeilBound(m: nat, nodes: nat, n: nat)
    requires m >= 1 && nodes >= 1 && n >= (m - 1) * nodes + 1
    ensures m <= CeilDiv(n, nodes)
  {
    if m > (n + nodes - 1) / nodes {
      var q := (n + nodes - 1) / nodes;
      assert (m - 1) * nodes >= q * nodes;
    }
  }

  /** On nodes of equal capacity no node gets more than its share, rounded up. */
  lemma EqualNodesShare(caps: seq<int>, counts: seq<int>, n: nat, cap: int, i: nat)
    requires Deals(caps, counts, n) && i < |caps| && forall j | 0 <= j < |caps| :: caps[j] == cap
    ensures |counts| == |caps| && counts[i] <= CeilDiv(n, |caps|)
  {
    DealIsFair(caps, counts, n, i, i);
    var m := counts[i];
    if m > 0 {
      forall j | 0 <= j < |caps|
        ensures counts[j] >= m - 1
      {
        DealIsFair(caps, counts, n, i, j);
      }
      SumAtLeast(counts[i := m - 1], m - 1);
      SumUpdate(counts, i, m - 1);
      CeilBound(m, |caps|, n);
    }
  }

  // ---------- The step of the same geometry ----------

  /** A step of the submission's geometry, over all nodes it asked for. */
  predicate SameGeometry(s: Submission, req: Request) {
    && req.nodelist == [] && req.exclude == [] && !req.avoidMaster
    && (req.nodes == 0 || req.nodes == AtLeastOne(s.nodes))
    && req.ntasks == ResolveGeometry(s).ntasks
    && req.tasksPerNode == (if s.havePerNode then s.tasksPerNode else 0)
    && req.gpusPerTask == s.gpusPerTask
  }

  /** The allocation the submission asked for: its nodes, as wide as each other, each
      granted at least the devices requested. */
  ghost predicate AsRequested(s: Submission, lay: Layout, req: Request) {
    && |lay.nodes| == AtLeastOne(s.nodes)
    && (forall i, j | 0 <= i < |lay.nodes| && 0 <= j < |lay.nodes| ::
          Capacity(lay, ToStep(lay, i), req) == Capacity(lay, ToStep(lay, j), req))
    && GpuRequest(s).Some?
    && forall i | 0 <= i < |lay.nodes| :: |lay.nodes[i].gpus| >= GpuRequest(s).value
  }

  lemma {:induction false} AllUsable(lay: Layout, req: Request, n: nat)
    requires n <= |lay.nodes| && req.exclude == []
    ensures |UsableNodes(lay, req, n)| == n
    ensures forall i | 0 <= i < n :: UsableNodes(lay, req, n)[i] == ToStep(lay, i)
  {
    if n > 0 {
      AllUsable(lay, req, n - 1);
    }
  }

  /** The step runs on the whole allocation, in its order. */
  lemma WholeAllocation(s: Submission, lay: Layout, req: Request)
    requires SameGeometry(s, req) && |lay.nodes| == AtLeastOne(s.nodes)
    ensures Selected(lay, req).Ok? && |Selected(lay, req).value| == |lay.nodes|
    ensures forall i | 0 <= i < |lay.nodes| :: Selected(lay, req).value[i] == ToStep(lay, i)
  {
    AllUsable(lay, req, |lay.nodes|);
  }

  /** No node runs more ranks than the submission reckoned with. */
  lemma NoNodeIsOverloaded(s: Submission, lay: Layout, req: Request, nodes: seq<StepNode>, counts: seq<int>, i: nat)
    requires SameGeometry(s, req) && AsRequested(s, lay, req) && Selected(lay, req) == Ok(nodes)
    requires Deals(Capacities(lay, nodes, req), counts, ResolveGeometry(s).ntasks) && i < |nodes|
    ensures |counts| == |nodes| && counts[i] <= TasksOnNode(s, s.nodes)
  {
    WholeAllocation(s, lay, req);
    var caps := Capacities(lay, nodes, req);
    var n := ResolveGeometry(s).ntasks;
    if s.havePerNode && s.tasksPerNode > 0 {
      DealIsFair(caps, counts, n, i, i);
    } else {
      EqualNodesShare(caps, counts, n, Capacity(lay, nodes[0], req), i);
    }
  }

  lemma ShareScales(g: nat, count: int, most: nat)
    requires count <= most
    ensures g * count <= g * most
  {
  }

  lemma {:induction false} KeptHas(nodes: seq<StepNode>, counts: seq<int>, i: nat)
    requires |nodes| == |counts| && i < |nodes| && counts[i] > 0
    ensures |KeptNodes(nodes, counts)| == |KeptCounts(counts)|
    ensures exists k ::
      0 <= k < |KeptCounts(counts)| && KeptNodes(nodes, counts)[k] == nodes[i] && KeptCounts(counts)[k] == counts[i]
  {
    var n := |nodes| - 1;
    KeptTogether(nodes, counts);
    KeptTogether(nodes[..n], counts[..n]);
    if i < n {
      KeptHas(nodes[..n], counts[..n], i);
      var k :| 0 <= k < |KeptCounts(counts[..n])| && KeptNodes(nodes[..n], counts[..n])[k] == nodes[i]
               && KeptCounts(counts[..n])[k] == counts[i];
      assert KeptNodes(nodes, counts)[k] == nodes[i] && KeptCounts(counts)[k] == counts[i];
    } else {
      var k := |KeptCounts(counts)| - 1;
      assert KeptNodes(nodes, counts)[k] == nodes[i] && KeptCounts(counts)[k] == counts[i];
    }
  }

  /** With enough devices on every node the plan is made. */
  lemma NoneShortDecides(lay: Layout, req: Request, nodes: seq<StepNode>, counts: seq<int>)
    requires |nodes| == |counts| && forall i | 0 <= i < |nodes| :: !GpusShort(nodes[i], counts[i], req.gpusPerTask)
    ensures Decided(lay, req, nodes, counts).Ok?
  {
    var kept, kc := KeptNodes(nodes, counts), KeptCounts(counts);
    KeptTogether(nodes, counts);
    forall i | 0 <= i < |kept|
      ensures !GpusShort(kept[i], kc[i], req.gpusPerTask)
    {
      KeptFrom(nodes, counts, i);
    }
  }

  /** A node short of devices is among those the ranks are placed on, and refuses the plan. */
  lemma OneShortRefuses(lay: Layout, req: Request, nodes: seq<StepNode>, counts: seq<int>, i: nat)
    requires |nodes| == |counts| && i < |nodes| && GpusShort(nodes[i], counts[i], req.gpusPerTask)
    ensures Decided(lay, req, nodes, counts) == Err(TooFewGpus)
  {
    KeptTogether(nodes, counts);
    KeptHas(nodes, counts, i);
    var k :| 0 <= k < |KeptCounts(counts)| && KeptNodes(nodes, counts)[k] == nodes[i]
             && KeptCounts(counts)[k] == counts[i];
    ShortKeptRefuses(lay, req, nodes, counts, k);
  }

  lemma ShortKeptRefuses(lay: Layout, req: Request, nodes: seq<StepNode>, counts: seq<int>, k: nat)
    requires |nodes| == |counts| && k < |KeptNodes(nodes, counts)| == |KeptCounts(counts)|
    requires GpusShort(KeptNodes(nodes, counts)[k], KeptCounts(counts)[k], req.gpusPerTask)
    ensures Decided(lay, req, nodes, counts) == Err(TooFewGpus)
  {
  }

  /** The grant a submission's request gives each node: exactly what it asked for. */
  ghost predicate GrantedAsRequested(s: Submission, lay: Layout) {
    && |lay.nodes| == AtLeastOne(s.nodes)
    && GpuRequest(s).Some?
    && forall i | 0 <= i < |lay.nodes| :: |lay.nodes[i].gpus| == GpuRequest(s).value
  }

  lemma ShortIff(g: nat, count: int, most: nat, node: StepNode)
    requires g > 0 && |node.gpus| == g * most
    ensures GpusShort(node, count, g) <==> count > most
  {
    if count > most {
      assert g * count >= g * (most + 1) == g * most + g;
    } else if count >= 0 {
      ShareScales(g, count, most);
    }
  }

  /** On any nodes, equal or not: the devices asked for at submit time are enough exactly when
      the ranks fit on the nodes with none running more than the share reckoned with. */
  lemma RequestSufficesIff(s: Submission, lay: Layout, req: Request, nodes: seq<StepNode>, counts: seq<int>)
    requires SameGeometry(s, req) && GrantedAsRequested(s, lay) && Selected(lay, req) == Ok(nodes)
    requires Deals(Capacities(lay, nodes, req), counts, ResolveGeometry(s).ntasks)
    requires !s.haveGpus && s.gpusPerTask > 0
    ensures |counts| == |nodes|
    ensures var caps := Capacities(lay, nodes, req);
      Decided(lay, req, nodes, counts).Ok?
      <==> Sum(Dealt(caps, TasksOnNode(s, s.nodes), 0)) >= ResolveGeometry(s).ntasks
  {
    var caps, share := Capacities(lay, nodes, req), TasksOnNode(s, s.nodes);
    WholeAllocation(s, lay, req);
    SharesFitIff(caps, counts, ResolveGeometry(s).ntasks, share);
    forall i | 0 <= i < |nodes|
      ensures GpusShort(nodes[i], counts[i], req.gpusPerTask) <==> counts[i] > share
    {
      ShortIff(s.gpusPerTask, counts[i], share, nodes[i]);
    }
    if i :| 0 <= i < |counts| && counts[i] > share {
      OneShortRefuses(lay, req, nodes, counts, i);
    } else {
      NoneShortDecides(lay, req, nodes, counts);
    }
  }

  /** The devices asked for at submit time suffice: the step is never refused for too few. */
  lemma RequestSuffices(s: Submission, lay: Layout, req: Request, nodes: seq<StepNode>, counts: seq<int>)
    requires SameGeometry(s, req) && AsRequested(s, lay, req) && Selected(lay, req) == Ok(nodes)
    requires Deals(Capacities(lay, nodes, req), counts, ResolveGeometry(s).ntasks)
    requires !s.haveGpus && s.gpusPerTask > 0
    ensures |counts| == |nodes| && Decided(lay, req, nodes, counts).Ok?
  {
    WholeAllocation(s, lay, req);
    forall i | 0 <= i < |nodes|
      ensures |counts| == |nodes| && !GpusShort(nodes[i], counts[i], req.gpusPerTask)
    {
      NoNodeIsOverloaded(s, lay, req, nodes, counts, i);
      ShareScales(s.gpusPerTask, counts[i], TasksOnNode(s, s.nodes));
    }
    NoneShortDecides(lay, req, nodes, counts);
  }

  lemma PlanFits(lay: Layout, req: Request, nodes: seq<StepNode>, counts: seq<int>, plan: Plan, i: nat)
    requires Placed(lay, req, nodes, counts, plan) && i < |plan.nodes|
    ensures |plan.nodes| == |KeptCounts(counts)|
    ensures !GpusShort(plan.nodes[i], KeptCounts(counts)[i], req.gpusPerTask)
  {
    KeptTogether(nodes, counts);
  }

  lemma RankShare(nodes: seq<StepNode>, counts: seq<int>, b: Binding, k: nat)
    requires |nodes| == |counts| && AllPositive(counts) && b.cpt >= 1 && b.gpusPerTask > 0
    requires k < |Ranks(nodes, counts, b, |nodes|)|
    ensures var r := Ranks(nodes, counts, b, |nodes|)[k];
      && r.node < |nodes| && r.local < counts[r.node] && r.local <= k && Sum(counts[..r.node]) == k - r.local
      && r.gpus == Devices.Share(nodes[r.node].gpus, b.gpusPerTask, r.local)
  {
    RankAt(nodes, counts, b, |nodes|, k);
  }

  lemma RankDevices(lay: Layout, req: Request, nodes: seq<StepNode>, counts: seq<int>, plan: Plan, k: nat)
    requires Placed(lay, req, nodes, counts, plan) && req.gpusPerTask > 0 && k < |plan.ranks|
    ensures var r, kc := plan.ranks[k], KeptCounts(counts);
      && r.node < |plan.nodes| == |kc| && r.local < kc[r.node] && k - r.local == Sum(kc[..r.node])
      && kc[r.node] * req.gpusPerTask <= |plan.nodes[r.node].gpus|
      && r.gpus == Devices.Share(plan.nodes[r.node].gpus, req.gpusPerTask, r.local)
  {
    PlanRankIs(lay, req, nodes, counts, plan, k);
    RankShare(plan.nodes, KeptCounts(counts), BindingOf(lay, req), k);
    PlanFits(lay, req, nodes, counts, plan, plan.ranks[k].node);
  }

  ghost predicate DistinctDevices(gpus: seq<string>) {
    forall a, b | 0 <= a < b < |gpus| :: gpus[a] != gpus[b]
  }

  lemma PlanNodeDevices(lay: Layout, req: Request, nodes: seq<StepNode>, counts: seq<int>, plan: Plan, i: nat)
    requires Placed(lay, req, nodes, counts, plan) && i < |plan.nodes|
    requires forall j | 0 <= j < |lay.nodes| :: DistinctDevices(lay.nodes[j].gpus)
    ensures DistinctDevices(plan.nodes[i].gpus)
  {
    KeptTogether(nodes, counts);
    KeptFrom(nodes, counts, i);
    SelectedNodes(lay, req);
    assert Allowed(lay, req, plan.nodes[i]);
  }

  /** And every rank gets exactly the devices it asked for, all of its node's grant and none
      of them a neighbour's. */
  lemma EveryRankHasItsDevices(lay: Layout, req: Request, nodes: seq<StepNode>, counts: seq<int>, plan: Plan, k: nat)
    requires Placed(lay, req, nodes, counts, plan) && req.gpusPerTask > 0 && k < |plan.ranks|
    requires forall i | 0 <= i < |lay.nodes| :: DistinctDevices(lay.nodes[i].gpus)
    ensures var r := plan.ranks[k];
      && r.node < |plan.nodes| && |r.gpus| == req.gpusPerTask
      && (forall d | d in r.gpus :: d in plan.nodes[r.node].gpus)
    ensures forall l | 0 <= l < |plan.ranks| && l != k && plan.ranks[l].node == plan.ranks[k].node ::
      Apart(plan.ranks[k].gpus, plan.ranks[l].gpus)
  {
    RankDevices(lay, req, nodes, counts, plan, k);
    var r, kc := plan.ranks[k], KeptCounts(counts);
    PlanNodeDevices(lay, req, nodes, counts, plan, r.node);
    Devices.SlicesAreDisjoint(plan.nodes[r.node].gpus, req.gpusPerTask, kc[r.node], r.local, r.local);
    forall l | 0 <= l < |plan.ranks| && l != k && plan.ranks[l].node == r.node
      ensures Apart(r.gpus, plan.ranks[l].gpus)
    {
      RankDevices(lay, req, nodes, counts, plan, l);
      Devices.SlicesAreDisjoint(plan.nodes[r.node].gpus, req.gpusPerTask, kc[r.node], r.local, plan.ranks[l].local);
    }
  }

  predicate Apart(a: seq<string>, b: seq<string>) {
    forall d | d in a :: d !in b
  }

  /** Equal nodes matter: four tasks on a node of one slot and one of three need three
      devices on the second, which the request, two a node, does not get them. */
  lemma UnequalNodesFallShort()
    ensures var s := Submission(2, 4, 0, 1, true, false, false, 0, true, 1);
      var lay := Layout([Node("a", 1, ["0", "1"], 1), Node("b", 3, ["0", "1"], 3)], [1, 3], 1);
      var req := Request(2, 4, 0, 1, 1, [], [], false, false, false, false, false);
      && SameGeometry(s, req) && GrantedAsRequested(s, lay) && Selected(lay, req).Ok?
      && Deals(Capacities(lay, Selected(lay, req).value, req), [1, 3], 4)
      && |Selected(lay, req).value| == 2
      && Decided(lay, req, Selected(lay, req).value, [1, 3]) == Err(TooFewGpus)
  {
    var s := Submission(2, 4, 0, 1, true, false, false, 0, true, 1);
    var lay := Layout([Node("a", 1, ["0", "1"], 1), Node("b", 3, ["0", "1"], 3)], [1, 3], 1);
    var req := Request(2, 4, 0, 1, 1, [], [], false, false, false, false, false);
    WholeAllocation(s, lay, req);
    var nodes := Selected(lay, req).value;
    assert Capacities(lay, nodes, req) == [1, 3];
    UnequalDeal();
    assert GpusShort(nodes[1], 3, 1);
    OneShortRefuses(lay, req, nodes, [1, 3], 1);
  }

  lemma UnequalDeal()
    ensures Deals([1, 3], [1, 3], 4)
  {
    assert Dealt([1, 3], 3, 0) == [1, 3];
    assert Sum([1, 3]) == 4 by {
      assert [1, 3][..1] == [1] && [1][..0] == [];
    }
  }
}
