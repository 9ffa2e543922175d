/**
 What a step gets, in the terms of its request and of the job's layout: how many ranks each
 node runs, which requests are refused, and the CPUs and devices of every rank.
 */
module PlacementSeen {
  import opened Text
  import opened Spread
  import opened Placement
  import opened PlacementLaws
  import PinnedStep
  import Submit
  import Devices

  // ---------- Ranks of a node ----------

  /** How many of the ranks are on node i. */
  function RanksOn(ranks: seq<PlacedRank>, i: nat): nat {
    if ranks == [] then 0
    else RanksOn(ranks[..|ranks| - 1], i) + (if ranks[|ranks| - 1].node == i then 1 else 0)
  }

  lemma {:induction false} RanksOnPrefix(ranks: seq<PlacedRank>, counts: seq<int>, i: nat, k: nat)
    requires InBlocks(ranks, counts) && AllPositive(counts) && i < |counts| && k <= |ranks|
    ensures RanksOn(ranks[..k], i) == PinnedStep.Within(k, Sum(counts[..i]), counts[i])
    decreases k
  {
    SumPrefixes(counts, 0, i);
    if k > 0 {
      RanksOnPrefix(ranks, counts, i, k - 1);
      PinnedStep.RankOnNode(ranks, counts, i, k - 1);
      PinnedStep.WithinStep(k - 1, Sum(counts[..i]), counts[i]);
      assert ranks[..k][..k - 1] == ranks[..k - 1];
    }
  }

  lemma RanksOnIs(lay: Layout, req: Request, nodes: seq<StepNode>, counts: seq<int>, plan: Plan, i: nat)
    requires Placed(lay, req, nodes, counts, plan) && i < |plan.nodes|
    ensures |plan.nodes| == |KeptCounts(counts)| && RanksOn(plan.ranks, i) == KeptCounts(counts)[i]
  {
    var kc := KeptCounts(counts);
    KeptTogether(nodes, counts);
    PlanIsInBlocks(lay, req, nodes, counts, plan);
    RanksOnPrefix(plan.ranks, kc, i, |plan.ranks|);
    PinnedStep.BlockFits(kc, i);
    assert plan.ranks[..|plan.ranks|] == plan.ranks;
  }

  /** The node of the plan that x is, and what it runs: nothing where it was dealt no rank. */
  ghost predicate Runs(plan: Plan, x: StepNode, n: int) {
    if n <= 0 then x !in plan.nodes
    else exists i :: 0 <= i < |plan.nodes| && plan.nodes[i] == x && RanksOn(plan.ranks, i) == n
  }

  lemma NodeRuns(lay: Layout, req: Request, nodes: seq<StepNode>, counts: seq<int>, plan: Plan, j: nat)
    requires Placed(lay, req, nodes, counts, plan) && j < |nodes|
    ensures Runs(plan, nodes[j], counts[j])
  {
    KeptTogether(nodes, counts);
    if counts[j] > 0 {
      Submit.KeptHas(nodes, counts, j);
      var kept, kc := KeptNodes(nodes, counts), KeptCounts(counts);
      var i :| 0 <= i < |kc| && kept[i] == nodes[j] && kc[i] == counts[j];
      RanksOnIs(lay, req, nodes, counts, plan, i);
    } else if nodes[j] in plan.nodes {
      var i :| 0 <= i < |plan.nodes| && plan.nodes[i] == nodes[j];
      KeptFrom(nodes, counts, i);
      var l :| 0 <= l < |nodes| && nodes[l] == plan.nodes[i] && counts[l] == KeptCounts(counts)[i];
      SelectedNodes(lay, req);
    }
  }

  // ---------- How many ranks each node runs ----------

  /** What the layout gives a node: its count there, or its slots if it has none. */
  function Share(lay: Layout, x: StepNode): int {
    if x.index < |lay.perNode| then lay.perNode[x.index] else x.slots
  }

  function Shares(lay: Layout, nodes: seq<StepNode>): (r: seq<int>)
    ensures |r| == |nodes|
  {
    seq(|nodes|, i requires 0 <= i < |nodes| => Share(lay, nodes[i]))
  }

  /** A full deal leaves no room. */
  lemma FullDealFills(caps: seq<int>, counts: seq<int>, n: nat)
    requires Deals(caps, counts, n) && n == Sum(caps) && forall i | 0 <= i < |caps| :: caps[i] >= 0
    ensures counts == caps
  {
    var level, cut :| counts == Dealt(caps, level, cut);
    SumLeq(counts, caps);
  }

  lemma {:induction false} SumSame(s: seq<int>, v: int)
    requires forall i | 0 <= i < |s| :: s[i] == v
    ensures Sum(s) == |s| * v
  {
    if s != [] {
      SumSame(s[..|s| - 1], v);
    }
  }

  lemma {:induction false} SumIsNat(s: seq<int>)
    requires forall i | 0 <= i < |s| :: s[i] >= 0
    ensures Sum(s) >= 0
  {
    if s != [] {
      SumIsNat(s[..|s| - 1]);
    }
  }

  lemma WithoutCount(lay: Layout, req: Request, nodes: seq<StepNode>, counts: seq<int>, plan: Plan)
    requires Placed(lay, req, nodes, counts, plan) && req.ntasks == 0
    requires forall i | 0 <= i < |nodes| :: Capacities(lay, nodes, req)[i] >= 0
    ensures counts == Capacities(lay, nodes, req)
    ensures |plan.ranks| == Sum(counts)
  {
    var caps := Capacities(lay, nodes, req);
    SumIsNat(caps);
    FullDealFills(caps, counts, Dealable(Tasks(caps, req)));
    PlanSizes(lay, req, nodes, counts, plan);
  }

  /** -N alone: one rank on every node of the step. */
  lemma OneRankEach(lay: Layout, req: Request, nodes: seq<StepNode>, counts: seq<int>, plan: Plan)
    requires Placed(lay, req, nodes, counts, plan) && req.nodes > 0 && req.ntasks == 0 && req.tasksPerNode == 0
    ensures |plan.ranks| == |nodes| && forall x | x in nodes :: Runs(plan, x, 1)
  {
    assert forall i | 0 <= i < |nodes| :: Capacities(lay, nodes, req)[i] == 1;
    WithoutCount(lay, req, nodes, counts, plan);
    SumSame(counts, 1);
    forall x | x in nodes
      ensures Runs(plan, x, 1)
    {
      var j :| 0 <= j < |nodes| && nodes[j] == x;
      NodeRuns(lay, req, nodes, counts, plan, j);
    }
  }

  /** --ntasks-per-node without -n: that many on every node of the step, whatever its slots. */
  lemma SoManyEach(lay: Layout, req: Request, nodes: seq<StepNode>, counts: seq<int>, plan: Plan)
    requires Placed(lay, req, nodes, counts, plan) && req.ntasks == 0 && req.tasksPerNode > 0
    ensures |plan.ranks| == |nodes| * req.tasksPerNode && forall x | x in nodes :: Runs(plan, x, req.tasksPerNode)
  {
    assert forall i | 0 <= i < |nodes| :: Capacities(lay, nodes, req)[i] == req.tasksPerNode;
    WithoutCount(lay, req, nodes, counts, plan);
    SumSame(counts, req.tasksPerNode);
    forall x | x in nodes
      ensures Runs(plan, x, req.tasksPerNode)
    {
      var j :| 0 <= j < |nodes| && nodes[j] == x;
      NodeRuns(lay, req, nodes, counts, plan, j);
    }
  }

  /** Without any count: as many ranks as the nodes' shares of the job's own tasks add up to, and
      each node runs its share, if no share is negative. */
  lemma OwnShareEach(lay: Layout, req: Request, nodes: seq<StepNode>, counts: seq<int>, plan: Plan)
    requires Placed(lay, req, nodes, counts, plan) && req.nodes <= 0 && req.ntasks == 0 && req.tasksPerNode <= 0
    ensures |plan.ranks| == if Sum(Shares(lay, nodes)) > 0 then Sum(Shares(lay, nodes)) else 0
    ensures (forall x | x in nodes :: Share(lay, x) >= 0) ==> forall x | x in nodes :: Runs(plan, x, Share(lay, x))
  {
    assert Capacities(lay, nodes, req) == Shares(lay, nodes);
    PlanSizes(lay, req, nodes, counts, plan);
    if forall x | x in nodes :: Share(lay, x) >= 0 {
      WithoutCount(lay, req, nodes, counts, plan);
      forall x | x in nodes
        ensures Runs(plan, x, Share(lay, x))
      {
        var j :| 0 <= j < |nodes| && nodes[j] == x;
        NodeRuns(lay, req, nodes, counts, plan, j);
      }
    }
  }

  /** The most ranks a step with -n runs on a node: --ntasks-per-node, or the node's share. */
  function Most(lay: Layout, req: Request, x: StepNode): int {
    if req.tasksPerNode > 0 then req.tasksPerNode else Share(lay, x)
  }

  /** With -n: exactly that many ranks, none for a negative number, and no node runs more than
      --ntasks-per-node or its share. */
  lemma CountIsPlaced(lay: Layout, req: Request, nodes: seq<StepNode>, counts: seq<int>, plan: Plan, i: nat)
    requires Placed(lay, req, nodes, counts, plan) && req.ntasks != 0
    ensures |plan.ranks| == if req.ntasks > 0 then req.ntasks else 0
    ensures i < |plan.nodes| ==> 0 < RanksOn(plan.ranks, i) <= Most(lay, req, plan.nodes[i])
  {
    PlanSizes(lay, req, nodes, counts, plan);
    if i < |plan.nodes| {
      var caps := Capacities(lay, nodes, req);
      RanksOnIs(lay, req, nodes, counts, plan, i);
      KeptFrom(nodes, counts, i);
      var j :| 0 <= j < |nodes| && nodes[j] == plan.nodes[i] && counts[j] == KeptCounts(counts)[i];
      DealIsFair(caps, counts, Dealable(Tasks(caps, req)), j, j);
      var level, cut :| counts == Dealt(caps, level, cut);
      assert caps[j] == Most(lay, req, plan.nodes[i]);
    }
  }

  /** The step is refused for its number of ranks exactly if -n asks for more than all nodes
      together may run. */
  lemma TooManyIff(lay: Layout, req: Request, nodes: seq<StepNode>)
    ensures var caps := Capacities(lay, nodes, req);
      Tasks(caps, req) > Sum(caps) <==>
      req.ntasks != 0
      && req.ntasks > if req.tasksPerNode > 0 then |nodes| * req.tasksPerNode else Sum(Shares(lay, nodes))
  {
    var caps := Capacities(lay, nodes, req);
    if req.tasksPerNode > 0 {
      SumSame(caps, req.tasksPerNode);
    } else if req.ntasks != 0 {
      assert caps == Shares(lay, nodes);
    }
  }

  // ---------- What each rank gets ----------

  lemma RankOf(nodes: seq<StepNode>, counts: seq<int>, b: Binding, k: nat)
    requires |nodes| == |counts| && AllPositive(counts) && b.cpt >= 1 && k < |Ranks(nodes, counts, b, |nodes|)|
    ensures var r := Ranks(nodes, counts, b, |nodes|)[k];
      && r.node < |nodes| && r.local < counts[r.node] && r.cpuset == Cpuset(r.local, b.cpt)
      && r.gpus == GrantOf(nodes[r.node], counts[r.node], b, r.local)
  {
    var r := Ranks(nodes, counts, b, |nodes|)[k];
    RankAt(nodes, counts, b, |nodes|, k);
    NodeRankIs(nodes[r.node], r.node, counts[r.node], k - r.local, b, r.local);
  }

  lemma NodeRankIs(node: StepNode, ni: nat, count: nat, first: nat, b: Binding, local: nat)
    requires local < count && b.cpt >= 1
    ensures var r := NodeRank(node, ni, count, first, b, local);
      r.cpuset == Cpuset(local, b.cpt) && r.gpus == GrantOf(node, count, b, local)
  {
  }

  function GrantOf(node: StepNode, count: nat, b: Binding, local: nat): seq<string>
    requires local < count
  {
    Devices.Assigned(node.gpus, count, b.gpusPerTask, b.autoDivide).perRank[local]
  }

  lemma PlanRankOf(lay: Layout, req: Request, nodes: seq<StepNode>, counts: seq<int>, plan: Plan, k: nat)
    requires Placed(lay, req, nodes, counts, plan) && k < |plan.ranks|
    ensures var r, b := plan.ranks[k], BindingOf(lay, req);
      && plan.cpusPerTask == b.cpt
      && r.cpuset == (if req.noBind then "" else Cpuset(r.local, b.cpt))
      && r.node < |plan.nodes| && r.local < RanksOn(plan.ranks, r.node)
      && r.gpus == GrantOf(plan.nodes[r.node], RanksOn(plan.ranks, r.node), b, r.local)
  {
    PlanRankIs(lay, req, nodes, counts, plan, k);
    RankOf(plan.nodes, KeptCounts(counts), BindingOf(lay, req), k);
    RanksOnIs(lay, req, nodes, counts, plan, plan.ranks[k].node);
  }

  /** The positions a rank's text names: c of them, those of its place on the node. */
  function OwnPositions(local: nat, c: nat): string {
    Itoa(local * c) + "-" + Itoa((local + 1) * c - 1)
  }

  /** The CPUs of a rank: --cpus-per-task, else the layout's, else one; the first rank of a
      node has the first positions, the next the next, and --cpu-bind=none none. */
  lemma RankCpus(lay: Layout, req: Request, nodes: seq<StepNode>, counts: seq<int>, plan: Plan, k: nat)
    requires Placed(lay, req, nodes, counts, plan) && k < |plan.ranks|
    ensures plan.cpusPerTask ==
      if req.cpusPerTask > 0 then req.cpusPerTask else if lay.cpusPerTask > 0 then lay.cpusPerTask else 1
    ensures plan.ranks[k].cpuset == if req.noBind then "" else OwnPositions(plan.ranks[k].local, plan.cpusPerTask)
  {
    PlanRankOf(lay, req, nodes, counts, plan, k);
  }

  /** What a rank that asked for no devices of its own sees of its node's: all of them -- unless
      the site divides grants and there is one for each rank, when it is an even share, in order. */
  predicate SeesOf(mine: seq<string>, gpus: seq<string>, n: nat, local: nat, divide: bool) {
    if divide && 0 < n <= |gpus| then
      var w := |gpus| / n;
      local * w <= (local + 1) * w <= |gpus| && mine == gpus[local * w..(local + 1) * w]
    else mine == gpus
  }

  lemma EvenWidth(size: nat, n: nat)
    requires 0 < n <= size
    ensures size / n > 0 && n * (size / n) <= size
  {
  }

  lemma EvenShare(gpus: seq<string>, w: nat, n: nat, local: nat)
    requires local < n && n * w <= |gpus| && w > 0
    ensures local * w <= (local + 1) * w <= |gpus|
    ensures Devices.Share(gpus, w, local) == gpus[local * w..(local + 1) * w]
  {
    Devices.SliceBounds(n, w, local, |gpus|);
    assert (local + 1) * w == local * w + w;
  }

  lemma TooFewToDivide(gpus: seq<string>, n: nat, g: int, local: nat)
    requires local < n && |gpus| < n && g <= 0
    ensures Devices.Assigned(gpus, n, g, true).perRank[local] == gpus
  {
    assert |gpus| / n == 0;
  }

  lemma GrantIsSeen(node: StepNode, n: nat, b: Binding, local: nat)
    requires local < n && b.gpusPerTask <= 0
    ensures SeesOf(GrantOf(node, n, b, local), node.gpus, n, local, b.autoDivide)
  {
    var gpus := node.gpus;
    if b.autoDivide && n <= |gpus| {
      EvenWidth(|gpus|, n);
      EvenShare(gpus, |gpus| / n, n, local);
    } else if b.autoDivide {
      TooFewToDivide(gpus, n, b.gpusPerTask, local);
    }
  }

  /** The devices of a rank where --gpus-per-task was not given. */
  lemma RankGrant(lay: Layout, req: Request, nodes: seq<StepNode>, counts: seq<int>, plan: Plan, k: nat)
    requires Placed(lay, req, nodes, counts, plan) && k < |plan.ranks| && req.gpusPerTask <= 0
    ensures var r := plan.ranks[k];
      && r.node < |plan.nodes|
      && SeesOf(r.gpus, plan.nodes[r.node].gpus, RanksOn(plan.ranks, r.node), r.local, req.autoDivide)
  {
    var r := plan.ranks[k];
    PlanRankOf(lay, req, nodes, counts, plan, k);
    GrantIsSeen(plan.nodes[r.node], RanksOn(plan.ranks, r.node), BindingOf(lay, req), r.local);
  }

  /** Of the devices, the g behind those of the local ranks before. */
  predicate SliceOf(mine: seq<string>, gpus: seq<string>, g: nat, local: nat) {
    local * g <= (local + 1) * g <= |gpus| && mine == gpus[local * g..(local + 1) * g]
  }

  lemma ShareIsSlice(gpus: seq<string>, g: nat, n: nat, local: nat)
    requires local < n && n * g <= |gpus| && g > 0
    ensures SliceOf(Devices.Share(gpus, g, local), gpus, g, local)
  {
    EvenShare(gpus, g, n, local);
  }

  /** With --gpus-per-task: the rank's own, in the grant's order. */
  lemma RankSlice(lay: Layout, req: Request, nodes: seq<StepNode>, counts: seq<int>, plan: Plan, k: nat)
    requires Placed(lay, req, nodes, counts, plan) && k < |plan.ranks| && req.gpusPerTask > 0
    ensures var r := plan.ranks[k];
      r.node < |plan.nodes| && SliceOf(r.gpus, plan.nodes[r.node].gpus, req.gpusPerTask, r.local)
  {
    var r := plan.ranks[k];
    Submit.RankDevices(lay, req, nodes, counts, plan, k);
    ShareIsSlice(plan.nodes[r.node].gpus, req.gpusPerTask, KeptCounts(counts)[r.node], r.local);
  }

  // ---------- What was asked for ----------

  /** Without -n, the number of tasks a submission reckons with is the number of ranks the step
      of its flags runs on the nodes it asked for. */
  lemma SubmittedTasksRun(s: Submit.Submission, lay: Layout, req: Request, nodes: seq<StepNode>, counts: seq<int>,
                          plan: Plan)
    requires Placed(lay, req, nodes, counts, plan) && s.nodes > 0 && !s.haveNTasks
    requires |nodes| == req.nodes == s.nodes && req.ntasks == 0
    requires if s.havePerNode then req.tasksPerNode == s.tasksPerNode > 0 else req.tasksPerNode == 0
    ensures |plan.ranks| == Submit.ResolveGeometry(s).ntasks
  {
    if s.havePerNode {
      SoManyEach(lay, req, nodes, counts, plan);
      TasksOfBoth(s);
    } else {
      OneRankEach(lay, req, nodes, counts, plan);
    }
  }

  lemma TasksOfBoth(s: Submit.Submission)
    requires s.nodes > 0 && !s.haveNTasks && s.havePerNode && s.tasksPerNode > 0
    ensures Submit.ResolveGeometry(s).ntasks == s.nodes * s.tasksPerNode
  {
  }

  /** And with -n that number; neither is ever less than one. Of the two device flags --gpus,
      a number for each node, goes before --gpus-per-task, which is for each task there. */
  lemma SubmittedNumbers(s: Submit.Submission)
    ensures Submit.ResolveGeometry(s).ntasks >= 1 && Submit.ResolveGeometry(s).cpusPerTask >= 1
    ensures s.haveNTasks && s.ntasks >= 1 ==> Submit.ResolveGeometry(s).ntasks == s.ntasks
    ensures !s.haveNTasks && s.nodes <= 0 && s.havePerNode && s.tasksPerNode >= 1 ==>
      Submit.ResolveGeometry(s).ntasks == s.tasksPerNode
    ensures !s.haveNTasks && s.nodes <= 0 && !s.havePerNode ==> Submit.ResolveGeometry(s).ntasks == 1
    ensures s.cpusPerTask >= 1 ==> Submit.ResolveGeometry(s).cpusPerTask == s.cpusPerTask
    ensures s.haveGpus ==> Submit.GpuRequest(s) == Some(s.gpus)
    ensures !s.haveGpus && s.haveGpusPerTask && s.havePerNode && s.tasksPerNode >= 1 ==>
      Submit.GpuRequest(s) == Some(s.gpusPerTask * s.tasksPerNode)
    ensures !s.haveGpus && !s.haveGpusPerTask ==> Submit.GpuRequest(s) == None
  {
  }

  // ---------- Which requests find no nodes ----------

  /** Some host of -w is not one of the job's. */
  predicate AsksForStranger(lay: Layout, req: Request) {
    exists h :: h in req.nodelist && forall i | 0 <= i < |lay.nodes| :: lay.nodes[i].host != h
  }

  /** Every host of -w is excluded; without -w, every host of the job is. */
  predicate AllExcluded(lay: Layout, req: Request) {
    if req.nodelist != [] then forall h | h in req.nodelist :: h in req.exclude
    else forall i | 0 <= i < |lay.nodes| :: lay.nodes[i].host in req.exclude
  }

  /** The places of the nodes a step without -w may be given. */
  ghost function EligiblePlaces(lay: Layout, req: Request): set<int> {
    set i | 0 <= i < |lay.nodes| && Eligible(lay, req, i)
  }

  lemma {:induction false} PlacesCount(nodes: seq<StepNode>)
    requires Ascending(nodes)
    ensures |set x | x in nodes :: x.index| == |nodes|
  {
    var places := set x | x in nodes :: x.index;
    if nodes != [] {
      var n := |nodes| - 1;
      var before := set x | x in nodes[..n] :: x.index;
      PlacesCount(nodes[..n]);
      assert places == before + {nodes[n].index} && nodes[n].index !in before;
    } else {
      assert places == {};
    }
  }

  lemma UsableCount(lay: Layout, req: Request, usable: seq<StepNode>)
    requires var all := UsableNodes(lay, req, |lay.nodes|);
      usable == if req.avoidMaster && |all| > 1 && all[0].index == 0 then all[1..] else all
    ensures |usable| == |EligiblePlaces(lay, req)|
  {
    UsableAreEligible(lay, req, usable);
    PlacesCount(usable);
    assert (set x | x in usable :: x.index) == EligiblePlaces(lay, req) by {
      forall i | i in EligiblePlaces(lay, req)
        ensures i in (set x | x in usable :: x.index)
      {
        assert ToStep(lay, i) in usable;
      }
    }
  }

  lemma NothingUsable(lay: Layout, req: Request)
    ensures UsableNodes(lay, req, |lay.nodes|) == []
       <==> forall i | 0 <= i < |lay.nodes| :: lay.nodes[i].host in req.exclude
  {
    var all := UsableNodes(lay, req, |lay.nodes|);
    UsableAscend(lay, req, |lay.nodes|);
    if all != [] {
      assert all[0] in all && Allowed(lay, req, all[0]);
    }
    if i :| 0 <= i < |lay.nodes| && lay.nodes[i].host !in req.exclude {
      UsableAll(lay, req, |lay.nodes|, i);
    }
  }

  lemma NothingListed(lay: Layout, req: Request)
    requires !AsksForStranger(lay, req)
    ensures ListedNodes(lay, req, |lay.nodes|) == [] <==> forall h | h in req.nodelist :: h in req.exclude
  {
    var out := ListedNodes(lay, req, |lay.nodes|);
    ListedAscend(lay, req, |lay.nodes|);
    if out != [] {
      assert out[0] in out && Allowed(lay, req, out[0]);
    }
    if h :| h in req.nodelist && h !in req.exclude {
      ListedAll(lay, req, |lay.nodes|, h);
    }
  }

  /** A step finds no nodes exactly if -w names a host that is not the job's, if every host it
      could have is excluded, or if it asks for more nodes than there are eligible ones; the
      first of these is the reason given. */
  lemma SelectionRefusesIff(lay: Layout, req: Request)
    ensures Selected(lay, req) == Err(NotAllocated) <==> AsksForStranger(lay, req)
    ensures Selected(lay, req) == Err(NothingLeft) <==> !AsksForStranger(lay, req) && AllExcluded(lay, req)
    ensures Selected(lay, req) == Err(TooFewNodes) <==>
      req.nodelist == [] && !AllExcluded(lay, req) && req.nodes > |EligiblePlaces(lay, req)|
    ensures Selected(lay, req).Err? ==> Selected(lay, req).refusal in {NotAllocated, NothingLeft, TooFewNodes}
  {
    if req.nodelist != [] {
      assert AsksForStranger(lay, req) <==> exists h :: h in req.nodelist && h !in Hosts(lay, |lay.nodes|);
      if !AsksForStranger(lay, req) {
        NothingListed(lay, req);
      }
    } else {
      var all := UsableNodes(lay, req, |lay.nodes|);
      NothingUsable(lay, req);
      UsableCount(lay, req, if req.avoidMaster && |all| > 1 && all[0].index == 0 then all[1..] else all);
    }
  }

  lemma {:induction false} ListedFirst(lay: Layout, req: Request, n: nat)
    requires n <= |lay.nodes|
    ensures forall x | x in ListedNodes(lay, req, n) :: x.host in Hosts(lay, n)
    ensures forall i, j | 0 <= i < j < |ListedNodes(lay, req, n)| ::
      ListedNodes(lay, req, n)[i].host != ListedNodes(lay, req, n)[j].host
  {
    if n > 0 {
      ListedFirst(lay, req, n - 1);
      assert forall h | h in Hosts(lay, n - 1) :: h in Hosts(lay, n);
    }
  }

  /** With -w no host takes part twice, even if the job's list has it twice. */
  lemma ListedHostsDiffer(lay: Layout, req: Request, i: nat, j: nat)
    requires Selected(lay, req).Ok? && req.nodelist != [] && i < j < |Selected(lay, req).value|
    ensures Selected(lay, req).value[i].host != Selected(lay, req).value[j].host
  {
    ListedFirst(lay, req, |lay.nodes|);
    InOrderIs(ListedNodes(lay, req, |lay.nodes|), req.nodelist, |req.nodelist|);
  }
}
