/**
 What a placement promises: which nodes a step may use, one rank at least on each node
 it keeps, and ranks numbered 0, 1, 2, ... node by node with consecutive local ids.
 */
module PlacementLaws {
  import opened Sequences
  import opened Spread
  import opened Placement
  import Devices

  // ---------- The nodes ----------

  /** A node of the allocation, as it is there, that the step may use. */
  predicate Allowed(lay: Layout, req: Request, n: StepNode) {
    n.index < |lay.nodes| && n == ToStep(lay, n.index) && n.host !in req.exclude
  }

  /** In allocation order, and so without repeats. */
  predicate Ascending(nodes: seq<StepNode>) {
    forall i, j | 0 <= i < j < |nodes| :: nodes[i].index < nodes[j].index
  }

  lemma {:induction false} ListedAscend(lay: Layout, req: Request, n: nat)
    requires n <= |lay.nodes|
    ensures forall x | x in ListedNodes(lay, req, n) :: Allowed(lay, req, x) && x.host in req.nodelist && x.index < n
    ensures Ascending(ListedNodes(lay, req, n))
  {
    if n > 0 {
      ListedAscend(lay, req, n - 1);
    }
  }

  lemma {:induction false} UsableAscend(lay: Layout, req: Request, n: nat)
    requires n <= |lay.nodes|
    ensures forall x | x in UsableNodes(lay, req, n) :: Allowed(lay, req, x) && x.index < n
    ensures Ascending(UsableNodes(lay, req, n))
  {
    if n > 0 {
      UsableAscend(lay, req, n - 1);
    }
  }

  /** A host asked for, granted and not excluded is in. */
  lemma {:induction false} ListedAll(lay: Layout, req: Request, n: nat, h: string)
    requires n <= |lay.nodes| && h in req.nodelist && h in Hosts(lay, n) && h !in req.exclude
    ensures HasHost(ListedNodes(lay, req, n), h)
  {
    if lay.nodes[n - 1].host == h && h !in Hosts(lay, n - 1) {
      assert ToStep(lay, n - 1) in ListedNodes(lay, req, n);
    } else {
      ListedAll(lay, req, n - 1, h);
      var x :| x in ListedNodes(lay, req, n - 1) && x.host == h;
      assert x in ListedNodes(lay, req, n);
    }
  }

  ghost predicate HasHost(nodes: seq<StepNode>, h: string) {
    exists x :: x in nodes && x.host == h
  }

  lemma {:induction false} UsableAll(lay: Layout, req: Request, n: nat, i: nat)
    requires i < n <= |lay.nodes| && lay.nodes[i].host !in req.exclude
    ensures ToStep(lay, i) in UsableNodes(lay, req, n)
  {
    if i < n - 1 {
      UsableAll(lay, req, n - 1, i);
    }
  }

  lemma {:induction false} NamedIs(nodes: seq<StepNode>, h: string)
    ensures |Named(nodes, h)| <= 1
    ensures forall x | x in Named(nodes, h) :: x in nodes && x.host == h
    ensures (exists x :: x in nodes && x.host == h) ==> Named(nodes, h) != []
  {
    if nodes != [] {
      NamedIs(nodes[1..], h);
    }
  }

  lemma {:induction false} InOrderIs(nodes: seq<StepNode>, list: seq<string>, n: nat)
    requires n <= |list|
    ensures forall x | x in InOrder(nodes, list, n) :: x in nodes && x.host in list[..n]
    ensures forall i, j | 0 <= i < j < |InOrder(nodes, list, n)| ::
      InOrder(nodes, list, n)[i].host != InOrder(nodes, list, n)[j].host
  {
    if n > 0 {
      InOrderIs(nodes, list, n - 1);
      NamedIs(nodes, list[n - 1]);
      assert list[..n] == list[..n - 1] + [list[n - 1]];
    }
  }

  /** The nodes of a step are distinct nodes of the allocation, none of them excluded, in
      allocation order unless the list's order was asked for; with -w, listed ones. */
  lemma SelectedNodes(lay: Layout, req: Request)
    requires Selected(lay, req).Ok?
    ensures var nodes := Selected(lay, req).value;
      && (forall x | x in nodes :: Allowed(lay, req, x) && (req.nodelist != [] ==> x.host in req.nodelist))
      && (req.nodelist == [] || !req.ordered ==> Ascending(nodes))
      && (forall i, j | 0 <= i < j < |nodes| :: nodes[i].index != nodes[j].index)
  {
    ListedAscend(lay, req, |lay.nodes|);
    UsableAscend(lay, req, |lay.nodes|);
    if req.nodelist != [] && req.ordered {
      InOrderIs(ListedNodes(lay, req, |lay.nodes|), req.nodelist, |req.nodelist|);
    }
  }

  /** A node a step without -w may be given: not excluded, and not the master where the
      step keeps off it and another node is left. */
  ghost predicate Eligible(lay: Layout, req: Request, i: nat)
    requires i < |lay.nodes|
  {
    && lay.nodes[i].host !in req.exclude
    && !(req.avoidMaster && i == 0 && exists j :: 0 < j < |lay.nodes| && lay.nodes[j].host !in req.exclude)
  }

  /** Some entry of the list names a, with no entry up to it naming b. */
  ghost predicate NamedBefore(list: seq<string>, a: string, b: string) {
    exists p :: 0 <= p < |list| && list[p] == a && b !in list[..p + 1]
  }

  /** With -w every host asked for and not excluded takes part, in the list's order if that
      was asked for. */
  lemma ListedHostsTakePart(lay: Layout, req: Request, h: string)
    requires Selected(lay, req).Ok? && h in req.nodelist && h !in req.exclude
    ensures HasHost(Selected(lay, req).value, h)
  {
    var out := ListedNodes(lay, req, |lay.nodes|);
    assert h in Hosts(lay, |lay.nodes|);
    ListedAll(lay, req, |lay.nodes|, h);
    if req.ordered {
      var k :| 0 <= k < |req.nodelist| && req.nodelist[k] == h;
      InOrderHas(out, req.nodelist, |req.nodelist|, k);
    }
  }

  lemma {:induction false} InOrderHas(nodes: seq<StepNode>, list: seq<string>, n: nat, k: nat)
    requires k < n <= |list| && HasHost(nodes, list[k])
    ensures HasHost(InOrder(nodes, list, n), list[k])
  {
    if k < n - 1 {
      InOrderHas(nodes, list, n - 1, k);
      var x :| x in InOrder(nodes, list, n - 1) && x.host == list[k];
      assert x in InOrder(nodes, list, n);
    } else if list[k] in list[..k] {
      var j :| 0 <= j < k && list[j] == list[k];
      InOrderHas(nodes, list, k, j);
      var x :| x in InOrder(nodes, list, k) && x.host == list[k];
      assert x in InOrder(nodes, list, n);
    } else {
      NamedIs(nodes, list[k]);
      assert Named(nodes, list[k])[0] in InOrder(nodes, list, n);
    }
  }

  lemma {:induction false} InOrderFollows(nodes: seq<StepNode>, list: seq<string>, n: nat, i: nat, j: nat)
    requires n <= |list| && i < j < |InOrder(nodes, list, n)|
    ensures NamedBefore(list[..n], InOrder(nodes, list, n)[i].host, InOrder(nodes, list, n)[j].host)
  {
    NamedIs(nodes, list[n - 1]);
    var before := InOrder(nodes, list, n - 1);
    if j < |before| {
      InOrderFollows(nodes, list, n - 1, i, j);
      var p :| 0 <= p < n - 1 && list[..n - 1][p] == before[i].host && before[j].host !in list[..n - 1][..p + 1];
      assert list[..n - 1][..p + 1] == list[..n][..p + 1] && list[..n][p] == before[i].host;
    } else {
      InOrderIs(nodes, list, n - 1);
      assert before[i].host in list[..n - 1];
      var p :| 0 <= p < n - 1 && list[..n - 1][p] == before[i].host;
      assert list[n - 1] !in list[..n - 1] && list[..n][..p + 1] == list[..n - 1][..p + 1];
      assert list[..n][p] == before[i].host;
    }
  }

  lemma OrderedFollowsList(lay: Layout, req: Request, i: nat, j: nat)
    requires Selected(lay, req).Ok? && req.nodelist != [] && req.ordered && i < j < |Selected(lay, req).value|
    ensures NamedBefore(req.nodelist, Selected(lay, req).value[i].host, Selected(lay, req).value[j].host)
  {
    InOrderFollows(ListedNodes(lay, req, |lay.nodes|), req.nodelist, |req.nodelist|, i, j);
    assert req.nodelist[..|req.nodelist|] == req.nodelist;
  }

  /** The usable nodes a step without -w chooses from: the eligible ones. */
  lemma UsableAreEligible(lay: Layout, req: Request, usable: seq<StepNode>)
    requires var all := UsableNodes(lay, req, |lay.nodes|);
      usable == if req.avoidMaster && |all| > 1 && all[0].index == 0 then all[1..] else all
    ensures Ascending(usable) && forall x | x in usable :: Allowed(lay, req, x) && Eligible(lay, req, x.index)
    ensures forall i | 0 <= i < |lay.nodes| && Eligible(lay, req, i) :: ToStep(lay, i) in usable
  {
    var all := UsableNodes(lay, req, |lay.nodes|);
    UsableAscend(lay, req, |lay.nodes|);
    forall i | 0 <= i < |lay.nodes| && lay.nodes[i].host !in req.exclude
      ensures ToStep(lay, i) in all
    {
      UsableAll(lay, req, |lay.nodes|, i);
    }
    if req.avoidMaster && |all| > 1 && all[0].index == 0 {
      assert all[1] in all && all[1].index > 0 && lay.nodes[all[1].index].host !in req.exclude;
    } else if req.avoidMaster {
      MasterOnly(lay, req, all);
    }
  }

  lemma MasterOnly(lay: Layout, req: Request, all: seq<StepNode>)
    requires Ascending(all) && (forall x | x in all :: Allowed(lay, req, x))
    requires forall i | 0 <= i < |lay.nodes| && lay.nodes[i].host !in req.exclude :: ToStep(lay, i) in all
    requires |all| <= 1 || all[0].index != 0
    ensures forall x | x in all && x.index == 0 ::
      forall j | 0 < j < |lay.nodes| :: lay.nodes[j].host in req.exclude
  {
    forall x, j | x in all && x.index == 0 && 0 < j < |lay.nodes|
      ensures lay.nodes[j].host in req.exclude
    {
      var a :| 0 <= a < |all| && all[a] == x;
      assert all[0].index <= all[a].index;
      assert all == [x];
      assert ToStep(lay, j) !in all;
    }
  }

  /** Without -w no eligible node is passed over: one that takes no part comes after all
      that do, and the step has as many nodes as it asked for. */
  lemma NoEligibleNodeIsSkipped(lay: Layout, req: Request, i: nat)
    requires Selected(lay, req).Ok? && req.nodelist == [] && i < |lay.nodes| && Eligible(lay, req, i)
    ensures var nodes := Selected(lay, req).value;
      && (forall x | x in nodes :: x.index < |lay.nodes| && Eligible(lay, req, x.index))
      && (req.nodes > 0 ==> |nodes| == req.nodes)
      && (ToStep(lay, i) in nodes || (req.nodes > 0 && forall x | x in nodes :: x.index < i))
  {
    var all := UsableNodes(lay, req, |lay.nodes|);
    var usable := if req.avoidMaster && |all| > 1 && all[0].index == 0 then all[1..] else all;
    UsableAreEligible(lay, req, usable);
    var k :| 0 <= k < |usable| && usable[k] == ToStep(lay, i);
    if req.nodes > 0 {
      var nodes := usable[..req.nodes];
      if k < req.nodes {
        assert nodes[k] == ToStep(lay, i);
      }
    }
  }

  // ---------- The ranks ----------

  lemma {:induction false} KeptSum(counts: seq<int>)
    requires forall i | 0 <= i < |counts| :: counts[i] >= 0
    ensures Sum(KeptCounts(counts)) == Sum(counts)
  {
    if counts != [] {
      var n := |counts| - 1;
      KeptSum(counts[..n]);
      if counts[n] > 0 {
        SumSnoc(KeptCounts(counts[..n]), counts[n]);
      } else {
        assert KeptCounts(counts[..n]) + [] == KeptCounts(counts[..n]);
      }
    }
  }

  lemma {:induction false} KeptFrom(nodes: seq<StepNode>, counts: seq<int>, i: nat)
    requires |nodes| == |counts| && i < |KeptNodes(nodes, counts)| == |KeptCounts(counts)|
    ensures exists j ::
      0 <= j < |nodes| && nodes[j] == KeptNodes(nodes, counts)[i] && counts[j] == KeptCounts(counts)[i]
  {
    var n := |nodes| - 1;
    KeptTogether(nodes[..n], counts[..n]);
    if i < |KeptCounts(counts[..n])| {
      KeptFrom(nodes[..n], counts[..n], i);
      var j :| 0 <= j < n && nodes[..n][j] == KeptNodes(nodes[..n], counts[..n])[i]
               && counts[..n][j] == KeptCounts(counts[..n])[i];
      assert nodes[j] == KeptNodes(nodes, counts)[i] && counts[j] == KeptCounts(counts)[i];
    }
  }

  /** Where rank k is: after all ranks of the nodes before its own, local ids from 0. */
  lemma {:induction false} RankAt(nodes: seq<StepNode>, counts: seq<int>, b: Binding, n: nat, k: nat)
    requires n <= |nodes| == |counts| && AllPositive(counts) && b.cpt >= 1 && k < |Ranks(nodes, counts, b, n)|
    ensures var r := Ranks(nodes, counts, b, n)[k];
      && r.node < n && r.local < counts[r.node] && r.local <= k && Sum(counts[..r.node]) == k - r.local
      && r == NodeRank(nodes[r.node], r.node, counts[r.node], k - r.local, b, r.local)
  {
    if n > 0 {
      SumPrefix(counts, n - 1);
      if k < |Ranks(nodes, counts, b, n - 1)| {
        RankAt(nodes, counts, b, n - 1, k);
      }
    }
  }

  lemma {:induction false} SumPrefixes(counts: seq<int>, i: nat, j: nat)
    requires i <= j <= |counts| && AllPositive(counts)
    ensures Sum(counts[..i]) + (j - i) <= Sum(counts[..j])
  {
    if i < j {
      SumPrefixes(counts, i, j - 1);
      SumPrefix(counts, j - 1);
    }
  }

  /** A rank number is one place: no two nodes or local ids share it. */
  lemma PlaceIsUnique(counts: seq<int>, i: nat, a: nat, j: nat, b: nat)
    requires AllPositive(counts) && i < |counts| && j < |counts| && a < counts[i] && b < counts[j]
    requires Sum(counts[..i]) + a == Sum(counts[..j]) + b
    ensures i == j && a == b
  {
    SumPrefix(counts, i);
    SumPrefix(counts, j);
    if i < j {
      SumPrefixes(counts, i + 1, j);
    } else if j < i {
      SumPrefixes(counts, j + 1, i);
    }
  }

  /** r is rank k of a step with these counts: local id r.local of node r.node. */
  predicate At(r: PlacedRank, counts: seq<int>, k: int) {
    r.rank == k && r.node < |counts| && r.local < counts[r.node] && Sum(counts[..r.node]) + r.local == k
  }

  /** Ranks numbered node by node, counts[i] of them on node i. */
  predicate InBlocks(ranks: seq<PlacedRank>, counts: seq<int>) {
    |ranks| == Sum(counts) && forall k | 0 <= k < |ranks| :: At(ranks[k], counts, k)
  }

  lemma RanksAreInBlocks(nodes: seq<StepNode>, counts: seq<int>, b: Binding)
    requires |nodes| == |counts| && AllPositive(counts) && b.cpt >= 1
    ensures InBlocks(Ranks(nodes, counts, b, |nodes|), counts)
  {
    var ranks := Ranks(nodes, counts, b, |nodes|);
    assert counts[..|nodes|] == counts;
    forall k | 0 <= k < |ranks|
      ensures At(ranks[k], counts, k)
    {
      RankIsAt(nodes, counts, b, k);
    }
  }

  lemma RankIsAt(nodes: seq<StepNode>, counts: seq<int>, b: Binding, k: nat)
    requires |nodes| == |counts| && AllPositive(counts) && b.cpt >= 1 && k < |Ranks(nodes, counts, b, |nodes|)|
    ensures At(Ranks(nodes, counts, b, |nodes|)[k], counts, k)
  {
    RankAt(nodes, counts, b, |nodes|, k);
  }

  /** Every place is a rank: local id local of node i is rank number (ranks before i) + local. */
  lemma PlaceHasRank(ranks: seq<PlacedRank>, counts: seq<int>, i: nat, local: nat)
    requires InBlocks(ranks, counts) && AllPositive(counts) && i < |counts| && local < counts[i]
    ensures var k := Sum(counts[..i]) + local;
      0 <= k < |ranks| && ranks[k].node == i && ranks[k].local == local
  {
    var k := Sum(counts[..i]) + local;
    SumPrefix(counts, i);
    SumPrefixes(counts, 0, i);
    SumPrefixes(counts, i + 1, |counts|);
    assert counts[..|counts|] == counts;
    assert At(ranks[k], counts, k);
    PlaceIsUnique(counts, i, local, ranks[k].node, ranks[k].local);
  }

  /** Block order: the next rank is the next on its node or, when its node is done, the
      first on the next one. */
  lemma NextRank(ranks: seq<PlacedRank>, counts: seq<int>, k: nat)
    requires InBlocks(ranks, counts) && AllPositive(counts) && k + 1 < |ranks|
    ensures var r, s := ranks[k], ranks[k + 1];
      && r.node < |counts|
      && if r.local + 1 < counts[r.node] then s.node == r.node && s.local == r.local + 1
         else s.node == r.node + 1 && s.local == 0
  {
    var n, l := ranks[k].node, ranks[k].local;
    assert At(ranks[k], counts, k);
    if l + 1 < counts[n] {
      PlaceHasRank(ranks, counts, n, l + 1);
    } else {
      SumPrefix(counts, n);
      assert counts[..|counts|] == counts;
      PlaceHasRank(ranks, counts, n + 1, 0);
    }
  }

  // ---------- The plan ----------

  /** The step's nodes, the counts dealt to them, and the plan Place makes of both. */
  ghost predicate Placed(lay: Layout, req: Request, nodes: seq<StepNode>, counts: seq<int>, plan: Plan) {
    var caps := Capacities(lay, nodes, req);
    && Selected(lay, req) == Ok(nodes)
    && |counts| == |nodes|
    && Tasks(caps, req) <= Sum(caps)
    && Deals(caps, counts, Dealable(Tasks(caps, req)))
    && Decided(lay, req, nodes, counts) == Ok(plan)
  }

  /** A step has exactly its ranks, on as many nodes as can have one. */
  lemma PlanSizes(lay: Layout, req: Request, nodes: seq<StepNode>, counts: seq<int>, plan: Plan)
    requires Placed(lay, req, nodes, counts, plan)
    ensures var caps := Capacities(lay, nodes, req); var n := Dealable(Tasks(caps, req));
      && |plan.ranks| == n
      && |plan.nodes| == (if n < Positive(caps) then n else Positive(caps))
  {
    var caps := Capacities(lay, nodes, req);
    NodesUsed(caps, counts, Dealable(Tasks(caps, req)));
    KeptTogether(nodes, counts);
    forall i | 0 <= i < |counts|
      ensures counts[i] >= 0
    {
      DealIsFair(caps, counts, Dealable(Tasks(caps, req)), i, i);
    }
    KeptSum(counts);
    var kc := KeptCounts(counts);
    assert kc[..|kc|] == kc;
  }

  lemma PlanRankIs(lay: Layout, req: Request, nodes: seq<StepNode>, counts: seq<int>, plan: Plan, k: nat)
    requires Placed(lay, req, nodes, counts, plan) && k < |plan.ranks|
    ensures plan.nodes == KeptNodes(nodes, counts) && |plan.nodes| == |KeptCounts(counts)|
    ensures var ranks := Ranks(plan.nodes, KeptCounts(counts), BindingOf(lay, req), |plan.nodes|);
      |ranks| == |plan.ranks| && plan.ranks[k] == if req.noBind then ranks[k].(cpuset := "") else ranks[k]
  {
    KeptTogether(nodes, counts);
  }

  lemma PlanIsInBlocks(lay: Layout, req: Request, nodes: seq<StepNode>, counts: seq<int>, plan: Plan)
    requires Placed(lay, req, nodes, counts, plan)
    ensures InBlocks(plan.ranks, KeptCounts(counts))
  {
    var kc, b := KeptCounts(counts), BindingOf(lay, req);
    KeptTogether(nodes, counts);
    RanksAreInBlocks(KeptNodes(nodes, counts), kc, b);
    forall k | 0 <= k < |plan.ranks|
      ensures At(plan.ranks[k], kc, k)
    {
      PlanRankIs(lay, req, nodes, counts, plan, k);
      assert At(Ranks(plan.nodes, kc, b, |plan.nodes|)[k], kc, k);
    }
  }

  /** Ranks 0 .. ntasks-1 in block order, with consecutive local ids from 0 on each node. */
  lemma PlanIsBlock(lay: Layout, req: Request, nodes: seq<StepNode>, counts: seq<int>, plan: Plan, k: nat)
    requires Placed(lay, req, nodes, counts, plan) && k < |plan.ranks|
    ensures plan.ranks[k].rank == k && plan.ranks[k].node < |plan.nodes|
    ensures k == 0 ==> plan.ranks[0].node == 0 && plan.ranks[0].local == 0
    ensures k + 1 < |plan.ranks| ==> var r, s := plan.ranks[k], plan.ranks[k + 1];
      (s.node == r.node && s.local == r.local + 1) || (s.node == r.node + 1 && s.local == 0)
  {
    var kc := KeptCounts(counts);
    PlanIsInBlocks(lay, req, nodes, counts, plan);
    KeptTogether(nodes, counts);
    assert At(plan.ranks[k], kc, k);
    if k == 0 {
      PlaceHasRank(plan.ranks, kc, 0, 0);
    }
    if k + 1 < |plan.ranks| {
      NextRank(plan.ranks, kc, k);
    }
  }

  /** And at least one on every node of the plan, which the step was allowed to use. */
  lemma PlanUsesEveryNode(lay: Layout, req: Request, nodes: seq<StepNode>, counts: seq<int>, plan: Plan, i: nat)
    requires Placed(lay, req, nodes, counts, plan) && i < |plan.nodes|
    ensures exists k :: 0 <= k < |plan.ranks| && plan.ranks[k].node == i && plan.ranks[k].local == 0
    ensures Allowed(lay, req, plan.nodes[i])
  {
    KeptTogether(nodes, counts);
    PlanIsInBlocks(lay, req, nodes, counts, plan);
    PlaceHasRank(plan.ranks, KeptCounts(counts), i, 0);
    KeptFrom(nodes, counts, i);
    SelectedNodes(lay, req);
  }

  // ---------- The warnings ----------

  lemma {:induction false} FirstWarning(nodes: seq<StepNode>, counts: seq<int>, b: Binding, n: nat)
    requires n <= |nodes| == |counts| && AllPositive(counts)
    ensures var w := GpuWarnings(nodes, counts, b, n);
      if w == [] then forall i | 0 <= i < n :: NodeWarning(nodes[i], counts[i], b) == []
      else exists i :: 0 <= i < n && w == NodeWarning(nodes[i], counts[i], b)
  {
    if n > 0 {
      FirstWarning(nodes, counts, b, n - 1);
    }
  }

  /** Ranks of the node share its devices unasked: there are too few to divide. */
  predicate SharesUnasked(node: StepNode, count: int, req: Request) {
    req.gpusPerTask <= 0 && req.autoDivide && 0 < |node.gpus| < count
  }

  /** Ranks of the node all see a grant that could be divided, and nothing asked for that. */
  predicate SeesWholeGrant(node: StepNode, count: int, req: Request) {
    req.gpusPerTask <= 0 && !req.autoDivide && !req.bindExplicit && 1 < count <= |node.gpus|
  }

  lemma NodeWarningIff(lay: Layout, req: Request, node: StepNode, count: nat)
    requires count > 0
    ensures var w := NodeWarning(node, count, BindingOf(lay, req));
      && (w == [SharedDevices(node.host)] <==> SharesUnasked(node, count, req))
      && (w == [WholeGrant(node.host)] <==> SeesWholeGrant(node, count, req))
      && (w == [] <==> !SharesUnasked(node, count, req) && !SeesWholeGrant(node, count, req))
  {
    Devices.SharedIff(node.gpus, count, req.gpusPerTask, req.autoDivide);
  }

  lemma CountWarningIff(lay: Layout, req: Request, nodes: seq<StepNode>, counts: seq<int>, plan: Plan)
    requires Placed(lay, req, nodes, counts, plan) && plan.ntasks >= 0
    ensures var caps := Capacities(lay, nodes, req);
      |plan.nodes| < Positive(caps) <==> FewerNodes(plan.ntasks, Positive(caps)) in plan.warnings
  {
    PlanSizes(lay, req, nodes, counts, plan);
    PlanWarnings(lay, req, nodes, counts, plan);
    var caps := Capacities(lay, nodes, req);
    GpuWarningIff(lay, req, plan.nodes, KeptCounts(counts));
    WarningParts(CountWarning(caps, plan.ntasks),
                 GpuWarnings(plan.nodes, KeptCounts(counts), BindingOf(lay, req), |plan.nodes|));
  }

  lemma PlanWarnings(lay: Layout, req: Request, nodes: seq<StepNode>, counts: seq<int>, plan: Plan)
    requires Placed(lay, req, nodes, counts, plan)
    ensures |plan.nodes| == |KeptCounts(counts)|
    ensures plan.ntasks == Tasks(Capacities(lay, nodes, req), req)
    ensures plan.warnings == CountWarning(Capacities(lay, nodes, req), plan.ntasks)
                             + GpuWarnings(plan.nodes, KeptCounts(counts), BindingOf(lay, req), |plan.nodes|)
  {
    KeptTogether(nodes, counts);
  }

  /** A plan warns of too few ranks exactly when nodes with room are left out, and of one
      node's devices exactly when some node's ranks share them, or see all of them, unasked. */
  lemma PlanWarnsIff(lay: Layout, req: Request, nodes: seq<StepNode>, counts: seq<int>, plan: Plan)
    requires Placed(lay, req, nodes, counts, plan)
    ensures |plan.nodes| == |KeptCounts(counts)|
    ensures var caps := Capacities(lay, nodes, req);
      plan.ntasks >= 0 ==>
        (|plan.nodes| < Positive(caps) <==> FewerNodes(plan.ntasks, Positive(caps)) in plan.warnings)
    ensures (exists w :: w in plan.warnings && !w.FewerNodes?) <==>
      exists i :: 0 <= i < |plan.nodes| && (SharesUnasked(plan.nodes[i], KeptCounts(counts)[i], req)
                                            || SeesWholeGrant(plan.nodes[i], KeptCounts(counts)[i], req))
  {
    PlanWarnings(lay, req, nodes, counts, plan);
    if plan.ntasks >= 0 {
      CountWarningIff(lay, req, nodes, counts, plan);
    }
    var gpu := GpuWarnings(plan.nodes, KeptCounts(counts), BindingOf(lay, req), |plan.nodes|);
    GpuWarningIff(lay, req, plan.nodes, KeptCounts(counts));
    WarningParts(CountWarning(Capacities(lay, nodes, req), plan.ntasks), gpu);
    HeadIn(gpu);
  }

  lemma WarningParts(a: seq<Warning>, b: seq<Warning>)
    ensures forall w :: w in a + b <==> w in a || w in b
    ensures |a| <= 1 ==> forall w :: w in a <==> a != [] && w == a[0]
  {
  }

  lemma GpuWarningIff(lay: Layout, req: Request, nodes: seq<StepNode>, counts: seq<int>)
    requires |nodes| == |counts| && AllPositive(counts)
    ensures var w := GpuWarnings(nodes, counts, BindingOf(lay, req), |nodes|);
      && |w| <= 1 && (forall x | x in w :: !x.FewerNodes?)
      && (w != [] <==> exists i :: 0 <= i < |nodes| && (SharesUnasked(nodes[i], counts[i], req)
                                                        || SeesWholeGrant(nodes[i], counts[i], req)))
  {
    var b := BindingOf(lay, req);
    FirstWarning(nodes, counts, b, |nodes|);
    forall i | 0 <= i < |nodes|
      ensures NodeWarning(nodes[i], counts[i], b) == [] <==>
        !SharesUnasked(nodes[i], counts[i], req) && !SeesWholeGrant(nodes[i], counts[i], req)
    {
      NodeWarningIff(lay, req, nodes[i], counts[i]);
    }
  }
}
