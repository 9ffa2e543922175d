/**
 A placed step on its nodes: the cpusets its ranks on one node are planned with, and
 what becomes of them there.
 */
module PinnedStep {
  import opened Text
  import opened CpuList
  import opened CpuBind
  import opened Spread
  import opened Placement
  import opened PlacementLaws

  /** The cpusets of the ranks on node i, in rank order: what that node's stepper is sent. */
  function CpusetsOn(ranks: seq<PlacedRank>, i: nat): seq<string> {
    if ranks == [] then []
    else
      var n := |ranks| - 1;
      CpusetsOn(ranks[..n], i) + (if ranks[n].node == i then [ranks[n].cpuset] else [])
  }

  /** How many of the first k ranks are on a node whose ranks are first .. first+count-1. */
  function Within(k: int, first: int, count: int): int {
    if k <= first then 0 else if k - first >= count then count else k - first
  }

  lemma RankOnNode(ranks: seq<PlacedRank>, counts: seq<int>, i: nat, k: nat)
    requires InBlocks(ranks, counts) && AllPositive(counts) && i < |counts| && k < |ranks|
    ensures var first := Sum(counts[..i]);
      && (ranks[k].node == i <==> first <= k < first + counts[i])
      && (ranks[k].node == i ==> ranks[k].local == k - first)
  {
    assert At(ranks[k], counts, k);
    var m := ranks[k].node;
    SumPrefix(counts, m);
    SumPrefix(counts, i);
    if m < i {
      SumPrefixes(counts, m + 1, i);
    } else if i < m {
      SumPrefixes(counts, i + 1, m);
    }
  }

  ghost predicate Planned(ranks: seq<PlacedRank>, cpt: nat)
    requires cpt >= 1
  {
    forall k | 0 <= k < |ranks| :: ranks[k].cpuset == Cpuset(ranks[k].local, cpt)
  }

  lemma WithinStep(k: nat, first: int, count: int)
    requires count > 0
    ensures Within(k + 1, first, count) == Within(k, first, count) + (if first <= k < first + count then 1 else 0)
    ensures first <= k < first + count ==> Within(k, first, count) == k - first
  {
  }

  lemma CpusetsSnoc(ranks: seq<PlacedRank>, i: nat, k: nat)
    requires k < |ranks|
    ensures CpusetsOn(ranks[..k + 1], i) == CpusetsOn(ranks[..k], i)
      + (if ranks[k].node == i then [ranks[k].cpuset] else [])
  {
    assert ranks[..k + 1][..k] == ranks[..k];
  }

  /** The ranks from first on, one for each of texts, are those of node i, with those cpusets. */
  ghost predicate Holds(ranks: seq<PlacedRank>, i: nat, first: int, texts: seq<string>) {
    && 0 <= first && texts != []
    && forall k | 0 <= k < |ranks| ::
         if first <= k < first + |texts| then ranks[k].node == i && ranks[k].cpuset == texts[k - first]
         else ranks[k].node != i
  }

  lemma {:induction false} CpusetsOfPrefix(ranks: seq<PlacedRank>, i: nat, first: int, texts: seq<string>, k: nat)
    requires Holds(ranks, i, first, texts) && k <= |ranks|
    ensures 0 <= Within(k, first, |texts|) <= |texts| && CpusetsOn(ranks[..k], i) == texts[..Within(k, first, |texts|)]
    decreases k
  {
    if k > 0 {
      CpusetsOfPrefix(ranks, i, first, texts, k - 1);
      CpusetsSnoc(ranks, i, k - 1);
      WithinStep(k - 1, first, |texts|);
    }
  }

  lemma BlockHolds(ranks: seq<PlacedRank>, counts: seq<int>, i: nat, texts: seq<string>)
    requires InBlocks(ranks, counts) && AllPositive(counts) && i < |counts| && |texts| == counts[i]
    requires forall k | 0 <= k < |ranks| && ranks[k].node == i && ranks[k].local < |texts| ::
      ranks[k].cpuset == texts[ranks[k].local]
    ensures Holds(ranks, i, Sum(counts[..i]), texts)
  {
    var first := Sum(counts[..i]);
    SumPrefixes(counts, 0, i);
    forall k | 0 <= k < |ranks|
      ensures if first <= k < first + |texts| then ranks[k].node == i && ranks[k].cpuset == texts[k - first]
              else ranks[k].node != i
    {
      RankOnNode(ranks, counts, i, k);
    }
  }

  lemma BlockFits(counts: seq<int>, i: nat)
    requires AllPositive(counts) && i < |counts|
    ensures Within(Sum(counts), Sum(counts[..i]), counts[i]) == counts[i]
  {
    SumPrefix(counts, i);
    SumPrefixes(counts, i + 1, |counts|);
    assert counts[..|counts|] == counts;
  }

  /** A node with counts[i] ranks is sent the positions 0 .. cpt-1, cpt .. 2cpt-1, and so on. */
  lemma CpusetsAre(ranks: seq<PlacedRank>, counts: seq<int>, i: nat, cpt: nat)
    requires InBlocks(ranks, counts) && AllPositive(counts) && i < |counts|
    requires cpt >= 1 && Planned(ranks, cpt)
    ensures CpusetsOn(ranks, i) == Positions(counts[i], cpt)
  {
    var texts := Positions(counts[i], cpt);
    BlockHolds(ranks, counts, i, texts);
    BlockFits(counts, i);
    CpusetsOfPrefix(ranks, i, Sum(counts[..i]), texts, |ranks|);
    assert ranks[..|ranks|] == ranks && texts[..|texts|] == texts;
  }

  lemma {:induction false} NoCpusets(ranks: seq<PlacedRank>, i: nat)
    requires forall k | 0 <= k < |ranks| :: ranks[k].cpuset == ""
    ensures forall l | 0 <= l < |CpusetsOn(ranks, i)| :: CpusetsOn(ranks, i)[l] == ""
  {
    if ranks != [] {
      NoCpusets(ranks[..|ranks| - 1], i);
    }
  }

  lemma RankCpuset(nodes: seq<StepNode>, counts: seq<int>, b: Binding, k: nat)
    requires |nodes| == |counts| && AllPositive(counts) && b.cpt >= 1 && k < |Ranks(nodes, counts, b, |nodes|)|
    ensures var r := Ranks(nodes, counts, b, |nodes|)[k]; r.cpuset == Cpuset(r.local, b.cpt)
  {
    RankAt(nodes, counts, b, |nodes|, k);
  }

  lemma PlanIsPlanned(lay: Layout, req: Request, nodes: seq<StepNode>, counts: seq<int>, plan: Plan)
    requires Placed(lay, req, nodes, counts, plan)
    ensures plan.cpusPerTask == CpusPerTask(lay, req) >= 1
    ensures !req.noBind ==> Planned(plan.ranks, plan.cpusPerTask)
    ensures req.noBind ==> forall k | 0 <= k < |plan.ranks| :: plan.ranks[k].cpuset == ""
  {
    KeptTogether(nodes, counts);
    forall k | 0 <= k < |plan.ranks|
      ensures plan.ranks[k].cpuset == if req.noBind then "" else Cpuset(plan.ranks[k].local, CpusPerTask(lay, req))
    {
      PlanRankIs(lay, req, nodes, counts, plan, k);
      RankCpuset(plan.nodes, KeptCounts(counts), BindingOf(lay, req), k);
    }
  }

  /** What the ranks of a node are sent: their slices of positions, or with
      --cpu-bind=none nothing. */
  lemma SentToNode(lay: Layout, req: Request, nodes: seq<StepNode>, counts: seq<int>, plan: Plan, i: nat)
    requires Placed(lay, req, nodes, counts, plan) && i < |plan.nodes|
    ensures plan.cpusPerTask >= 1 && |plan.nodes| == |KeptCounts(counts)|
    ensures !req.noBind ==> CpusetsOn(plan.ranks, i) == Positions(KeptCounts(counts)[i], plan.cpusPerTask)
    ensures req.noBind ==> forall l | 0 <= l < |CpusetsOn(plan.ranks, i)| :: CpusetsOn(plan.ranks, i)[l] == ""
  {
    KeptTogether(nodes, counts);
    PlanIsInBlocks(lay, req, nodes, counts, plan);
    PlanIsPlanned(lay, req, nodes, counts, plan);
    if req.noBind {
      NoCpusets(plan.ranks, i);
    } else {
      CpusetsAre(plan.ranks, KeptCounts(counts), i, plan.cpusPerTask);
    }
  }

  /** The node's pinning, for every layout and request Place accepts and whatever the job
      may use there: every task gets exactly its CPUs, or no task is pinned. */
  lemma PlacedNodeIsPinnedIff(lay: Layout, req: Request, nodes: seq<StepNode>, counts: seq<int>, plan: Plan, i: nat,
                              mode: Mode, host: Host, h: Holding, cpus: seq<string>, warned: bool)
    requires Placed(lay, req, nodes, counts, plan) && i < |plan.nodes|
    requires |host.allowed| <= MAX_INT && AllCpus(host.allowed)
    requires Resolved(mode, CpusetsOn(plan.ranks, i), host, h, cpus, warned)
    ensures plan.cpusPerTask >= 1 && |plan.nodes| == |KeptCounts(counts)|
    ensures var n, cpt := KeptCounts(counts)[i], plan.cpusPerTask;
      if !req.noBind && ShouldPin(mode, host, h) && n * cpt <= |host.allowed|
      then !warned && |cpus| == n && forall l | 0 <= l < n :: Gets(cpus[l], host.allowed, l, cpt)
      else (forall l | 0 <= l < |cpus| :: cpus[l] == "")
           && (warned <==> !req.noBind && ShouldPin(mode, host, h) && n * cpt > |host.allowed|)
  {
    SentToNode(lay, req, nodes, counts, plan, i);
    if !req.noBind {
      NodeIsPinnedIff(mode, host, h, KeptCounts(counts)[i], plan.cpusPerTask, cpus, warned);
    }
  }

  /** No two tasks of a step are pinned to one CPU: on every node of every step Place accepts
      either each rank has exactly its CPUs of those the job may use there, none of them
      another rank's, or no rank is pinned. The first if and only if the tasks fit, the job
      has CPUs there, --cpu-bind=none was not given, and pinning is asked for -- or, unasked,
      the job is confined to some of the node's CPUs, or has the node to itself: all its slots,
      where their number is known, and otherwise a slot for each CPU. Only room is warned about. */
  lemma StepIsPinnedApart(lay: Layout, req: Request, nodes: seq<StepNode>, counts: seq<int>, plan: Plan, i: nat,
                          mode: Mode, host: Host, h: Holding, cpus: seq<string>, warned: bool)
    requires Placed(lay, req, nodes, counts, plan) && i < |plan.nodes|
    requires |host.allowed| <= MAX_INT && AllCpus(host.allowed) && Distinct(host.allowed)
    requires Resolved(mode, CpusetsOn(plan.ranks, i), host, h, cpus, warned)
    ensures plan.cpusPerTask >= 1 && |plan.nodes| == |KeptCounts(counts)|
    ensures var n, cpt, size := KeptCounts(counts)[i], plan.cpusPerTask, |host.allowed|;
      var alone := if h.hostSlots > 0 then h.slots >= h.hostSlots else h.slots >= size;
      var meant := !req.noBind && mode != Never && size > 0 && (mode == Explicit || 0 < size < host.online || alone);
      if meant && n * cpt <= size
      then !warned && |cpus| == n && PinnedApart(cpus, host.allowed, cpt)
      else (forall l | 0 <= l < |cpus| :: cpus[l] == "") && (warned <==> meant && n * cpt > size)
  {
    PlacedNodeIsPinnedIff(lay, req, nodes, counts, plan, i, mode, host, h, cpus, warned);
    if !req.noBind && ShouldPin(mode, host, h) && KeptCounts(counts)[i] * plan.cpusPerTask <= |host.allowed| {
      PinningNeverCollides(cpus, host.allowed, plan.cpusPerTask);
    }
  }
}
