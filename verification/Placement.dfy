/**
 Placing a step: which nodes of the allocation take part, how many ranks each runs,
 and every rank's number, node, position on the node, CPUs and devices.
 */
module Placement {
  import opened Text
  import opened Spread
  import Devices

  datatype Node = Node(host: string, slots: int, gpus: seq<string>, hostSlots: int)

  datatype Layout = Layout(nodes: seq<Node>, perNode: seq<int>, cpusPerTask: int)

  datatype Request = Request(nodes: int, ntasks: int, tasksPerNode: int, cpusPerTask: int, gpusPerTask: int,
                             nodelist: seq<string>, exclude: seq<string>,
                             autoDivide: bool, bindExplicit: bool, noBind: bool, ordered: bool, avoidMaster: bool)

  /** A node of the step, with its place in the layout. */
  datatype StepNode = StepNode(host: string, index: nat, slots: int, gpus: seq<string>, hostSlots: int)

  datatype PlacedRank = PlacedRank(rank: nat, node: nat, local: nat, cpuset: string, gpus: seq<string>)

  /** What a plan warns of: fewer ranks than nodes with room; ranks that share a node's
      devices because there are too few; ranks that all see a grant that could be divided. */
  datatype Warning = FewerNodes(ntasks: int, usable: nat) | SharedDevices(host: string) | WholeGrant(host: string)

  datatype Plan = Plan(nodes: seq<StepNode>, ranks: seq<PlacedRank>, ntasks: int, cpusPerTask: int,
                       warnings: seq<Warning>)

  datatype Refusal = NotAllocated | NothingLeft | TooFewNodes | TooManyTasks | TooFewGpus

  datatype Result<+T> = Ok(value: T) | Err(refusal: Refusal)

  // ---------- The step's nodes ----------

  function ToStep(lay: Layout, i: nat): StepNode
    requires i < |lay.nodes|
  {
    var n := lay.nodes[i];
    StepNode(n.host, i, n.slots, n.gpus, n.hostSlots)
  }

  function Hosts(lay: Layout, n: nat): (s: set<string>)
    requires n <= |lay.nodes|
    ensures forall i | 0 <= i < n :: lay.nodes[i].host in s
    ensures forall h | h in s :: exists i :: 0 <= i < n && lay.nodes[i].host == h
  {
    set i | 0 <= i < n :: lay.nodes[i].host
  }

  /** Node i is asked for by -w, the first of its name, and not excluded. */
  predicate Listed(lay: Layout, req: Request, i: nat)
    requires i < |lay.nodes|
  {
    var h := lay.nodes[i].host;
    h in req.nodelist && h !in Hosts(lay, i) && h !in req.exclude
  }

  /** The listed nodes among the first n, in allocation order. */
  function ListedNodes(lay: Layout, req: Request, n: nat): seq<StepNode>
    requires n <= |lay.nodes|
  {
    if n == 0 then []
    else ListedNodes(lay, req, n - 1) + (if Listed(lay, req, n - 1) then [ToStep(lay, n - 1)] else [])
  }

  /** The nodes among the first n that are not excluded. */
  function UsableNodes(lay: Layout, req: Request, n: nat): seq<StepNode>
    requires n <= |lay.nodes|
  {
    if n == 0 then []
    else UsableNodes(lay, req, n - 1) + (if lay.nodes[n - 1].host in req.exclude then [] else [ToStep(lay, n - 1)])
  }

  /** The node of this name, if any. */
  function Named(nodes: seq<StepNode>, h: string): seq<StepNode> {
    if nodes == [] then [] else if nodes[0].host == h then [nodes[0]] else Named(nodes[1..], h)
  }

  /** nodes in the order of the first n names of list. */
  function InOrder(nodes: seq<StepNode>, list: seq<string>, n: nat): seq<StepNode>
    requires n <= |list|
  {
    if n == 0 then []
    else InOrder(nodes, list, n - 1) + (if list[n - 1] in list[..n - 1] then [] else Named(nodes, list[n - 1]))
  }

  function Selected(lay: Layout, req: Request): Result<seq<StepNode>> {
    if req.nodelist != [] then
      var out := ListedNodes(lay, req, |lay.nodes|);
      if exists h :: h in req.nodelist && h !in Hosts(lay, |lay.nodes|) then Err(NotAllocated)
      else if out == [] then Err(NothingLeft)
      else Ok(if req.ordered then InOrder(out, req.nodelist, |req.nodelist|) else out)
    else
      var all := UsableNodes(lay, req, |lay.nodes|);
      var usable := if req.avoidMaster && |all| > 1 && all[0].index == 0 then all[1..] else all;
      if usable == [] then Err(NothingLeft)
      else if req.nodes > |usable| then Err(TooFewNodes)
      else Ok(if req.nodes > 0 then usable[..req.nodes] else usable)
  }

  method SelectListed(lay: Layout, req: Request) returns (out: seq<StepNode>, want: set<string>)
    ensures out == ListedNodes(lay, req, |lay.nodes|)
    ensures want == {} <==> !exists h :: h in req.nodelist && h !in Hosts(lay, |lay.nodes|)
  {
    want := set h | h in req.nodelist;
    ghost var all := want;
    out := [];
    for i := 0 to |lay.nodes|
      invariant out == ListedNodes(lay, req, i)
      invariant want == all - Hosts(lay, i)
    {
      var host := lay.nodes[i].host;
      if host in want {
        if host !in req.exclude {
          out := out + [ToStep(lay, i)];
        }
        want := want - {host};
      }
      assert Hosts(lay, i + 1) == Hosts(lay, i) + {host};
    }
    assert forall h :: h in want <==> h in req.nodelist && h !in Hosts(lay, |lay.nodes|);
  }

  method InListOrder(nodes: seq<StepNode>, list: seq<string>) returns (out: seq<StepNode>)
    ensures out == InOrder(nodes, list, |list|)
  {
    out := [];
    var seen: set<string> := {};
    for i := 0 to |list|
      invariant out == InOrder(nodes, list, i)
      invariant forall h :: h in seen <==> h in list[..i]
    {
      assert list[..i + 1] == list[..i] + [list[i]];
      if list[i] !in seen {
        out := out + Named(nodes, list[i]);
        seen := seen + {list[i]};
      }
    }
  }

  method SelectNodes(lay: Layout, req: Request) returns (r: Result<seq<StepNode>>)
    ensures r == Selected(lay, req)
  {
    if |req.nodelist| > 0 {
      var out, want := SelectListed(lay, req);
      if want != {} {
        return Err(NotAllocated);
      }
      if |out| == 0 {
        return Err(NothingLeft);
      }
      if req.ordered {
        out := InListOrder(out, req.nodelist);
      }
      return Ok(out);
    }
    var usable: seq<StepNode> := [];
    for i := 0 to |lay.nodes|
      invariant usable == UsableNodes(lay, req, i)
    {
      if lay.nodes[i].host !in req.exclude {
        usable := usable + [ToStep(lay, i)];
      }
    }
    if req.avoidMaster && |usable| > 1 && usable[0].index == 0 {
      usable := usable[1..];
    }
    if |usable| == 0 {
      return Err(NothingLeft);
    }
    if req.nodes > 0 {
      if req.nodes > |usable| {
        return Err(TooFewNodes);
      }
      usable := usable[..req.nodes];
    }
    return Ok(usable);
  }

  // ---------- Capacities and counts ----------

  function Capacity(lay: Layout, n: StepNode, req: Request): int {
    if req.tasksPerNode > 0 then req.tasksPerNode
    else if req.nodes > 0 && req.ntasks == 0 && req.tasksPerNode == 0 then 1
    else if n.index < |lay.perNode| then lay.perNode[n.index]
    else n.slots
  }

  function Capacities(lay: Layout, nodes: seq<StepNode>, req: Request): (caps: seq<int>)
    ensures |caps| == |nodes|
  {
    seq(|nodes|, i requires 0 <= i < |nodes| => Capacity(lay, nodes[i], req))
  }

  method ListCapacities(lay: Layout, nodes: seq<StepNode>, req: Request) returns (caps: seq<int>)
    ensures caps == Capacities(lay, nodes, req)
  {
    var onePerNode := req.nodes > 0 && req.ntasks == 0 && req.tasksPerNode == 0;
    caps := [];
    for i := 0 to |nodes|
      invariant |caps| == i && forall j | 0 <= j < i :: caps[j] == Capacity(lay, nodes[j], req)
    {
      if req.tasksPerNode > 0 {
        caps := caps + [req.tasksPerNode];
      } else if onePerNode {
        caps := caps + [1];
      } else if nodes[i].index < |lay.perNode| {
        caps := caps + [lay.perNode[nodes[i].index]];
      } else {
        caps := caps + [nodes[i].slots];
      }
    }
  }

  /** How many ranks the step runs: -n, or all there is room for. */
  function Tasks(caps: seq<int>, req: Request): int {
    if req.ntasks == 0 then Sum(caps) else req.ntasks
  }

  function CpusPerTask(lay: Layout, req: Request): (cpt: nat)
    ensures cpt >= 1
  {
    if req.cpusPerTask > 0 then req.cpusPerTask else if lay.cpusPerTask > 0 then lay.cpusPerTask else 1
  }

  function KeptNodes(nodes: seq<StepNode>, counts: seq<int>): seq<StepNode>
    requires |nodes| == |counts|
  {
    if nodes == [] then []
    else
      var n := |nodes| - 1;
      KeptNodes(nodes[..n], counts[..n]) + (if counts[n] > 0 then [nodes[n]] else [])
  }

  function KeptCounts(counts: seq<int>): (r: seq<int>)
    ensures forall i | 0 <= i < |r| :: r[i] > 0
  {
    if counts == [] then []
    else
      var n := |counts| - 1;
      KeptCounts(counts[..n]) + (if counts[n] > 0 then [counts[n]] else [])
  }

  method DropEmpty(nodes: seq<StepNode>, counts: seq<int>) returns (keptNodes: seq<StepNode>, keptCounts: seq<int>)
    requires |nodes| == |counts|
    ensures keptNodes == KeptNodes(nodes, counts) && keptCounts == KeptCounts(counts)
  {
    keptNodes, keptCounts := [], [];
    for i := 0 to |counts|
      invariant keptNodes == KeptNodes(nodes[..i], counts[..i]) && keptCounts == KeptCounts(counts[..i])
    {
      assert nodes[..i + 1][..i] == nodes[..i] && counts[..i + 1][..i] == counts[..i];
      if counts[i] > 0 {
        keptNodes, keptCounts := keptNodes + [nodes[i]], keptCounts + [counts[i]];
      }
    }
    assert nodes[..|nodes|] == nodes && counts[..|counts|] == counts;
  }

  // ---------- The ranks ----------

  /** The planned cpuset: positions in the CPUs the job may use on the node. */
  function Cpuset(local: nat, cpt: nat): string
    requires cpt >= 1
  {
    Itoa(local * cpt) + "-" + Itoa((local + 1) * cpt - 1)
  }

  /** How the ranks of a step are bound. */
  datatype Binding = Binding(cpt: nat, gpusPerTask: int, autoDivide: bool, bindExplicit: bool)

  function NodeRank(node: StepNode, ni: nat, count: nat, first: nat, b: Binding, local: nat): PlacedRank
    requires local < count && b.cpt >= 1
  {
    PlacedRank(first + local, ni, local, Cpuset(local, b.cpt),
               Devices.Assigned(node.gpus, count, b.gpusPerTask, b.autoDivide).perRank[local])
  }

  function NodeRanks(node: StepNode, ni: nat, count: nat, first: nat, b: Binding, n: nat): (r: seq<PlacedRank>)
    requires n <= count && b.cpt >= 1
    ensures |r| == n
  {
    seq(n, local requires 0 <= local < n => NodeRank(node, ni, count, first, b, local))
  }

  predicate AllPositive(counts: seq<int>) {
    forall i | 0 <= i < |counts| :: counts[i] > 0
  }

  /** The ranks of the first n nodes. */
  function Ranks(nodes: seq<StepNode>, counts: seq<int>, b: Binding, n: nat): (r: seq<PlacedRank>)
    requires n <= |nodes| == |counts| && AllPositive(counts) && b.cpt >= 1
    ensures |r| == Sum(counts[..n])
  {
    if n == 0 then []
    else
      SumPrefix(counts, n - 1);
      var before := Ranks(nodes, counts, b, n - 1);
      before + NodeRanks(nodes[n - 1], n - 1, counts[n - 1], |before|, b, counts[n - 1])
  }

  /** The warning a node is due for its devices. */
  function NodeWarning(node: StepNode, count: nat, b: Binding): seq<Warning> {
    if Devices.Assigned(node.gpus, count, b.gpusPerTask, b.autoDivide).shared then [SharedDevices(node.host)]
    else if !b.autoDivide && !b.bindExplicit && b.gpusPerTask <= 0 && count > 1 && |node.gpus| >= count
      then [WholeGrant(node.host)]
    else []
  }

  /** Only the first of the first n nodes due a warning is warned of. */
  function GpuWarnings(nodes: seq<StepNode>, counts: seq<int>, b: Binding, n: nat): seq<Warning>
    requires n <= |nodes| == |counts| && AllPositive(counts)
  {
    if n == 0 then []
    else if GpuWarnings(nodes, counts, b, n - 1) != [] then GpuWarnings(nodes, counts, b, n - 1)
    else NodeWarning(nodes[n - 1], counts[n - 1], b)
  }

  /** A node's grant is short of what its ranks ask for. */
  predicate GpusShort(node: StepNode, count: int, gpusPerTask: int) {
    gpusPerTask > 0 && gpusPerTask * count > |node.gpus|
  }

  datatype Distribution = Distribution(ranks: seq<PlacedRank>, warnings: seq<Warning>)

  method Distribute(nodes: seq<StepNode>, counts: seq<int>, b: Binding) returns (r: Result<Distribution>)
    requires |nodes| == |counts| && AllPositive(counts) && b.cpt >= 1
    ensures r.Err? <==> exists i :: 0 <= i < |nodes| && GpusShort(nodes[i], counts[i], b.gpusPerTask)
    ensures r.Err? ==> r.refusal == TooFewGpus
    ensures r.Ok? ==>
      r.value == Distribution(Ranks(nodes, counts, b, |nodes|), GpuWarnings(nodes, counts, b, |nodes|))
  {
    var ranks: seq<PlacedRank> := [];
    var warns: seq<Warning> := [];
    var rank := 0;
    for ni := 0 to |nodes|
      invariant ranks == Ranks(nodes, counts, b, ni) && rank == |ranks|
      invariant warns == GpuWarnings(nodes, counts, b, ni)
      invariant forall i | 0 <= i < ni :: !GpusShort(nodes[i], counts[i], b.gpusPerTask)
    {
      var nlocal := counts[ni];
      if b.gpusPerTask > 0 && b.gpusPerTask * nlocal > |nodes[ni].gpus| {
        assert GpusShort(nodes[ni], counts[ni], b.gpusPerTask);
        return Err(TooFewGpus);
      }
      var more, warn := RanksOnNode(nodes[ni], ni, nlocal, rank, b);
      if |warns| == 0 {
        warns := warn;
      }
      ranks := ranks + more;
      rank := rank + nlocal;
    }
    return Ok(Distribution(ranks, warns));
  }

  /** The cpuset of each local rank. */
  function CpusetTexts(cpt: nat): nat -> string
    requires cpt >= 1
  {
    (local: nat) => Cpuset(local, cpt)
  }

  /** The first n ranks of a node whose local ranks have these devices and cpusets. */
  function Numbered(gpus: seq<seq<string>>, ni: nat, first: nat, text: nat -> string, n: nat): seq<PlacedRank>
    requires n <= |gpus|
  {
    seq(n, local requires 0 <= local < n => PlacedRank(first + local, ni, local, text(local), gpus[local]))
  }

  lemma NodeRanksAre(node: StepNode, ni: nat, count: nat, first: nat, b: Binding)
    requires b.cpt >= 1
    ensures NodeRanks(node, ni, count, first, b, count) ==
            Numbered(Devices.Assigned(node.gpus, count, b.gpusPerTask, b.autoDivide).perRank, ni, first,
                     CpusetTexts(b.cpt), count)
  {
  }

  method NumberRanks(gpuPerRank: array<seq<string>>, ni: nat, nlocal: nat, first: nat, text: nat -> string)
    returns (ranks: seq<PlacedRank>)
    requires nlocal <= gpuPerRank.Length
    ensures ranks == Numbered(gpuPerRank[..], ni, first, text, nlocal)
  {
    ranks := [];
    var rank := first;
    for local := 0 to nlocal
      invariant ranks == Numbered(gpuPerRank[..], ni, first, text, local) && rank == first + local
    {
      assert gpuPerRank[..][local] == gpuPerRank[local];
      ranks := ranks + [PlacedRank(rank, ni, local, text(local), gpuPerRank[local])];
      rank := rank + 1;
    }
  }

  /** The ranks of one node, and the warning it is due. */
  method RanksOnNode(node: StepNode, ni: nat, nlocal: nat, first: nat, b: Binding)
    returns (ranks: seq<PlacedRank>, warn: seq<Warning>)
    requires b.cpt >= 1
    ensures ranks == NodeRanks(node, ni, nlocal, first, b, nlocal)
    ensures warn == NodeWarning(node, nlocal, b)
  {
    var gpuPerRank, shared := Devices.AssignDevices(node.gpus, nlocal, b.gpusPerTask, b.autoDivide);
    warn := [];
    if shared {
      warn := warn + [SharedDevices(node.host)];
    }
    if !b.autoDivide && !b.bindExplicit && b.gpusPerTask <= 0 && nlocal > 1 && |node.gpus| >= nlocal && |warn| == 0 {
      warn := warn + [WholeGrant(node.host)];
    }
    ranks := NumberRanks(gpuPerRank, ni, nlocal, first, CpusetTexts(b.cpt));
    NodeRanksAre(node, ni, nlocal, first, b);
  }

  // ---------- Place ----------

  function Unbound(ranks: seq<PlacedRank>): (r: seq<PlacedRank>)
    ensures |r| == |ranks|
  {
    seq(|ranks|, i requires 0 <= i < |ranks| => ranks[i].(cpuset := ""))
  }

  function BindingOf(lay: Layout, req: Request): (b: Binding)
    ensures b.cpt >= 1
  {
    Binding(CpusPerTask(lay, req), req.gpusPerTask, req.autoDivide, req.bindExplicit)
  }

  /** The number of ranks a step of n tasks has: none for a negative -n. */
  function Dealable(n: int): nat {
    if n > 0 then n else 0
  }

  /** The warning for a step of fewer ranks than nodes with room. */
  function CountWarning(caps: seq<int>, ntasks: int): seq<Warning> {
    if ntasks < Positive(caps) then [FewerNodes(ntasks, Positive(caps))] else []
  }

  /** Place's whole decision, given the counts the spread dealt. */
  function Decided(lay: Layout, req: Request, nodes: seq<StepNode>, counts: seq<int>): Result<Plan>
    requires |nodes| == |counts|
  {
    var kept, kc := KeptNodes(nodes, counts), KeptCounts(counts);
    KeptTogether(nodes, counts);
    if exists i :: 0 <= i < |kept| && GpusShort(kept[i], kc[i], req.gpusPerTask) then Err(TooFewGpus)
    else
      var ranks := Ranks(kept, kc, BindingOf(lay, req), |kept|);
      Ok(Plan(kept, if req.noBind then Unbound(ranks) else ranks,
              Tasks(Capacities(lay, nodes, req), req), CpusPerTask(lay, req),
              CountWarning(Capacities(lay, nodes, req), Tasks(Capacities(lay, nodes, req), req))
              + GpuWarnings(kept, kc, BindingOf(lay, req), |kept|)))
  }

  lemma {:induction false} KeptTogether(nodes: seq<StepNode>, counts: seq<int>)
    requires |nodes| == |counts|
    ensures |KeptNodes(nodes, counts)| == |KeptCounts(counts)| == Positive(counts)
  {
    if nodes != [] {
      KeptTogether(nodes[..|nodes| - 1], counts[..|nodes| - 1]);
    }
  }

  method CountPositive(values: seq<int>) returns (n: nat)
    ensures n == Positive(values)
  {
    n := 0;
    for i := 0 to |values|
      invariant n == Positive(values[..i])
    {
      assert values[..i + 1][..i] == values[..i];
      if values[i] > 0 {
        n := n + 1;
      }
    }
    assert values[..|values|] == values;
  }

  /** The plan for the nodes a rank was dealt to. */
  method PlanOn(lay: Layout, req: Request, nodes: seq<StepNode>, counts: seq<int>, ntasks: int, warns: seq<Warning>)
    returns (r: Result<Plan>)
    requires |nodes| == |counts| && ntasks == Tasks(Capacities(lay, nodes, req), req)
    requires warns == CountWarning(Capacities(lay, nodes, req), ntasks)
    ensures r == Decided(lay, req, nodes, counts)
  {
    KeptTogether(nodes, counts);
    var kept, keptCounts := DropEmpty(nodes, counts);
    var cpt := CpusPerTask(lay, req);
    var placed := Distribute(kept, keptCounts, Binding(cpt, req.gpusPerTask, req.autoDivide, req.bindExplicit));
    if placed.Err? {
      return Err(TooFewGpus);
    }
    var ranks := placed.value.ranks;
    if req.noBind {
      ranks := Unbound(ranks);
    }
    return Ok(Plan(kept, ranks, ntasks, cpt, warns + placed.value.warnings));
  }

  method Place(lay: Layout, req: Request) returns (r: Result<Plan>, ghost counts: seq<int>)
    ensures Selected(lay, req).Err? ==> r == Err(Selected(lay, req).refusal)
    ensures Selected(lay, req).Ok? ==>
      var nodes := Selected(lay, req).value;
      var caps := Capacities(lay, nodes, req);
      && (Tasks(caps, req) > Sum(caps) ==> r == Err(TooManyTasks))
      && (Tasks(caps, req) <= Sum(caps) ==>
            Deals(caps, counts, Dealable(Tasks(caps, req))) && |counts| == |nodes|
              && r == Decided(lay, req, nodes, counts))
  {
    counts := [];
    var selected := SelectNodes(lay, req);
    if selected.Err? {
      return Err(selected.refusal), counts;
    }
    var nodes := selected.value;
    var caps := ListCapacities(lay, nodes, req);
    var ntasks := req.ntasks;
    if ntasks == 0 {
      ntasks := TotalOf(caps);
    }
    var dealt := Spread.Spread(caps, ntasks);
    if dealt.None? {
      return Err(TooManyTasks), counts;
    }
    counts := dealt.value;
    var warns: seq<Warning> := [];
    var usable := CountPositive(caps);
    if ntasks < usable {
      warns := warns + [FewerNodes(ntasks, usable)];
    }
    r := PlanOn(lay, req, nodes, dealt.value, ntasks, warns);
  }
}
