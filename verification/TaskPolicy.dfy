/**
 How many tasks a job has and how many CPUs each: one task per slot, per node or per
 granted device, with the most CPUs per task every node can give.
 */
module TaskPolicy {
  import opened Spread

  datatype Policy = PerSlot | PerNode | PerGpu | Unknown

  /** One node's grant. */
  datatype Grant = Grant(slots: nat, gpus: nat)

  /** The job's task shape; CPUs per task are not set under the slot policy. */
  datatype Geometry = Geometry(perNode: seq<int>, ntasks: int, cpusPerTask: int, cpusSet: bool, warned: bool)

  datatype Result<+T> = Ok(value: T) | Err(refusal: Refusal)

  datatype Refusal = NoNodes | UnknownPolicy | NoGpus

  function SlotCounts(nodes: seq<Grant>): (r: seq<int>)
    ensures |r| == |nodes|
  {
    seq(|nodes|, i requires 0 <= i < |nodes| => nodes[i].slots)
  }

  function GpuCounts(nodes: seq<Grant>): (r: seq<int>)
    ensures |r| == |nodes|
  {
    seq(|nodes|, i requires 0 <= i < |nodes| => nodes[i].gpus)
  }

  function Ones(n: nat): (r: seq<int>)
    ensures |r| == n
  {
    seq(n, _ => 1)
  }

  /** A node's slots divided among its devices, rounded down. */
  function SlotsPerGpu(n: Grant): nat
    requires n.gpus > 0
  {
    n.slots / n.gpus
  }

  // ---------- The geometries ----------

  method SlotGeometry(nodes: seq<Grant>) returns (g: Geometry)
    ensures g.perNode == SlotCounts(nodes) && g.ntasks == Sum(g.perNode) && !g.cpusSet && g.cpusPerTask == 0
      && !g.warned
  {
    var perNode: seq<int> := [];
    var ntasks := 0;
    for i := 0 to |nodes|
      invariant perNode == SlotCounts(nodes)[..i] && ntasks == Sum(perNode)
    {
      SumSnoc(perNode, nodes[i].slots);
      assert SlotCounts(nodes)[..i + 1] == SlotCounts(nodes)[..i] + [nodes[i].slots];
      perNode := perNode + [nodes[i].slots];
      ntasks := ntasks + nodes[i].slots;
    }
    assert SlotCounts(nodes)[..|nodes|] == SlotCounts(nodes);
    return Geometry(perNode, ntasks, 0, false, false);
  }

  ghost predicate SlotsDiffer(nodes: seq<Grant>) {
    exists i, j :: 0 <= i < |nodes| && 0 <= j < |nodes| && nodes[i].slots != nodes[j].slots
  }

  /** Every node has its one task, and the CPUs per task are the fewest slots of a node. */
  method NodeGeometry(nodes: seq<Grant>) returns (g: Geometry)
    requires |nodes| > 0
    ensures g.perNode == Ones(|nodes|) && g.ntasks == |nodes| && g.cpusSet
    ensures (forall i | 0 <= i < |nodes| :: g.cpusPerTask <= nodes[i].slots)
         && exists i :: 0 <= i < |nodes| && g.cpusPerTask == nodes[i].slots
    ensures g.warned <==> SlotsDiffer(nodes)
  {
    var minSlots := nodes[0].slots;
    var uniform := true;
    var perNode: seq<int> := [];
    ghost var least, other := 0, 0;
    for i := 0 to |nodes|
      invariant perNode == Ones(i)
      invariant forall j | 0 <= j < i :: minSlots <= nodes[j].slots
      invariant 0 <= least < |nodes| && minSlots == nodes[least].slots
      invariant uniform ==> forall j | 0 <= j < i :: nodes[j].slots == nodes[0].slots
      invariant 0 <= other < |nodes| && (!uniform ==> nodes[other].slots != nodes[0].slots)
    {
      perNode := perNode + [1];
      if nodes[i].slots != nodes[0].slots {
        uniform, other := false, i;
      }
      if nodes[i].slots < minSlots {
        minSlots, least := nodes[i].slots, i;
      }
    }
    return Geometry(perNode, |nodes|, minSlots, true, !uniform);
  }

  /** The smallest share a device gets on a node that has one: what the gpu policy hands out. */
  ghost predicate LeastShare(nodes: seq<Grant>, cpt: int) {
    && (forall i | 0 <= i < |nodes| && nodes[i].gpus > 0 :: cpt <= SlotsPerGpu(nodes[i]))
    && exists i :: 0 <= i < |nodes| && nodes[i].gpus > 0 && cpt == SlotsPerGpu(nodes[i])
  }

  method CountGpus(nodes: seq<Grant>) returns (perNode: seq<int>, ntasks: int, minCpt: int)
    ensures perNode == GpuCounts(nodes) && ntasks == Sum(perNode)
    ensures if ntasks == 0 then minCpt == -1 else minCpt >= 0 && LeastShare(nodes, minCpt)
  {
    perNode, ntasks, minCpt := [], 0, -1;
    ghost var least := 0;
    for i := 0 to |nodes|
      invariant perNode == GpuCounts(nodes)[..i] && ntasks == Sum(perNode) >= 0
      invariant ntasks == 0 ==> minCpt == -1 && forall j | 0 <= j < i :: nodes[j].gpus == 0
      invariant ntasks > 0 ==>
        && minCpt >= 0 && (forall j | 0 <= j < i && nodes[j].gpus > 0 :: minCpt <= SlotsPerGpu(nodes[j]))
        && 0 <= least < |nodes| && nodes[least].gpus > 0 && minCpt == SlotsPerGpu(nodes[least])
    {
      SumSnoc(perNode, nodes[i].gpus);
      assert GpuCounts(nodes)[..i + 1] == GpuCounts(nodes)[..i] + [nodes[i].gpus];
      perNode := perNode + [nodes[i].gpus];
      ntasks := ntasks + nodes[i].gpus;
      if nodes[i].gpus != 0 {
        var cpt := nodes[i].slots / nodes[i].gpus;
        if minCpt < 0 || cpt < minCpt {
          minCpt, least := cpt, i;
        }
      }
    }
    assert GpuCounts(nodes)[..|nodes|] == GpuCounts(nodes);
  }

  ghost predicate Uneven(nodes: seq<Grant>) {
    exists i, j :: 0 <= i < |nodes| && 0 <= j < |nodes| && nodes[i].gpus > 0 && nodes[j].gpus > 0
                   && SlotsPerGpu(nodes[i]) != SlotsPerGpu(nodes[j])
  }

  method SharesDiffer(nodes: seq<Grant>) returns (differ: bool)
    ensures differ <==> Uneven(nodes)
  {
    var first := -1;
    differ := false;
    ghost var f, d := 0, 0;
    for i := 0 to |nodes|
      invariant first < 0 ==> forall j | 0 <= j < i :: nodes[j].gpus == 0
      invariant first >= 0 ==> 0 <= f < |nodes| && nodes[f].gpus > 0 && first == SlotsPerGpu(nodes[f])
      invariant !differ && first >= 0 ==> forall j | 0 <= j < i && nodes[j].gpus > 0 :: SlotsPerGpu(nodes[j]) == first
      invariant differ ==> first >= 0 && 0 <= d < |nodes| && nodes[d].gpus > 0 && SlotsPerGpu(nodes[d]) != first
    {
      if nodes[i].gpus != 0 {
        var cpt := nodes[i].slots / nodes[i].gpus;
        if first < 0 {
          first, f := cpt, i;
        } else if cpt != first {
          differ, d := true, i;
        }
      }
    }
  }

  method GpuGeometry(nodes: seq<Grant>) returns (r: Result<Geometry>)
    ensures r.Err? <==> Sum(GpuCounts(nodes)) == 0
    ensures r.Err? ==> r.refusal == NoGpus
    ensures r.Ok? ==> var g := r.value;
      && g.perNode == GpuCounts(nodes) && g.ntasks == Sum(g.perNode) && g.cpusSet && g.cpusPerTask >= 0
      && LeastShare(nodes, g.cpusPerTask) && (g.warned <==> Uneven(nodes))
  {
    var perNode, ntasks, minCpt := CountGpus(nodes);
    if ntasks == 0 {
      return Err(NoGpus);
    }
    var differ := SharesDiffer(nodes);
    return Ok(Geometry(perNode, ntasks, minCpt, true, differ));
  }

  /** What a policy gives: its tasks on each node, and the CPUs per task where it sets them. */
  ghost predicate Gives(p: Policy, nodes: seq<Grant>, g: Geometry) {
    && g.ntasks == Sum(g.perNode)
    && match p
       case PerSlot => g.perNode == SlotCounts(nodes) && !g.cpusSet
       case PerNode => g.perNode == Ones(|nodes|) && g.cpusSet && LeastSlots(nodes, g.cpusPerTask)
       case PerGpu => g.perNode == GpuCounts(nodes) && g.cpusSet && LeastShare(nodes, g.cpusPerTask)
       case Unknown => false
  }

  ghost predicate LeastSlots(nodes: seq<Grant>, cpt: int) {
    (forall i | 0 <= i < |nodes| :: cpt <= nodes[i].slots) && exists i :: 0 <= i < |nodes| && cpt == nodes[i].slots
  }

  method ApplyPolicy(p: Policy, nodes: seq<Grant>) returns (r: Result<Geometry>)
    ensures r.Ok? ==> Gives(p, nodes, r.value)
    ensures r.Err? <==> nodes == [] || p == Unknown || (p == PerGpu && Sum(GpuCounts(nodes)) == 0)
    ensures r.Err? ==> r.refusal == if nodes == [] then NoNodes else if p == Unknown then UnknownPolicy else NoGpus
    ensures r.Ok? ==> (r.value.warned <==> (p == PerNode && SlotsDiffer(nodes)) || (p == PerGpu && Uneven(nodes)))
  {
    if |nodes| == 0 {
      return Err(NoNodes);
    }
    match p {
      case PerSlot =>
        var g := SlotGeometry(nodes);
        return Ok(g);
      case PerNode =>
        var g := NodeGeometry(nodes);
        SumOfOnes(|nodes|);
        return Ok(g);
      case PerGpu =>
        r := GpuGeometry(nodes);
      case Unknown =>
        return Err(UnknownPolicy);
    }
  }

  lemma {:induction false} SumOfOnes(n: nat)
    ensures Sum(Ones(n)) == n
  {
    if n > 0 {
      assert Ones(n)[..n - 1] == Ones(n - 1);
      SumOfOnes(n - 1);
    }
  }

  // ---------- The CPUs per task are the best possible ----------

  /** Every node has the slots for c CPUs for each of its tasks. */
  ghost predicate Affordable(nodes: seq<Grant>, perNode: seq<int>, c: int)
    requires |nodes| == |perNode|
  {
    forall i | 0 <= i < |nodes| :: perNode[i] * c <= nodes[i].slots
  }

  lemma ShareFits(n: Grant, c: int)
    requires n.gpus > 0 && c <= SlotsPerGpu(n)
    ensures n.gpus * c <= n.slots
  {
    assert n.gpus * c <= n.gpus * SlotsPerGpu(n);
  }

  lemma ShareIsMost(n: Grant, c: int)
    requires n.gpus > 0 && n.gpus * c <= n.slots
    ensures c <= SlotsPerGpu(n)
  {
    if c > SlotsPerGpu(n) {
      TimesGrows(n.gpus, SlotsPerGpu(n) + 1, c);
    }
  }

  lemma TimesGrows(n: nat, a: int, b: int)
    requires a <= b
    ensures n * a <= n * b
  {
  }

  /** Where a policy sets the CPUs per task: that many fit on every node, and no more would. */
  lemma CpusPerTaskIsOptimal(p: Policy, nodes: seq<Grant>, g: Geometry, c: int)
    requires Gives(p, nodes, g) && g.cpusSet
    ensures |g.perNode| == |nodes|
    ensures Affordable(nodes, g.perNode, c) <==> c <= g.cpusPerTask
  {
    if p == PerGpu {
      if c <= g.cpusPerTask {
        forall i | 0 <= i < |nodes|
          ensures g.perNode[i] * c <= nodes[i].slots
        {
          if nodes[i].gpus > 0 {
            ShareFits(nodes[i], c);
          }
        }
      } else {
        var i :| 0 <= i < |nodes| && nodes[i].gpus > 0 && g.cpusPerTask == SlotsPerGpu(nodes[i]);
        if g.perNode[i] * c <= nodes[i].slots {
          ShareIsMost(nodes[i], c);
          assert false;
        }
      }
    } else if c > g.cpusPerTask {
      var i :| 0 <= i < |nodes| && g.cpusPerTask == nodes[i].slots;
      assert g.perNode[i] * c > nodes[i].slots;
    } else {
      forall i | 0 <= i < |nodes|
        ensures g.perNode[i] * c <= nodes[i].slots
      {
        assert g.perNode[i] == 1;
      }
    }
  }
}
