/**
 The job's rank map, and the fabricator's check of its own exports: the counts and the
 node list it encodes decode to what they were made from.
 */
module Fabricate {
  import opened Text
  import opened Spread
  import Nodelist
  import CountRuns
  import Placement

  // ---------- The rank map ----------

  /** A rank of the job: its node, its place there, and its positional cpuset. */
  datatype Rank = Rank(rank: nat, node: nat, local: nat, cpuset: string)

  function CpusEach(cpusPerTask: int): (cpt: nat)
    ensures cpt >= 1
  {
    if cpusPerTask <= 0 then 1 else cpusPerTask
  }

  predicate Counts(perNode: seq<int>) {
    forall i | 0 <= i < |perNode| :: perNode[i] >= 0
  }

  /** The ranks of one node, text giving each its positional cpuset. */
  function NodeRanks(node: nat, first: nat, n: nat, text: nat -> string): (r: seq<Rank>)
    ensures |r| == n
  {
    seq(n, local requires 0 <= local => Rank(first + local, node, local, text(local)))
  }

  /** The ranks of the first n nodes. */
  function RankMap(perNode: seq<int>, text: nat -> string, n: nat): (r: seq<Rank>)
    requires Counts(perNode) && n <= |perNode|
    ensures |r| == Sum(perNode[..n])
  {
    if n == 0 then []
    else
      SumPrefix(perNode, n - 1);
      var before := RankMap(perNode, text, n - 1);
      before + NodeRanks(n - 1, |before|, perNode[n - 1], text)
  }

  method NumberTasks(node: nat, first: nat, n: nat, text: nat -> string) returns (ranks: seq<Rank>)
    ensures ranks == NodeRanks(node, first, n, text)
  {
    ranks := [];
    var rank := first;
    for local := 0 to n
      invariant rank == first + local && ranks == NodeRanks(node, first, local, text)
    {
      ranks := ranks + [Rank(rank, node, local, text(local))];
      rank := rank + 1;
    }
  }

  method BuildTasks(perNode: seq<int>, cpusPerTask: int) returns (ranks: seq<Rank>)
    requires Counts(perNode)
    ensures ranks == RankMap(perNode, Placement.CpusetTexts(CpusEach(cpusPerTask)), |perNode|)
  {
    ranks := [];
    for node := 0 to |perNode|
      invariant ranks == RankMap(perNode, Placement.CpusetTexts(CpusEach(cpusPerTask)), node)
    {
      var cpt := if cpusPerTask <= 0 then 1 else cpusPerTask;
      var more := NumberTasks(node, |ranks|, perNode[node], Placement.CpusetTexts(cpt));
      ranks := ranks + more;
    }
  }

  /** The map numbers the job's tasks from 0, node by node, with local ids from 0. */
  lemma {:induction false} RankMapAt(perNode: seq<int>, text: nat -> string, n: nat, k: nat)
    requires Counts(perNode) && n <= |perNode| && k < |RankMap(perNode, text, n)|
    ensures var r := RankMap(perNode, text, n)[k];
      && r.rank == k && r.node < n && r.local < perNode[r.node] && Sum(perNode[..r.node]) + r.local == k
      && r.cpuset == text(r.local)
  {
    if n > 0 {
      SumPrefix(perNode, n - 1);
      if k < |RankMap(perNode, text, n - 1)| {
        RankMapAt(perNode, text, n - 1, k);
      }
    }
  }

  /** The cpuset a task is given: its node's next CPUs by position, as many as the job gives a
      task, or one. */
  lemma TaskCpus(cpusPerTask: int, local: nat)
    ensures var c := if cpusPerTask > 0 then cpusPerTask else 1;
      Placement.CpusetTexts(CpusEach(cpusPerTask))(local) == Itoa(local * c) + "-" + Itoa((local + 1) * c - 1)
  {
  }

  lemma RankMapSize(perNode: seq<int>, text: nat -> string)
    requires Counts(perNode)
    ensures |RankMap(perNode, text, |perNode|)| == Sum(perNode)
  {
    assert perNode[..|perNode|] == perNode;
  }

  // ---------- The self-check ----------

  datatype Problem = BadCounts | WrongSum | BadNodelist | WrongNodes | BadCharset

  /** The characters an exported machine value may have. */
  predicate MachineChar(c: char) {
    || 'A' <= c <= 'Z' || 'a' <= c <= 'z' || '0' <= c <= '9'
    || c in ['[', ']', '(', ')', ',', '.', ':', '=', '_', '-']
  }

  predicate MachineValue(s: string) {
    forall i | 0 <= i < |s| :: MachineChar(s[i])
  }

  /** What the check finds wrong with the two exports, if anything. */
  function Checked(nodelist: string, tasksPerNode: string, ntasks: int, nnodes: int): Option<Problem> {
    var counts := CountRuns.Expand(tasksPerNode);
    if counts.None? then Some(BadCounts)
    else if Sum(counts.value) != ntasks then Some(WrongSum)
    else
      var names := Nodelist.Expand(nodelist);
      if names.Err? then Some(BadNodelist)
      else if |names.value| != nnodes then Some(WrongNodes)
      else if !MachineValue(nodelist) then Some(BadCharset)
      else None
  }

  method Validate(nodelist: string, tasksPerNode: string, ntasks: int, nnodes: int) returns (problem: Option<Problem>)
    ensures problem == Checked(nodelist, tasksPerNode, ntasks, nnodes)
  {
    var counts := CountRuns.ExpandCounts(tasksPerNode);
    if counts.None? {
      return Some(BadCounts);
    }
    var sum := TotalOf(counts.value);
    if sum != ntasks {
      return Some(WrongSum);
    }
    var names := Nodelist.ExpandNodelist(nodelist);
    if names.Err? {
      return Some(BadNodelist);
    }
    if |names.value| != nnodes {
      return Some(WrongNodes);
    }
    if !MachineValue(nodelist) {
      return Some(BadCharset);
    }
    return None;
  }

  /** The check passes exactly if the counts decode and add up to the tasks, the node list
      decodes to as many nodes, and its characters are letters, digits and []().,:=_- only. */
  lemma CheckPassesIff(nodelist: string, tasksPerNode: string, ntasks: int, nnodes: int)
    ensures Checked(nodelist, tasksPerNode, ntasks, nnodes).None? <==>
      && CountRuns.Expand(tasksPerNode).Some? && Sum(CountRuns.Expand(tasksPerNode).value) == ntasks
      && Nodelist.Expand(nodelist).Ok? && |Nodelist.Expand(nodelist).value| == nnodes
      && forall c | c in nodelist ::
           'A' <= c <= 'Z' || 'a' <= c <= 'z' || '0' <= c <= '9' || c in "[]().,:=_-"
  {
    AllMachine(nodelist);
  }

  lemma AllMachine(s: string)
    ensures MachineValue(s) <==> forall c | c in s :: MachineChar(c)
  {
    if forall c | c in s :: MachineChar(c) {
      assert forall i | 0 <= i < |s| :: s[i] in s;
    }
  }

  // ---------- It always succeeds ----------

  /** A host name as DNS has them, and one the node list syntax can carry. */
  ghost predicate MachineName(h: string) {
    Nodelist.HostName(h) && MachineValue(h)
  }

  lemma ConcatIsMachine(a: string, b: string)
    requires MachineValue(a) && MachineValue(b)
    ensures MachineValue(a + b)
  {
  }

  lemma {:induction false} JoinIsMachine(parts: seq<string>, sep: string)
    requires MachineValue(sep) && forall i | 0 <= i < |parts| :: MachineValue(parts[i])
    ensures MachineValue(Join(parts, sep))
  {
    if |parts| > 1 {
      JoinIsMachine(parts[1..], sep);
      ConcatIsMachine(parts[0], sep);
      ConcatIsMachine(parts[0] + sep, Join(parts[1..], sep));
    }
  }

  lemma SlicesAreMachine(a: string, b: string, c: string)
    requires MachineValue(a + b + c)
    ensures MachineValue(a) && MachineValue(b) && MachineValue(c)
  {
    var s := a + b + c;
    assert forall i | 0 <= i < |a| :: s[i] == a[i];
    assert forall i | 0 <= i < |b| :: s[|a| + i] == b[i];
    assert forall i | 0 <= i < |c| :: s[|a| + |b| + i] == c[i];
  }

  lemma PartsAreMachine(h: string)
    requires MachineValue(h)
    ensures var p := Nodelist.PartsOf(h); MachineValue(p.prefix) && MachineValue(p.digits) && MachineValue(p.suffix)
  {
    var p := Nodelist.PartsOf(h);
    Nodelist.PartsOfName(h);
    SlicesAreMachine(p.prefix, p.digits, p.suffix);
  }

  lemma {:induction false} ItemsAreMachine(toks: seq<Nodelist.Token>, k: nat)
    requires k <= |toks| && forall i | 0 <= i < |toks| :: MachineValue(toks[i].digits)
    ensures forall i | 0 <= i < |Nodelist.Items(toks, k)| :: MachineValue(Nodelist.Items(toks, k)[i])
    decreases |toks| - k
  {
    if k < |toks| {
      var e := Nodelist.RangeEnd(toks, k);
      ConcatIsMachine(toks[k].digits, "-");
      ConcatIsMachine(toks[k].digits + "-", toks[e].digits);
      ItemsAreMachine(toks, e + 1);
    }
  }

  lemma BracketIsMachine(prefix: string, inner: string, suffix: string)
    requires MachineValue(prefix) && MachineValue(inner) && MachineValue(suffix)
    ensures MachineValue(prefix + "[" + inner + "]" + suffix)
  {
    ConcatIsMachine(prefix, "[");
    ConcatIsMachine(prefix + "[", inner);
    ConcatIsMachine(prefix + "[" + inner, "]");
    ConcatIsMachine(prefix + "[" + inner + "]", suffix);
  }

  lemma GroupIsMachine(p: Nodelist.Parts, toks: seq<Nodelist.Token>)
    requires |toks| > 0 && MachineValue(p.prefix) && MachineValue(p.suffix)
    requires forall i | 0 <= i < |toks| :: MachineValue(toks[i].digits)
    ensures MachineValue(Nodelist.GroupBlock(p, toks))
  {
    ConcatIsMachine(p.prefix, toks[0].digits);
    ConcatIsMachine(p.prefix + toks[0].digits, p.suffix);
    ItemsAreMachine(toks, 0);
    JoinIsMachine(Nodelist.Items(toks, 0), ",");
    BracketIsMachine(p.prefix, Join(Nodelist.Items(toks, 0), ","), p.suffix);
  }

  lemma BlockIsMachine(hosts: seq<string>, i: nat)
    requires i < |hosts| && forall k | 0 <= k < |hosts| :: MachineValue(hosts[k])
    ensures MachineValue(Nodelist.BlockAt(hosts, i))
  {
    var p := Nodelist.PartsOf(hosts[i]);
    if p.ok {
      var group := hosts[i..Nodelist.BlockEnd(hosts, i)];
      var toks := Nodelist.TokensOf(group);
      PartsAreMachine(hosts[i]);
      forall k | 0 <= k < |toks|
        ensures MachineValue(toks[k].digits)
      {
        PartsAreMachine(group[k]);
      }
      GroupIsMachine(p, toks);
    }
  }

  lemma {:induction false} BlocksAreMachine(hosts: seq<string>, i: nat)
    requires i <= |hosts| && forall k | 0 <= k < |hosts| :: MachineValue(hosts[k])
    ensures forall k | 0 <= k < |Nodelist.Blocks(hosts, i)| :: MachineValue(Nodelist.Blocks(hosts, i)[k])
    decreases |hosts| - i
  {
    if i < |hosts| {
      var blocks := Nodelist.Blocks(hosts, i);
      assert blocks[0..] == blocks;
      Nodelist.BlocksHead(hosts, i, blocks, 0);
      BlockIsMachine(hosts, i);
      BlocksAreMachine(hosts, Nodelist.BlockEnd(hosts, i));
      assert blocks == [blocks[0]] + blocks[1..];
    }
  }

  lemma NodelistIsMachine(hosts: seq<string>)
    requires forall k | 0 <= k < |hosts| :: MachineValue(hosts[k])
    ensures MachineValue(Nodelist.Compress(hosts))
  {
    BlocksAreMachine(hosts, 0);
    JoinIsMachine(Nodelist.Blocks(hosts, 0), ",");
  }

  /** For every allocation of ordinary host names the check finds nothing: what it exports
      decodes to the counts and the hosts it encoded. */
  lemma SelfCheckSucceeds(hosts: seq<string>, perNode: seq<int>)
    requires 0 < |hosts| == |perNode| <= MAX_INT
    requires forall k | 0 <= k < |hosts| :: MachineName(hosts[k])
    requires forall k | 0 <= k < |perNode| :: CountRuns.Fits(perNode[k])
    ensures Checked(Nodelist.Compress(hosts), CountRuns.Compress(perNode), Sum(perNode), |hosts|) == None
  {
    CountRuns.RoundTrip(perNode);
    Nodelist.RoundTrip(hosts);
    NodelistIsMachine(hosts);
  }
}
