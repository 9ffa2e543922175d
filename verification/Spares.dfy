/**
 Hot spares: the hosts at the end of a grant that stand by for lost ones. The layout
 inside the job and the view from outside it must agree on them, whatever is swapped.
 */
module Spares {
  import opened Text
  import opened Sequences
  import opened HostFile

  /** A named value of the job's environment or context. */
  datatype Variable = Variable(name: string, value: string)

  /** The names of the two variables: how many spares, and the swaps so far. */
  datatype Naming = Naming(spares: string, swaps: string)

  const NAMES := Naming("SLURM_SHIM_SPARES", "shim.swaps")

  datatype Allocation = Allocation(hosts: seq<string>, spares: seq<string>, lost: seq<string>)

  datatype Swap = Swap(lost: string, spare: string)

  // ---------- Splitting a grant ----------

  /** A spare count, 0 when it is not a number. */
  function CountOf(text: string): int {
    var n := Atoi(TrimSpace(text));
    if n.Some? then n.value else 0
  }

  /** The last value of the variable among the first n. */
  function SpareCount(env: seq<Variable>, name: string, n: nat): int
    requires n <= |env|
  {
    if n == 0 then 0 else if env[n - 1].name == name then CountOf(env[n - 1].value) else SpareCount(env, name, n - 1)
  }

  /** The last k hosts are spares, unless that leaves no host but them. */
  function SplitGrant(granted: seq<string>, k: int): Allocation {
    if k <= 0 || k >= |granted| then Allocation(granted, [], [])
    else Allocation(granted[..|granted| - k], granted[|granted| - k..], [])
  }

  function IndexIn(names: seq<string>, name: string): (i: int)
    ensures -1 <= i < |names|
    ensures i >= 0 ==> names[i] == name && name !in names[..i]
    ensures i < 0 <==> name !in names
  {
    if names == [] then -1
    else if names[0] == name then 0
    else
      var r := IndexIn(names[1..], name);
      assert r >= 0 ==> names[..r + 1] == [names[0]] + names[1..][..r];
      if r < 0 then -1 else r + 1
  }

  /** A swap takes effect only between a host of the job and an unused spare of it. */
  function Swapped(a: Allocation, s: Swap): Allocation {
    var i, j := IndexIn(a.hosts, s.lost), IndexIn(a.spares, s.spare);
    if i < 0 || j < 0 then a
    else Allocation(a.hosts[i := s.spare], a.spares[..j] + a.spares[j + 1..], a.lost + [s.lost])
  }

  function Replay(a: Allocation, swaps: seq<Swap>): Allocation {
    if swaps == [] then a else Swapped(Replay(a, swaps[..|swaps| - 1]), swaps[|swaps| - 1])
  }

  /** strings.Cut at the colon. */
  function ParseSwap(pair: string): Swap {
    var c := IndexOf(pair, ':');
    if c < 0 then Swap(pair, "") else Swap(pair[..c], pair[c + 1..])
  }

  function ParseSwaps(pairs: seq<string>): (r: seq<Swap>)
    ensures |r| == |pairs|
  {
    seq(|pairs|, i requires 0 <= i < |pairs| => ParseSwap(pairs[i]))
  }

  function SwapsIn(name: string): Variable -> seq<Swap> {
    (v: Variable) => if v.name == name then ParseSwaps(Split(v.value, '+')) else []
  }

  function Allocated(granted: seq<string>, env: seq<Variable>, context: seq<Variable>, names: Naming): Allocation {
    AllocatedWith(granted, SpareCount(env, names.spares, |env|), FlatMap(context, SwapsIn(names.swaps)))
  }

  /** The split for k spares, and the recorded swaps replayed on it. */
  function AllocatedWith(granted: seq<string>, k: int, swaps: seq<Swap>): Allocation {
    if k <= 0 || k >= |granted| then SplitGrant(granted, k) else Replay(SplitGrant(granted, k), swaps)
  }

  lemma {:induction false} ReplayConcat(a: Allocation, s: seq<Swap>, t: seq<Swap>)
    ensures Replay(a, s + t) == Replay(Replay(a, s), t)
  {
    if t == [] {
      assert s + t == s;
    } else {
      assert (s + t)[..|s + t| - 1] == s + t[..|t| - 1];
      ReplayConcat(a, s, t[..|t| - 1]);
    }
  }

  method SwapIn(a: Allocation, s: Swap) returns (r: Allocation)
    ensures r == Swapped(a, s)
  {
    r := a;
    var i, j := IndexIn(a.hosts, s.lost), IndexIn(a.spares, s.spare);
    if i >= 0 && j >= 0 {
      r := Allocation(a.hosts[i := s.spare], a.spares[..j] + a.spares[j + 1..], a.lost + [s.lost]);
    }
  }

  lemma ReplayStep(a: Allocation, swaps: seq<Swap>, n: nat)
    requires n < |swaps|
    ensures Replay(a, swaps[..n + 1]) == Swapped(Replay(a, swaps[..n]), swaps[n])
  {
    assert swaps[..n + 1][..n] == swaps[..n];
  }

  method ReplayPairs(a: Allocation, pairs: seq<string>) returns (r: Allocation)
    ensures r == Replay(a, ParseSwaps(pairs))
  {
    r := a;
    for n := 0 to |pairs|
      invariant r == Replay(a, ParseSwaps(pairs)[..n])
    {
      ReplayStep(a, ParseSwaps(pairs), n);
      r := SwapIn(r, ParseSwap(pairs[n]));
    }
    WholePrefix(ParseSwaps(pairs));
  }

  method ReplayContext(start: Allocation, context: seq<Variable>, name: string) returns (a: Allocation)
    ensures a == Replay(start, FlatMap(context, SwapsIn(name)))
  {
    a := start;
    ghost var f := SwapsIn(name);
    for c := 0 to |context|
      invariant a == Replay(start, FlatMap(context[..c], f))
    {
      FlatMapStep(context, c, f);
      if context[c].name == name {
        ReplayConcat(start, FlatMap(context[..c], f), ParseSwaps(Split(context[c].value, '+')));
        a := ReplayPairs(a, Split(context[c].value, '+'));
      } else {
        assert FlatMap(context[..c], f) + [] == FlatMap(context[..c], f);
      }
    }
    WholePrefix(context);
  }

  method SparesAsked(env: seq<Variable>, name: string) returns (k: int)
    ensures k == SpareCount(env, name, |env|)
  {
    k := 0;
    for n := 0 to |env|
      invariant k == SpareCount(env, name, n)
    {
      if env[n].name == name {
        k := CountOf(env[n].value);
      }
    }
  }

  method SplitWith(granted: seq<string>, k: int, context: seq<Variable>, name: string) returns (a: Allocation)
    ensures a == AllocatedWith(granted, k, FlatMap(context, SwapsIn(name)))
  {
    if k <= 0 || k >= |granted| {
      a := Allocation(granted, [], []);
    } else {
      a := ReplayContext(Allocation(granted[..|granted| - k], granted[|granted| - k..], []), context, name);
    }
    AllocatedWithIs(granted, k, FlatMap(context, SwapsIn(name)));
  }

  lemma AllocatedWithIs(granted: seq<string>, k: int, swaps: seq<Swap>)
    ensures AllocatedWith(granted, k, swaps) ==
      if k <= 0 || k >= |granted| then Allocation(granted, [], [])
      else Replay(Allocation(granted[..|granted| - k], granted[|granted| - k..], []), swaps)
  {
  }

  method SplitAllocation(granted: seq<string>, env: seq<Variable>, context: seq<Variable>, names: Naming)
    returns (a: Allocation)
    ensures a == Allocated(granted, env, context, names)
  {
    var k := SparesAsked(env, names.spares);
    a := SplitWith(granted, k, context, names.swaps);
  }

  // ---------- Conservation ----------

  function Everyone(a: Allocation): multiset<string> {
    multiset(a.hosts) + multiset(a.spares) + multiset(a.lost)
  }

  lemma RemovedAt(names: seq<string>, j: nat)
    requires j < |names|
    ensures multiset(names[..j] + names[j + 1..]) == multiset(names) - multiset{names[j]}
  {
    assert names == names[..j] + [names[j]] + names[j + 1..];
  }

  lemma UpdatedAt(names: seq<string>, i: nat, name: string)
    requires i < |names|
    ensures multiset(names[i := name]) + multiset{names[i]} == multiset(names) + multiset{name}
  {
    assert names[i] in multiset(names);
  }

  lemma RemovedAdds(names: seq<string>, j: nat)
    requires j < |names|
    ensures multiset(names[..j] + names[j + 1..]) + multiset{names[j]} == multiset(names)
  {
    RemovedAt(names, j);
    assert names[j] in multiset(names);
  }

  lemma Moved(h: multiset<string>, h': multiset<string>, s: multiset<string>, s': multiset<string>, l: multiset<string>,
              x: string, y: string)
    requires h' + multiset{x} == h + multiset{y} && s' + multiset{y} == s
    ensures h' + s' + (l + multiset{x}) == h + s + l
  {
    assert h' + s' + (l + multiset{x}) == (h' + multiset{x}) + s' + l;
    assert (h + multiset{y}) + s' + l == h + (s' + multiset{y}) + l;
  }

  lemma SwapKeepsEveryone(a: Allocation, s: Swap)
    ensures Everyone(Swapped(a, s)) == Everyone(a) && |Swapped(a, s).hosts| == |a.hosts|
  {
    var i, j := IndexIn(a.hosts, s.lost), IndexIn(a.spares, s.spare);
    if i >= 0 && j >= 0 {
      UpdatedAt(a.hosts, i, s.spare);
      RemovedAdds(a.spares, j);
      assert multiset(a.lost + [s.lost]) == multiset(a.lost) + multiset{s.lost};
      Moved(multiset(a.hosts), multiset(a.hosts[i := s.spare]), multiset(a.spares),
            multiset(a.spares[..j] + a.spares[j + 1..]), multiset(a.lost), s.lost, s.spare);
    }
  }

  /** Whatever swaps are recorded, stale or garbage: hosts, spares and lost hosts together
      are the grant, no host twice or missing, and the job's size never changes. */
  lemma {:induction false} SwapsConserveGrant(granted: seq<string>, k: int, swaps: seq<Swap>)
    ensures var a := Replay(SplitGrant(granted, k), swaps);
      && Everyone(a) == multiset(granted)
      && |a.hosts| == |SplitGrant(granted, k).hosts|
      && |a.hosts| == (if 0 < k < |granted| then |granted| - k else |granted|)
  {
    if swaps == [] {
      if 0 < k < |granted| {
        assert granted == granted[..|granted| - k] + granted[|granted| - k..];
      }
    } else {
      SwapsConserveGrant(granted, k, swaps[..|swaps| - 1]);
      SwapKeepsEveryone(Replay(SplitGrant(granted, k), swaps[..|swaps| - 1]), swaps[|swaps| - 1]);
    }
  }

  // ---------- The view inside the job ----------

  /** The layout's nodes and spares, and what has been swapped. */
  datatype Layout = Layout(nodes: seq<Host>, spares: seq<Host>, lost: seq<string>, swaps: seq<Swap>)

  /** The fabricator's split: the last k hosts are spares, never the master. */
  function Split0(hosts: seq<Host>, k: int): Layout {
    if k <= 0 || k >= |hosts| then Layout(hosts, [], [], [])
    else Layout(hosts[..|hosts| - k], hosts[|hosts| - k..], [], [])
  }

  method SplitSpares(k: int, hosts: seq<Host>) returns (active: seq<Host>, spares: seq<Host>, warned: bool)
    ensures active == Split0(hosts, k).nodes && spares == Split0(hosts, k).spares
    ensures warned <==> k > 0 && k >= |hosts|
    ensures hosts != [] ==> active != [] && active[0] == hosts[0]
  {
    if k <= 0 {
      return hosts, [], false;
    }
    if k >= |hosts| {
      return hosts, [], true;
    }
    var n := |hosts| - k;
    return hosts[..n], hosts[n..], false;
  }

  /** Replacing node i by spare j, in place: the spare takes the lost node's index. */
  function Replaced(l: Layout, i: nat, j: nat): Layout
    requires i < |l.nodes| && j < |l.spares|
  {
    Layout(l.nodes[i := l.spares[j]], l.spares[..j] + l.spares[j + 1..], l.lost + [l.nodes[i].name],
           l.swaps + [Swap(l.nodes[i].name, l.spares[j].name)])
  }

  class JobLayout {
    var nodes: seq<Host>
    var spares: seq<Host>
    var lost: seq<string>
    var swaps: seq<Swap>

    constructor (hosts: seq<Host>, k: int)
      ensures Value() == Split0(hosts, k)
    {
      var l := Split0(hosts, k);
      nodes, spares, lost, swaps := l.nodes, l.spares, l.lost, l.swaps;
    }

    function Value(): Layout
      reads this
    {
      Layout(nodes, spares, lost, swaps)
    }

    method Replace(i: nat, j: nat)
      requires i < |nodes| && j < |spares|
      modifies this
      ensures Value() == Replaced(old(Value()), i, j)
    {
      lost := lost + [nodes[i].name];
      swaps := swaps + [Swap(nodes[i].name, spares[j].name)];
      nodes := nodes[i := spares[j]];
      spares := spares[..j] + spares[j + 1..];
    }
  }

  // ---------- The two views agree ----------

  function View(l: Layout): Allocation {
    Allocation(Names(l.nodes), Names(l.spares), l.lost)
  }

  lemma NamesSlice(hosts: seq<Host>, i: nat, j: nat)
    requires i <= j <= |hosts|
    ensures Names(hosts[i..j]) == Names(hosts)[i..j]
  {
  }

  /** Before any swap: the same hosts and the same spares, from the same first-seen list. */
  lemma {:induction false} SplitsAgree(grants: seq<Host>, elements: seq<Element>, k: int)
    requires FirstSeen(Names(grants)) == FirstSeen(Listed(elements, |elements|))
    ensures View(Split0(MergeAll(grants), k)) == SplitGrant(FirstSeen(Listed(elements, |elements|)), k)
  {
    MergedNames(grants);
    SplitView(MergeAll(grants), k);
  }

  lemma SplitView(hosts: seq<Host>, k: int)
    ensures View(Split0(hosts, k)) == SplitGrant(Names(hosts), k)
  {
    if 0 < k < |hosts| {
      NamesSlice(hosts, 0, |hosts| - k);
      NamesSlice(hosts, |hosts| - k, |hosts|);
    }
  }

  lemma IndexIsOnly(names: seq<string>, i: nat)
    requires i < |names| && Distinct(names)
    ensures IndexIn(names, names[i]) == i
  {
    assert names[i] in names;
    var j := IndexIn(names, names[i]);
    if j > i {
      InPrefix(names, i, j);
    }
  }

  lemma InPrefix(names: seq<string>, i: int, j: int)
    requires 0 <= i < j <= |names|
    ensures names[i] in names[..j]
  {
    assert names[..j][i] == names[i];
  }

  /** The names of a layout's nodes and spares do not repeat. */
  ghost predicate Separate(l: Layout) {
    Distinct(Names(l.nodes) + Names(l.spares))
  }

  lemma ReplacedView(l: Layout, i: nat, j: nat)
    requires i < |l.nodes| && j < |l.spares| && Separate(l)
    ensures View(Replaced(l, i, j)) == Swapped(View(l), Swap(l.nodes[i].name, l.spares[j].name))
  {
    var all := Names(l.nodes) + Names(l.spares);
    forall a, b | 0 <= a < b < |l.nodes|
      ensures Names(l.nodes)[a] != Names(l.nodes)[b]
    {
      assert all[a] != all[b];
    }
    forall a, b | 0 <= a < b < |l.spares|
      ensures Names(l.spares)[a] != Names(l.spares)[b]
    {
      assert all[|l.nodes| + a] != all[|l.nodes| + b];
    }
    IndexIsOnly(Names(l.nodes), i);
    IndexIsOnly(Names(l.spares), j);
    var r := Replaced(l, i, j);
    assert Names(r.nodes) == Names(l.nodes)[i := l.spares[j].name];
    assert Names(r.spares) == Names(l.spares)[..j] + Names(l.spares)[j + 1..];
  }

  lemma ReplacedSeparate(l: Layout, i: nat, j: nat)
    requires i < |l.nodes| && j < |l.spares| && Separate(l)
    ensures Separate(Replaced(l, i, j))
  {
    var all := Names(l.nodes) + Names(l.spares);
    var r := Replaced(l, i, j);
    var now := Names(r.nodes) + Names(r.spares);
    var n := |l.nodes|;
    forall a | 0 <= a < |now|
      ensures now[a] == all[Origin(n, i, j, a)]
    {
    }
    forall a, b | 0 <= a < b < |now|
      ensures now[a] != now[b]
    {
      assert Origin(n, i, j, a) != Origin(n, i, j, b);
    }
  }

  /** Where the host at position a was before node i was replaced by spare j. */
  function Origin(n: nat, i: nat, j: nat, a: nat): nat {
    if a == i then n + j else if a < n + j then a else a + 1
  }

  /** One replacement after another: nodes and spares by their positions at the time. */
  datatype Replacement = Replacement(node: nat, spare: nat)

  function After(l: Layout, rs: seq<Replacement>): Layout {
    if rs == [] then l
    else
      var before, r := After(l, rs[..|rs| - 1]), rs[|rs| - 1];
      if r.node < |before.nodes| && r.spare < |before.spares| then Replaced(before, r.node, r.spare) else before
  }

  /** Replaying the recorded swaps outside the job gives the layout inside it, after any
      replacements at all. */
  lemma {:induction false} ViewsAgree(l: Layout, rs: seq<Replacement>)
    requires Separate(l) && l.lost == [] && l.swaps == []
    ensures Replay(View(l), After(l, rs).swaps) == View(After(l, rs)) && Separate(After(l, rs))
  {
    if rs != [] {
      var init, r := rs[..|rs| - 1], rs[|rs| - 1];
      var before := After(l, init);
      ViewsAgree(l, init);
      if r.node < |before.nodes| && r.spare < |before.spares| {
        ReplacedView(before, r.node, r.spare);
        ReplacedSeparate(before, r.node, r.spare);
        var s := Swap(before.nodes[r.node].name, before.spares[r.spare].name);
        assert (before.swaps + [s])[..|before.swaps|] == before.swaps;
      }
    }
  }

  // ---------- Through the job context ----------

  function Pair(s: Swap): string {
    s.lost + ":" + s.spare
  }

  function Pairs(swaps: seq<Swap>): (r: seq<string>)
    ensures |r| == |swaps|
  {
    seq(|swaps|, i requires 0 <= i < |swaps| => Pair(swaps[i]))
  }

  /** What is stored in the job's context. */
  function Recorded(swaps: seq<Swap>): string {
    Join(Pairs(swaps), "+")
  }

  /** A host name the record can carry. */
  predicate Plain(name: string) {
    ':' !in name && '+' !in name
  }

  lemma PairIsParsed(s: Swap)
    requires Plain(s.lost) && Plain(s.spare)
    ensures ParseSwap(Pair(s)) == s && '+' !in Pair(s)
  {
    IndexOfFirst(s.lost, ':', s.spare);
    assert Pair(s)[..|s.lost|] == s.lost && Pair(s)[|s.lost| + 1..] == s.spare;
  }

  /** The record is read back as it was written. */
  lemma RecordIsRead(swaps: seq<Swap>)
    requires |swaps| > 0 && forall i | 0 <= i < |swaps| :: Plain(swaps[i].lost) && Plain(swaps[i].spare)
    ensures ParseSwaps(Split(Recorded(swaps), '+')) == swaps
  {
    forall i | 0 <= i < |swaps|
      ensures ParseSwap(Pairs(swaps)[i]) == swaps[i] && '+' !in Pairs(swaps)[i]
    {
      PairIsParsed(swaps[i]);
    }
    SplitOfJoin(Pairs(swaps), '+');
  }

  /** The context holds the record of these swaps, and no other. */
  predicate Carries(context: seq<Variable>, name: string, swaps: seq<Swap>) {
    FlatMap(context, SwapsIn(name)) == if swaps == [] then [] else ParseSwaps(Split(Recorded(swaps), '+'))
  }

  lemma RecordedIsReplayed(l: Layout, rs: seq<Replacement>, context: seq<Variable>, name: string, granted: seq<string>)
    requires Separate(l) && l.lost == [] && l.swaps == [] && Carries(context, name, After(l, rs).swaps)
    requires forall n | n in Names(l.nodes) || n in Names(l.spares) :: n in granted
    requires forall n | n in granted :: Plain(n)
    ensures Replay(View(l), FlatMap(context, SwapsIn(name))) == View(After(l, rs))
  {
    ViewsAgree(l, rs);
    SwapsArePlain(l, rs, granted);
    if After(l, rs).swaps != [] {
      RecordIsRead(After(l, rs).swaps);
    }
  }

  lemma SplitNames(hosts: seq<Host>, k: int)
    ensures var l := Split0(hosts, k); Names(l.nodes) + Names(l.spares) == Names(hosts)
    ensures forall n | n in Names(Split0(hosts, k).nodes) || n in Names(Split0(hosts, k).spares) :: n in Names(hosts)
  {
    var l := Split0(hosts, k);
    assert Names(l.nodes) + Names(l.spares) == Names(hosts);
  }

  /** From outside, the job with its recorded swaps is the job inside: for any grant, any
      number of spares and any replacements, once their record is in the context. */
  lemma {:induction false} OutsideIsInside(grants: seq<Host>, elements: seq<Element>, env: seq<Variable>,
                                           context: seq<Variable>, names: Naming, k: int, rs: seq<Replacement>)
    requires FirstSeen(Names(grants)) == FirstSeen(Listed(elements, |elements|))
    requires k == SpareCount(env, names.spares, |env|)
    requires forall n | n in Names(MergeAll(grants)) :: Plain(n)
    requires Carries(context, names.swaps, After(Split0(MergeAll(grants), k), rs).swaps)
    ensures Allocated(FirstSeen(Listed(elements, |elements|)), env, context, names)
         == View(After(Split0(MergeAll(grants), k), rs))
  {
    var l := Split0(MergeAll(grants), k);
    SplitsAgree(grants, elements, k);
    MergedNames(grants);
    if 0 < k < |MergeAll(grants)| {
      SplitIsSeparate(grants, k);
      SplitNames(MergeAll(grants), k);
      RecordedIsReplayed(l, rs, context, names.swaps, Names(MergeAll(grants)));
    } else {
      NothingToReplace(l, rs);
    }
  }

  lemma SplitIsSeparate(grants: seq<Host>, k: int)
    ensures Separate(Split0(MergeAll(grants), k))
  {
    var hosts := MergeAll(grants);
    var l := Split0(hosts, k);
    MergedNames(grants);
    FirstSeenIs(Names(grants));
    SplitNames(hosts, k);
  }

  lemma {:induction false} NothingToReplace(l: Layout, rs: seq<Replacement>)
    requires l.spares == []
    ensures After(l, rs) == l
  {
    if rs != [] {
      NothingToReplace(l, rs[..|rs| - 1]);
    }
  }

  /** Only granted hosts are ever swapped. */
  lemma {:induction false} SwapsArePlain(l: Layout, rs: seq<Replacement>, granted: seq<string>)
    requires l.swaps == [] && forall n | n in Names(l.nodes) || n in Names(l.spares) :: n in granted
    ensures var m := After(l, rs);
      && (forall n | n in Names(m.nodes) || n in Names(m.spares) :: n in granted)
      && forall i | 0 <= i < |m.swaps| :: m.swaps[i].lost in granted && m.swaps[i].spare in granted
  {
    if rs != [] {
      var init, r := rs[..|rs| - 1], rs[|rs| - 1];
      var before := After(l, init);
      SwapsArePlain(l, init, granted);
      if r.node < |before.nodes| && r.spare < |before.spares| {
        var m := Replaced(before, r.node, r.spare);
        assert Names(before.nodes)[r.node] in granted && Names(before.spares)[r.spare] in granted;
        assert Names(m.nodes) == Names(before.nodes)[r.node := Names(before.spares)[r.spare]];
        assert Names(m.spares) == Names(before.spares)[..r.spare] + Names(before.spares)[r.spare + 1..];
      }
    }
  }

  // ---------- What is asked for, and who stands by ----------

  /** The spares are the last hosts of the grant, as many as asked for; none if that would leave
      no host, and the job's hosts are the others, in order. */
  lemma LastAreSpares(granted: seq<string>, k: int)
    ensures var a := SplitGrant(granted, k);
      && a.hosts + a.spares == granted && a.lost == [] && |a.spares| == if 0 < k < |granted| then k else 0
  {
  }

  lemma TrimmedNumber(n: int, before: string, after: string)
    requires forall i | 0 <= i < |before| :: IsSpace(before[i])
    requires forall i | 0 <= i < |after| :: IsSpace(after[i])
    ensures TrimSpace(before + Itoa(n) + after) == Itoa(n)
  {
    NumberEnds(n);
    TrimsBefore(before, Itoa(n) + after);
    TrimsAfter(Itoa(n), after);
    assert before + (Itoa(n) + after) == before + Itoa(n) + after;
  }

  lemma NumberEnds(n: int)
    ensures !IsSpace(Itoa(n)[0]) && !IsSpace(Itoa(n)[|Itoa(n)| - 1])
  {
    var s := Itoa(n);
    if n < 0 {
      assert |Numeral(-n)| > 0 && s[|s| - 1] == Numeral(-n)[|s| - 2];
    }
  }

  lemma {:induction false} TrimsBefore(before: string, s: string)
    requires (forall i | 0 <= i < |before| :: IsSpace(before[i])) && s != "" && !IsSpace(s[0])
    ensures TrimLeft(before + s) == s
  {
    if before == "" {
      assert before + s == s;
    } else {
      assert (before + s)[1..] == before[1..] + s;
      TrimsBefore(before[1..], s);
    }
  }

  lemma {:induction false} TrimsAfter(s: string, after: string)
    requires (forall i | 0 <= i < |after| :: IsSpace(after[i])) && s != "" && !IsSpace(s[|s| - 1])
    ensures TrimRight(s + after) == s
  {
    if after == "" {
      assert s + after == s;
    } else {
      var n := |after| - 1;
      assert (s + after)[..|s + after| - 1] == s + after[..n];
      TrimsAfter(s, after[..n]);
    }
  }

  /** A number is read with blanks around it; what is no number asks for no spares. */
  lemma CountIsRead(n: int, before: string, after: string, other: string)
    requires forall i | 0 <= i < |before| :: IsSpace(before[i])
    requires forall i | 0 <= i < |after| :: IsSpace(after[i])
    requires -(MAX_INT as int) - 1 <= n <= MAX_INT && Atoi(TrimSpace(other)).None?
    ensures CountOf(before + Itoa(n) + after) == n && CountOf(other) == 0
  {
    TrimmedNumber(n, before, after);
    AtoiOfItoa(n);
  }

  /** The number of spares is the last one given. */
  lemma LastCountWins(env: seq<Variable>, more: seq<Variable>, name: string, text: string)
    requires forall i | 0 <= i < |more| :: more[i].name != name
    requires env != [] && env[|env| - 1] == Variable(name, text)
    ensures SpareCount(env + more, name, |env| + |more|) == CountOf(text)
  {
    CountBehind(env, more, name, |more|);
  }

  /** And none if it is not given. */
  lemma {:induction false} NoCount(env: seq<Variable>, name: string, n: nat)
    requires n <= |env| && forall i | 0 <= i < |env| :: env[i].name != name
    ensures SpareCount(env, name, n) == 0
  {
    if n > 0 {
      NoCount(env, name, n - 1);
    }
  }

  lemma {:induction false} CountBehind(env: seq<Variable>, more: seq<Variable>, name: string, n: nat)
    requires n <= |more| && env != [] && env[|env| - 1].name == name
    requires forall i | 0 <= i < |more| :: more[i].name != name
    ensures SpareCount(env + more, name, |env| + n) == CountOf(env[|env| - 1].value)
  {
    if n > 0 {
      CountBehind(env, more, name, n - 1);
      assert (env + more)[|env| + n - 1] == more[n - 1];
    }
  }

  /** A swap puts the spare where the lost host was and takes it off the spares; one that names
      no host of the job, or no spare, changes nothing. */
  lemma SwapTakesPlace(a: Allocation, s: Swap)
    ensures s.lost !in a.hosts || s.spare !in a.spares ==> Swapped(a, s) == a
    ensures s.lost in a.hosts && s.spare in a.spares ==> exists i, j ::
      TakesPlace(a, s, i, j)
      && Swapped(a, s) == Allocation(a.hosts[i := s.spare], a.spares[..j] + a.spares[j + 1..], a.lost + [s.lost])
  {
    if s.lost in a.hosts && s.spare in a.spares {
      assert TakesPlace(a, s, IndexIn(a.hosts, s.lost), IndexIn(a.spares, s.spare));
    }
  }

  /** The lost host is first at i, and the spare first at j. */
  predicate TakesPlace(a: Allocation, s: Swap, i: int, j: int) {
    && 0 <= i < |a.hosts| && a.hosts[i] == s.lost && s.lost !in a.hosts[..i]
    && 0 <= j < |a.spares| && a.spares[j] == s.spare && s.spare !in a.spares[..j]
  }
}
