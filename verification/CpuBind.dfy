/**
 Pinning a node's tasks: the planned cpusets are positions in the CPUs the job may use
 there, and become CPU lists only where that cannot take another job's CPUs -- for all
 tasks of the node, or for none.
 */
module CpuBind {
  import opened Text
  import opened CpuList
  import opened Placement

  datatype Mode = Auto | Never | Explicit

  /** The CPUs a job may use on a node, one thread per core first, and the node's CPU
      count, 0 when unknown. */
  datatype Host = Host(allowed: seq<int>, online: int)

  /** What a job holds of a node's slots; the node's slots are 0 when unknown. */
  datatype Holding = Holding(slots: int, hostSlots: int)

  predicate Restricted(n: Host) {
    n.online > 0 && |n.allowed| < n.online
  }

  predicate Owned(n: Host, h: Holding) {
    if h.hostSlots > 0 then h.slots >= h.hostSlots else h.slots >= |n.allowed|
  }

  predicate ShouldPin(mode: Mode, n: Host, h: Holding) {
    mode != Never && n.allowed != [] && (mode == Explicit || Restricted(n) || Owned(n, h))
  }

  // ---------- Positions to CPUs ----------

  /** The CPUs at a set of positions. */
  ghost predicate Picks(allowed: seq<int>, positions: set<int>, cpus: set<int>) {
    && (forall i | i in positions :: 0 <= i < |allowed| && allowed[i] in cpus)
    && (forall c | c in cpus :: exists i :: i in positions && 0 <= i < |allowed| && allowed[i] == c)
  }

  /** The allowed set has every position the list names. */
  ghost predicate Selectable(positions: string, allowed: seq<int>) {
    Cpus(positions).Some? && forall i | i in Cpus(positions).value :: 0 <= i < |allowed|
  }

  ghost predicate AllCpus(allowed: seq<int>) {
    forall i | 0 <= i < |allowed| :: CpuNumber(allowed[i])
  }

  /** The picked CPUs, printed. */
  ghost predicate Selects(positions: string, allowed: seq<int>, cpus: string) {
    && Cpus(positions).Some?
    && (AllCpus(allowed) ==> Cpus(cpus).Some? && Picks(allowed, Cpus(positions).value, Cpus(cpus).value))
  }

  method SelectCpus(positions: string, allowed: seq<int>) returns (r: Option<string>)
    ensures r.Some? <==> Selectable(positions, allowed)
    ensures r.Some? ==> Selects(positions, allowed, r.value)
  {
    var idx := ParseList(positions);
    if idx.None? {
      return None;
    }
    var picked: seq<int> := [];
    for k := 0 to |idx.value|
      invariant |picked| == k
      invariant forall j | 0 <= j < k :: 0 <= idx.value[j] < |allowed| && picked[j] == allowed[idx.value[j]]
    {
      var i := idx.value[k];
      assert i in Elements(idx.value);
      if i < 0 || i >= |allowed| {
        return None;
      }
      picked := picked + [allowed[i]];
    }
    var text := FormatList(picked);
    PickedIs(positions, allowed, idx.value, picked);
    return Some(text);
  }

  lemma NoElements(s: seq<int>)
    ensures s == [] ==> Elements(s) == {}
  {
  }

  lemma PickedIs(positions: string, allowed: seq<int>, idx: seq<int>, picked: seq<int>)
    requires Cpus(positions) == Some(Elements(idx)) && |picked| == |idx|
    requires forall j | 0 <= j < |idx| :: 0 <= idx[j] < |allowed| && picked[j] == allowed[idx[j]]
    ensures Selectable(positions, allowed) && Selects(positions, allowed, Format(picked))
  {
    NoElements(idx);
    if AllCpus(allowed) {
      FormatDenotes(picked);
      forall i | i in Elements(idx)
        ensures 0 <= i < |allowed| && allowed[i] in Elements(picked)
      {
        var j :| 0 <= j < |idx| && idx[j] == i;
        assert picked[j] == allowed[i];
      }
      forall c | c in Elements(picked)
        ensures exists i :: i in Elements(idx) && 0 <= i < |allowed| && allowed[i] == c
      {
        var j :| 0 <= j < |picked| && picked[j] == c;
        assert idx[j] in Elements(idx);
      }
    }
  }

  // ---------- All tasks or none ----------

  function Unpinned(n: nat): (r: seq<string>)
    ensures |r| == n
  {
    seq(n, _ => "")
  }

  /** A node too small for its tasks: some cpuset reaches past the allowed CPUs. */
  ghost predicate TooSmall(positions: seq<string>, n: Host) {
    exists i :: 0 <= i < |positions| && positions[i] != "" && !Selectable(positions[i], n.allowed)
  }

  /** What Resolve decides, and whether it warns. */
  ghost predicate Resolved(mode: Mode, positions: seq<string>, n: Host, h: Holding, cpus: seq<string>, warned: bool) {
    && |cpus| == |positions|
    && warned == (ShouldPin(mode, n, h) && TooSmall(positions, n))
    && (!ShouldPin(mode, n, h) || TooSmall(positions, n) ==> cpus == Unpinned(|positions|))
    && (ShouldPin(mode, n, h) && !TooSmall(positions, n) ==>
          forall i | 0 <= i < |positions| ::
            if positions[i] == "" then cpus[i] == "" else Selects(positions[i], n.allowed, cpus[i]))
  }

  method Resolve(mode: Mode, positions: seq<string>, n: Host, h: Holding) returns (cpus: seq<string>, warned: bool)
    ensures Resolved(mode, positions, n, h, cpus, warned)
  {
    cpus := Unpinned(|positions|);
    if !ShouldPin(mode, n, h) {
      return cpus, false;
    }
    for i := 0 to |positions|
      invariant |cpus| == |positions|
      invariant forall j | 0 <= j < i ::
        if positions[j] == "" then cpus[j] == ""
        else Selectable(positions[j], n.allowed) && Selects(positions[j], n.allowed, cpus[j])
      invariant forall j | i <= j < |cpus| :: cpus[j] == ""
    {
      if positions[i] != "" {
        var c := SelectCpus(positions[i], n.allowed);
        if c.None? {
          return Unpinned(|positions|), true;
        }
        cpus := cpus[i := c.value];
      }
    }
    return cpus, false;
  }

  // ---------- The tasks of a placed step ----------

  /** The planned positions of n tasks of cpt CPUs each. */
  function Positions(n: nat, cpt: nat): (r: seq<string>)
    requires cpt >= 1
    ensures |r| == n
  {
    seq(n, l requires 0 <= l => Cpuset(l, cpt))
  }

  lemma CpusetBounds(l: nat, cpt: nat)
    requires cpt >= 1
    ensures 0 <= l * cpt <= (l + 1) * cpt - 1 && (l + 1) * cpt == l * cpt + cpt
  {
  }

  lemma HugeIsNoNumber(n: nat)
    requires n > MAX_INT
    ensures Atoi(Itoa(n)).None?
  {
    ValueOfNumeral(n);
    assert IsDigit(Itoa(n)[0]);
  }

  lemma HugeIsBad(a: string, b: string)
    requires a != "" && (forall c | c in a :: IsDigit(c)) && (forall c | c in b :: IsDigit(c)) && Atoi(b).None?
    ensures ParsePart(a + "-" + b) == Bad && Split(a + "-" + b, ',') == [a + "-" + b]
  {
    RangeText(a, b);
    SplitOfJoin([a + "-" + b], ',');
  }

  lemma BadIsNothing(t: string)
    requires Split(t, ',') == [t] && ParsePart(t) == Bad
    ensures Cpus(t).None?
  {
    var parts := Parsed([t]);
    assert parts[0] == Bad;
    assert Union(parts, 1).None?;
  }

  lemma HugeIsNotSelectable(lo: nat, hi: nat)
    requires hi > MAX_INT
    ensures Cpus(Itoa(lo) + "-" + Itoa(hi)).None?
  {
    NumberIsClean(lo);
    NumberIsClean(hi);
    HugeIsNoNumber(hi);
    HugeIsBad(Itoa(lo), Itoa(hi));
    BadIsNothing(Itoa(lo) + "-" + Itoa(hi));
  }

  lemma RangeCpus(t: string, lo: nat, hi: nat)
    requires lo <= hi && t == Itoa(lo) + "-" + Itoa(hi)
    ensures Cpus(t) == if hi <= MAX_INT then Some(Between(lo, hi)) else None
  {
    if hi <= MAX_INT {
      RangeTextDenotes(lo, hi);
    } else {
      HugeIsNotSelectable(lo, hi);
    }
  }

  lemma RangeFits(t: string, lo: nat, hi: nat, allowed: seq<int>)
    requires lo <= hi && |allowed| <= MAX_INT
    requires Cpus(t) == if hi <= MAX_INT then Some(Between(lo, hi)) else None
    ensures Selectable(t, allowed) <==> hi < |allowed|
  {
    assert hi in Between(lo, hi);
  }

  /** Task l's cpuset is there exactly when the CPUs up to its last are. */
  lemma CpusetIs(l: nat, cpt: nat, allowed: seq<int>)
    requires cpt >= 1 && |allowed| <= MAX_INT
    ensures Selectable(Cpuset(l, cpt), allowed) <==> (l + 1) * cpt <= |allowed|
    ensures (l + 1) * cpt <= |allowed| ==> Cpus(Cpuset(l, cpt)) == Some(Between(l * cpt, (l + 1) * cpt - 1))
  {
    var t, lo, hi := Cpuset(l, cpt), l * cpt, (l + 1) * cpt - 1;
    CpusetBounds(l, cpt);
    RangeCpus(t, lo, hi);
    RangeFits(t, lo, hi, allowed);
  }

  lemma LastDecides(n: nat, cpt: nat, size: nat, l: nat)
    requires l < n && n * cpt <= size
    ensures (l + 1) * cpt <= size
  {
    assert (l + 1) * cpt <= n * cpt;
  }

  /** A node can hold all its tasks exactly when they have that many CPUs together. */
  lemma FitsIff(n: nat, cpt: nat, host: Host)
    requires cpt >= 1 && |host.allowed| <= MAX_INT
    ensures TooSmall(Positions(n, cpt), host) <==> n * cpt > |host.allowed|
  {
    if n * cpt > |host.allowed| {
      LastIsOut(n, cpt, host);
    } else {
      AllAreIn(n, cpt, host);
    }
  }

  lemma LastIsOut(n: nat, cpt: nat, host: Host)
    requires cpt >= 1 && |host.allowed| <= MAX_INT && n * cpt > |host.allowed|
    ensures TooSmall(Positions(n, cpt), host)
  {
    var l: nat := n - 1;
    assert l + 1 == n;
    CpusetIs(l, cpt, host.allowed);
    CpusetNotEmpty(l, cpt);
    PositionAt(n, cpt, l);
    OutOfReach(Positions(n, cpt), l, host);
  }

  lemma PositionAt(n: nat, cpt: nat, l: nat)
    requires cpt >= 1 && l < n
    ensures Positions(n, cpt)[l] == Cpuset(l, cpt)
  {
  }

  lemma CpusetNotEmpty(l: nat, cpt: nat)
    requires cpt >= 1
    ensures Cpuset(l, cpt) != ""
  {
  }

  lemma OutOfReach(positions: seq<string>, l: nat, host: Host)
    requires l < |positions| && positions[l] != "" && !Selectable(positions[l], host.allowed)
    ensures TooSmall(positions, host)
  {
  }

  lemma AllAreIn(n: nat, cpt: nat, host: Host)
    requires cpt >= 1 && |host.allowed| <= MAX_INT && n * cpt <= |host.allowed|
    ensures !TooSmall(Positions(n, cpt), host)
  {
    var p := Positions(n, cpt);
    forall l | 0 <= l < n
      ensures Selectable(p[l], host.allowed)
    {
      LastDecides(n, cpt, |host.allowed|, l);
      CpusetIs(l, cpt, host.allowed);
    }
  }

  /** The CPUs from position lo up to, not including, hi. */
  function Slice(allowed: seq<int>, lo: nat, hi: nat): set<int>
    requires lo <= hi <= |allowed|
  {
    Elements(allowed[lo..hi])
  }

  lemma PickedSlice(allowed: seq<int>, lo: nat, hi: nat, cpus: set<int>)
    requires lo < hi <= |allowed| && Picks(allowed, Between(lo, hi - 1), cpus)
    ensures cpus == Slice(allowed, lo, hi)
  {
    forall c | c in cpus
      ensures c in Slice(allowed, lo, hi)
    {
      var i :| i in Between(lo, hi - 1) && 0 <= i < |allowed| && allowed[i] == c;
      assert allowed[lo..hi][i - lo] == c;
    }
    forall c | c in Slice(allowed, lo, hi)
      ensures c in cpus
    {
      var j :| 0 <= j < hi - lo && allowed[lo..hi][j] == c;
      assert allowed[lo + j] == c && lo + j in Between(lo, hi - 1);
    }
  }

  lemma {:induction false} DistinctSize(s: seq<int>)
    requires Distinct(s)
    ensures |Elements(s)| == |s|
  {
    if s != [] {
      DistinctSize(s[1..]);
      assert Elements(s) == {s[0]} + Elements(s[1..]);
      assert s[0] !in Elements(s[1..]);
    }
  }

  lemma SlicesApart(allowed: seq<int>, a: nat, b: nat, c: nat, d: nat)
    requires Distinct(allowed) && a <= b <= |allowed| && c <= d <= |allowed| && (b <= c || d <= a)
    ensures Slice(allowed, a, b) !! Slice(allowed, c, d)
  {
    forall x | x in Slice(allowed, a, b)
      ensures x !in Slice(allowed, c, d)
    {
      var i :| 0 <= i < b - a && allowed[a..b][i] == x;
      assert allowed[a + i] == x;
      assert forall j | 0 <= j < d - c :: allowed[c..d][j] == allowed[c + j] != x;
    }
  }

  lemma SliceSize(allowed: seq<int>, lo: nat, hi: nat)
    requires Distinct(allowed) && lo <= hi <= |allowed|
    ensures |Slice(allowed, lo, hi)| == hi - lo && Slice(allowed, lo, hi) <= Elements(allowed)
  {
    DistinctSize(allowed[lo..hi]);
  }

  /** The CPU list task l of a node gets, read back. */
  ghost predicate Gets(cpus: string, allowed: seq<int>, l: nat, cpt: nat) {
    l * cpt <= (l + 1) * cpt <= |allowed| && Cpus(cpus) == Some(Slice(allowed, l * cpt, (l + 1) * cpt))
  }

  /** A node's tasks are pinned exactly when pinning is safe there and all of them fit;
      then every task has its own slice of the allowed CPUs, and otherwise none is pinned,
      with a warning if only the room was missing. */
  lemma NodeIsPinnedIff(mode: Mode, host: Host, h: Holding, n: nat, cpt: nat, cpus: seq<string>, warned: bool)
    requires cpt >= 1 && |host.allowed| <= MAX_INT && AllCpus(host.allowed)
    requires Resolved(mode, Positions(n, cpt), host, h, cpus, warned)
    ensures |cpus| == n
    ensures warned <==> ShouldPin(mode, host, h) && n * cpt > |host.allowed|
    ensures ShouldPin(mode, host, h) && n * cpt <= |host.allowed| ==>
      forall l | 0 <= l < n :: Gets(cpus[l], host.allowed, l, cpt)
    ensures !(ShouldPin(mode, host, h) && n * cpt <= |host.allowed|) ==> cpus == Unpinned(n)
  {
    FitsIff(n, cpt, host);
    if ShouldPin(mode, host, h) && n * cpt <= |host.allowed| {
      var p := Positions(n, cpt);
      forall l | 0 <= l < n
        ensures Gets(cpus[l], host.allowed, l, cpt)
      {
        LastDecides(n, cpt, |host.allowed|, l);
        CpusetBounds(l, cpt);
        CpusetIs(l, cpt, host.allowed);
        assert p[l] == Cpuset(l, cpt) != "";
        assert Selects(p[l], host.allowed, cpus[l]);
        PickedSlice(host.allowed, l * cpt, (l + 1) * cpt, Cpus(cpus[l]).value);
      }
    }
  }

  /** A task's CPU list, read back: exactly cpt CPUs the job may use. */
  ghost predicate OwnCpus(cpus: string, allowed: seq<int>, cpt: nat) {
    Cpus(cpus).Some? && |Cpus(cpus).value| == cpt && Cpus(cpus).value <= Elements(allowed)
  }

  /** Two tasks' CPU lists, read back, have no CPU in common. */
  ghost predicate CpusApart(a: string, b: string) {
    Cpus(a).Some? && Cpus(b).Some? ==> Cpus(a).value !! Cpus(b).value
  }

  /** Every task of a node has exactly cpt CPUs the job may use, none of them another's. */
  ghost predicate PinnedApart(cpus: seq<string>, allowed: seq<int>, cpt: nat) {
    && (forall k | 0 <= k < |cpus| :: OwnCpus(cpus[k], allowed, cpt))
    && (forall k, l | 0 <= k < |cpus| && 0 <= l < |cpus| && k != l :: CpusApart(cpus[k], cpus[l]))
  }

  lemma SliceIsOwn(allowed: seq<int>, a: string, k: nat, cpt: nat)
    requires cpt >= 1 && Distinct(allowed) && Gets(a, allowed, k, cpt)
    ensures OwnCpus(a, allowed, cpt)
  {
    CpusetBounds(k, cpt);
    SliceSize(allowed, k * cpt, (k + 1) * cpt);
  }

  lemma TasksAreApart(allowed: seq<int>, a: string, b: string, k: nat, l: nat, cpt: nat)
    requires cpt >= 1 && Distinct(allowed) && k != l && Gets(a, allowed, k, cpt) && Gets(b, allowed, l, cpt)
    ensures CpusApart(a, b)
  {
    CpusetBounds(k, cpt);
    CpusetBounds(l, cpt);
    if k < l {
      LastDecides(l, cpt, l * cpt, k);
    } else {
      LastDecides(k, cpt, k * cpt, l);
    }
    SlicesApart(allowed, k * cpt, (k + 1) * cpt, l * cpt, (l + 1) * cpt);
  }

  /** Pinned tasks never collide: each has its own CPUs, however many tasks there are. */
  lemma PinningNeverCollides(cpus: seq<string>, allowed: seq<int>, cpt: nat)
    requires cpt >= 1 && Distinct(allowed) && forall l | 0 <= l < |cpus| :: Gets(cpus[l], allowed, l, cpt)
    ensures PinnedApart(cpus, allowed, cpt)
  {
    forall k | 0 <= k < |cpus|
      ensures OwnCpus(cpus[k], allowed, cpt)
    {
      SliceIsOwn(allowed, cpus[k], k, cpt);
    }
    forall k, l | 0 <= k < |cpus| && 0 <= l < |cpus| && k != l
      ensures CpusApart(cpus[k], cpus[l])
    {
      TasksAreApart(allowed, cpus[k], cpus[l], k, l, cpt);
    }
  }
}
