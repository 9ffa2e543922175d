/**
 How many ranks each step node runs: one rank per node in turn, skipping a node once
 it is at capacity, until all are placed. The loop is proved against its closed form: a
 level every node is filled to, and a cut before which nodes have one more.
 */
module Spread {
  import opened Text

  function Sum(s: seq<int>): int {
    if s == [] then 0 else Sum(s[..|s| - 1]) + s[|s| - 1]
  }

  /** A node of this capacity filled to a level. */
  function Fill(cap: int, level: nat): nat {
    if cap <= 0 then 0 else if cap < level then cap else level
  }

  /** Every node filled to level, those before cut to one more. */
  function Dealt(caps: seq<int>, level: nat, cut: nat): (counts: seq<int>)
    ensures |counts| == |caps|
  {
    seq(|caps|, i requires 0 <= i < |caps| => Fill(caps[i], if i < cut then level + 1 else level))
  }

  /** Counts that deal out n ranks. */
  ghost predicate Deals(caps: seq<int>, counts: seq<int>, n: nat) {
    Sum(counts) == n && exists level, cut :: counts == Dealt(caps, level, cut)
  }

  // ---------- Sums ----------

  lemma SumSnoc(s: seq<int>, x: int)
    ensures Sum(s + [x]) == Sum(s) + x
  {
    assert (s + [x])[..|s|] == s;
  }

  lemma SumPrefix(s: seq<int>, i: nat)
    requires i < |s|
    ensures Sum(s[..i + 1]) == Sum(s[..i]) + s[i]
  {
    assert s[..i + 1] == s[..i] + [s[i]];
    SumSnoc(s[..i], s[i]);
  }

  lemma {:induction false} SumUpdate(s: seq<int>, i: nat, x: int)
    requires i < |s|
    ensures Sum(s[i := x]) == Sum(s) - s[i] + x
  {
    var n := |s| - 1;
    if i < n {
      assert s[i := x][..n] == s[..n][i := x];
      SumUpdate(s[..n], i, x);
    } else {
      assert s[i := x][..n] == s[..n];
    }
  }

  lemma {:induction false} SumLeq(a: seq<int>, b: seq<int>)
    requires |a| == |b| && forall i | 0 <= i < |a| :: a[i] <= b[i]
    ensures Sum(a) <= Sum(b) && (Sum(a) == Sum(b) ==> a == b)
  {
    if a != [] {
      var n := |a| - 1;
      SumLeq(a[..n], b[..n]);
      if Sum(a) == Sum(b) {
        assert a == a[..n] + [a[n]] && b == b[..n] + [b[n]];
      }
    }
  }

  lemma {:induction false} SumZeros(caps: seq<int>)
    ensures Sum(Dealt(caps, 0, 0)) == 0
  {
    if caps != [] {
      assert Dealt(caps, 0, 0)[..|caps| - 1] == Dealt(caps[..|caps| - 1], 0, 0);
      SumZeros(caps[..|caps| - 1]);
    }
  }

  // ---------- The loop ----------

  lemma DealtStep(caps: seq<int>, level: nat, i: nat)
    requires i < |caps|
    ensures var c := Dealt(caps, level, i);
      Dealt(caps, level, i + 1) == if c[i] < caps[i] then c[i := c[i] + 1] else c
  {
  }

  lemma DealtRound(caps: seq<int>, level: nat)
    ensures Dealt(caps, level, |caps|) == Dealt(caps, level + 1, 0)
  {
  }

  /** While some capacity is unused, a round places something. */
  lemma RoundPlaces(caps: seq<int>, level: nat)
    requires Sum(Dealt(caps, level, 0)) < Sum(caps)
    ensures Sum(Dealt(caps, level, 0)) < Sum(Dealt(caps, level + 1, 0))
  {
    var a, b := Dealt(caps, level, 0), Dealt(caps, level + 1, 0);
    SumLeq(a, b);
    if a == b {
      forall i | 0 <= i < |caps|
        ensures caps[i] <= a[i]
      {
        assert a[i] == b[i];
      }
      SumLeq(caps, a);
    }
  }

  method TotalOf(caps: seq<int>) returns (total: int)
    ensures total == Sum(caps)
  {
    total := 0;
    for i := 0 to |caps|
      invariant total == Sum(caps[..i])
    {
      SumPrefix(caps, i);
      total := total + caps[i];
    }
    assert caps[..|caps|] == caps;
  }

  /** One pass of the spread over the nodes: each gets one more while there are ranks left. */
  method DealRound(caps: seq<int>, counts: seq<int>, placed: nat, ntasks: nat, ghost level: nat)
    returns (next: seq<int>, done: nat, ghost cut: nat)
    requires counts == Dealt(caps, level, 0) && placed == Sum(counts) < ntasks
    ensures cut <= |caps| && next == Dealt(caps, level, cut) && done == Sum(next) <= ntasks
    ensures done < ntasks ==> cut == |caps|
  {
    next, done, cut := counts, placed, 0;
    for i := 0 to |caps|
      invariant cut <= i && next == Dealt(caps, level, cut) && done == Sum(next) <= ntasks
      invariant done < ntasks ==> cut == i
    {
      if done < ntasks {
        DealtStep(caps, level, i);
        cut := i + 1;
        if next[i] < caps[i] {
          SumUpdate(next, i, next[i] + 1);
          next := next[i := next[i] + 1];
          done := done + 1;
        }
      }
    }
  }

  /** The spread fails just when the capacity is too small, and otherwise deals out all
      the ranks (none for a count that is not positive). */
  method Spread(caps: seq<int>, ntasks: int) returns (r: Option<seq<int>>)
    ensures r.None? <==> ntasks > Sum(caps)
    ensures r.Some? ==> Deals(caps, r.value, if ntasks > 0 then ntasks else 0)
  {
    var total := TotalOf(caps);
    if ntasks > total {
      return None;
    }
    var counts := seq(|caps|, _ => 0);
    var placed: nat := 0;
    ghost var level: nat, cut: nat := 0, 0;
    SumZeros(caps);
    assert counts == Dealt(caps, 0, 0);
    while placed < ntasks
      invariant counts == Dealt(caps, level, cut) && Sum(counts) == placed
      invariant placed < ntasks ==> cut == 0
      invariant placed <= ntasks || placed == 0
      decreases ntasks - placed
    {
      RoundPlaces(caps, level);
      DealtRound(caps, level);
      counts, placed, cut := DealRound(caps, counts, placed, ntasks, level);
      if placed < ntasks {
        level, cut := level + 1, 0;
      }
    }
    return Some(counts);
  }

  // ---------- What dealing means ----------

  lemma DealtGrows(caps: seq<int>, level: nat, cut: nat, level': nat, cut': nat)
    requires level < level' || (level == level' && cut <= cut')
    ensures forall i | 0 <= i < |caps| :: Dealt(caps, level, cut)[i] <= Dealt(caps, level', cut')[i]
  {
  }

  /** There is only one way to deal out n ranks. */
  lemma DealIsUnique(caps: seq<int>, a: seq<int>, b: seq<int>, n: nat)
    requires Deals(caps, a, n) && Deals(caps, b, n)
    ensures a == b
  {
    var l, p :| a == Dealt(caps, l, p);
    var m, q :| b == Dealt(caps, m, q);
    if l < m || (l == m && p <= q) {
      DealtGrows(caps, l, p, m, q);
      SumLeq(a, b);
    } else {
      DealtGrows(caps, m, q, l, p);
      SumLeq(b, a);
    }
  }

  /** No node is over capacity, and a node is ahead of another by at most one rank unless
      the other is full. */
  lemma DealIsFair(caps: seq<int>, counts: seq<int>, n: nat, i: nat, j: nat)
    requires Deals(caps, counts, n) && i < |caps| && j < |caps|
    ensures |counts| == |caps| && 0 <= counts[i] && (caps[i] >= 0 ==> counts[i] <= caps[i])
    ensures counts[i] <= counts[j] + 1 || counts[j] >= caps[j]
    ensures i < j && counts[i] < counts[j] ==> counts[i] >= caps[i]
  {
  }

  /** No node gets more than share ranks exactly when nodes filled to share hold them all. */
  lemma SharesFitIff(caps: seq<int>, counts: seq<int>, n: nat, share: nat)
    requires Deals(caps, counts, n)
    ensures |counts| == |caps|
    ensures (forall i | 0 <= i < |counts| :: counts[i] <= share) <==> Sum(Dealt(caps, share, 0)) >= n
  {
    var level: nat, cut: nat :| counts == Dealt(caps, level, cut);
    var full := Dealt(caps, share, 0);
    if level < share {
      DealtGrows(caps, level, cut, share, 0);
      SumLeq(counts, full);
    } else {
      DealtGrows(caps, share, 0, level, cut);
      SumLeq(full, counts);
      if forall i | 0 <= i < |counts| :: counts[i] <= share {
        assert counts == full;
      }
    }
  }

  function Positive(s: seq<int>): nat {
    if s == [] then 0 else Positive(s[..|s| - 1]) + (if s[|s| - 1] > 0 then 1 else 0)
  }

  lemma {:induction false} PositiveOnes(s: seq<int>)
    requires forall i | 0 <= i < |s| :: 0 <= s[i] <= 1
    ensures Positive(s) == Sum(s)
  {
    if s != [] {
      PositiveOnes(s[..|s| - 1]);
    }
  }

  lemma {:induction false} PositiveLeq(a: seq<int>, b: seq<int>)
    requires |a| == |b| && forall i | 0 <= i < |a| :: a[i] > 0 ==> b[i] > 0
    ensures Positive(a) <= Positive(b)
  {
    if a != [] {
      var n := |a| - 1;
      assert a[..n] + [a[n]] == a && b[..n] + [b[n]] == b;
      PositiveLeq(a[..n], b[..n]);
    }
  }

  lemma {:induction false} PositiveLeqSum(s: seq<int>)
    requires forall i | 0 <= i < |s| :: s[i] >= 0
    ensures Positive(s) <= Sum(s)
  {
    if s != [] {
      PositiveLeqSum(s[..|s| - 1]);
    }
  }

  /** A rank on as many nodes as possible: all that have capacity, or one rank on each of n. */
  lemma NodesUsed(caps: seq<int>, counts: seq<int>, n: nat)
    requires Deals(caps, counts, n)
    ensures Positive(counts) == if n < Positive(caps) then n else Positive(caps)
  {
    var level, cut :| counts == Dealt(caps, level, cut);
    PositiveLeq(counts, caps);
    if level == 0 {
      PositiveOnes(counts);
    } else {
      PositiveLeq(caps, counts);
      PositiveLeqSum(counts);
    }
  }
}
