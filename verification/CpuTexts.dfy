/**
 The texts of CPU lists: exactly which are read, and that neighbouring CPUs print as one range.
 */
module CpuTexts {
  import opened Text
  import opened CpuList

  // ---------- What is read ----------

  /** A range of two numbers with a dash between. */
  ghost predicate TwoNumbers(t: string, lo: nat, hi: nat) {
    exists a, b :: t == a + "-" + b && '-' !in a && Atoi(a) == Some(lo) && Atoi(b) == Some(hi)
  }

  lemma DashedIs(t: string, a: string, b: string)
    requires t == a + "-" + b && '-' !in a
    ensures |a| < |t| && IndexOf(t, '-') == |a| && t[..|a|] == a && t[|a| + 1..] == b
  {
    assert t == a + ['-'] + b;
    IndexOfFirst(a, '-', b);
  }

  lemma DashCuts(t: string, i: nat)
    requires i < |t| && t[i] == '-'
    ensures t == t[..i] + "-" + t[i + 1..]
  {
    assert t[..i + 1] == t[..i] + "-" && t == t[..i + 1] + t[i + 1..];
  }

  lemma ReadTwo(t: string, lo: nat, hi: nat)
    requires '-' in t && Trimmed(t) == Range(lo, hi)
    ensures TwoNumbers(t, lo, hi) && lo <= hi
  {
    var i := IndexOf(t, '-');
    DashCuts(t, i);
    Numbers(t, t[..i], t[i + 1..], lo, hi);
  }

  lemma Numbers(t: string, a: string, b: string, lo: nat, hi: nat)
    requires t == a + "-" + b && '-' !in a && Atoi(a) == Some(lo) && Atoi(b) == Some(hi)
    ensures TwoNumbers(t, lo, hi)
  {
  }

  lemma TwoRead(t: string, lo: nat, hi: nat)
    requires TwoNumbers(t, lo, hi) && lo <= hi
    ensures Trimmed(t) == Range(lo, hi)
  {
    var a, b :| t == a + "-" + b && '-' !in a && Atoi(a) == Some(lo) && Atoi(b) == Some(hi);
    DashedIs(t, a, b);
    ReadAt(t, a, b, lo, hi);
  }

  lemma ReadAt(t: string, a: string, b: string, lo: nat, hi: nat)
    requires |a| < |t| && IndexOf(t, '-') == |a| && t[..|a|] == a && t[|a| + 1..] == b
    requires Atoi(a) == Some(lo) && Atoi(b) == Some(hi) && lo <= hi
    ensures Trimmed(t) == Range(lo, hi)
  {
  }

  lemma ReadsTwo(t: string, lo: nat, hi: nat)
    requires '-' in t
    ensures Trimmed(t) == Range(lo, hi) <==> TwoNumbers(t, lo, hi) && lo <= hi
  {
    if Trimmed(t) == Range(lo, hi) {
      ReadTwo(t, lo, hi);
    } else if TwoNumbers(t, lo, hi) && lo <= hi {
      TwoRead(t, lo, hi);
    }
  }

  /** A part of a list, its blanks off, is a number, or two of them in order with a dash between;
      a part of blanks names nothing, and any other spoils the list. */
  lemma PartIsReadIff(raw: string, lo: nat, hi: nat)
    ensures var t := TrimSpace(raw);
      && (ParsePart(raw) == Blank <==> t == "")
      && (ParsePart(raw) == Range(lo, hi) <==>
            if '-' in t then TwoNumbers(t, lo, hi) && lo <= hi else Atoi(t) == Some(lo) && lo == hi)
  {
    if '-' in TrimSpace(raw) {
      ReadsTwo(TrimSpace(raw), lo, hi);
    }
  }

  lemma PartIsOrdered(raw: string)
    ensures var p := ParsePart(raw); p.Range? ==> p.first <= p.last
  {
  }

  lemma {:induction false} UnionIff(parts: seq<Part>, n: nat)
    requires n <= |parts| && forall i | 0 <= i < |parts| :: parts[i].Range? ==> parts[i].first <= parts[i].last
    ensures Union(parts, n).Some? <==> forall i | 0 <= i < n :: parts[i] != Bad
    ensures Union(parts, n).Some? ==> (Union(parts, n).value == {} <==> forall i | 0 <= i < n :: parts[i] == Blank)
  {
    if n > 0 {
      UnionIff(parts, n - 1);
      if parts[n - 1].Range? {
        assert parts[n - 1].first in Between(parts[n - 1].first, parts[n - 1].last);
      }
    }
  }

  /** A list is read exactly if none of its parts is bad and not all are blank. */
  lemma ListIsReadIff(s: string)
    ensures var parts := Parsed(Split(s, ','));
      Cpus(s).Some? <==>
      && (forall i | 0 <= i < |parts| :: parts[i] != Bad)
      && exists i :: 0 <= i < |parts| && parts[i].Range?
  {
    var texts := Split(s, ',');
    forall i | 0 <= i < |texts|
      ensures Parsed(texts)[i].Range? ==> Parsed(texts)[i].first <= Parsed(texts)[i].last
    {
      PartIsOrdered(texts[i]);
    }
    UnionIff(Parsed(texts), |texts|);
  }

  // ---------- What is printed ----------

  /** A printed range ends only where the next CPU is not the next number. */
  lemma {:induction false} RunEndIsMaximal(s: seq<int>, i: nat)
    requires i < |s|
    ensures var j := RunEnd(s, i); j + 1 < |s| ==> s[j + 1] != s[j] + 1
    decreases |s| - i
  {
    if i + 1 < |s| && s[i + 1] == s[i] + 1 {
      RunEndIsMaximal(s, i + 1);
    }
  }

  lemma {:induction false} SortKeeps(s: seq<int>)
    requires Sorted(s)
    ensures Sort(s) == s
  {
    if s != [] {
      SortKeeps(s[1..]);
      assert Insert(s[1..], s[0]) == [s[0]] + s[1..];
    }
  }

  lemma {:induction false} RunOfAll(s: seq<int>, i: nat)
    requires i < |s| && forall k | 0 <= k < |s| - 1 :: s[k + 1] == s[k] + 1
    ensures RunEnd(s, i) == |s| - 1
    decreases |s| - i
  {
    if i + 1 < |s| {
      RunOfAll(s, i + 1);
    }
  }

  /** CPUs lo, lo + 1 and so on, n of them. */
  function From(lo: int, n: nat): (s: seq<int>)
    ensures |s| == n
  {
    seq(n, i requires 0 <= i => lo + i)
  }

  /** CPUs in a row print as their first and last, one alone as itself. */
  lemma RowIsOneRange(lo: int, n: nat)
    requires n > 0
    ensures Format(From(lo, n)) == if n == 1 then Itoa(lo) else Itoa(lo) + "-" + Itoa(lo + n - 1)
  {
    var s := From(lo, n);
    SortKeeps(s);
    RunOfAll(s, 0);
    OneTerm(s, Printer());
  }

  lemma OneTerm(s: seq<int>, show: (int, int) -> string)
    requires s != [] && RunEnd(s, 0) == |s| - 1
    ensures Join(Terms(s, 0, show), ",") == show(s[0], s[|s| - 1])
  {
    assert Terms(s, |s|, show) == [];
    assert Terms(s, 0, show) == [show(s[0], s[|s| - 1])];
  }
}
