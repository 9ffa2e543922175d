/**
 CPU lists such as "0-3,5": what one denotes, the parser and the printer, and the law
 between them.
 */
module CpuList {
  import opened Text
  import opened Sequences

  // ---------- What a list denotes ----------

  /** A comma separated part: blank, malformed, or a range of CPU numbers. */
  datatype Part = Blank | Bad | Range(first: nat, last: nat)

  function ParsePart(raw: string): Part {
    Trimmed(TrimSpace(raw))
  }

  function Trimmed(part: string): Part {
    if part == "" then Blank else Dashed(part, IndexOf(part, '-'))
  }

  function Dashed(part: string, dash: int): Part
    requires dash < |part|
  {
    if dash < 0 then RangeOf(Atoi(part), Atoi(part)) else RangeOf(Atoi(part[..dash]), Atoi(part[dash + 1..]))
  }

  function RangeOf(first: Option<int>, last: Option<int>): Part {
    if first.None? || last.None? || first.value < 0 || last.value < first.value then Bad
    else Range(first.value, last.value)
  }

  function Between(lo: int, hi: int): (s: set<int>)
    ensures forall c :: c in s <==> lo <= c <= hi
    decreases hi - lo
  {
    if lo > hi then {} else Between(lo, hi - 1) + {hi}
  }

  /** The CPUs of the first n parts; none if one of them is malformed. */
  function Union(parts: seq<Part>, n: nat): Option<set<int>>
    requires n <= |parts|
  {
    if n == 0 then Some({})
    else
      var before := Union(parts, n - 1);
      if before.None? then None
      else match parts[n - 1]
        case Blank => before
        case Bad => None
        case Range(lo, hi) => Some(before.value + Between(lo, hi))
  }

  function Parsed(texts: seq<string>): (r: seq<Part>)
    ensures |r| == |texts|
  {
    seq(|texts|, i requires 0 <= i < |texts| => ParsePart(texts[i]))
  }

  /** The CPUs a list names; a malformed list and an empty one name nothing. */
  function Cpus(s: string): Option<set<int>> {
    var parts := Parsed(Split(s, ','));
    var r := Union(parts, |parts|);
    if r.None? || r.value == {} then None else r
  }

  // ---------- Sorting ----------

  predicate Sorted(s: seq<int>) {
    forall i, j | 0 <= i < j < |s| :: s[i] <= s[j]
  }

  predicate Increasing(s: seq<int>) {
    forall i, j | 0 <= i < j < |s| :: s[i] < s[j]
  }

  function Elements(s: seq<int>): set<int> {
    set x | x in s
  }

  function Insert(s: seq<int>, x: int): seq<int> {
    if s == [] || x <= s[0] then [x] + s else [s[0]] + Insert(s[1..], x)
  }

  /** sort.Ints */
  function Sort(s: seq<int>): seq<int> {
    if s == [] then [] else Insert(Sort(s[1..]), s[0])
  }

  lemma {:induction false} InsertKeeps(s: seq<int>, x: int)
    ensures multiset(Insert(s, x)) == multiset(s) + multiset{x}
  {
    if s == [] || x <= s[0] {
      assert multiset([x] + s) == multiset([x]) + multiset(s);
    } else {
      InsertKeeps(s[1..], x);
      assert s == [s[0]] + s[1..];
    }
  }

  lemma {:induction false} InsertSorts(s: seq<int>, x: int)
    requires Sorted(s)
    ensures Sorted(Insert(s, x)) && Insert(s, x) != []
    ensures Insert(s, x)[0] == x || (s != [] && Insert(s, x)[0] == s[0])
  {
    if s != [] && x > s[0] {
      InsertSorts(s[1..], x);
      var t := Insert(s[1..], x);
      assert s[0] <= t[0];
      assert forall i | 0 <= i < |t| :: t[0] <= t[i];
    }
  }

  lemma {:induction false} SortIs(s: seq<int>)
    ensures Sorted(Sort(s)) && multiset(Sort(s)) == multiset(s)
  {
    if s != [] {
      SortIs(s[1..]);
      InsertKeeps(Sort(s[1..]), s[0]);
      InsertSorts(Sort(s[1..]), s[0]);
      assert s == [s[0]] + s[1..];
    }
  }

  lemma SortElements(s: seq<int>)
    ensures Sorted(Sort(s)) && |Sort(s)| == |s| && forall x :: x in Sort(s) <==> x in s
  {
    SortIs(s);
    assert |multiset(Sort(s))| == |Sort(s)| && |multiset(s)| == |s|;
    assert forall x :: x in Sort(s) <==> x in multiset(Sort(s));
    assert forall x :: x in s <==> x in multiset(s);
  }

  // ---------- Parsing ----------

  method AddRange(seen: set<int>, first: int, last: int) returns (r: set<int>)
    requires first <= last
    ensures r == seen + Between(first, last)
  {
    r := seen;
    for c := first to last + 1
      invariant r == seen + Between(first, c - 1)
    {
      r := r + {c};
    }
  }

  method CollectParts(texts: seq<string>) returns (r: Option<set<int>>)
    ensures r == Union(Parsed(texts), |texts|)
  {
    ghost var parts := Parsed(texts);
    var seen: set<int> := {};
    for i := 0 to |texts|
      invariant Union(parts, i) == Some(seen)
    {
      var part := ParsePart(texts[i]);
      assert part == parts[i];
      match part {
        case Blank =>
        case Bad =>
          StaysBad(parts, i + 1);
          return None;
        case Range(first, last) =>
          seen := AddRange(seen, first, last);
      }
    }
    return Some(seen);
  }

  /** The distinct CPU numbers of a range list, in increasing order. */
  method ParseList(s: string) returns (r: Option<seq<int>>)
    ensures r.None? <==> Cpus(s).None?
    ensures r.Some? ==> Increasing(r.value) && Elements(r.value) == Cpus(s).value
  {
    var seen := CollectParts(Split(s, ','));
    if seen.None? || seen.value == {} {
      return None;
    }
    var out := ListOf(seen.value);
    SortIncreasing(out);
    SortElements(out);
    return Some(Sort(out));
  }

  lemma {:induction false} StaysBad(parts: seq<Part>, n: nat)
    requires n <= |parts| && Union(parts, n).None?
    ensures Union(parts, |parts|).None?
    decreases |parts| - n
  {
    if n < |parts| {
      StaysBad(parts, n + 1);
    }
  }

  predicate Distinct(s: seq<int>) {
    forall i, j | 0 <= i < j < |s| :: s[i] != s[j]
  }

  lemma SomethingIn(s: set<int>)
    ensures s == {} || exists c :: c in s
  {
    if forall c :: c !in s {
      assert s == {};
    }
  }

  /** The keys of a map, in no particular order. */
  method ListOf(s: set<int>) returns (out: seq<int>)
    ensures Distinct(out) && Elements(out) == s
  {
    out := [];
    var left := s;
    while left != {}
      invariant Distinct(out) && left <= s && Elements(out) == s - left
      decreases left
    {
      SomethingIn(left);
      var c :| c in left;
      assert Elements(out + [c]) == Elements(out) + {c};
      out := out + [c];
      left := left - {c};
    }
  }

  lemma SortIncreasing(s: seq<int>)
    requires Distinct(s)
    ensures Increasing(Sort(s))
  {
    SortIs(s);
    var t := Sort(s);
    forall i, j | 0 <= i < j < |t|
      ensures t[i] < t[j]
    {
      if t[i] == t[j] {
        Twice(t, i, j);
        Once(s, t[i]);
        assert false;
      }
    }
  }

  lemma Twice(s: seq<int>, i: nat, j: nat)
    requires i < j < |s| && s[i] == s[j]
    ensures multiset(s)[s[i]] >= 2
  {
    assert s == s[..i] + [s[i]] + s[i + 1..];
    assert s[i + 1..][j - i - 1] == s[j];
    assert s[j] in multiset(s[i + 1..]);
  }

  lemma {:induction false} Once(s: seq<int>, x: int)
    requires Distinct(s)
    ensures multiset(s)[x] <= 1
  {
    if s != [] {
      Once(s[1..], x);
      assert s == [s[0]] + s[1..];
      if x == s[0] {
        assert x !in s[1..];
        assert x !in multiset(s[1..]);
      }
    }
  }

  // ---------- Printing ----------

  /** The last index of the run of consecutive numbers that starts at i. */
  function RunEnd(s: seq<int>, i: nat): (j: nat)
    requires i < |s|
    ensures i <= j < |s| && forall k | i <= k <= j :: s[k] == s[i] + (k - i)
    decreases |s| - i
  {
    if i + 1 < |s| && s[i + 1] == s[i] + 1 then RunEnd(s, i + 1) else i
  }

  function Term(lo: int, hi: int): string {
    if lo == hi then Itoa(lo) else Itoa(lo) + "-" + Itoa(hi)
  }

  function Printer(): (int, int) -> string {
    (lo, hi) => Term(lo, hi)
  }

  /** The runs of s[i..], each printed. */
  function Terms(s: seq<int>, i: nat, show: (int, int) -> string): seq<string>
    requires i <= |s|
    decreases |s| - i
  {
    if i == |s| then [] else [show(s[i], s[RunEnd(s, i)])] + Terms(s, RunEnd(s, i) + 1, show)
  }

  function Format(cpus: seq<int>): string {
    Join(Terms(Sort(cpus), 0, Printer()), ",")
  }

  method FormatList(cpus: seq<int>) returns (s: string)
    ensures s == Format(cpus)
  {
    var sorted := Sort(cpus);
    var parts: seq<string> := [];
    var p := Printer();
    var i := 0;
    while i < |sorted|
      invariant 0 <= i <= |sorted|
      invariant parts + Terms(sorted, i, p) == Terms(sorted, 0, p)
    {
      var j := ScanRun(sorted, i);
      TermsStep(parts, sorted, i, p);
      parts := parts + [p(sorted[i], sorted[j])];
      i := j + 1;
    }
    assert parts + [] == parts;
    s := Join(parts, ",");
  }

  method ScanRun(s: seq<int>, i: nat) returns (j: nat)
    requires i < |s|
    ensures j == RunEnd(s, i)
  {
    j := i;
    while j + 1 < |s| && s[j + 1] == s[j] + 1
      invariant i <= j < |s| && RunEnd(s, i) == RunEnd(s, j)
    {
      j := j + 1;
    }
  }

  lemma TermsStep(parts: seq<string>, s: seq<int>, i: nat, p: (int, int) -> string)
    requires i < |s|
    ensures var j := RunEnd(s, i);
      parts + Terms(s, i, p) == (parts + [p(s[i], s[j])]) + Terms(s, j + 1, p)
  {
    ConcatStep(parts, p(s[i], s[RunEnd(s, i)]), Terms(s, RunEnd(s, i) + 1, p));
  }

  // ---------- Printing, then parsing ----------

  predicate CpuNumber(c: int) {
    0 <= c <= MAX_INT
  }

  lemma TrimClean(s: string)
    requires forall i | 0 <= i < |s| :: !IsSpace(s[i])
    ensures TrimSpace(s) == s
  {
  }

  lemma NumberIsClean(n: nat)
    ensures forall c | c in Itoa(n) :: IsDigit(c)
  {
  }

  /** A term denotes its range. */
  lemma NumberDenotes(n: nat)
    requires n <= MAX_INT
    ensures ParsePart(Itoa(n)) == Range(n, n) && ',' !in Itoa(n)
  {
    NumberIsClean(n);
    AtoiOfItoa(n);
    TrimClean(Itoa(n));
  }

  lemma TermDenotes(lo: nat, hi: nat)
    requires lo <= hi <= MAX_INT
    ensures ParsePart(Term(lo, hi)) == Range(lo, hi)
  {
    if lo == hi {
      NumberDenotes(lo);
    } else {
      RangeDenotes(lo, hi);
    }
  }

  /** The text of a range, of one number too. */
  lemma RangeDenotes(lo: nat, hi: nat)
    requires lo <= hi <= MAX_INT
    ensures ParsePart(Itoa(lo) + "-" + Itoa(hi)) == Range(lo, hi) && ',' !in Itoa(lo) + "-" + Itoa(hi)
  {
    NumberIsClean(lo);
    NumberIsClean(hi);
    AtoiOfItoa(lo);
    AtoiOfItoa(hi);
    RangeText(Itoa(lo), Itoa(hi));
  }

  lemma RangeText(a: string, b: string)
    requires a != "" && (forall c | c in a :: IsDigit(c)) && forall c | c in b :: IsDigit(c)
    ensures var t := a + "-" + b;
      && TrimSpace(t) == t && t != "" && IndexOf(t, '-') == |a| && t[..|a|] == a && t[|a| + 1..] == b && ',' !in t
  {
    var t := a + "-" + b;
    assert t == a + ['-'] + b;
    forall i | 0 <= i < |t|
      ensures !IsSpace(t[i]) && t[i] != ','
    {
      assert t[i] == '-' || t[i] in a || t[i] in b;
    }
    TrimClean(t);
    IndexOfFirst(a, '-', b);
  }

  /** The ranges of a sorted list's terms. */
  function Ranges(s: seq<int>, i: nat): seq<Part>
    requires i <= |s| && forall k | 0 <= k < |s| :: CpuNumber(s[k])
    decreases |s| - i
  {
    if i == |s| then []
    else
      assert CpuNumber(s[i]) && CpuNumber(s[RunEnd(s, i)]);
      [Range(s[i], s[RunEnd(s, i)])] + Ranges(s, RunEnd(s, i) + 1)
  }

  lemma ParsedHead(text: string, rest: seq<string>)
    ensures Parsed([text] + rest) == [ParsePart(text)] + Parsed(rest)
  {
  }

  lemma {:induction false} TermsParse(s: seq<int>, i: nat)
    requires i <= |s| && forall k | 0 <= k < |s| :: CpuNumber(s[k])
    ensures Parsed(Terms(s, i, Printer())) == Ranges(s, i)
    decreases |s| - i
  {
    if i < |s| {
      TermDenotes(s[i], s[RunEnd(s, i)]);
      TermsParse(s, RunEnd(s, i) + 1);
      ParsedHead(Term(s[i], s[RunEnd(s, i)]), Terms(s, RunEnd(s, i) + 1, Printer()));
    }
  }

  lemma {:induction false} UnionOfRanges(parts: seq<Part>, n: nat, s: seq<int>, i: nat)
    requires i <= |s| && n <= |parts| && forall k | 0 <= k < |s| :: CpuNumber(s[k])
    requires parts[n..] == Ranges(s, i) && Union(parts, n) == Some(Elements(s[..i]))
    ensures Union(parts, |parts|) == Some(Elements(s))
    decreases |s| - i
  {
    if i == |s| {
      assert |parts[n..]| == 0 && s[..i] == s;
    } else {
      assert parts[n] == parts[n..][0];
      assert parts[n + 1..] == parts[n..][1..];
      RunElements(s, i);
      UnionOfRanges(parts, n + 1, s, RunEnd(s, i) + 1);
    }
  }

  lemma RunElements(s: seq<int>, i: nat)
    requires i < |s|
    ensures Elements(s[..RunEnd(s, i) + 1]) == Elements(s[..i]) + Between(s[i], s[RunEnd(s, i)])
  {
    var j := RunEnd(s, i);
    forall c | c in Between(s[i], s[j])
      ensures c in s[..j + 1]
    {
      assert s[i + (c - s[i])] == c;
    }
    forall x | x in s[..j + 1]
      ensures x in s[..i] || s[i] <= x <= s[j]
    {
      var k :| 0 <= k <= j && s[k] == x;
    }
    assert forall x | x in s[..i] :: x in s[..j + 1];
  }

  lemma TermHasNoComma(lo: nat, hi: nat)
    ensures ',' !in Term(lo, hi)
  {
    NumberHasNoComma(lo);
    NumberHasNoComma(hi);
    DashedHasNoComma(Itoa(lo), Itoa(hi));
  }

  lemma NumberHasNoComma(n: nat)
    ensures ',' !in Itoa(n)
  {
    NumberIsClean(n);
  }

  lemma DashedHasNoComma(a: string, b: string)
    requires ',' !in a && ',' !in b
    ensures ',' !in a + "-" + b
  {
  }

  lemma {:induction false} TermsHaveNoComma(s: seq<int>, i: nat)
    requires i <= |s| && forall k | 0 <= k < |s| :: CpuNumber(s[k])
    ensures forall k | 0 <= k < |Terms(s, i, Printer())| :: ',' !in Terms(s, i, Printer())[k]
    ensures i < |s| ==> Terms(s, i, Printer()) != []
    decreases |s| - i
  {
    if i < |s| {
      TermHasNoComma(s[i], s[RunEnd(s, i)]);
      TermsHaveNoComma(s, RunEnd(s, i) + 1);
    }
  }

  /** A printed list denotes exactly the CPUs printed, whatever their order and repeats. */
  lemma FormatDenotes(cpus: seq<int>)
    requires cpus != [] && forall k | 0 <= k < |cpus| :: CpuNumber(cpus[k])
    ensures Cpus(Format(cpus)) == Some(Elements(cpus))
  {
    SortElements(cpus);
    var s := Sort(cpus);
    assert forall k | 0 <= k < |s| :: s[k] in s;
    var parts := Terms(s, 0, Printer());
    TermsHaveNoComma(s, 0);
    SplitOfJoin(parts, ',');
    TermsParse(s, 0);
    var ranges := Ranges(s, 0);
    assert ranges[0..] == ranges && Elements(s[..0]) == {};
    UnionOfRanges(ranges, 0, s, 0);
    assert Elements(s) == Elements(cpus);
    assert cpus[0] in Elements(cpus);
  }

  /** A planned cpuset "a-b" denotes its positions. */
  lemma RangeTextDenotes(lo: nat, hi: nat)
    requires lo <= hi <= MAX_INT
    ensures Cpus(Itoa(lo) + "-" + Itoa(hi)) == Some(Between(lo, hi))
  {
    var t := Itoa(lo) + "-" + Itoa(hi);
    RangeDenotes(lo, hi);
    SplitOfJoin([t], ',');
    var parts := Parsed([t]);
    assert Union(parts, 0) == Some({}) && parts[0] == Range(lo, hi);
    assert Union(parts, 1) == Some({} + Between(lo, hi));
    assert {} + Between(lo, hi) == Between(lo, hi);
    assert lo in Between(lo, hi);
  }
}
