/**
 SLURM_TASKS_PER_NODE: per-node counts, run-length encoded as "v" or "v(xk)".
 Expanding an encoding gives the counts back, and the encoding is as short as a
 run-length encoding can be.
 */
module CountRuns {
  import opened Text

  datatype Run = Run(value: int, reps: nat)

  function Repeat(v: int, n: nat): (s: seq<int>)
    ensures |s| == n && forall i | 0 <= i < n :: s[i] == v
  {
    seq(n, _ => v)
  }

  // ---------- Encoding ----------

  /** The first index from j on whose count differs from counts[i]. */
  function RunEnd(counts: seq<int>, i: nat, j: nat): (e: nat)
    requires i < |counts| && j <= |counts|
    ensures j <= e <= |counts| && (i == j ==> i < e)
    ensures forall k | j <= k < e :: counts[k] == counts[i]
    ensures e < |counts| ==> counts[e] != counts[i]
    decreases |counts| - j
  {
    if j < |counts| && counts[j] == counts[i] then RunEnd(counts, i, j + 1) else j
  }

  function Term(r: Run): string {
    if r.reps == 1 then Itoa(r.value) else Itoa(r.value) + "(x" + Itoa(r.reps) + ")"
  }

  /** The maximal runs of counts[i..]. */
  function Runs(counts: seq<int>, i: nat): seq<Run>
    requires i <= |counts|
    decreases |counts| - i
  {
    if i == |counts| then []
    else
      var e := RunEnd(counts, i, i);
      [Run(counts[i], e - i)] + Runs(counts, e)
  }

  function Printer(): Run -> string {
    r => Term(r)
  }

  function Terms(runs: seq<Run>, show: Run -> string): (t: seq<string>)
    ensures |t| == |runs|
  {
    seq(|runs|, i requires 0 <= i < |runs| => show(runs[i]))
  }

  function Compress(counts: seq<int>): string {
    Join(Terms(Runs(counts, 0), Printer()), ",")
  }

  lemma TermsStep(parts: seq<string>, counts: seq<int>, i: nat, show: Run -> string)
    requires i < |counts|
    ensures var e := RunEnd(counts, i, i);
      parts + Terms(Runs(counts, i), show) == (parts + [show(Run(counts[i], e - i))]) + Terms(Runs(counts, e), show)
  {
    var e := RunEnd(counts, i, i);
    assert Terms(Runs(counts, i), show) == [show(Run(counts[i], e - i))] + Terms(Runs(counts, e), show);
  }

  method ScanRun(counts: seq<int>, i: nat) returns (j: nat)
    requires i < |counts|
    ensures j == RunEnd(counts, i, i)
  {
    j := i;
    while j < |counts| && counts[j] == counts[i]
      invariant i <= j <= |counts|
      invariant RunEnd(counts, i, i) == RunEnd(counts, i, j)
    {
      j := j + 1;
    }
  }

  method CompressCounts(counts: seq<int>) returns (s: string)
    ensures s == Compress(counts)
  {
    var parts: seq<string> := [];
    var show := Printer();
    var i := 0;
    while i < |counts|
      invariant 0 <= i <= |counts|
      invariant parts + Terms(Runs(counts, i), show) == Terms(Runs(counts, 0), show)
    {
      var j := ScanRun(counts, i);
      TermsStep(parts, counts, i, show);
      parts := parts + [show(Run(counts[i], j - i))];
      i := j;
    }
    assert parts + [] == parts;
    s := Join(parts, ",");
  }

  // ---------- Decoding ----------

  /** One term, "v" or "v(xk)" with k at least 1. */
  function ParseRun(part: string): Option<Run> {
    if IndexOf(part, '(') < 0 then RunOf(Atoi(part), Some(1)) else Repeated(part, IndexOf(part, '('))
  }

  function RunOf(value: Option<int>, reps: Option<int>): Option<Run> {
    if value.None? || reps.None? || reps.value < 1 then None else Some(Run(value.value, reps.value))
  }

  function Repeated(part: string, open: nat): Option<Run>
    requires open < |part|
  {
    if part[|part| - 1] != ')' || |part| < open + 3 || part[open + 1] != 'x' then None
    else RunOf(Atoi(part[..open]), Atoi(part[open + 2..|part| - 1]))
  }

  function ParsedRuns(parts: seq<string>): (r: seq<Option<Run>>)
    ensures |r| == |parts|
  {
    seq(|parts|, i requires 0 <= i < |parts| => ParseRun(parts[i]))
  }

  /** What runs[i..] expand to; any bad term refuses the whole list. */
  function Expansion(runs: seq<Option<Run>>, i: nat): Option<seq<int>>
    requires i <= |runs|
    decreases |runs| - i
  {
    if i == |runs| then Some([])
    else
      var rest := Expansion(runs, i + 1);
      if runs[i].None? || rest.None? then None
      else Some(Repeat(runs[i].value.value, runs[i].value.reps) + rest.value)
  }

  function Expand(s: string): Option<seq<int>> {
    if s == "" then None else Expansion(ParsedRuns(Split(s, ',')), 0)
  }

  function After(out: seq<int>, r: Option<seq<int>>): Option<seq<int>> {
    if r.None? then None else Some(out + r.value)
  }

  lemma AfterTwice(a: seq<int>, b: seq<int>, r: Option<seq<int>>)
    ensures After(a, After(b, r)) == After(a + b, r) && After([], r) == r
  {
    if r.Some? {
      assert a + (b + r.value) == a + b + r.value && [] + r.value == r.value;
    }
  }

  method ExpandCounts(s: string) returns (r: Option<seq<int>>)
    ensures r == Expand(s)
  {
    if s == "" {
      return None;
    }
    var parts := Split(s, ',');
    ghost var runs := ParsedRuns(parts);
    var out: seq<int> := [];
    AfterTwice([], [], Expansion(runs, 0));
    for i := 0 to |parts|
      invariant After(out, Expansion(runs, i)) == Expansion(runs, 0)
    {
      var run := ParseRun(parts[i]);
      assert run == runs[i];
      if run.None? {
        return None;
      }
      ghost var before := out;
      AfterTwice(out, Repeat(run.value.value, run.value.reps), Expansion(runs, i + 1));
      for n := 0 to run.value.reps
        invariant out == before + Repeat(run.value.value, n)
      {
        out := out + [run.value.value];
      }
    }
    assert out + [] == out;
    return Some(out);
  }

  // ---------- The round trip ----------

  ghost predicate Fits(v: int) {
    -(MAX_INT as int) - 1 <= v <= MAX_INT
  }

  predicate NumberChar(c: char) {
    IsDigit(c) || c == '-'
  }

  lemma NumberText(v: int)
    ensures forall c | c in Itoa(v) :: NumberChar(c)
  {
    var s := Itoa(v);
    if v < 0 {
      assert s == ['-'] + s[1..];
      assert forall c | c in s[1..] :: IsDigit(c);
    } else {
      assert forall c | c in s :: IsDigit(c);
    }
  }

  lemma RunShape(v: string, k: string)
    requires '(' !in v
    ensures var s := v + "(x" + k + ")";
      && IndexOf(s, '(') == |v| && s[|v| + 1] == 'x' && s[|s| - 1] == ')' && |s| >= |v| + 3
      && s[..|v|] == v && s[|v| + 2..|s| - 1] == k
  {
    var s := v + "(x" + k + ")";
    assert s == v + ['('] + ("x" + k + ")");
    IndexOfFirst(v, '(', "x" + k + ")");
  }

  lemma TermIsParsed(r: Run)
    requires Fits(r.value) && 1 <= r.reps <= MAX_INT
    ensures ParseRun(Term(r)) == Some(r)
  {
    var v, k := Itoa(r.value), Itoa(r.reps);
    AtoiOfItoa(r.value);
    NumberText(r.value);
    assert '(' !in v;
    if r.reps != 1 {
      AtoiOfItoa(r.reps);
      RunShape(v, k);
    }
  }

  lemma TermHasNoComma(r: Run)
    ensures ',' !in Term(r)
  {
    NumberText(r.value);
    NumberText(r.reps);
  }

  function Somes(runs: seq<Run>): (r: seq<Option<Run>>)
    ensures |r| == |runs|
  {
    seq(|runs|, i requires 0 <= i < |runs| => Some(runs[i]))
  }

  lemma {:induction false} RunsExpand(counts: seq<int>, i: nat, runs: seq<Option<Run>>, n: nat)
    requires i <= |counts| && n <= |runs| && runs[n..] == Somes(Runs(counts, i))
    ensures Expansion(runs, n) == Some(counts[i..])
    decreases |counts| - i
  {
    if i == |counts| {
      assert |runs[n..]| == 0 && counts[i..] == [];
    } else {
      var e := RunEnd(counts, i, i);
      assert runs[n] == runs[n..][0] == Some(Run(counts[i], e - i));
      assert runs[n + 1..] == runs[n..][1..] == Somes(Runs(counts, e));
      RunsExpand(counts, e, runs, n + 1);
      assert counts[i..] == Repeat(counts[i], e - i) + counts[e..];
    }
  }

  lemma {:induction false} RunsFit(counts: seq<int>, i: nat)
    requires i <= |counts| <= MAX_INT && forall k | 0 <= k < |counts| :: Fits(counts[k])
    ensures forall k | 0 <= k < |Runs(counts, i)| ::
      Fits(Runs(counts, i)[k].value) && 1 <= Runs(counts, i)[k].reps <= MAX_INT
    decreases |counts| - i
  {
    if i < |counts| {
      RunsFit(counts, RunEnd(counts, i, i));
    }
  }

  lemma TermsAreParsed(runs: seq<Run>)
    requires forall k | 0 <= k < |runs| :: Fits(runs[k].value) && 1 <= runs[k].reps <= MAX_INT
    ensures ParsedRuns(Terms(runs, Printer())) == Somes(runs)
  {
    forall k | 0 <= k < |runs|
      ensures ParseRun(Term(runs[k])) == Some(runs[k])
    {
      TermIsParsed(runs[k]);
    }
  }

  lemma CompressNotEmpty(counts: seq<int>)
    requires |counts| > 0
    ensures Compress(counts) != "" && |Runs(counts, 0)| > 0
  {
    var t := Terms(Runs(counts, 0), Printer());
    assert |t| > 0 && t[0] == Term(Runs(counts, 0)[0]);
  }

  /** The counts come back, in order, whatever they are. */
  lemma RoundTrip(counts: seq<int>)
    requires 0 < |counts| <= MAX_INT && forall k | 0 <= k < |counts| :: Fits(counts[k])
    ensures Expand(Compress(counts)) == Some(counts)
  {
    var runs := Runs(counts, 0);
    var parts := Terms(runs, Printer());
    CompressNotEmpty(counts);
    forall i | 0 <= i < |parts|
      ensures ',' !in parts[i]
    {
      TermHasNoComma(runs[i]);
    }
    SplitOfJoin(parts, ',');
    RunsFit(counts, 0);
    TermsAreParsed(runs);
    assert Somes(runs)[0..] == Somes(runs) && counts[0..] == counts;
    RunsExpand(counts, 0, Somes(runs), 0);
  }

  /** Neighbouring runs differ, so no two of them could be one. */
  lemma {:induction false} RunsAreMaximal(counts: seq<int>, i: nat)
    requires i <= |counts|
    ensures forall k | 0 <= k < |Runs(counts, i)| - 1 :: Runs(counts, i)[k].value != Runs(counts, i)[k + 1].value
    ensures forall k | 0 <= k < |Runs(counts, i)| :: Runs(counts, i)[k].reps >= 1
    ensures i < |counts| ==> |Runs(counts, i)| > 0 && Runs(counts, i)[0].value == counts[i]
    decreases |counts| - i
  {
    if i < |counts| {
      RunsAreMaximal(counts, RunEnd(counts, i, i));
    }
  }

  // ---------- What is printed, and what is read ----------

  /** A run of one is printed as its count, a longer one with how often; commas between. */
  lemma TermsArePrinted(counts: seq<int>)
    requires |counts| > 0
    ensures var terms, runs := Split(Compress(counts), ','), Runs(counts, 0);
      && |terms| == |runs|
      && forall k | 0 <= k < |runs| ::
           terms[k] == if runs[k].reps == 1 then Itoa(runs[k].value)
                       else Itoa(runs[k].value) + "(x" + Itoa(runs[k].reps) + ")"
  {
    var runs := Runs(counts, 0);
    var parts := Terms(runs, Printer());
    CompressNotEmpty(counts);
    forall i | 0 <= i < |parts|
      ensures ',' !in parts[i]
    {
      TermHasNoComma(runs[i]);
    }
    SplitOfJoin(parts, ',');
  }

  /** Equal counts are one term, however many. */
  lemma EqualCountsAreOneTerm(v: int, n: nat)
    requires n > 0
    ensures Compress(Repeat(v, n)) == if n == 1 then Itoa(v) else Itoa(v) + "(x" + Itoa(n) + ")"
  {
    var counts := Repeat(v, n);
    assert forall k | 0 <= k < n :: counts[k] == v;
    assert Runs(counts, n) == [];
    assert Runs(counts, 0) == [Run(v, n)];
  }

  /** A text with a repeat: the count, "(x", how often, ")". */
  ghost predicate Repeating(part: string, v: string, k: string) {
    '(' !in v && part == v + "(x" + k + ")"
  }

  lemma RepeatingIs(part: string, v: string, k: string)
    requires Repeating(part, v, k)
    ensures ParseRun(part) == RunOf(Atoi(v), Atoi(k))
  {
    RunShape(v, k);
  }

  lemma RepeatedText(part: string, open: nat)
    requires open == IndexOf(part, '(') && open + 3 <= |part| && part[|part| - 1] == ')' && part[open + 1] == 'x'
    ensures Repeating(part, part[..open], part[open + 2..|part| - 1])
  {
    var v, k := part[..open], part[open + 2..|part| - 1];
    FourParts(part, open);
    assert v + ['('] + ['x'] + k + [')'] == v + "(x" + k + ")";
  }

  lemma FourParts(part: string, open: nat)
    requires open + 3 <= |part| && part[open] == '(' && part[|part| - 1] == ')' && part[open + 1] == 'x'
    ensures part == part[..open] + ['('] + ['x'] + part[open + 2..|part| - 1] + [')']
  {
  }

  /** The repeat is read as r: a number, and how often, at least once. */
  ghost predicate ReadAs(part: string, r: Run) {
    exists v, k :: Repeating(part, v, k) && RunOf(Atoi(v), Atoi(k)) == Some(r)
  }

  lemma ReadIsRepeat(part: string, r: Run)
    requires '(' in part && ParseRun(part) == Some(r)
    ensures ReadAs(part, r)
  {
    RepeatedReads(part, IndexOf(part, '('), r);
  }

  lemma RepeatedReads(part: string, open: nat, r: Run)
    requires open == IndexOf(part, '(') && open < |part| && Repeated(part, open) == Some(r)
    ensures ReadAs(part, r)
  {
    RepeatedShape(part, open, r);
    RepeatedText(part, open);
    ReadWith(part, part[..open], part[open + 2..|part| - 1], r);
  }

  lemma ReadWith(part: string, v: string, k: string, r: Run)
    requires Repeating(part, v, k) && RunOf(Atoi(v), Atoi(k)) == Some(r)
    ensures ReadAs(part, r)
  {
  }

  lemma RepeatedShape(part: string, open: nat, r: Run)
    requires open < |part| && Repeated(part, open) == Some(r)
    ensures open + 3 <= |part| && part[|part| - 1] == ')' && part[open + 1] == 'x'
    ensures RunOf(Atoi(part[..open]), Atoi(part[open + 2..|part| - 1])) == Some(r)
  {
  }

  lemma RepeatIsReadIff(part: string, r: Run)
    requires '(' in part
    ensures ParseRun(part) == Some(r) <==> ReadAs(part, r)
  {
    if ParseRun(part) == Some(r) {
      ReadIsRepeat(part, r);
    } else if v, k :| Repeating(part, v, k) && RunOf(Atoi(v), Atoi(k)) == Some(r) {
      RepeatingIs(part, v, k);
    }
  }

  /** A term is a number, or a number and how often, at least once: nothing else is read. */
  lemma TermIsReadIff(part: string, r: Run)
    ensures ParseRun(part) == Some(r) <==>
      if '(' in part then
        exists v, k :: Repeating(part, v, k) && Atoi(v) == Some(r.value) && Atoi(k) == Some(r.reps) && r.reps >= 1
      else Atoi(part) == Some(r.value) && r.reps == 1
  {
    if '(' in part {
      RepeatIsReadIff(part, r);
    }
  }

  lemma {:induction false} ExpansionIff(runs: seq<Option<Run>>, i: nat)
    requires i <= |runs|
    ensures Expansion(runs, i).Some? <==> forall k | i <= k < |runs| :: runs[k].Some?
    decreases |runs| - i
  {
    if i < |runs| {
      ExpansionIff(runs, i + 1);
    }
  }

  predicate AllRead(parts: seq<string>) {
    forall k | 0 <= k < |parts| :: ParseRun(parts[k]).Some?
  }

  /** A list is read if it is not empty and each of its terms is. */
  lemma ListIsReadIff(s: string)
    ensures Expand(s).Some? <==> s != "" && AllRead(Split(s, ','))
  {
    var parts := Split(s, ',');
    ExpansionIff(ParsedRuns(parts), 0);
    if Expand(s).Some? {
      forall k | 0 <= k < |parts|
        ensures ParseRun(parts[k]).Some?
      {
        assert ParsedRuns(parts)[k].Some?;
      }
    } else if s != "" {
      var k :| 0 <= k < |parts| && ParsedRuns(parts)[k].None?;
      assert ParseRun(parts[k]).None?;
    }
  }
}
