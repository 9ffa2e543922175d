/**
 The texts of node lists: which names print as one range, and exactly which lists are read.
 */
module NodelistTexts {
  import opened Text
  import opened Nodelist

  // ---------- One range ----------

  /** A name's last digit run is where the digits are, with none behind them and no digit in front. */
  lemma PartsAre(prefix: string, digits: string, suffix: string)
    requires digits != "" && AllDigits(digits) && (prefix == "" || !IsDigit(prefix[|prefix| - 1]))
    requires forall i | 0 <= i < |suffix| :: !IsDigit(suffix[i])
    ensures PartsOf(prefix + digits + suffix) == Parts(prefix, digits, suffix, true)
  {
    var s, b, e := prefix + digits + suffix, |prefix|, |prefix| + |digits|;
    RunAt(prefix, digits, suffix);
    DigitsEndAt(s, e, |s|);
    DigitsStartAt(s, b, e);
  }

  /** Where the digits of the text are. */
  lemma RunAt(prefix: string, digits: string, suffix: string)
    requires AllDigits(digits) && forall i | 0 <= i < |suffix| :: !IsDigit(suffix[i])
    ensures var s, b, e := prefix + digits + suffix, |prefix|, |prefix| + |digits|;
      && s[..b] == prefix && s[b..e] == digits && s[e..] == suffix && (b > 0 ==> s[b - 1] == prefix[b - 1])
      && (forall i | b <= i < e :: IsDigit(s[i])) && (forall i | e <= i < |s| :: !IsDigit(s[i]))
  {
    var s, b, e := prefix + digits + suffix, |prefix|, |prefix| + |digits|;
    assert forall i | b <= i < e :: s[i] == digits[i - b];
    assert forall i | e <= i < |s| :: s[i] == suffix[i - e];
  }

  lemma {:induction false} DigitsEndAt(s: string, e: nat, n: nat)
    requires 0 < e <= n <= |s| && IsDigit(s[e - 1]) && forall i | e <= i < n :: !IsDigit(s[i])
    ensures DigitEnd(s, n) == e
    decreases n
  {
    if n > e {
      DigitsEndAt(s, e, n - 1);
    }
  }

  lemma {:induction false} DigitsStartAt(s: string, b: nat, e: nat)
    requires b <= e <= |s| && (forall i | b <= i < e :: IsDigit(s[i])) && (b > 0 ==> !IsDigit(s[b - 1]))
    ensures DigitStart(s, e) == b
  {
    if b < e {
      DigitsStartAt(s, b, e - 1);
    }
  }

  lemma {:induction false} NumeralGrows(a: nat, b: nat)
    requires a <= b
    ensures |Numeral(a)| <= |Numeral(b)|
  {
    if a >= 10 {
      NumeralGrows(a / 10, b / 10);
    }
  }

  lemma {:induction false} ValueOfZeros(k: nat, s: string)
    requires AllDigits(s)
    ensures AllDigits(Zeros(k) + s) && Value(Zeros(k) + s) == Value(s)
  {
    if s == "" {
      ValueOfNothing(k);
      assert Zeros(k) + s == Zeros(k);
    } else {
      ValueOfZeros(k, s[..|s| - 1]);
      assert (Zeros(k) + s)[..|Zeros(k) + s| - 1] == Zeros(k) + s[..|s| - 1];
    }
  }

  lemma {:induction false} ValueOfNothing(k: nat)
    ensures AllDigits(Zeros(k)) && Value(Zeros(k)) == 0
  {
    if k > 0 {
      ValueOfNothing(k - 1);
      assert Zeros(k)[..k - 1] == Zeros(k - 1);
    }
  }

  lemma PadIs(v: nat, width: nat)
    requires |Numeral(v)| <= width
    ensures AllDigits(Pad(v, width)) && |Pad(v, width)| == width && Value(Pad(v, width)) == v && Pad(v, width) != ""
  {
    ValueOfZeros(width - |Numeral(v)|, Numeral(v));
    ValueOfNumeral(v);
  }

  /** Names that differ in their number alone, written at one width. */
  ghost predicate Consecutive(hosts: seq<string>, prefix: string, lo: nat, width: nat, suffix: string) {
    && hosts == Numbered(prefix, lo, lo + |hosts|, width, suffix)
    && (prefix == "" || !IsDigit(prefix[|prefix| - 1])) && (forall i | 0 <= i < |suffix| :: !IsDigit(suffix[i]))
    && |hosts| > 0 && lo + |hosts| - 1 <= MAX_INT && |Numeral(lo + |hosts| - 1)| <= width
  }

  lemma NameAt(hosts: seq<string>, prefix: string, lo: nat, width: nat, suffix: string, i: nat)
    requires Consecutive(hosts, prefix, lo, width, suffix) && i < |hosts|
    ensures hosts[i] == prefix + Pad(lo + i, width) + suffix && |Numeral(lo + i)| <= width
  {
    NumeralGrows(lo + i, lo + |hosts| - 1);
    assert Numbered(prefix, lo, lo + |hosts|, width, suffix)[i] == NumberedName(prefix, lo + i, width, suffix);
  }

  lemma NameParts(hosts: seq<string>, prefix: string, lo: nat, width: nat, suffix: string, i: nat)
    requires Consecutive(hosts, prefix, lo, width, suffix) && i < |hosts|
    ensures var digits := Pad(lo + i, width);
      && AllDigits(digits) && Value(digits) == lo + i && |digits| == width
      && PartsOf(hosts[i]) == Parts(prefix, digits, suffix, true)
  {
    NameAt(hosts, prefix, lo, width, suffix, i);
    PadIs(lo + i, width);
    NumberedParts(hosts[i], prefix, Pad(lo + i, width), suffix);
  }

  lemma NumberedParts(h: string, prefix: string, digits: string, suffix: string)
    requires h == prefix + digits + suffix && digits != "" && AllDigits(digits)
    requires prefix == "" || !IsDigit(prefix[|prefix| - 1])
    requires forall i | 0 <= i < |suffix| :: !IsDigit(suffix[i])
    ensures PartsOf(h) == Parts(prefix, digits, suffix, true)
  {
    PartsAre(prefix, digits, suffix);
  }

  lemma TokenAt(hosts: seq<string>, prefix: string, lo: nat, width: nat, suffix: string, i: nat)
    requires Consecutive(hosts, prefix, lo, width, suffix) && i < |hosts|
    ensures var t := TokensOf(hosts)[i]; t.digits == Pad(lo + i, width) && t.val == lo + i && |t.digits| == width
  {
    NameParts(hosts, prefix, lo, width, suffix, i);
  }

  lemma {:induction false} OneGroup(hosts: seq<string>, prefix: string, lo: nat, width: nat, suffix: string, j: nat)
    requires Consecutive(hosts, prefix, lo, width, suffix) && j <= |hosts|
    ensures GroupEnd(hosts, j, PartsOf(hosts[0])) == |hosts|
    decreases |hosts| - j
  {
    NameParts(hosts, prefix, lo, width, suffix, 0);
    if j < |hosts| {
      NameParts(hosts, prefix, lo, width, suffix, j);
      OneGroup(hosts, prefix, lo, width, suffix, j + 1);
    }
  }

  lemma {:induction false} OneRange(hosts: seq<string>, prefix: string, lo: nat, width: nat, suffix: string, k: nat)
    requires Consecutive(hosts, prefix, lo, width, suffix) && k < |hosts|
    ensures RangeEnd(TokensOf(hosts), k) == |hosts| - 1
    decreases |hosts| - k
  {
    if k + 1 < |hosts| {
      TokenAt(hosts, prefix, lo, width, suffix, k);
      TokenAt(hosts, prefix, lo, width, suffix, k + 1);
      OneRange(hosts, prefix, lo, width, suffix, k + 1);
    }
  }

  lemma GroupFacts(hosts: seq<string>, prefix: string, lo: nat, width: nat, suffix: string)
    requires Consecutive(hosts, prefix, lo, width, suffix)
    ensures var p := PartsOf(hosts[0]);
      p.ok && p.prefix == prefix && p.suffix == suffix && GroupEnd(hosts, 1, p) == |hosts|
  {
    NameParts(hosts, prefix, lo, width, suffix, 0);
    OneGroup(hosts, prefix, lo, width, suffix, 1);
  }

  lemma TokenFacts(hosts: seq<string>, prefix: string, lo: nat, width: nat, suffix: string)
    requires Consecutive(hosts, prefix, lo, width, suffix)
    ensures TokensOf(hosts)[0].digits == Pad(lo, width)
    ensures TokensOf(hosts)[|hosts| - 1].digits == Pad(lo + |hosts| - 1, width)
  {
    TokenAt(hosts, prefix, lo, width, suffix, 0);
    TokenAt(hosts, prefix, lo, width, suffix, |hosts| - 1);
  }

  /** "node007" to "node012" print as "node[007-012]": consecutive numbers of one width are one
      range, however many, and a single name is itself. */
  lemma ConsecutiveIsOneRange(hosts: seq<string>, prefix: string, lo: nat, width: nat, suffix: string, first: string,
                              last: string)
    requires Consecutive(hosts, prefix, lo, width, suffix)
    requires first == Pad(lo, width) && last == Pad(lo + |hosts| - 1, width)
    ensures Compress(hosts) ==
      if |hosts| == 1 then prefix + first + suffix else prefix + "[" + (first + "-" + last) + "]" + suffix
  {
    GroupFacts(hosts, prefix, lo, width, suffix);
    TokenFacts(hosts, prefix, lo, width, suffix);
    OneRange(hosts, prefix, lo, width, suffix, 0);
    PrintedRange(hosts, PartsOf(hosts[0]), TokensOf(hosts), first, last);
  }

  lemma PrintedRange(hosts: seq<string>, p: Parts, toks: seq<Token>, first: string, last: string)
    requires |hosts| > 0 && p == PartsOf(hosts[0]) && p.ok && GroupEnd(hosts, 1, p) == |hosts|
    requires toks == TokensOf(hosts) && RangeEnd(toks, 0) == |hosts| - 1
    requires toks[0].digits == first && toks[|hosts| - 1].digits == last
    ensures Compress(hosts) ==
      if |hosts| == 1 then p.prefix + first + p.suffix else p.prefix + "[" + (first + "-" + last) + "]" + p.suffix
  {
    OneBlock(hosts, p);
  }

  /** A group that is one range, as it is printed. */
  function RangeBlock(p: Parts, toks: seq<Token>): string
    requires |toks| > 0
  {
    if |toks| == 1 then p.prefix + toks[0].digits + p.suffix
    else p.prefix + "[" + (toks[0].digits + "-" + toks[|toks| - 1].digits) + "]" + p.suffix
  }

  lemma OneBlock(hosts: seq<string>, p: Parts)
    requires |hosts| > 0 && p == PartsOf(hosts[0]) && p.ok && GroupEnd(hosts, 1, p) == |hosts|
    requires RangeEnd(TokensOf(hosts), 0) == |hosts| - 1
    ensures Compress(hosts) == RangeBlock(p, TokensOf(hosts))
  {
    WholeBlock(hosts, p);
    OneItem(TokensOf(hosts));
  }

  lemma WholeBlock(hosts: seq<string>, p: Parts)
    requires |hosts| > 0 && p == PartsOf(hosts[0]) && p.ok && GroupEnd(hosts, 1, p) == |hosts|
    ensures Compress(hosts) == GroupBlock(p, TokensOf(hosts))
  {
    assert hosts[0..|hosts|] == hosts;
    assert Blocks(hosts, |hosts|) == [];
    assert Blocks(hosts, 0) == [GroupBlock(p, TokensOf(hosts))];
  }

  lemma OneItem(toks: seq<Token>)
    requires |toks| > 0 && RangeEnd(toks, 0) == |toks| - 1
    ensures Join(Items(toks, 0), ",") ==
      if |toks| == 1 then toks[0].digits else toks[0].digits + "-" + toks[|toks| - 1].digits
  {
    assert Items(toks, |toks|) == [];
    assert Items(toks, 0) == [Item(toks, 0, |toks| - 1)];
  }

  // ---------- What is read ----------

  /** A range of digit runs that does not descend. */
  ghost predicate RangeItem(item: string, lo: string, hi: string) {
    item == lo + "-" + hi && DigitRun(lo) && DigitRun(hi) && MustAtoi(lo) <= MustAtoi(hi)
  }

  /** An item is digits, or a range of them that does not descend: nothing else is read. */
  lemma ItemIsReadIff(prefix: string, item: string, suffix: string)
    ensures ItemNames(prefix, item, suffix).Ok? <==> DigitRun(item) || exists lo, hi :: RangeItem(item, lo, hi)
  {
    var dash := IndexOf(item, '-');
    if lo, hi :| RangeItem(item, lo, hi) {
      DashIsAfterDigits(lo, hi);
      assert item[..|lo|] == lo && item[|lo| + 1..] == hi;
    }
    if dash >= 0 && ItemNames(prefix, item, suffix).Ok? {
      assert item == item[..dash] + "-" + item[dash + 1..];
      assert RangeItem(item, item[..dash], item[dash + 1..]);
    }
  }

  lemma {:induction false} ChainIff(rs: seq<Result<seq<string>>>, k: nat)
    requires k <= |rs|
    ensures Chain(rs, k).Ok? <==> forall i | k <= i < |rs| :: rs[i].Ok?
    decreases |rs| - k
  {
    if k < |rs| {
      ChainIff(rs, k + 1);
    }
  }

  /** A name with one pair of brackets, and items in them that are all read. */
  ghost predicate Group(b: string, prefix: string, inner: string, suffix: string) {
    && b == prefix + "[" + inner + "]" + suffix
    && '[' !in prefix && ']' !in prefix && ']' !in inner && '[' !in suffix && ']' !in suffix
    && AllItemsRead(prefix, Split(inner, ','), suffix)
  }

  ghost predicate AllItemsRead(prefix: string, items: seq<string>, suffix: string) {
    forall i | 0 <= i < |items| :: ItemNames(prefix, items[i], suffix).Ok?
  }

  lemma ItemsAreRead(prefix: string, items: seq<string>, suffix: string)
    ensures Chain(Results(items, ItemExpander(prefix, suffix)), 0).Ok? <==> AllItemsRead(prefix, items, suffix)
  {
    var rs := Results(items, ItemExpander(prefix, suffix));
    ChainIff(rs, 0);
    assert forall i | 0 <= i < |items| :: rs[i] == ItemNames(prefix, items[i], suffix);
  }

  lemma GroupIsRead(b: string, prefix: string, inner: string, suffix: string)
    requires Group(b, prefix, inner, suffix)
    ensures BlockNames(b).Ok?
  {
    GroupIndexes(b, prefix, inner, suffix);
    ItemsAreRead(prefix, Split(inner, ','), suffix);
  }

  lemma GroupIndexes(b: string, prefix: string, inner: string, suffix: string)
    requires b == prefix + "[" + inner + "]" + suffix
    requires '[' !in prefix && ']' !in prefix && ']' !in inner
    ensures var open, close := |prefix|, |prefix| + 1 + |inner|;
      && IndexOf(b, '[') == open && IndexOf(b, ']') == close < |b|
      && b[..open] == prefix && b[open + 1..close] == inner && b[close + 1..] == suffix
  {
    BracketSlices(b, prefix, inner, suffix);
    GroupChars(b, prefix, inner, suffix);
    FirstAt(b, '[', |prefix|);
    FirstAt(b, ']', |prefix| + 1 + |inner|);
  }

  lemma GroupChars(b: string, prefix: string, inner: string, suffix: string)
    requires b == prefix + "[" + inner + "]" + suffix
    ensures |b| >= |prefix| + 2 + |inner| && b[|prefix|] == '[' && b[|prefix| + 1 + |inner|] == ']'
    ensures forall k | 0 <= k < |prefix| :: b[k] in prefix
    ensures forall k | |prefix| < k <= |prefix| + |inner| :: b[k] in inner
  {
    assert forall k | 0 <= k < |prefix| :: b[k] == prefix[k];
    assert forall k | |prefix| < k <= |prefix| + |inner| :: b[k] == inner[k - |prefix| - 1];
  }

  lemma FirstAt(b: string, c: char, i: nat)
    requires i < |b| && b[i] == c && forall k | 0 <= k < i :: b[k] != c
    ensures IndexOf(b, c) == i
  {
    IndexOfFirst(b[..i], c, b[i + 1..]);
    assert b == b[..i] + [c] + b[i + 1..];
  }

  lemma ReadShape(b: string)
    requires BlockNames(b).Ok? && '[' in b
    ensures var open, close := IndexOf(b, '['), IndexOf(b, ']');
      && 0 <= open < close < |b| && '[' !in b[close + 1..] && ']' !in b[close + 1..]
      && AllItemsRead(b[..open], Split(b[open + 1..close], ','), b[close + 1..])
  {
    var open, close := IndexOf(b, '['), IndexOf(b, ']');
    ItemsAreRead(b[..open], Split(b[open + 1..close], ','), b[close + 1..]);
  }

  lemma CutsJoin(b: string, open: nat, close: nat)
    requires open < close < |b| && b[open] == '[' && b[close] == ']'
    ensures b == b[..open] + "[" + b[open + 1..close] + "]" + b[close + 1..]
  {
    assert b[..open + 1] == b[..open] + "[" && b[..close] == b[..open + 1] + b[open + 1..close];
    assert b[..close + 1] == b[..close] + "]" && b == b[..close + 1] + b[close + 1..];
  }

  lemma CutsAre(b: string, open: nat, close: nat)
    requires open < close < |b| && open == IndexOf(b, '[') && close == IndexOf(b, ']')
    ensures b == b[..open] + "[" + b[open + 1..close] + "]" + b[close + 1..]
    ensures '[' !in b[..open] && ']' !in b[..open] && ']' !in b[open + 1..close]
  {
    CutsJoin(b, open, close);
    assert forall i | 0 <= i < close :: b[i] == b[..close][i];
  }

  lemma ReadIsGroup(b: string)
    requires BlockNames(b).Ok? && '[' in b
    ensures exists prefix, inner, suffix :: Group(b, prefix, inner, suffix)
  {
    var open, close := IndexOf(b, '['), IndexOf(b, ']');
    ReadShape(b);
    CutsAre(b, open, close);
    assert Group(b, b[..open], b[open + 1..close], b[close + 1..]);
  }

  /** A block is a name without brackets, or one with a single pair of them around items. */
  lemma BlockIsReadIff(b: string)
    ensures BlockNames(b).Ok? <==>
      || (b != "" && '[' !in b && ']' !in b)
      || exists prefix, inner, suffix :: Group(b, prefix, inner, suffix)
  {
    if prefix, inner, suffix :| Group(b, prefix, inner, suffix) {
      GroupIsRead(b, prefix, inner, suffix);
    }
    if BlockNames(b).Ok? && '[' in b {
      ReadIsGroup(b);
    }
  }

  /** How many brackets are left open. */
  function Net(s: string): int {
    if s == "" then 0 else Net(s[..|s| - 1]) + (if s[|s| - 1] == '[' then 1 else if s[|s| - 1] == ']' then -1 else 0)
  }

  lemma {:induction false} NetHead(s: string)
    requires s != ""
    ensures Net(s) == (if s[0] == '[' then 1 else if s[0] == ']' then -1 else 0) + Net(s[1..])
  {
    var n := |s| - 1;
    if n > 0 {
      NetHead(s[..n]);
      assert s[..n][1..] == s[1..][..n - 1];
    }
  }

  /** No bracket is closed that was not opened, and none stays open. */
  ghost predicate Balanced(s: string, depth: nat) {
    depth + Net(s) == 0 && forall n | 0 <= n <= |s| :: depth + Net(s[..n]) >= 0
  }

  lemma BalancedHead(s: string, depth: nat)
    requires s != ""
    ensures var next := depth + if s[0] == '[' then 1 else if s[0] == ']' then -1 else 0;
      Balanced(s, depth) <==> next >= 0 && Balanced(s[1..], next)
  {
    var d := if s[0] == '[' then 1 else if s[0] == ']' then -1 else 0;
    NetHead(s);
    forall n | 0 < n <= |s|
      ensures Net(s[..n]) == d + Net(s[1..][..n - 1])
    {
      NetHead(s[..n]);
      assert s[..n][1..] == s[1..][..n - 1];
    }
    if Balanced(s, depth) {
      assert depth + Net(s[..1]) >= 0 && Net(s[1..][..0]) == 0;
      forall n | 0 <= n <= |s[1..]|
        ensures depth + d + Net(s[1..][..n]) >= 0
      {
        assert depth + Net(s[..n + 1]) >= 0;
      }
    }
  }

  /** Commas outside brackets part a list whenever its brackets balance. */
  lemma {:induction false} PartsIff(s: string, depth: nat)
    ensures SplitTop(s, depth).Ok? <==> Balanced(s, depth)
  {
    if s == "" {
      assert s[..0] == "";
    } else {
      BalancedHead(s, depth);
      if s[0] == '[' {
        PartsIff(s[1..], depth + 1);
      } else if s[0] == ']' {
        if depth > 0 {
          PartsIff(s[1..], depth - 1);
        }
      } else {
        PartsIff(s[1..], depth);
      }
    }
  }

  ghost predicate AllBlocksRead(blocks: seq<string>) {
    forall i | 0 <= i < |blocks| :: BlockNames(blocks[i]).Ok?
  }

  /** A list is read exactly if it is not empty, its brackets balance, and each of its blocks is
      read. */
  lemma ListIsReadIff(s: string)
    ensures SplitTop(s, 0).Ok? <==> Balanced(s, 0)
    ensures Expand(s).Ok? <==> s != "" && Balanced(s, 0) && AllBlocksRead(SplitTop(s, 0).value)
  {
    PartsIff(s, 0);
    if s != "" && SplitTop(s, 0).Ok? {
      var blocks := SplitTop(s, 0).value;
      var rs := Results(blocks, BlockExpander());
      ChainIff(rs, 0);
      assert forall i | 0 <= i < |blocks| :: rs[i] == BlockNames(blocks[i]);
    }
  }
}
