/**
 SLURM's hostlist syntax: the compressor, the expander, and the law that ties them:
 expanding a compressed list gives the list back, name for name, with its order,
 its zero padding and its width changes.
 */
module Nodelist {
  import opened Text
  import opened Sequences

  datatype Reason =
    | EmptyInput | EmptyBlock | UnmatchedClose | UnmatchedOpen | MalformedBrackets
    | NonNumericValue | NonNumericRange | DescendingRange

  datatype Result<+T> = Ok(value: T) | Err(reason: Reason)

  // ---------- Names ----------

  /** A host name as prefix, last maximal digit run, suffix; ok when it has a digit. */
  datatype Parts = Parts(prefix: string, digits: string, suffix: string, ok: bool)

  /** One past the last digit of s[..n], 0 when there is none. */
  function DigitEnd(s: string, n: nat): (e: nat)
    requires n <= |s|
    ensures e <= n && (e > 0 ==> IsDigit(s[e - 1])) && forall i | e <= i < n :: !IsDigit(s[i])
  {
    if n == 0 then 0 else if IsDigit(s[n - 1]) then n else DigitEnd(s, n - 1)
  }

  /** Where the digit run ending at e starts. */
  function DigitStart(s: string, e: nat): (b: nat)
    requires e <= |s|
    ensures b <= e && AllDigits(s[b..e]) && (b > 0 ==> !IsDigit(s[b - 1]))
    ensures e > 0 && IsDigit(s[e - 1]) ==> b < e
  {
    if e == 0 || !IsDigit(s[e - 1]) then e
    else
      var b := DigitStart(s, e - 1);
      assert s[b..e] == s[b..e - 1] + [s[e - 1]];
      b
  }

  function PartsOf(s: string): (p: Parts)
    ensures AllDigits(p.digits) && (p.ok <==> p.digits != "")
  {
    var e := DigitEnd(s, |s|);
    if e == 0 then Parts(s, "", "", false)
    else
      var b := DigitStart(s, e);
      Parts(s[..b], s[b..e], s[e..], true)
  }

  /** The split is a partition of the name around its last maximal digit run. */
  lemma PartsOfName(s: string)
    ensures var p := PartsOf(s);
      && p.prefix + p.digits + p.suffix == s
      && (forall i | 0 <= i < |p.suffix| :: !IsDigit(p.suffix[i]))
      && (p.ok && p.prefix != [] ==> !IsDigit(p.prefix[|p.prefix| - 1]))
      && (!p.ok ==> forall i | 0 <= i < |s| :: !IsDigit(s[i]))
  {
  }

  method SplitName(s: string) returns (p: Parts)
    ensures p == PartsOf(s)
  {
    var i := |s|;
    while i > 0 && !IsDigit(s[i - 1])
      invariant 0 <= i <= |s|
      invariant DigitEnd(s, |s|) == DigitEnd(s, i)
    {
      i := i - 1;
    }
    if i == 0 {
      return Parts(s, "", "", false);
    }
    var end, start := i, i;
    while start > 0 && IsDigit(s[start - 1])
      invariant 0 <= start <= end
      invariant DigitStart(s, end) == DigitStart(s, start)
    {
      start := start - 1;
    }
    return Parts(s[..start], s[start..end], s[end..], true);
  }

  /** strconv.Atoi of a digit run, the error ignored: too large a run is MaxInt64. */
  function MustAtoi(s: string): nat
    requires AllDigits(s)
  {
    if Value(s) <= MAX_INT then Value(s) else MAX_INT
  }

  // ---------- Compressing ----------

  datatype Token = Token(digits: string, val: nat)

  function TokenOf(digits: string): Token
    requires AllDigits(digits)
  {
    Token(digits, MustAtoi(digits))
  }

  /** b continues a range that ends with a: the next number, at the same width. */
  predicate Follows(a: Token, b: Token) {
    b.val == a.val + 1 && |b.digits| == |a.digits|
  }

  /** The last index of the range that starts with k. */
  function RangeEnd(toks: seq<Token>, k: nat): (e: nat)
    requires k < |toks|
    ensures k <= e < |toks|
    decreases |toks| - k
  {
    if k + 1 < |toks| && Follows(toks[k], toks[k + 1]) then RangeEnd(toks, k + 1) else k
  }

  function Item(toks: seq<Token>, k: nat, e: nat): string
    requires k <= e < |toks|
  {
    if e == k then toks[k].digits else toks[k].digits + "-" + toks[e].digits
  }

  /** The bracket items of toks[k..]. */
  function Items(toks: seq<Token>, k: nat): seq<string>
    requires k <= |toks|
    decreases |toks| - k
  {
    if k == |toks| then [] else
      var e := RangeEnd(toks, k);
      [Item(toks, k, e)] + Items(toks, e + 1)
  }

  lemma ItemsStep(items: seq<string>, toks: seq<Token>, k: nat)
    requires k < |toks|
    ensures var e := RangeEnd(toks, k);
      items + Items(toks, k) == (items + [Item(toks, k, e)]) + Items(toks, e + 1)
  {
  }

  method RangeItems(toks: seq<Token>) returns (items: seq<string>)
    ensures items == Items(toks, 0)
  {
    items := [];
    var k := 0;
    while k < |toks|
      invariant 0 <= k <= |toks|
      invariant items + Items(toks, k) == Items(toks, 0)
    {
      var start := k;
      while k + 1 < |toks| && Follows(toks[k], toks[k + 1])
        invariant start <= k < |toks|
        invariant RangeEnd(toks, start) == RangeEnd(toks, k)
      {
        k := k + 1;
      }
      ItemsStep(items, toks, start);
      items := items + [Item(toks, start, k)];
      k := k + 1;
    }
    assert items + [] == items;
  }

  predicate SameGroup(h: string, p: Parts) {
    var q := PartsOf(h);
    q.ok && q.prefix == p.prefix && q.suffix == p.suffix
  }

  /** One past the last name from j on that shares p's prefix and suffix. */
  function GroupEnd(hosts: seq<string>, j: nat, p: Parts): (e: nat)
    requires j <= |hosts|
    ensures j <= e <= |hosts|
    decreases |hosts| - j
  {
    if j < |hosts| && SameGroup(hosts[j], p) then GroupEnd(hosts, j + 1, p) else j
  }

  function TokensOf(hosts: seq<string>): (toks: seq<Token>)
    ensures |toks| == |hosts|
  {
    seq(|hosts|, i requires 0 <= i < |hosts| => TokenOf(PartsOf(hosts[i]).digits))
  }

  function GroupBlock(p: Parts, toks: seq<Token>): string
    requires |toks| > 0
  {
    if |toks| == 1 then p.prefix + toks[0].digits + p.suffix
    else p.prefix + "[" + Join(Items(toks, 0), ",") + "]" + p.suffix
  }

  /** The blocks of hosts[i..]. */
  function Blocks(hosts: seq<string>, i: nat): seq<string>
    requires i <= |hosts|
    decreases |hosts| - i
  {
    if i == |hosts| then []
    else
      var p := PartsOf(hosts[i]);
      if !p.ok then [hosts[i]] + Blocks(hosts, i + 1)
      else
        var j := GroupEnd(hosts, i + 1, p);
        [GroupBlock(p, TokensOf(hosts[i..j]))] + Blocks(hosts, j)
  }

  /** The block that starts at hosts[i], and where it ends. */
  function BlockAt(hosts: seq<string>, i: nat): string
    requires i < |hosts|
  {
    var p := PartsOf(hosts[i]);
    if p.ok then GroupBlock(p, TokensOf(hosts[i..BlockEnd(hosts, i)])) else hosts[i]
  }

  function BlockEnd(hosts: seq<string>, i: nat): (j: nat)
    requires i < |hosts|
    ensures i < j <= |hosts|
  {
    var p := PartsOf(hosts[i]);
    if p.ok then GroupEnd(hosts, i + 1, p) else i + 1
  }

  function Compress(hosts: seq<string>): string {
    Join(Blocks(hosts, 0), ",")
  }

  lemma TokensSnoc(hosts: seq<string>, i: nat, j: nat)
    requires i <= j < |hosts|
    ensures TokensOf(hosts[i..j + 1]) == TokensOf(hosts[i..j]) + [TokenOf(PartsOf(hosts[j]).digits)]
  {
    assert hosts[i..j + 1] == hosts[i..j] + [hosts[j]];
  }

  /** The tokens of the group that starts at i, and where it ends. */
  method GatherGroup(hosts: seq<string>, i: nat, p: Parts) returns (toks: seq<Token>, j: nat)
    requires i < |hosts| && p == PartsOf(hosts[i]) && p.ok
    ensures j == GroupEnd(hosts, i + 1, p) && i < j && toks == TokensOf(hosts[i..j])
  {
    toks := [TokenOf(p.digits)];
    j := i + 1;
    TokensSnoc(hosts, i, i);
    while j < |hosts|
      invariant i < j <= |hosts|
      invariant toks == TokensOf(hosts[i..j])
      invariant GroupEnd(hosts, i + 1, p) == GroupEnd(hosts, j, p)
    {
      var q := SplitName(hosts[j]);
      GroupStep(hosts, j, p, q);
      if !q.ok || q.prefix != p.prefix || q.suffix != p.suffix {
        break;
      }
      TokensSnoc(hosts, i, j);
      toks := toks + [TokenOf(q.digits)];
      j := j + 1;
    }
  }

  lemma GroupStep(hosts: seq<string>, j: nat, p: Parts, q: Parts)
    requires j < |hosts| && q == PartsOf(hosts[j])
    ensures GroupEnd(hosts, j, p) ==
      if q.ok && q.prefix == p.prefix && q.suffix == p.suffix then GroupEnd(hosts, j + 1, p) else j
  {
  }

  method GroupText(p: Parts, toks: seq<Token>) returns (b: string)
    requires |toks| > 0
    ensures b == GroupBlock(p, toks)
  {
    if |toks| == 1 {
      return p.prefix + toks[0].digits + p.suffix;
    }
    var items := RangeItems(toks);
    return p.prefix + "[" + Join(items, ",") + "]" + p.suffix;
  }

  lemma BlocksStep(out: seq<string>, hosts: seq<string>, i: nat)
    requires i < |hosts|
    ensures out + Blocks(hosts, i) == (out + [BlockAt(hosts, i)]) + Blocks(hosts, BlockEnd(hosts, i))
  {
    ConcatStep(out, BlockAt(hosts, i), Blocks(hosts, BlockEnd(hosts, i)));
  }

  method CompressNodelist(hosts: seq<string>) returns (s: string)
    ensures s == Compress(hosts)
  {
    var out: seq<string> := [];
    var i := 0;
    while i < |hosts|
      invariant 0 <= i <= |hosts|
      invariant out + Blocks(hosts, i) == Blocks(hosts, 0)
    {
      var p := SplitName(hosts[i]);
      BlocksStep(out, hosts, i);
      if !p.ok {
        out := out + [hosts[i]];
        i := i + 1;
      } else {
        var toks, j := GatherGroup(hosts, i, p);
        var block := GroupText(p, toks);
        out := out + [block];
        i := j;
      }
    }
    assert out + [] == out;
    s := Join(out, ",");
  }

  // ---------- Expanding ----------

  /** a in front of the first part. */
  function Prepend(a: string, r: Result<seq<string>>): (p: Result<seq<string>>)
    requires r.Ok? ==> |r.value| > 0
    ensures p.Ok? ==> |p.value| > 0
  {
    if r.Err? then r else Ok([a + r.value[0]] + r.value[1..])
  }

  /** The parts of s between commas outside brackets, depth brackets being open. */
  function SplitTop(s: string, depth: nat): (r: Result<seq<string>>)
    ensures r.Ok? ==> |r.value| > 0
  {
    if s == [] then (if depth != 0 then Err(UnmatchedOpen) else Ok([[]]))
    else if s[0] == '[' then Prepend([s[0]], SplitTop(s[1..], depth + 1))
    else if s[0] == ']' then (if depth == 0 then Err(UnmatchedClose) else Prepend([s[0]], SplitTop(s[1..], depth - 1)))
    else if s[0] == ',' && depth == 0 then
      var r := SplitTop(s[1..], 0);
      if r.Err? then r else Ok([[]] + r.value)
    else Prepend([s[0]], SplitTop(s[1..], depth))
  }

  /** parts, then the open part cur, then what follows. */
  function Resume(parts: seq<string>, cur: string, r: Result<seq<string>>): Result<seq<string>>
    requires r.Ok? ==> |r.value| > 0
  {
    var p := Prepend(cur, r);
    if p.Err? then p else Ok(parts + p.value)
  }

  lemma PrependTwice(a: string, b: string, r: Result<seq<string>>)
    requires r.Ok? ==> |r.value| > 0
    ensures Prepend(a, Prepend(b, r)) == Prepend(a + b, r)
  {
    if r.Ok? {
      assert ([b + r.value[0]] + r.value[1..])[1..] == r.value[1..];
      assert a + (b + r.value[0]) == a + b + r.value[0];
    }
  }

  lemma PrependNothing(r: Result<seq<string>>)
    requires r.Ok? ==> |r.value| > 0
    ensures Prepend([], r) == r && Resume([], [], r) == r
  {
    if r.Ok? {
      assert [] + r.value[0] == r.value[0];
      assert [r.value[0]] + r.value[1..] == r.value;
      assert [] + r.value == r.value;
    }
  }

  lemma ResumeEnd(parts: seq<string>, cur: string)
    ensures Resume(parts, cur, Ok([[]])) == Ok(parts + [cur])
  {
    var rest: seq<string> := [[]];
    assert cur + [] == cur && rest[1..] == [];
    assert [cur] + rest[1..] == [cur];
  }

  lemma ResumeStep(parts: seq<string>, cur: string, c: char, s: string, depth: nat)
    requires s != [] && s[0] == c
    ensures c == '[' ==> Resume(parts, cur, SplitTop(s, depth)) == Resume(parts, cur + [c], SplitTop(s[1..], depth + 1))
    ensures c == ']' && depth > 0
      ==> Resume(parts, cur, SplitTop(s, depth)) == Resume(parts, cur + [c], SplitTop(s[1..], depth - 1))
    ensures c == ']' && depth == 0 ==> Resume(parts, cur, SplitTop(s, depth)) == Err(UnmatchedClose)
    ensures c == ',' && depth == 0
      ==> Resume(parts, cur, SplitTop(s, depth)) == Resume(parts + [cur], [], SplitTop(s[1..], 0))
    ensures c != '[' && c != ']' && !(c == ',' && depth == 0)
      ==> Resume(parts, cur, SplitTop(s, depth)) == Resume(parts, cur + [c], SplitTop(s[1..], depth))
  {
    PrependTwice(cur, [c], SplitTop(s[1..], depth + 1));
    PrependTwice(cur, [c], SplitTop(s[1..], depth));
    if depth > 0 {
      PrependTwice(cur, [c], SplitTop(s[1..], depth - 1));
    }
    if c == ',' && depth == 0 {
      var r := SplitTop(s[1..], 0);
      PrependNothing(r);
      if r.Ok? {
        assert ([[]] + r.value)[1..] == r.value;
        assert cur + [] == cur;
        assert parts + ([cur] + r.value) == (parts + [cur]) + r.value;
      }
    }
  }

  method SplitTopLevel(s: string) returns (r: Result<seq<string>>)
    ensures r == if s == "" then Err(EmptyInput) else SplitTop(s, 0)
  {
    if s == "" {
      return Err(EmptyInput);
    }
    var parts: seq<string> := [];
    var depth, start, i := 0, 0, 0;
    PrependNothing(SplitTop(s, 0));
    assert s[0..] == s && s[0..0] == [];
    while i < |s|
      invariant 0 <= start <= i <= |s| && depth >= 0
      invariant Resume(parts, s[start..i], SplitTop(s[i..], depth)) == SplitTop(s, 0)
    {
      ResumeStep(parts, s[start..i], s[i], s[i..], depth);
      assert s[i..][1..] == s[i + 1..];
      assert s[start..i + 1] == s[start..i] + [s[i]];
      if s[i] == '[' {
        depth := depth + 1;
      } else if s[i] == ']' {
        if depth == 0 {
          return Err(UnmatchedClose);
        }
        depth := depth - 1;
      } else if s[i] == ',' && depth == 0 {
        parts := parts + [s[start..i]];
        start := i + 1;
        assert s[start..i + 1] == [];
      }
      i := i + 1;
    }
    assert s[i..] == [] && s[start..] == s[start..i];
    if depth != 0 {
      return Err(UnmatchedOpen);
    }
    ResumeEnd(parts, s[start..]);
    parts := parts + [s[start..]];
    return Ok(parts);
  }

  function NumberedName(prefix: string, n: nat, width: nat, suffix: string): string {
    prefix + Pad(n, width) + suffix
  }

  /** The names numbered from lo up to, not including, end. */
  function Numbered(prefix: string, lo: nat, end: nat, width: nat, suffix: string): seq<string>
    requires lo <= end
  {
    seq(end - lo, i requires 0 <= i => NumberedName(prefix, lo + i, width, suffix))
  }

  predicate DigitRun(s: string) {
    s != "" && AllDigits(s)
  }

  /** A single bracket item, "digits" or "start-end". */
  function ItemNames(prefix: string, item: string, suffix: string): Result<seq<string>> {
    if IndexOf(item, '-') >= 0
    then RangeText(prefix, item[..IndexOf(item, '-')], item[IndexOf(item, '-') + 1..], suffix)
    else if DigitRun(item) then Ok([prefix + item + suffix]) else Err(NonNumericValue)
  }

  function RangeText(prefix: string, lo: string, hi: string, suffix: string): Result<seq<string>> {
    if !DigitRun(lo) || !DigitRun(hi) then Err(NonNumericRange)
    else if MustAtoi(hi) < MustAtoi(lo) then Err(DescendingRange)
    else Ok(Numbered(prefix, MustAtoi(lo), MustAtoi(hi) + 1, |lo|, suffix))
  }

  method NumberNames(prefix: string, lo: nat, end: nat, width: nat, suffix: string) returns (out: seq<string>)
    requires lo <= end
    ensures out == Numbered(prefix, lo, end, width, suffix)
  {
    out := [];
    for n := lo to end
      invariant out == Numbered(prefix, lo, n, width, suffix)
    {
      out := out + [NumberedName(prefix, n, width, suffix)];
    }
  }

  method ExpandItem(prefix: string, item: string, suffix: string) returns (r: Result<seq<string>>)
    ensures r == ItemNames(prefix, item, suffix)
  {
    var dash := IndexOf(item, '-');
    if dash < 0 {
      if !DigitRun(item) {
        return Err(NonNumericValue);
      }
      return Ok([prefix + item + suffix]);
    }
    var lo, hi := item[..dash], item[dash + 1..];
    if !DigitRun(lo) || !DigitRun(hi) {
      return Err(NonNumericRange);
    }
    var loN, hiN := MustAtoi(lo), MustAtoi(hi);
    if hiN < loN {
      return Err(DescendingRange);
    }
    var out := NumberNames(prefix, loN, hiN + 1, |lo|, suffix);
    return Ok(out);
  }

  function Appended(a: seq<string>, r: Result<seq<string>>): Result<seq<string>> {
    if r.Err? then r else Ok(a + r.value)
  }

  /** The names of rs[k..] in one list; the first error wins. */
  function Chain(rs: seq<Result<seq<string>>>, k: nat): Result<seq<string>>
    requires k <= |rs|
    decreases |rs| - k
  {
    if k == |rs| then Ok([]) else if rs[k].Err? then rs[k] else Appended(rs[k].value, Chain(rs, k + 1))
  }

  /** What each text expands to. */
  function Results(texts: seq<string>, expand: string -> Result<seq<string>>): (rs: seq<Result<seq<string>>>)
    ensures |rs| == |texts|
  {
    seq(|texts|, i requires 0 <= i < |texts| => expand(texts[i]))
  }

  function ItemExpander(prefix: string, suffix: string): string -> Result<seq<string>> {
    (item: string) => ItemNames(prefix, item, suffix)
  }

  function BlockNames(b: string): Result<seq<string>> {
    if b == "" then Err(EmptyBlock) else Bracketed(b, IndexOf(b, '['), IndexOf(b, ']'))
  }

  /** The names of a block whose first brackets are at open and close, -1 where it has none. */
  function Bracketed(b: string, open: int, close: int): Result<seq<string>>
    requires open < |b| && close < |b| && (open >= 0 ==> open != close)
  {
    if open < 0 then (if ']' in b then Err(UnmatchedClose) else Ok([b]))
    else if close < 0 || close < open then Err(UnmatchedOpen)
    else if '[' in b[close + 1..] || ']' in b[close + 1..] then Err(MalformedBrackets)
    else Chain(Results(Split(b[open + 1..close], ','), ItemExpander(b[..open], b[close + 1..])), 0)
  }

  function BlockExpander(): string -> Result<seq<string>> {
    (b: string) => BlockNames(b)
  }

  function Expand(s: string): Result<seq<string>> {
    var blocks := if s == "" then Err(EmptyInput) else SplitTop(s, 0);
    if blocks.Err? then blocks else Chain(Results(blocks.value, BlockExpander()), 0)
  }

  lemma AppendedTwice(a: seq<string>, b: seq<string>, r: Result<seq<string>>)
    ensures Appended(a, Appended(b, r)) == Appended(a + b, r)
    ensures Appended([], r) == r
  {
    if r.Ok? {
      assert a + (b + r.value) == a + b + r.value;
      assert [] + r.value == r.value;
    }
  }

  method ExpandBlock(b: string) returns (r: Result<seq<string>>)
    ensures r == BlockNames(b)
  {
    if b == "" {
      return Err(EmptyBlock);
    }
    var open := IndexOf(b, '[');
    if open < 0 {
      if ']' in b {
        return Err(UnmatchedClose);
      }
      return Ok([b]);
    }
    var close := IndexOf(b, ']');
    if close < 0 || close < open {
      return Err(UnmatchedOpen);
    }
    var prefix, suffix, inner := b[..open], b[close + 1..], b[open + 1..close];
    if '[' in suffix || ']' in suffix {
      return Err(MalformedBrackets);
    }
    r := ExpandItems(prefix, Split(inner, ','), suffix);
  }

  method ExpandItems(prefix: string, items: seq<string>, suffix: string) returns (r: Result<seq<string>>)
    ensures r == Chain(Results(items, ItemExpander(prefix, suffix)), 0)
  {
    ghost var rs := Results(items, ItemExpander(prefix, suffix));
    var out: seq<string> := [];
    AppendedTwice([], [], Chain(rs, 0));
    for i := 0 to |items|
      invariant Appended(out, Chain(rs, i)) == Chain(rs, 0)
    {
      var expanded := ExpandItem(prefix, items[i], suffix);
      assert expanded == rs[i];
      if expanded.Err? {
        return Err(expanded.reason);
      }
      AppendedTwice(out, expanded.value, Chain(rs, i + 1));
      out := out + expanded.value;
    }
    assert out + [] == out;
    return Ok(out);
  }

  method ExpandNodelist(s: string) returns (r: Result<seq<string>>)
    ensures r == Expand(s)
  {
    var blocks := SplitTopLevel(s);
    if blocks.Err? {
      return Err(blocks.reason);
    }
    ghost var rs := Results(blocks.value, BlockExpander());
    var out: seq<string> := [];
    AppendedTwice([], [], Chain(rs, 0));
    for i := 0 to |blocks.value|
      invariant Appended(out, Chain(rs, i)) == Chain(rs, 0)
    {
      var names := ExpandBlock(blocks.value[i]);
      assert names == rs[i];
      if names.Err? {
        return Err(names.reason);
      }
      AppendedTwice(out, names.value, Chain(rs, i + 1));
      out := out + names.value;
    }
    assert out + [] == out;
    return Ok(out);
  }

  // ---------- The round trip ----------

  /** A character that means nothing in hostlist syntax. */
  predicate Plain(c: char) {
    c != ',' && c != '[' && c != ']'
  }

  ghost predicate AllPlain(s: string) {
    forall i | 0 <= i < |s| :: Plain(s[i])
  }

  ghost predicate NoBrackets(s: string) {
    forall i | 0 <= i < |s| :: s[i] != '[' && s[i] != ']'
  }

  /** A name the syntax can carry: not empty, no comma or bracket, and a last digit
      run below the largest int. */
  ghost predicate HostName(h: string) {
    h != "" && AllPlain(h) && Value(PartsOf(h).digits) < MAX_INT
  }

  lemma {:induction false} RangeIsNumbered(toks: seq<Token>, k: nat, j: nat)
    requires k < |toks| && k <= j <= RangeEnd(toks, k)
    ensures toks[j].val == toks[k].val + (j - k) && |toks[j].digits| == |toks[k].digits|
    decreases j - k
  {
    if k < j {
      RangeIsNumbered(toks, k + 1, j);
    }
  }

  ghost predicate TrueTokens(toks: seq<Token>) {
    forall i | 0 <= i < |toks| ::
      DigitRun(toks[i].digits) && toks[i].val == Value(toks[i].digits) < MAX_INT
  }

  function NamesOfTokens(prefix: string, toks: seq<Token>, suffix: string): seq<string> {
    seq(|toks|, i requires 0 <= i < |toks| => prefix + toks[i].digits + suffix)
  }

  lemma DashIsAfterDigits(lo: string, hi: string)
    requires AllDigits(lo)
    ensures IndexOf(lo + "-" + hi, '-') == |lo|
  {
    assert forall c | c in lo :: IsDigit(c);
    assert '-' !in lo;
    IndexOfFirst(lo, '-', hi);
  }

  lemma NumberedAt(prefix: string, toks: seq<Token>, k: nat, j: nat, suffix: string)
    requires k < |toks| && k <= j <= RangeEnd(toks, k) && TrueTokens(toks)
    ensures toks[k].val + (j - k) == toks[j].val
    ensures NumberedName(prefix, toks[j].val, |toks[k].digits|, suffix) == prefix + toks[j].digits + suffix
  {
    RangeIsNumbered(toks, k, j);
    PadOfValue(toks[j].digits);
  }

  lemma NumberedIs(prefix: string, toks: seq<Token>, k: nat, e: nat, suffix: string)
    requires k < |toks| && e == RangeEnd(toks, k) && TrueTokens(toks)
    ensures toks[k].val <= toks[e].val
    ensures Numbered(prefix, toks[k].val, toks[e].val + 1, |toks[k].digits|, suffix)
         == NamesOfTokens(prefix, toks[k..e + 1], suffix)
  {
    RangeIsNumbered(toks, k, e);
    var a := Numbered(prefix, toks[k].val, toks[e].val + 1, |toks[k].digits|, suffix);
    var b := NamesOfTokens(prefix, toks[k..e + 1], suffix);
    forall i | 0 <= i < |a|
      ensures a[i] == b[i]
    {
      SameName(prefix, toks, k, e, suffix, i);
    }
  }

  lemma SameName(prefix: string, toks: seq<Token>, k: nat, e: nat, suffix: string, i: nat)
    requires k < |toks| && e == RangeEnd(toks, k) && TrueTokens(toks) && i <= e - k && toks[k].val <= toks[e].val
    requires toks[e].val == toks[k].val + (e - k)
    ensures Numbered(prefix, toks[k].val, toks[e].val + 1, |toks[k].digits|, suffix)[i]
         == NamesOfTokens(prefix, toks[k..e + 1], suffix)[i]
  {
    NumberedAt(prefix, toks, k, k + i, suffix);
  }

  lemma OneNumber(prefix: string, digits: string, suffix: string)
    requires DigitRun(digits)
    ensures ItemNames(prefix, digits, suffix) == Ok([prefix + digits + suffix])
  {
    assert forall c | c in digits :: IsDigit(c);
  }

  lemma RangeOfNumbers(prefix: string, lo: string, hi: string, suffix: string)
    requires DigitRun(lo)
    ensures ItemNames(prefix, lo + "-" + hi, suffix) == RangeText(prefix, lo, hi, suffix)
  {
    var item := lo + "-" + hi;
    DashIsAfterDigits(lo, hi);
    assert item[..|lo|] == lo && item[|lo| + 1..] == hi;
  }

  /** Expanding an item gives back the names of its range. */
  lemma ItemRoundTrip(prefix: string, toks: seq<Token>, k: nat, suffix: string)
    requires k < |toks| && TrueTokens(toks)
    ensures var e := RangeEnd(toks, k);
      ItemNames(prefix, Item(toks, k, e), suffix) == Ok(NamesOfTokens(prefix, toks[k..e + 1], suffix))
  {
    var e := RangeEnd(toks, k);
    if e == k {
      OneNumber(prefix, toks[k].digits, suffix);
      assert NamesOfTokens(prefix, toks[k..k + 1], suffix) == [prefix + toks[k].digits + suffix];
    } else {
      RangeOfNumbers(prefix, toks[k].digits, toks[e].digits, suffix);
      NumberedIs(prefix, toks, k, e, suffix);
    }
  }

  /** The names of each range of toks[k..]. */
  function RangeNames(prefix: string, toks: seq<Token>, k: nat, suffix: string): seq<Result<seq<string>>>
    requires k <= |toks|
    decreases |toks| - k
  {
    if k == |toks| then []
    else
      [Ok(NamesOfTokens(prefix, toks[k..RangeEnd(toks, k) + 1], suffix))] +
      RangeNames(prefix, toks, RangeEnd(toks, k) + 1, suffix)
  }

  lemma ResultsHead(text: string, rest: seq<string>, expand: string -> Result<seq<string>>)
    ensures Results([text] + rest, expand) == [expand(text)] + Results(rest, expand)
  {
  }

  /** expand reads every item as the names of its range. */
  ghost predicate ItemsAreRead(prefix: string, toks: seq<Token>, suffix: string,
                               expand: string -> Result<seq<string>>)
  {
    forall i | 0 <= i < |toks| ::
      expand(Item(toks, i, RangeEnd(toks, i))) == Ok(NamesOfTokens(prefix, toks[i..RangeEnd(toks, i) + 1], suffix))
  }

  /** Each item expands to its range. */
  lemma {:induction false} ItemsExpand(prefix: string, toks: seq<Token>, k: nat, suffix: string,
                                       expand: string -> Result<seq<string>>)
    requires k <= |toks| && ItemsAreRead(prefix, toks, suffix, expand)
    ensures Results(Items(toks, k), expand) == RangeNames(prefix, toks, k, suffix)
    decreases |toks| - k
  {
    if k < |toks| {
      ItemsExpand(prefix, toks, RangeEnd(toks, k) + 1, suffix, expand);
      ItemExpands(prefix, toks, k, suffix, expand, Items(toks, RangeEnd(toks, k) + 1));
    }
  }

  lemma ItemExpands(prefix: string, toks: seq<Token>, k: nat, suffix: string,
                    expand: string -> Result<seq<string>>, rest: seq<string>)
    requires k < |toks|
    requires expand(Item(toks, k, RangeEnd(toks, k)))
          == Ok(NamesOfTokens(prefix, toks[k..RangeEnd(toks, k) + 1], suffix))
    requires Results(rest, expand) == RangeNames(prefix, toks, RangeEnd(toks, k) + 1, suffix)
    ensures Results([Item(toks, k, RangeEnd(toks, k))] + rest, expand) == RangeNames(prefix, toks, k, suffix)
  {
    ResultsHead(Item(toks, k, RangeEnd(toks, k)), rest, expand);
  }

  lemma ExpandedItem(prefix: string, toks: seq<Token>, i: nat, suffix: string)
    requires TrueTokens(toks) && i < |toks|
    ensures ItemExpander(prefix, suffix)(Item(toks, i, RangeEnd(toks, i)))
         == Ok(NamesOfTokens(prefix, toks[i..RangeEnd(toks, i) + 1], suffix))
  {
    ItemRoundTrip(prefix, toks, i, suffix);
  }

  lemma ExpandedItems(prefix: string, toks: seq<Token>, suffix: string)
    requires TrueTokens(toks)
    ensures ItemsAreRead(prefix, toks, suffix, ItemExpander(prefix, suffix))
  {
    forall i | 0 <= i < |toks|
      ensures ItemExpander(prefix, suffix)(Item(toks, i, RangeEnd(toks, i)))
           == Ok(NamesOfTokens(prefix, toks[i..RangeEnd(toks, i) + 1], suffix))
    {
      ExpandedItem(prefix, toks, i, suffix);
    }
  }

  lemma AllItemsExpand(prefix: string, toks: seq<Token>, suffix: string)
    requires TrueTokens(toks)
    ensures Results(Items(toks, 0), ItemExpander(prefix, suffix)) == RangeNames(prefix, toks, 0, suffix)
  {
    ExpandedItems(prefix, toks, suffix);
    ItemsExpand(prefix, toks, 0, suffix, ItemExpander(prefix, suffix));
  }

  /** The ranges together are all the names. */
  lemma {:induction false} RangesCover(prefix: string, toks: seq<Token>, k: nat, suffix: string,
                                       rs: seq<Result<seq<string>>>, n: nat)
    requires k <= |toks| && n <= |rs| && rs[n..] == RangeNames(prefix, toks, k, suffix)
    ensures Chain(rs, n) == Ok(NamesOfTokens(prefix, toks[k..], suffix))
    decreases |toks| - k
  {
    if k == |toks| {
      assert |rs[n..]| == 0 && |NamesOfTokens(prefix, toks[k..], suffix)| == 0;
    } else {
      var m := RangeEnd(toks, k) + 1;
      assert rs[n] == rs[n..][0];
      assert rs[n + 1..] == rs[n..][1..];
      RangesCover(prefix, toks, m, suffix, rs, n + 1);
      NamesAppended(prefix, toks, k, m, suffix);
    }
  }

  lemma NamesAppended(prefix: string, toks: seq<Token>, k: nat, m: nat, suffix: string)
    requires k <= m <= |toks|
    ensures Appended(NamesOfTokens(prefix, toks[k..m], suffix), Ok(NamesOfTokens(prefix, toks[m..], suffix)))
         == Ok(NamesOfTokens(prefix, toks[k..], suffix))
  {
    assert NamesOfTokens(prefix, toks[k..], suffix)
        == NamesOfTokens(prefix, toks[k..m], suffix) + NamesOfTokens(prefix, toks[m..], suffix);
  }

  // ---------- Blocks stay whole ----------

  lemma {:induction false} PlainPrefix(a: string, s: string, depth: nat)
    requires if depth == 0 then AllPlain(a) else NoBrackets(a)
    ensures SplitTop(a + s, depth) == Prepend(a, SplitTop(s, depth))
  {
    if a == [] {
      assert a + s == s;
      PrependNothing(SplitTop(s, depth));
    } else {
      assert (a + s)[1..] == a[1..] + s;
      PlainPrefix(a[1..], s, depth);
      PrependTwice([a[0]], a[1..], SplitTop(s, depth));
      assert [a[0]] + a[1..] == a;
    }
  }

  /** prefix[inner]suffix is one part. */
  lemma BracketPrefix(prefix: string, inner: string, suffix: string, s: string)
    requires AllPlain(prefix) && NoBrackets(inner) && AllPlain(suffix)
    ensures var b := prefix + "[" + inner + "]" + suffix; SplitTop(b + s, 0) == Prepend(b, SplitTop(s, 0))
  {
    var b := prefix + "[" + inner + "]" + suffix;
    var t0 := "[" + (inner + ("]" + (suffix + s)));
    assert b + s == prefix + t0;
    PlainPrefix(prefix, t0, 0);
    OpenPrefix(inner, suffix, s);
    PrependTwice(prefix, "[" + (inner + ("]" + suffix)), SplitTop(s, 0));
    assert prefix + ("[" + (inner + ("]" + suffix))) == b;
  }

  lemma ClosePrefix(suffix: string, s: string)
    requires AllPlain(suffix)
    ensures SplitTop("]" + (suffix + s), 1) == Prepend("]" + suffix, SplitTop(s, 0))
  {
    var t := "]" + (suffix + s);
    assert t[1..] == suffix + s;
    PlainPrefix(suffix, s, 0);
    PrependTwice("]", suffix, SplitTop(s, 0));
  }

  lemma OpenPrefix(inner: string, suffix: string, s: string)
    requires NoBrackets(inner) && AllPlain(suffix)
    ensures SplitTop("[" + (inner + ("]" + (suffix + s))), 0) == Prepend("[" + (inner + ("]" + suffix)), SplitTop(s, 0))
  {
    var t1 := "]" + (suffix + s);
    var t0 := "[" + (inner + t1);
    var r := SplitTop(s, 0);
    assert t0[1..] == inner + t1;
    PlainPrefix(inner, t1, 1);
    ClosePrefix(suffix, s);
    PrependTwice(inner, "]" + suffix, r);
    PrependTwice("[", inner + ("]" + suffix), r);
  }

  lemma PrependEnd(b: string)
    ensures Prepend(b, Ok([[]])) == Ok([b])
  {
    var rest: seq<string> := [[]];
    assert b + [] == b && rest[1..] == [];
    assert [b] + rest[1..] == [b];
  }

  lemma PrependPart(b: string, parts: seq<string>)
    ensures Prepend(b, Ok([[]] + parts)) == Ok([b] + parts)
  {
    var rest: seq<string> := [[]] + parts;
    assert b + [] == b && rest[1..] == parts;
  }

  /** A block the splitter keeps whole, whatever follows it. */
  ghost predicate Whole(b: string) {
    forall s: string {:trigger b + s} :: SplitTop(b + s, 0) == Prepend(b, SplitTop(s, 0))
  }

  lemma {:induction false} SplitOfBlocks(blocks: seq<string>)
    requires |blocks| > 0
    requires forall i | 0 <= i < |blocks| :: Whole(blocks[i])
    ensures SplitTop(Join(blocks, ","), 0) == Ok(blocks)
  {
    var b := blocks[0];
    if |blocks| == 1 {
      assert b + "" == b;
      assert SplitTop(b + "", 0) == Prepend(b, SplitTop("", 0));
      PrependEnd(b);
      assert blocks == [b];
    } else {
      var rest := Join(blocks[1..], ",");
      SplitOfBlocks(blocks[1..]);
      var t := "," + rest;
      assert t[1..] == rest;
      assert SplitTop(t, 0) == Ok([[]] + blocks[1..]);
      assert Join(blocks, ",") == b + t;
      assert SplitTop(b + t, 0) == Prepend(b, SplitTop(t, 0));
      PrependPart(b, blocks[1..]);
      assert [b] + blocks[1..] == blocks;
    }
  }

  // ---------- One block ----------

  lemma ThreePlain(a: string, b: string, c: string)
    requires AllPlain(a + b + c)
    ensures AllPlain(a) && AllPlain(b) && AllPlain(c)
  {
    var h := a + b + c;
    assert forall i | 0 <= i < |a| :: h[i] == a[i];
    assert forall i | 0 <= i < |b| :: h[|a| + i] == b[i];
    assert forall i | 0 <= i < |c| :: h[|a| + |b| + i] == c[i];
  }

  lemma NamePartsPlain(h: string)
    requires AllPlain(h)
    ensures AllPlain(PartsOf(h).prefix) && AllPlain(PartsOf(h).suffix)
  {
    PartsOfName(h);
    ThreePlain(PartsOf(h).prefix, PartsOf(h).digits, PartsOf(h).suffix);
  }

  lemma PlainHasNone(s: string)
    requires AllPlain(s)
    ensures '[' !in s && ']' !in s && ',' !in s
  {
    assert forall c | c in s :: Plain(c);
  }

  lemma PlainBlock(b: string)
    requires b != "" && AllPlain(b)
    ensures BlockNames(b) == Ok([b]) && Whole(b)
  {
    PlainHasNone(b);
    PlainWhole(b);
  }

  lemma PlainWhole(b: string)
    requires AllPlain(b)
    ensures Whole(b)
  {
    forall s: string {:trigger b + s}
      ensures SplitTop(b + s, 0) == Prepend(b, SplitTop(s, 0))
    {
      PlainPrefix(b, s, 0);
    }
  }

  lemma ItemIsInner(toks: seq<Token>, k: nat, e: nat)
    requires k <= e < |toks| && TrueTokens(toks)
    ensures forall i | 0 <= i < |Item(toks, k, e)| :: Plain(Item(toks, k, e)[i])
  {
    assert DigitRun(toks[k].digits) && DigitRun(toks[e].digits);
  }

  lemma {:induction false} ItemsAreInner(toks: seq<Token>, k: nat)
    requires k <= |toks| && TrueTokens(toks)
    ensures forall i, j | 0 <= i < |Items(toks, k)| && 0 <= j < |Items(toks, k)[i]| :: Plain(Items(toks, k)[i][j])
    ensures k < |toks| ==> Items(toks, k) != []
    decreases |toks| - k
  {
    if k < |toks| {
      ItemIsInner(toks, k, RangeEnd(toks, k));
      ItemsAreInner(toks, RangeEnd(toks, k) + 1);
    }
  }

  lemma {:induction false} InnerText(items: seq<string>)
    requires forall i, j | 0 <= i < |items| && 0 <= j < |items[i]| :: Plain(items[i][j])
    ensures NoBrackets(Join(items, ","))
    ensures forall i | 0 <= i < |items| :: ',' !in items[i]
  {
    forall i, c | 0 <= i < |items| && c in items[i]
      ensures Plain(c)
    {
      var j :| 0 <= j < |items[i]| && items[i][j] == c;
    }
    JoinChars(items, ",", '[');
    JoinChars(items, ",", ']');
    var t := Join(items, ",");
    assert forall i | 0 <= i < |t| :: t[i] in t;
  }

  lemma BracketIndexes(b: string, prefix: string, inner: string, suffix: string)
    requires '[' !in prefix && ']' !in prefix && NoBrackets(inner) && b == prefix + "[" + inner + "]" + suffix
    ensures IndexOf(b, '[') == |prefix| && IndexOf(b, ']') == |prefix| + 1 + |inner|
  {
    IndexOfFirst(prefix, '[', inner + "]" + suffix);
    assert b == prefix + "[" + (inner + "]" + suffix);
    assert ']' !in inner && ']' !in prefix + "[" + inner;
    IndexOfFirst(prefix + "[" + inner, ']', suffix);
  }

  lemma BracketSlices(b: string, prefix: string, inner: string, suffix: string)
    requires b == prefix + "[" + inner + "]" + suffix
    ensures b[..|prefix|] == prefix && b[|prefix| + 1..|prefix| + 1 + |inner|] == inner
    ensures b[|prefix| + 2 + |inner|..] == suffix
  {
  }

  lemma BracketWhole(prefix: string, inner: string, suffix: string)
    requires AllPlain(prefix) && NoBrackets(inner) && AllPlain(suffix)
    ensures Whole(prefix + "[" + inner + "]" + suffix)
  {
    var b := prefix + "[" + inner + "]" + suffix;
    forall s: string {:trigger b + s}
      ensures SplitTop(b + s, 0) == Prepend(b, SplitTop(s, 0))
    {
      BracketPrefix(prefix, inner, suffix, s);
    }
  }

  /** Where a group's brackets are, and what is around them. */
  ghost predicate Bracketing(b: string, open: int, close: int, prefix: string, inner: string, suffix: string) {
    && 0 <= open < close < |b| && IndexOf(b, '[') == open && IndexOf(b, ']') == close
    && b[..open] == prefix && b[open + 1..close] == inner && b[close + 1..] == suffix
    && '[' !in suffix && ']' !in suffix
  }

  lemma BracketShape(b: string, prefix: string, inner: string, suffix: string)
    requires AllPlain(prefix) && NoBrackets(inner) && AllPlain(suffix) && b == prefix + "[" + inner + "]" + suffix
    ensures Bracketing(b, |prefix|, |prefix| + 1 + |inner|, prefix, inner, suffix)
  {
    PlainHasNone(prefix);
    PlainHasNone(suffix);
    BracketIndexes(b, prefix, inner, suffix);
    BracketSlices(b, prefix, inner, suffix);
  }

  lemma BracketNames(prefix: string, inner: string, items: seq<string>, suffix: string)
    requires AllPlain(prefix) && NoBrackets(inner) && AllPlain(suffix) && |items| > 0 && inner == Join(items, ",")
    requires forall i | 0 <= i < |items| :: ',' !in items[i]
    ensures BlockNames(prefix + "[" + inner + "]" + suffix) == Chain(Results(items, ItemExpander(prefix, suffix)), 0)
  {
    var b := prefix + "[" + inner + "]" + suffix;
    BracketShape(b, prefix, inner, suffix);
    NamesInside(b, |prefix|, |prefix| + 1 + |inner|, prefix, items, suffix);
  }

  lemma NamesInside(b: string, open: nat, close: nat, prefix: string, items: seq<string>, suffix: string)
    requires Bracketing(b, open, close, prefix, Join(items, ","), suffix)
    requires |items| > 0 && forall i | 0 <= i < |items| :: ',' !in items[i]
    ensures BlockNames(b) == Chain(Results(items, ItemExpander(prefix, suffix)), 0)
  {
    BlockNamesAt(b, open, close);
    SplitOfJoin(items, ',');
  }

  lemma BlockNamesAt(b: string, open: nat, close: nat)
    requires open < close < |b| && IndexOf(b, '[') == open && IndexOf(b, ']') == close
    requires '[' !in b[close + 1..] && ']' !in b[close + 1..]
    ensures BlockNames(b) == Chain(Results(Split(b[open + 1..close], ','), ItemExpander(b[..open], b[close + 1..])), 0)
  {
  }

  /** A bracketed group stays whole and expands to its names. */
  lemma BracketBlock(prefix: string, toks: seq<Token>, suffix: string)
    requires AllPlain(prefix) && AllPlain(suffix) && TrueTokens(toks) && |toks| > 0
    ensures var b := prefix + "[" + Join(Items(toks, 0), ",") + "]" + suffix;
      Whole(b) && BlockNames(b) == Ok(NamesOfTokens(prefix, toks, suffix))
  {
    var items := Items(toks, 0);
    ItemsAreInner(toks, 0);
    InnerText(items);
    BracketWhole(prefix, Join(items, ","), suffix);
    BracketNames(prefix, Join(items, ","), items, suffix);
    AllItemsExpand(prefix, toks, suffix);
    var rs := RangeNames(prefix, toks, 0, suffix);
    assert rs[0..] == rs && toks[0..] == toks;
    RangesCover(prefix, toks, 0, suffix, rs, 0);
  }

  // ---------- All blocks ----------

  lemma {:induction false} GroupIs(hosts: seq<string>, j: nat, p: Parts, i: nat)
    requires j <= |hosts| && j <= i < GroupEnd(hosts, j, p)
    ensures SameGroup(hosts[i], p)
    decreases i - j
  {
    if j < i {
      GroupIs(hosts, j + 1, p, i);
    }
  }

  lemma TokenOfName(h: string, p: Parts)
    requires HostName(h) && SameGroup(h, p)
    ensures var t := TokenOf(PartsOf(h).digits);
      p.prefix + t.digits + p.suffix == h && DigitRun(t.digits) && t.val == Value(t.digits) < MAX_INT
  {
    PartsOfName(h);
  }

  lemma GroupOf(group: seq<string>, p: Parts, toks: seq<Token>)
    requires 0 < |group| == |toks| && HostName(group[0]) && AllPlain(p.prefix) && AllPlain(p.suffix) && TrueTokens(toks)
    requires forall i | 0 <= i < |group| :: p.prefix + toks[i].digits + p.suffix == group[i]
    ensures Whole(GroupBlock(p, toks)) && BlockNames(GroupBlock(p, toks)) == Ok(group)
  {
    if |group| == 1 {
      assert group == [group[0]];
      PlainBlock(group[0]);
    } else {
      BracketBlock(p.prefix, toks, p.suffix);
      assert NamesOfTokens(p.prefix, toks, p.suffix) == group;
    }
  }

  lemma GroupRoundTrip(group: seq<string>, p: Parts)
    requires |group| > 0 && p.ok
    requires forall i | 0 <= i < |group| :: HostName(group[i]) && SameGroup(group[i], p)
    ensures Whole(GroupBlock(p, TokensOf(group))) && BlockNames(GroupBlock(p, TokensOf(group))) == Ok(group)
  {
    var toks := TokensOf(group);
    NamePartsPlain(group[0]);
    forall i | 0 <= i < |group|
      ensures p.prefix + toks[i].digits + p.suffix == group[i]
      ensures DigitRun(toks[i].digits) && toks[i].val == Value(toks[i].digits) < MAX_INT
    {
      TokenOfName(group[i], p);
    }
    GroupOf(group, p, toks);
  }

  lemma BlocksHead(hosts: seq<string>, i: nat, blocks: seq<string>, n: nat)
    requires i < |hosts| && n <= |blocks| && blocks[n..] == Blocks(hosts, i)
    ensures n < |blocks| && blocks[n] == BlockAt(hosts, i)
    ensures blocks[n + 1..] == Blocks(hosts, BlockEnd(hosts, i))
  {
    assert blocks[n] == blocks[n..][0];
    assert blocks[n + 1..] == blocks[n..][1..];
  }

  lemma BlockRoundTrip(hosts: seq<string>, i: nat)
    requires i < |hosts| && forall k | 0 <= k < |hosts| :: HostName(hosts[k])
    ensures Whole(BlockAt(hosts, i)) && BlockNames(BlockAt(hosts, i)) == Ok(hosts[i..BlockEnd(hosts, i)])
  {
    var p := PartsOf(hosts[i]);
    var j := BlockEnd(hosts, i);
    if p.ok {
      forall k | i <= k < j
        ensures SameGroup(hosts[k], p)
      {
        if k > i {
          GroupIs(hosts, i + 1, p, k);
        }
      }
      GroupRoundTrip(hosts[i..j], p);
    } else {
      PlainBlock(hosts[i]);
      assert hosts[i..j] == [hosts[i]];
    }
  }

  lemma {:induction false} BlocksAreWhole(hosts: seq<string>, i: nat, blocks: seq<string>, n: nat)
    requires i <= |hosts| && forall k | 0 <= k < |hosts| :: HostName(hosts[k])
    requires n <= |blocks| && blocks[n..] == Blocks(hosts, i)
    ensures forall k | n <= k < |blocks| :: Whole(blocks[k])
    decreases |hosts| - i
  {
    if i == |hosts| {
      assert |blocks[n..]| == 0;
    } else {
      BlocksHead(hosts, i, blocks, n);
      BlockRoundTrip(hosts, i);
      BlocksAreWhole(hosts, BlockEnd(hosts, i), blocks, n + 1);
    }
  }

  lemma AppendedOk(hosts: seq<string>, i: nat, j: nat)
    requires i <= j <= |hosts|
    ensures Appended(hosts[i..j], Ok(hosts[j..])) == Ok(hosts[i..])
  {
    assert hosts[i..] == hosts[i..j] + hosts[j..];
  }

  lemma {:induction false} BlocksRoundTrip(hosts: seq<string>, i: nat, blocks: seq<string>, n: nat)
    requires i <= |hosts| && forall k | 0 <= k < |hosts| :: HostName(hosts[k])
    requires n <= |blocks| && blocks[n..] == Blocks(hosts, i)
    ensures Chain(Results(blocks, BlockExpander()), n) == Ok(hosts[i..])
    decreases |hosts| - i
  {
    if i == |hosts| {
      assert |blocks[n..]| == 0 && hosts[i..] == [];
    } else {
      var j := BlockEnd(hosts, i);
      BlocksHead(hosts, i, blocks, n);
      BlockRoundTrip(hosts, i);
      BlocksRoundTrip(hosts, j, blocks, n + 1);
      AppendedOk(hosts, i, j);
    }
  }

  lemma JoinNotEmpty(parts: seq<string>)
    requires |parts| > 0 && Join(parts, ",") == ""
    ensures parts == [""]
  {
  }

  lemma EmptyBlockFails()
    ensures Chain(Results([""], BlockExpander()), 0) == Err(EmptyBlock)
  {
    assert Results([""], BlockExpander())[0] == Err(EmptyBlock);
  }

  /** Expanding a compressed list gives the list back. */
  lemma RoundTrip(hosts: seq<string>)
    requires |hosts| > 0
    requires forall k | 0 <= k < |hosts| :: HostName(hosts[k])
    ensures Expand(Compress(hosts)) == Ok(hosts)
  {
    var blocks := Blocks(hosts, 0);
    assert blocks[0..] == blocks && hosts[0..] == hosts;
    BlocksRoundTrip(hosts, 0, blocks, 0);
    BlocksAreWhole(hosts, 0, blocks, 0);
    BlocksHead(hosts, 0, blocks, 0);
    SplitOfBlocks(blocks);
    if Compress(hosts) == "" {
      JoinNotEmpty(blocks);
      EmptyBlockFails();
      assert false;
    }
  }

  // ---------- Nothing more could be collapsed ----------

  /** A range is maximal: every step in it follows, and the token after it does not. */
  lemma {:induction false} RangeIsMaximal(toks: seq<Token>, k: nat)
    requires k < |toks|
    ensures var e := RangeEnd(toks, k);
      && (forall j | k <= j < e :: Follows(toks[j], toks[j + 1]))
      && (e + 1 < |toks| ==> !Follows(toks[e], toks[e + 1]))
    decreases |toks| - k
  {
    if k + 1 < |toks| && Follows(toks[k], toks[k + 1]) {
      RangeIsMaximal(toks, k + 1);
    }
  }
}
