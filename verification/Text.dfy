/**
 The string routines of Go's standard library that the modelled code is written
 in (strconv.Itoa and Atoi, strings.Join, Split, Cut, IndexByte, EqualFold),
 with the facts the codecs need about them.
 */
module Text {

  datatype Option<+T> = None | Some(value: T)

  /** The largest value of Go's 64-bit int. */
  const MAX_INT: nat := 0x7fff_ffff_ffff_ffff

  // ---------- Decimal numerals ----------

  predicate IsDigit(c: char) {
    '0' <= c <= '9'
  }

  predicate AllDigits(s: string) {
    forall i | 0 <= i < |s| :: IsDigit(s[i])
  }

  function DigitChar(d: nat): (c: char)
    requires d < 10
    ensures IsDigit(c) && c as int - '0' as int == d
  {
    '0' + d as char
  }

  /** The number a digit string denotes, most significant digit first. */
  function Value(s: string): nat
    requires AllDigits(s)
  {
    if s == [] then 0 else 10 * Value(s[..|s| - 1]) + (s[|s| - 1] as int - '0' as int)
  }

  /** The shortest numeral of n. */
  function Numeral(n: nat): (s: string)
    ensures |s| > 0 && AllDigits(s)
  {
    if n < 10 then [DigitChar(n)] else Numeral(n / 10) + [DigitChar(n % 10)]
  }

  lemma {:induction false} ValueOfNumeral(n: nat)
    ensures Value(Numeral(n)) == n
  {
    if n >= 10 {
      ValueOfNumeral(n / 10);
      assert Numeral(n)[..|Numeral(n)| - 1] == Numeral(n / 10);
    } else {
      assert Numeral(n)[..0] == [];
    }
  }

  function Zeros(n: nat): (s: string)
    ensures |s| == n && forall i | 0 <= i < n :: s[i] == '0'
  {
    seq(n, _ => '0')
  }

  /** fmt's %0*d for a non-negative n: padded with zeros up to width, never cut. */
  function Pad(n: nat, width: nat): string {
    Zeros(if |Numeral(n)| < width then width - |Numeral(n)| else 0) + Numeral(n)
  }

  /** A digit string is recovered from its value and its width. */
  lemma {:induction false} PadOfValue(s: string)
    requires |s| > 0 && AllDigits(s)
    ensures |Numeral(Value(s))| <= |s|
    ensures Pad(Value(s), |s|) == s
  {
    var init, last := s[..|s| - 1], s[|s| - 1];
    var x := last as int - '0' as int;
    assert DigitChar(x) == last;
    if init == [] {
      assert Value(init) == 0;
      assert Value(s) == x;
      assert s == [last];
    } else {
      PadOfValue(init);
      assert s == init + [last];
      PadSnoc(init, Value(init), x);
    }
  }

  /** One more digit at the end of a padded numeral. */
  lemma PadSnoc(init: string, v: nat, x: nat)
    requires init != "" && |Numeral(v)| <= |init| && Pad(v, |init|) == init && x < 10
    ensures |Numeral(10 * v + x)| <= |init| + 1 && Pad(10 * v + x, |init| + 1) == init + [DigitChar(x)]
  {
    if v == 0 {
      assert Numeral(0) == ['0'] && Numeral(x) == [DigitChar(x)];
      assert init == Zeros(|init| - 1) + ['0'] == Zeros(|init|);
    } else {
      assert (10 * v + x) / 10 == v && (10 * v + x) % 10 == x;
      assert Numeral(10 * v + x) == Numeral(v) + [DigitChar(x)];
      var zeros := Zeros(|init| - |Numeral(v)|);
      assert zeros + (Numeral(v) + [DigitChar(x)]) == (zeros + Numeral(v)) + [DigitChar(x)];
    }
  }

  /** strconv.Itoa */
  function Itoa(n: int): (s: string)
    ensures |s| > 0
    ensures AllDigits(if n < 0 then s[1..] else s)
    ensures n < 0 ==> s[0] == '-'
  {
    if n < 0 then ['-'] + Numeral(-n) else Numeral(n)
  }

  /** strconv.Atoi: an optional sign and at least one digit, within 64 bits. */
  function Atoi(s: string): Option<int> {
    var signed := |s| > 0 && (s[0] == '-' || s[0] == '+');
    var digits := if signed then s[1..] else s;
    if |digits| == 0 || !AllDigits(digits) then None
    else
      var v := if signed && s[0] == '-' then -(Value(digits) as int) else Value(digits) as int;
      if -(MAX_INT as int) - 1 <= v <= MAX_INT then Some(v) else None
  }

  lemma AtoiOfItoa(n: int)
    requires -(MAX_INT as int) - 1 <= n <= MAX_INT
    ensures Atoi(Itoa(n)) == Some(n)
  {
    if n < 0 {
      ValueOfNumeral(-n);
      assert Itoa(n)[1..] == Numeral(-n);
    } else {
      ValueOfNumeral(n);
      assert IsDigit(Numeral(n)[0]);
    }
  }

  // ---------- Searching, joining and splitting ----------

  /** strings.IndexByte: the first position of c, -1 when absent. */
  function IndexOf(s: string, c: char): (i: int)
    ensures -1 <= i < |s|
    ensures i >= 0 ==> s[i] == c && c !in s[..i]
    ensures i < 0 <==> c !in s
  {
    if s == [] then -1
    else if s[0] == c then 0
    else
      var r := IndexOf(s[1..], c);
      assert r >= 0 ==> s[..r + 1] == [s[0]] + s[1..][..r];
      if r < 0 then -1 else r + 1
  }

  lemma IndexOfFirst(a: string, c: char, b: string)
    requires c !in a
    ensures IndexOf(a + [c] + b, c) == |a|
  {
    var s := a + [c] + b;
    var i := IndexOf(s, c);
    assert s[|a|] == c;
    assert c in s;
    assert forall j | 0 <= j < |a| :: s[j] == a[j] && a[j] in a;
  }

  /** strings.Join */
  function Join(parts: seq<string>, sep: string): string {
    if |parts| == 0 then ""
    else if |parts| == 1 then parts[0]
    else parts[0] + sep + Join(parts[1..], sep)
  }

  /** strings.Split on a one-byte separator: always at least one part. */
  function Split(s: string, c: char): (r: seq<string>)
    ensures |r| >= 1
  {
    if s == [] then [[]]
    else
      var r := Split(s[1..], c);
      if s[0] == c then [[]] + r else [[s[0]] + r[0]] + r[1..]
  }

  lemma {:induction false} SplitPrefix(a: string, s: string, c: char)
    requires c !in a
    ensures Split(a + s, c) == [a + Split(s, c)[0]] + Split(s, c)[1..]
  {
    if a == [] {
      assert a + s == s;
      assert [] + Split(s, c)[0] == Split(s, c)[0];
    } else {
      assert a[0] in a;
      assert forall x | x in a[1..] :: x in a;
      SplitPrefix(a[1..], s, c);
      assert (a + s)[1..] == a[1..] + s;
      assert [a[0]] + (a[1..] + Split(s, c)[0]) == a + Split(s, c)[0];
    }
  }

  /** Splitting undoes joining when no part holds the separator. */
  lemma {:induction false} SplitOfJoin(parts: seq<string>, c: char)
    requires |parts| > 0
    requires forall i | 0 <= i < |parts| :: c !in parts[i]
    ensures Split(Join(parts, [c]), c) == parts
  {
    if |parts| == 1 {
      SplitPrefix(parts[0], "", c);
      assert parts[0] + "" == parts[0];
    } else {
      SplitOfJoin(parts[1..], c);
      var rest := [c] + Join(parts[1..], [c]);
      assert rest[1..] == Join(parts[1..], [c]);
      assert Split(rest, c) == [[]] + parts[1..];
      SplitPrefix(parts[0], rest, c);
      assert parts[0] + [c] + Join(parts[1..], [c]) == parts[0] + rest;
      assert parts[0] + [] == parts[0];
    }
  }

  lemma {:induction false} JoinChars(parts: seq<string>, sep: string, c: char)
    requires c !in sep
    requires forall i | 0 <= i < |parts| :: c !in parts[i]
    ensures c !in Join(parts, sep)
  {
    if |parts| > 1 {
      JoinChars(parts[1..], sep, c);
    }
  }

  /** strings.EqualFold, for the ASCII words Grid Engine prints. */
  predicate EqualFold(a: string, b: string) {
    |a| == |b| && forall i | 0 <= i < |a| :: Lower(a[i]) == Lower(b[i])
  }

  function Lower(c: char): char {
    if 'A' <= c <= 'Z' then c - 'A' + 'a' else c
  }

  /** strings.ToLower on ASCII */
  function ToLower(s: string): string {
    seq(|s|, i requires 0 <= i < |s| => Lower(s[i]))
  }

  /** strings.Contains */
  predicate Contains(s: string, sub: string) {
    sub <= s || (s != [] && Contains(s[1..], sub))
  }

  predicate IsSpace(c: char) {
    c == ' ' || c == '\t' || c == '\n' || c == '\r'
  }

  function TrimLeft(s: string): string {
    if s != [] && IsSpace(s[0]) then TrimLeft(s[1..]) else s
  }

  function TrimRight(s: string): string {
    if s != [] && IsSpace(s[|s| - 1]) then TrimRight(s[..|s| - 1]) else s
  }

  /** strings.TrimSpace */
  function TrimSpace(s: string): string {
    TrimRight(TrimLeft(s))
  }

  /** strings.FieldsFunc: the maximal runs of characters that are not separators. */
  function FieldsFunc(s: string, sep: char -> bool, open: string := ""): seq<string> {
    var closed := if open == "" then [] else [open];
    if s == [] then closed
    else if sep(s[0]) then closed + FieldsFunc(s[1..], sep)
    else FieldsFunc(s[1..], sep, open + [s[0]])
  }

  function Spaces(): char -> bool {
    c => IsSpace(c)
  }

  /** strings.Fields */
  function Fields(s: string): seq<string> {
    FieldsFunc(s, Spaces())
  }

  /** A run of other characters is one field. */
  lemma {:induction false} FieldsOpen(w: string, s: string, sep: char -> bool, open: string)
    requires forall i | 0 <= i < |w| :: !sep(w[i])
    ensures FieldsFunc(w + s, sep, open) == FieldsFunc(s, sep, open + w)
    decreases |w|
  {
    if w == "" {
      assert w + s == s && open + w == open;
    } else {
      assert (w + s)[1..] == w[1..] + s && open + w == (open + [w[0]]) + w[1..];
      FieldsOpen(w[1..], s, sep, open + [w[0]]);
    }
  }

  /** Separators are skipped, a word up to a separator is the first field, and so is the last
      word of all: which determines the fields of every text. */
  lemma FieldsAre(w: string, c: char, s: string, sep: char -> bool)
    requires w != "" && (forall i | 0 <= i < |w| :: !sep(w[i])) && sep(c)
    ensures FieldsFunc([c] + s, sep) == FieldsFunc(s, sep)
    ensures FieldsFunc(w + [c] + s, sep) == [w] + FieldsFunc(s, sep)
    ensures FieldsFunc(w, sep) == [w] && FieldsFunc("", sep) == []
  {
    assert ([c] + s)[1..] == s;
    assert w + [c] + s == w + ([c] + s) && w + "" == w && "" + w == w;
    FieldsOpen(w, [c] + s, sep, "");
    FieldsOpen(w, "", sep, "");
  }
}
