/**
 What srun shows of a rank's stream, said of its bytes alone: without -l the stream as it
 was written, with -l its lines, each behind the rank's number; the last line ended.
 */
module LabelledOutput {
  import opened Frames
  import opened Pump
  import opened Demux
  import opened OutputPath
  import Text

  // ---------- Numerals ----------

  predicate AsciiDigits(s: seq<byte>) {
    forall i | 0 <= i < |s| :: 48 <= s[i] <= 57
  }

  /** The number ASCII digits denote. */
  function Number(s: seq<byte>): nat
    requires AsciiDigits(s)
  {
    if s == [] then 0 else 10 * Number(s[..|s| - 1]) + (s[|s| - 1] as int - 48)
  }

  /** s is how n is written: digits, and no zero in front of others. */
  predicate NumeralOf(s: seq<byte>, n: nat) {
    s != [] && AsciiDigits(s) && Number(s) == n && (s[0] == 48 ==> |s| == 1)
  }

  lemma {:induction false} NumberOfBytes(s: string)
    requires Text.AllDigits(s)
    ensures AsciiDigits(Bytes(s)) && Number(Bytes(s)) == Text.Value(s)
  {
    if s != "" {
      var init := s[..|s| - 1];
      NumberOfBytes(init);
      assert Bytes(s)[..|s| - 1] == Bytes(init);
    }
  }

  lemma {:induction false} NumeralLeads(n: nat)
    ensures Text.Numeral(n)[0] == '0' <==> n == 0
    ensures n < 10 ==> |Text.Numeral(n)| == 1
  {
    if n >= 10 {
      NumeralLeads(n / 10);
    }
  }

  lemma LabelIs(rank: uint32)
    ensures NumeralOf(Bytes(Text.Numeral(rank)), rank) && Label(rank) == Bytes(Text.Numeral(rank)) + [58, 32]
  {
    NumberOfBytes(Text.Numeral(rank));
    Text.ValueOfNumeral(rank);
    NumeralLeads(rank);
  }

  // ---------- Lines ----------

  /** A stream with its last line ended. */
  function Ended(s: seq<byte>): seq<byte> {
    s + (if s != [] && s[|s| - 1] != NEWLINE then [NEWLINE] else [])
  }

  /** The lines of a stream, each with its newline. */
  function Lines(s: seq<byte>): seq<seq<byte>> {
    if s == [] then []
    else
      var i := NewlineAt(s);
      if i == |s| then [s] else [s[..i + 1]] + Lines(s[i + 1..])
  }

  /** The lines one after the other, each behind the label. */
  function Behind(lead: seq<byte>, lines: seq<seq<byte>>): seq<byte> {
    if lines == [] then [] else lead + lines[0] + Behind(lead, lines[1..])
  }

  lemma {:induction false} NewlineIsAt(a: seq<byte>, t: seq<byte>)
    requires NEWLINE !in a
    ensures NewlineAt(a + [NEWLINE] + t) == |a|
  {
    var s := a + [NEWLINE] + t;
    assert s[|a|] == NEWLINE;
    assert forall j | 0 <= j < |a| :: s[j] == a[j] && a[j] in a;
    assert forall i | |a| < i <= |s| :: s[..i][|a|] == NEWLINE;
  }

  lemma LinesHead(a: seq<byte>, t: seq<byte>)
    requires NEWLINE !in a
    ensures Lines(a + [NEWLINE] + t) == [a + [NEWLINE]] + Lines(t)
  {
    var s := a + [NEWLINE] + t;
    NewlineIsAt(a, t);
    assert s[..|a| + 1] == a + [NEWLINE] && s[|a| + 1..] == t;
  }

  lemma BehindHead(prefix: seq<byte>, line: seq<byte>, rest: seq<seq<byte>>)
    ensures Behind(prefix, [line] + rest) == prefix + line + Behind(prefix, rest)
    ensures rest == [] ==> Behind(prefix, [line] + rest) == prefix + line
  {
    assert ([line] + rest)[1..] == rest;
  }

  /** A line as it is shown: not empty, and its newline is its last byte. */
  predicate IsLine(line: seq<byte>) {
    line != [] && line[|line| - 1] == NEWLINE && NEWLINE !in line[..|line| - 1]
  }

  lemma EndedEndsSo(s: seq<byte>)
    requires Ended(s) == s && s != []
    ensures s[|s| - 1] == NEWLINE
  {
    assert |Ended(s)| == |s|;
  }

  lemma HasNewline(s: seq<byte>)
    requires NEWLINE in s
    ensures NewlineAt(s) < |s|
  {
    assert s[..|s|] == s;
  }

  lemma TailIsEnded(s: seq<byte>, i: nat)
    requires i < |s| && s[|s| - 1] == NEWLINE
    ensures Ended(s[i + 1..]) == s[i + 1..]
  {
    var t := s[i + 1..];
    if t != [] {
      assert t[|t| - 1] == s[|s| - 1];
    }
  }

  lemma CutAt(s: seq<byte>, i: nat)
    requires i < |s| && s[i] == NEWLINE
    ensures s == s[..i] + [NEWLINE] + s[i + 1..]
  {
  }

  lemma LinesStep(a: seq<byte>, t: seq<byte>)
    requires NEWLINE !in a
    ensures Lines(a + [NEWLINE] + t) == [a + [NEWLINE]] + Lines(t) && IsLine(a + [NEWLINE])
    ensures Behind([], [a + [NEWLINE]] + Lines(t)) == a + [NEWLINE] + Behind([], Lines(t))
  {
    LinesHead(a, t);
    BehindHead([], a + [NEWLINE], Lines(t));
    assert (a + [NEWLINE])[..|a|] == a;
    assert [] + (a + [NEWLINE]) == a + [NEWLINE];
  }

  /** The lines of an ended stream are its bytes, cut behind each newline. */
  lemma {:induction false} LinesAre(s: seq<byte>)
    requires Ended(s) == s
    ensures Behind([], Lines(s)) == s
    ensures forall i | 0 <= i < |Lines(s)| :: IsLine(Lines(s)[i])
    decreases |s|
  {
    if s != [] {
      EndedEndsSo(s);
      HasNewline(s);
      TailIsEnded(s, NewlineAt(s));
      CutAt(s, NewlineAt(s));
      var a, t := s[..NewlineAt(s)], s[NewlineAt(s) + 1..];
      LinesAre(t);
      LinesStep(a, t);
    }
  }

  lemma RenderLine(prefix: seq<byte>, a: seq<byte>, t: seq<byte>)
    requires NEWLINE !in a
    ensures Render(prefix, true, a + [NEWLINE] + t) == prefix + (a + [NEWLINE]) + Render(prefix, true, t)
  {
    RenderChunk(prefix, true, Chunk(a, true), t);
    assert Body(Chunk(a, true)) == a + [NEWLINE];
  }

  lemma RenderOpen(prefix: seq<byte>, a: seq<byte>)
    requires NEWLINE !in a && a != []
    ensures Render(prefix, true, a) == prefix + (a + [NEWLINE])
  {
    RenderData(prefix, true, a, []);
    assert a + [] == a && prefix + a + [NEWLINE] == prefix + (a + [NEWLINE]);
  }

  lemma EndedTail(a: seq<byte>, t: seq<byte>)
    ensures Ended(a + [NEWLINE] + t) == a + [NEWLINE] + Ended(t)
  {
  }

  /** The rendering puts its prefix before each line of the ended stream. */
  lemma {:induction false} RenderIsBehind(prefix: seq<byte>, s: seq<byte>)
    ensures Render(prefix, true, s) == Behind(prefix, Lines(Ended(s)))
    decreases |s|
  {
    if s != [] {
      var i := NewlineAt(s);
      var a := s[..i];
      if i == |s| {
        assert a == s && s[|s| - 1] in a;
        RenderOpen(prefix, s);
        assert Ended(s) == s + [NEWLINE] + [];
        LinesHead(s, []);
        BehindHead(prefix, s + [NEWLINE], []);
      } else {
        var t := s[i + 1..];
        assert s == a + [NEWLINE] + t;
        RenderLine(prefix, a, t);
        RenderIsBehind(prefix, t);
        EndedTail(a, t);
        LinesHead(a, Ended(t));
        BehindHead(prefix, a + [NEWLINE], Lines(Ended(t)));
      }
    }
  }

  // ---------- The whole path ----------

  /** Without -l: the stream itself, and a newline exactly if it stops inside a line. */
  lemma UnlabelledIsVerbatim(hosts: seq<seq<Source>>, controls: seq<seq<Frame>>, wires: seq<seq<Frame>>,
                             arrivals: seq<Frame>, end: Screen, h: nat, i: nat)
    requires Step(hosts, controls, wires) && Arrives(wires, arrivals)
    requires Closing(Run(false, arrivals), end, {})
    requires h < |hosts| && i < |hosts[h]|
    ensures var s := hosts[h][i].bytes;
      Shown(end, hosts[h][i].key) == s + if s != [] && s[|s| - 1] != NEWLINE then [NEWLINE] else []
  {
    OutputIsFaithful(false, hosts, controls, wires, arrivals, end, h, i);
    RenderPlain(true, hosts[h][i].bytes);
  }

  /** With -l: each line of the stream, the last one ended, behind the number of the rank it
      is from, written without leading zeros, a colon and a blank. */
  lemma LabelledLineByLine(hosts: seq<seq<Source>>, controls: seq<seq<Frame>>, wires: seq<seq<Frame>>,
                           arrivals: seq<Frame>, end: Screen, h: nat, i: nat)
    requires Step(hosts, controls, wires) && Arrives(wires, arrivals)
    requires Closing(Run(true, arrivals), end, {})
    requires h < |hosts| && i < |hosts[h]|
    ensures exists number ::
      && NumeralOf(number, hosts[h][i].key.rank)
      && Shown(end, hosts[h][i].key) == Behind(number + [58, 32], Lines(Ended(hosts[h][i].bytes)))
  {
    var k := hosts[h][i].key;
    OutputIsFaithful(true, hosts, controls, wires, arrivals, end, h, i);
    LabelIs(k.rank);
    RenderIsBehind(Label(k.rank), hosts[h][i].bytes);
  }
}
