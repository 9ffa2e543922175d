/**
 srun's demultiplexer: framed rank output written to stdout and stderr, labelled at
 line starts, one write per frame.
 */
module Demux {
  import opened Frames
  import opened Pump
  import Text

  datatype Key = Key(rank: uint32, stderr: bool)

  /** One Write call: the bytes, and the rank they are from. */
  datatype Write = Write(rank: uint32, bytes: seq<byte>)

  function KeyOf(f: Frame): Key {
    Key(f.rank, IsStderr(f.flags))
  }

  function Ascii(c: char): byte
    requires Text.IsDigit(c)
  {
    48 + (c as int - '0' as int)
  }

  function Bytes(s: string): seq<byte>
    requires Text.AllDigits(s)
  {
    seq(|s|, i requires 0 <= i < |s| && Text.IsDigit(s[i]) => Ascii(s[i]))
  }

  /** "<rank>: " */
  function Label(rank: uint32): seq<byte> {
    Bytes(Text.Numeral(rank)) + [58, 32]
  }

  /** The prefix of a new line, empty without -l. */
  function Prefix(labelled: bool, rank: uint32): seq<byte> {
    if labelled then Label(rank) else []
  }

  /** What a frame is written as, given whether its line is already open. */
  function Written(labelled: bool, f: Frame, open: bool): seq<byte> {
    (if open then [] else Prefix(labelled, f.rank)) + f.payload + (if IsEol(f.flags) then [NEWLINE] else [])
  }

  /** The bytes the writes of one rank add up to. */
  function From(writes: seq<Write>, rank: uint32): seq<byte> {
    if writes == [] then []
    else
      var last := writes[|writes| - 1];
      From(writes[..|writes| - 1], rank) + (if last.rank == rank then last.bytes else [])
  }

  /** What has been written for one rank on one stream. */
  function Shown(s: Screen, k: Key): seq<byte> {
    From(if k.stderr then s.stderr else s.stdout, k.rank)
  }

  predicate OpenIn(midline: map<Key, bool>, k: Key) {
    k in midline && midline[k]
  }

  /** All a Demux has done so far. */
  datatype Screen = Screen(stdout: seq<Write>, stderr: seq<Write>, midline: map<Key, bool>)

  /** The effect of one frame: one write, and whether the line stays open. */
  function Handled(labelled: bool, s: Screen, f: Frame): Screen {
    if f.kind != OUT then s
    else
      var k := KeyOf(f);
      var w := Write(f.rank, Written(labelled, f, OpenIn(s.midline, k)));
      Screen(if k.stderr then s.stdout else s.stdout + [w], if k.stderr then s.stderr + [w] else s.stderr,
             s.midline[k := !IsEol(f.flags)])
  }

  class Demux {
    const labelled: bool
    var stdout: seq<Write>
    var stderr: seq<Write>
    /** Per rank and stream, whether the last chunk left the line open. */
    var midline: map<Key, bool>

    constructor (labelled: bool)
      ensures this.labelled == labelled && stdout == [] && stderr == [] && midline == map[]
    {
      this.labelled := labelled;
      stdout, stderr, midline := [], [], map[];
    }

    function State(): Screen
      reads this
    {
      Screen(stdout, stderr, midline)
    }

    method Handle(f: Frame)
      modifies this
      ensures State() == Handled(labelled, old(State()), f)
    {
      if f.kind != OUT {
        return;
      }
      var k := Key(f.rank, IsStderr(f.flags));
      var line: seq<byte> := [];
      if labelled && !(k in midline && midline[k]) {
        line := line + Label(f.rank);
      }
      line := line + f.payload;
      if IsEol(f.flags) {
        line := line + [NEWLINE];
        midline := midline[k := false];
      } else {
        midline := midline[k := true];
      }
      assert line == Written(labelled, f, old(OpenIn(midline, k)));
      if IsStderr(f.flags) {
        stderr := stderr + [Write(f.rank, line)];
      } else {
        stdout := stdout + [Write(f.rank, line)];
      }
    }

    method EndLine(k: Key)
      modifies this
      ensures State() == LineEnded(old(State()), k)
    {
      if k.stderr {
        stderr := stderr + [Write(k.rank, [NEWLINE])];
      } else {
        stdout := stdout + [Write(k.rank, [NEWLINE])];
      }
      midline := midline[k := false];
    }

    /** Ends every open line, in no particular order: a Go map has none. */
    method Flush()
      modifies this
      ensures Closing(old(State()), State(), {})
    {
      ghost var was := State();
      var left := midline.Keys;
      CloseNone(was);
      while left != {}
        invariant left <= midline.Keys && Closing(was, State(), left)
        decreases |left|
      {
        var k :| k in left;
        CloseStep(was, State(), left, k);
        left := left - {k};
        if midline[k] {
          EndLine(k);
        }
      }
    }
  }

  lemma FromSnoc(writes: seq<Write>, w: Write, rank: uint32)
    ensures From(writes + [w], rank) == From(writes, rank) + (if w.rank == rank then w.bytes else [])
  {
    assert (writes + [w])[..|writes|] == writes;
  }

  function LineEnded(s: Screen, k: Key): Screen {
    var w := Write(k.rank, [NEWLINE]);
    Screen(if k.stderr then s.stdout else s.stdout + [w], if k.stderr then s.stderr + [w] else s.stderr,
           s.midline[k := false])
  }

  /** From was to now, k's line has been ended if it was open and k is not left. */
  ghost predicate Settled(was: Screen, now: Screen, left: set<Key>, k: Key) {
    && OpenIn(now.midline, k) == (k in left && OpenIn(was.midline, k))
    && Shown(now, k) == Shown(was, k) + (if OpenIn(was.midline, k) && k !in left then [NEWLINE] else [])
  }

  ghost predicate Closing(was: Screen, now: Screen, left: set<Key>) {
    forall k: Key :: Settled(was, now, left, k)
  }

  lemma CloseNone(s: Screen)
    ensures Closing(s, s, s.midline.Keys)
  {
  }

  lemma LineEndedShown(s: Screen, k: Key, j: Key)
    ensures Shown(LineEnded(s, k), j) == Shown(s, j) + (if j == k then [NEWLINE] else [])
    ensures OpenIn(LineEnded(s, k).midline, j) == (j != k && OpenIn(s.midline, j))
  {
    var w := Write(k.rank, [NEWLINE]);
    FromSnoc(s.stdout, w, j.rank);
    FromSnoc(s.stderr, w, j.rank);
  }

  lemma CloseStep(was: Screen, now: Screen, left: set<Key>, k: Key)
    requires Closing(was, now, left) && k in left && k in now.midline
    ensures Closing(was, if now.midline[k] then LineEnded(now, k) else now, left - {k})
  {
    var next := if now.midline[k] then LineEnded(now, k) else now;
    forall j: Key
      ensures Settled(was, next, left - {k}, j)
    {
      assert Settled(was, now, left, j);
      LineEndedShown(now, k, j);
      assert Shown(was, k) + [] == Shown(was, k);
    }
  }
}
