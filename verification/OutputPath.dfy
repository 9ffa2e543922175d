/**
 Rank output from the rank's pipe to srun's terminal: pumped into frames, framed
 onto one connection per host, read back, demultiplexed in whatever order the frames
 arrive, and flushed. For every rank and stream, what is shown is exactly what was
 written, with a label at each line start and the last line ended.
 */
module OutputPath {
  import opened Frames
  import opened Pump
  import opened Demux

  // ---------- What should be shown ----------

  /** The stream s byte by byte: the prefix at each line start, and a newline at the
      end if s stops inside a line. */
  function Render(prefix: seq<byte>, start: bool, s: seq<byte>): seq<byte>
    decreases |s|
  {
    if s == [] then (if start then [] else [NEWLINE])
    else (if start then prefix else []) + [s[0]] + Render(prefix, s[0] == NEWLINE, s[1..])
  }

  /** Without -l the rendering is the stream, and the newline a cut line lacks. */
  lemma {:induction false} RenderPlain(start: bool, s: seq<byte>)
    ensures Render([], start, s)
         == s + (if (if s == [] then start else s[|s| - 1] == NEWLINE) then [] else [NEWLINE])
    decreases |s|
  {
    if s != [] {
      RenderPlain(s[0] == NEWLINE, s[1..]);
      var tail := if s[|s| - 1] == NEWLINE then [] else [NEWLINE];
      assert Render([], s[0] == NEWLINE, s[1..]) == s[1..] + tail;
      assert [] + [s[0]] + (s[1..] + tail) == s + tail;
    }
  }

  lemma {:induction false} RenderInside(prefix: seq<byte>, data: seq<byte>, t: seq<byte>)
    requires NEWLINE !in data
    ensures Render(prefix, false, data + t) == data + Render(prefix, false, t)
  {
    if data == [] {
      assert data + t == t;
    } else {
      assert data[0] in data && forall x | x in data[1..] :: x in data;
      assert (data + t)[1..] == data[1..] + t;
      RenderInside(prefix, data[1..], t);
      assert [] + [data[0]] + (data[1..] + Render(prefix, false, t)) == data + Render(prefix, false, t);
    }
  }

  function Lead(prefix: seq<byte>, start: bool): seq<byte> {
    if start then prefix else []
  }

  lemma RenderData(prefix: seq<byte>, start: bool, data: seq<byte>, t: seq<byte>)
    requires NEWLINE !in data && data != []
    ensures Render(prefix, start, data + t) == Lead(prefix, start) + data + Render(prefix, false, t)
  {
    var lead, first, more := Lead(prefix, start), data[0], data[1..];
    assert first in data && forall x | x in more :: x in data;
    assert (data + t)[1..] == more + t;
    RenderInside(prefix, more, t);
    Regroup(lead, first, more, Render(prefix, false, t));
    assert data == [first] + more;
  }

  lemma Regroup(a: seq<byte>, x: byte, b: seq<byte>, c: seq<byte>)
    ensures a + [x] + (b + c) == a + ([x] + b) + c
  {
  }

  lemma RenderNewline(prefix: seq<byte>, start: bool, t: seq<byte>)
    ensures Render(prefix, start, [NEWLINE] + t) == Lead(prefix, start) + [NEWLINE] + Render(prefix, true, t)
  {
    assert ([NEWLINE] + t)[1..] == t;
  }

  /** A chunk's share of the rendering. */
  lemma RenderChunk(prefix: seq<byte>, start: bool, c: Chunk, t: seq<byte>)
    requires NEWLINE !in c.data && (!c.eol ==> c.data != [])
    ensures Render(prefix, start, Body(c) + t) == Lead(prefix, start) + Body(c) + Render(prefix, c.eol, t)
  {
    var lead := Lead(prefix, start);
    if !c.eol {
      assert Body(c) == c.data;
      RenderData(prefix, start, c.data, t);
    } else if c.data == [] {
      assert Body(c) == [NEWLINE];
      RenderNewline(prefix, start, t);
    } else {
      RenderData(prefix, start, c.data, [NEWLINE] + t);
      RenderNewline(prefix, false, t);
      assert Body(c) + t == c.data + ([NEWLINE] + t);
      var r := Render(prefix, true, t);
      assert lead + c.data + ([] + [NEWLINE] + r) == lead + Body(c) + r;
    }
  }

  // ---------- What one rank's frames are shown as ----------

  function Spoken(labelled: bool, fs: seq<Frame>, open: bool): seq<byte> {
    if fs == [] then [] else Written(labelled, fs[0], open) + Spoken(labelled, fs[1..], !IsEol(fs[0].flags))
  }

  function OpenAfter(fs: seq<Frame>, open: bool): bool {
    if fs == [] then open else !IsEol(fs[|fs| - 1].flags)
  }

  lemma {:induction false} SpokenSnoc(labelled: bool, fs: seq<Frame>, f: Frame, open: bool)
    ensures Spoken(labelled, fs + [f], open) == Spoken(labelled, fs, open) + Written(labelled, f, OpenAfter(fs, open))
  {
    if fs == [] {
      assert fs + [f] == [f];
      assert Spoken(labelled, [f][1..], !IsEol(f.flags)) == [];
    } else {
      assert (fs + [f])[1..] == fs[1..] + [f];
      SpokenSnoc(labelled, fs[1..], f, !IsEol(fs[0].flags));
    }
  }

  lemma OutFrameIs(rank: uint32, stderr: bool, c: Chunk)
    ensures var f := OutFrame(rank, stderr, c);
      f.kind == OUT && KeyOf(f) == Key(rank, stderr) && IsEol(f.flags) == c.eol
  {
  }

  lemma OpenAfterHead(f: Frame, fs: seq<Frame>, open: bool)
    ensures OpenAfter([f] + fs, open) == OpenAfter(fs, !IsEol(f.flags))
  {
  }

  lemma RenderPumped(prefix: seq<byte>, s: seq<byte>, open: bool)
    requires s != []
    ensures var c := ChunkOf(s);
      Render(prefix, !open, s) == Lead(prefix, !open) + Body(c) + Render(prefix, c.eol, s[SliceLength(s)..])
  {
    ChunkShape(s, 0);
    ChunkText(s);
    assert s == Body(ChunkOf(s)) + s[SliceLength(s)..];
    RenderChunk(prefix, !open, ChunkOf(s), s[SliceLength(s)..]);
  }

  lemma WrittenIs(labelled: bool, rank: uint32, stderr: bool, c: Chunk, open: bool)
    ensures Written(labelled, OutFrame(rank, stderr, c), open) == Lead(Prefix(labelled, rank), !open) + Body(c)
  {
    OutFrameIs(rank, stderr, c);
  }

  lemma AddTail(a: seq<byte>, b: seq<byte>, open: bool)
    ensures (a + b) + (if open then [NEWLINE] else []) == a + (b + (if open then [NEWLINE] else []))
  {
  }

  /** The frames of a pumped stream are shown as its rendering, once its last line is ended. */
  lemma {:induction false} SpokenIsRendered(labelled: bool, rank: uint32, stderr: bool, s: seq<byte>, open: bool)
    ensures var fs := Pumped(rank, stderr, s);
      Spoken(labelled, fs, open) + (if OpenAfter(fs, open) then [NEWLINE] else [])
      == Render(Prefix(labelled, rank), !open, s)
    decreases |s|
  {
    if s == [] {
      assert Pumped(rank, stderr, s) == [];
    } else {
      var c, t := ChunkOf(s), s[SliceLength(s)..];
      var f, fs := OutFrame(rank, stderr, c), Pumped(rank, stderr, t);
      OutFramesHead(rank, stderr, s);
      OutFrameIs(rank, stderr, c);
      assert ([f] + fs)[1..] == fs;
      OpenAfterHead(f, fs, open);
      SpokenIsRendered(labelled, rank, stderr, t, !c.eol);
      RenderPumped(Prefix(labelled, rank), s, open);
      WrittenIs(labelled, rank, stderr, c, open);
      AddTail(Lead(Prefix(labelled, rank), !open) + Body(c), Spoken(labelled, fs, !c.eol), OpenAfter(fs, !c.eol));
    }
  }

  // ---------- One demultiplexer, frames of many ranks ----------

  const BLANK := Screen([], [], map[])

  function Run(labelled: bool, fs: seq<Frame>): Screen {
    if fs == [] then BLANK else Handled(labelled, Run(labelled, fs[..|fs| - 1]), fs[|fs| - 1])
  }

  predicate Mine(f: Frame, k: Key) {
    f.kind == OUT && KeyOf(f) == k
  }

  /** The output frames of one rank and stream. */
  function Only(fs: seq<Frame>, k: Key): seq<Frame> {
    if fs == [] then []
    else Only(fs[..|fs| - 1], k) + (if Mine(fs[|fs| - 1], k) then [fs[|fs| - 1]] else [])
  }

  lemma HandledShown(labelled: bool, s: Screen, f: Frame, k: Key)
    ensures Shown(Handled(labelled, s, f), k)
         == Shown(s, k) + (if Mine(f, k) then Written(labelled, f, OpenIn(s.midline, k)) else [])
    ensures OpenIn(Handled(labelled, s, f).midline, k) == if Mine(f, k) then !IsEol(f.flags) else OpenIn(s.midline, k)
  {
    if f.kind == OUT {
      var w := Write(f.rank, Written(labelled, f, OpenIn(s.midline, KeyOf(f))));
      FromSnoc(s.stdout, w, k.rank);
      FromSnoc(s.stderr, w, k.rank);
    } else {
      assert Shown(s, k) + [] == Shown(s, k);
    }
  }

  /** What a rank shows depends on its own frames alone, whatever comes between them. */
  lemma {:induction false} RunShows(labelled: bool, fs: seq<Frame>, k: Key)
    ensures Shown(Run(labelled, fs), k) == Spoken(labelled, Only(fs, k), false)
    ensures OpenIn(Run(labelled, fs).midline, k) == OpenAfter(Only(fs, k), false)
  {
    if fs != [] {
      var init, f := fs[..|fs| - 1], fs[|fs| - 1];
      RunShows(labelled, init, k);
      HandledShown(labelled, Run(labelled, init), f, k);
      if Mine(f, k) {
        SpokenSnoc(labelled, Only(init, k), f, false);
      } else {
        assert Only(init, k) + [] == Only(init, k);
        assert Shown(Run(labelled, init), k) + [] == Shown(Run(labelled, init), k);
      }
    }
  }

  // ---------- Interleavings ----------

  /** all is an interleaving of parts: each part's elements in order, nothing else. */
  ghost predicate Merges(parts: seq<seq<Frame>>, all: seq<Frame>)
    decreases |all|, 1
  {
    if all == [] then forall i | 0 <= i < |parts| :: parts[i] == []
    else exists i | 0 <= i < |parts| :: Comes(parts, i, all)
  }

  /** The last element of all is the last of part i. */
  ghost predicate Comes(parts: seq<seq<Frame>>, i: nat, all: seq<Frame>)
    requires i < |parts| && all != []
    decreases |all|, 0
  {
    && parts[i] != [] && parts[i][|parts[i]| - 1] == all[|all| - 1]
    && Merges(parts[i := parts[i][..|parts[i]| - 1]], all[..|all| - 1])
  }

  lemma OnlyPrefix(fs: seq<Frame>, k: Key)
    requires fs != [] && Only(fs, k) == []
    ensures Only(fs[..|fs| - 1], k) == [] && !Mine(fs[|fs| - 1], k)
  {
  }

  /** If only part i has frames of a key, an interleaving has just those, in their order. */
  lemma {:induction false} OnlyOfMerge(parts: seq<seq<Frame>>, all: seq<Frame>, i: nat, k: Key)
    requires Merges(parts, all) && i < |parts|
    requires forall j | 0 <= j < |parts| && j != i :: Only(parts[j], k) == []
    ensures Only(all, k) == Only(parts[i], k)
    decreases |all|
  {
    if all != [] {
      var j :| 0 <= j < |parts| && Comes(parts, j, all);
      var before := parts[j := parts[j][..|parts[j]| - 1]];
      if j != i {
        OnlyPrefix(parts[j], k);
      }
      OnlyOfMerge(before, all[..|all| - 1], i, k);
    }
  }

  /** Frames of no key of any part do not appear. */
  lemma {:induction false} NoneOfMerge(parts: seq<seq<Frame>>, all: seq<Frame>, k: Key)
    requires Merges(parts, all) && forall j | 0 <= j < |parts| :: Only(parts[j], k) == []
    ensures Only(all, k) == []
    decreases |all|
  {
    if all != [] {
      var j :| 0 <= j < |parts| && Comes(parts, j, all);
      OnlyPrefix(parts[j], k);
      NoneOfMerge(parts[j := parts[j][..|parts[j]| - 1]], all[..|all| - 1], k);
    }
  }

  // ---------- The whole path ----------

  /** One output stream of a rank, as the rank wrote it. */
  datatype Source = Source(key: Key, bytes: seq<byte>)

  function Streams(sources: seq<Source>): (r: seq<seq<Frame>>)
    ensures |r| == |sources|
  {
    seq(|sources|, i requires 0 <= i < |sources| =>
      Pumped(sources[i].key.rank, sources[i].key.stderr, sources[i].bytes))
  }

  ghost predicate AllSendable(fs: seq<Frame>) {
    forall i | 0 <= i < |fs| :: Sendable(fs[i])
  }

  /** What a stepper sends: its ranks' pumped output and frames of other kinds, interleaved. */
  ghost predicate Sends(sources: seq<Source>, control: seq<Frame>, wire: seq<Frame>) {
    && (forall i | 0 <= i < |control| :: control[i].kind != OUT)
    && AllSendable(wire)
    && Merges(Streams(sources) + [control], wire)
  }

  lemma {:induction false} MergeFits(parts: seq<seq<Frame>>, all: seq<Frame>)
    requires Merges(parts, all) && forall i | 0 <= i < |parts| :: AllSendable(parts[i])
    ensures AllSendable(all)
    decreases |all|
  {
    if all != [] {
      var i :| 0 <= i < |parts| && Comes(parts, i, all);
      MergeFits(parts[i := parts[i][..|parts[i]| - 1]], all[..|all| - 1]);
    }
  }

  /** Output frames always fit, so a connection carries whatever its stepper sends. */
  lemma WireFits(sources: seq<Source>, control: seq<Frame>, wire: seq<Frame>)
    requires AllSendable(control) && Merges(Streams(sources) + [control], wire)
    ensures AllSendable(wire)
  {
    var parts := Streams(sources) + [control];
    forall i | 0 <= i < |parts|
      ensures AllSendable(parts[i])
    {
      if i < |sources| {
        var chunks := Chunks(sources[i].bytes);
        forall j | 0 <= j < |parts[i]|
          ensures Sendable(parts[i][j])
        {
          ChunkShape(sources[i].bytes, j);
          assert parts[i][j].payload == chunks[j].data;
        }
      }
    }
    MergeFits(parts, wire);
  }

  /** What the reader of each connection gets. */
  ghost function Read(wires: seq<seq<Frame>>): (r: seq<seq<Frame>>)
    requires forall h | 0 <= h < |wires| :: AllSendable(wires[h])
    ensures |r| == |wires|
  {
    seq(|wires|, h requires 0 <= h < |wires| && AllSendable(wires[h]) => ReadAll(EncodeAll(wires[h])))
  }

  lemma ReadIs(wires: seq<seq<Frame>>)
    requires forall h | 0 <= h < |wires| :: AllSendable(wires[h])
    ensures Read(wires) == wires
  {
    forall h | 0 <= h < |wires|
      ensures Read(wires)[h] == wires[h]
    {
      ReadAllOfEncodeAll(wires[h]);
    }
  }

  /** The frames srun handles, read from all connections in some order. */
  ghost predicate Arrives(wires: seq<seq<Frame>>, arrivals: seq<Frame>)
    requires forall h | 0 <= h < |wires| :: AllSendable(wires[h])
  {
    Merges(Read(wires), arrivals)
  }

  lemma {:induction false} OnlyAll(fs: seq<Frame>, k: Key)
    requires forall i | 0 <= i < |fs| :: Mine(fs[i], k)
    ensures Only(fs, k) == fs
  {
    if fs != [] {
      OnlyAll(fs[..|fs| - 1], k);
    }
  }

  lemma {:induction false} OnlyNone(fs: seq<Frame>, k: Key)
    requires forall i | 0 <= i < |fs| :: !Mine(fs[i], k)
    ensures Only(fs, k) == []
  {
    if fs != [] {
      OnlyNone(fs[..|fs| - 1], k);
    }
  }

  lemma OnlyOfPumped(source: Source, k: Key)
    ensures var fs := Pumped(source.key.rank, source.key.stderr, source.bytes);
      Only(fs, k) == if source.key == k then fs else []
  {
    var fs := Pumped(source.key.rank, source.key.stderr, source.bytes);
    var chunks := Chunks(source.bytes);
    forall i | 0 <= i < |fs|
      ensures Mine(fs[i], k) == (source.key == k)
    {
      OutFrameIs(source.key.rank, source.key.stderr, chunks[i]);
    }
    if source.key == k {
      OnlyAll(fs, k);
    } else {
      OnlyNone(fs, k);
    }
  }

  /** On one connection, a source's frames are its pumped stream. */
  lemma OnlyOnWire(sources: seq<Source>, control: seq<Frame>, wire: seq<Frame>, i: nat)
    requires Sends(sources, control, wire) && i < |sources|
    requires forall j | 0 <= j < |sources| && j != i :: sources[j].key != sources[i].key
    ensures Only(wire, sources[i].key)
         == Pumped(sources[i].key.rank, sources[i].key.stderr, sources[i].bytes)
  {
    var k := sources[i].key;
    var parts := Streams(sources) + [control];
    OnlyNone(control, k);
    forall j | 0 <= j < |parts| && j != i
      ensures Only(parts[j], k) == []
    {
      if j < |sources| {
        OnlyOfPumped(sources[j], k);
      }
    }
    OnlyOfMerge(parts, wire, i, k);
    OnlyOfPumped(sources[i], k);
  }

  /** A key that is not a source's has no frame on its connection. */
  lemma NothingOnWire(sources: seq<Source>, control: seq<Frame>, wire: seq<Frame>, k: Key)
    requires Sends(sources, control, wire)
    requires forall j | 0 <= j < |sources| :: sources[j].key != k
    ensures Only(wire, k) == []
  {
    var parts := Streams(sources) + [control];
    OnlyNone(control, k);
    forall j | 0 <= j < |parts|
      ensures Only(parts[j], k) == []
    {
      if j < |sources| {
        OnlyOfPumped(sources[j], k);
      }
    }
    NoneOfMerge(parts, wire, k);
  }

  ghost predicate Distinct(hosts: seq<seq<Source>>) {
    forall h, i, g, j | 0 <= h < |hosts| && 0 <= i < |hosts[h]| && 0 <= g < |hosts| && 0 <= j < |hosts[g]| ::
      hosts[h][i].key == hosts[g][j].key ==> h == g && i == j
  }

  ghost predicate Step(hosts: seq<seq<Source>>, controls: seq<seq<Frame>>, wires: seq<seq<Frame>>) {
    && |hosts| == |controls| == |wires|
    && Distinct(hosts)
    && forall h | 0 <= h < |hosts| :: Sends(hosts[h], controls[h], wires[h])
  }

  /** The frames srun handles for a source are that source's pumped stream. */
  lemma OnlyArriving(hosts: seq<seq<Source>>, controls: seq<seq<Frame>>, wires: seq<seq<Frame>>, arrivals: seq<Frame>,
                     h: nat, i: nat)
    requires Step(hosts, controls, wires) && Arrives(wires, arrivals)
    requires h < |hosts| && i < |hosts[h]|
    ensures Only(arrivals, hosts[h][i].key)
         == Pumped(hosts[h][i].key.rank, hosts[h][i].key.stderr, hosts[h][i].bytes)
  {
    var k := hosts[h][i].key;
    ReadIs(wires);
    forall g | 0 <= g < |wires| && g != h
      ensures Only(wires[g], k) == []
    {
      NothingOnWire(hosts[g], controls[g], wires[g], k);
    }
    OnlyOfMerge(wires, arrivals, h, k);
    OnlyOnWire(hosts[h], controls[h], wires[h], i);
  }

  /** Byte for byte: what srun shows for a rank's stream is that stream, labelled and ended. */
  lemma OutputIsFaithful(labelled: bool, hosts: seq<seq<Source>>, controls: seq<seq<Frame>>, wires: seq<seq<Frame>>,
                         arrivals: seq<Frame>, end: Screen, h: nat, i: nat)
    requires Step(hosts, controls, wires) && Arrives(wires, arrivals)
    requires Closing(Run(labelled, arrivals), end, {})
    requires h < |hosts| && i < |hosts[h]|
    ensures var k := hosts[h][i].key;
      Shown(end, k) == Render(Prefix(labelled, k.rank), true, hosts[h][i].bytes)
  {
    var k := hosts[h][i].key;
    OnlyArriving(hosts, controls, wires, arrivals, h, i);
    RunShows(labelled, arrivals, k);
    SpokenIsRendered(labelled, k.rank, k.stderr, hosts[h][i].bytes, false);
    assert Settled(Run(labelled, arrivals), end, {}, k);
  }

  /** And nothing is shown for a stream that is nobody's. */
  lemma NothingIsInvented(labelled: bool, hosts: seq<seq<Source>>, controls: seq<seq<Frame>>, wires: seq<seq<Frame>>,
                          arrivals: seq<Frame>, end: Screen, k: Key)
    requires Step(hosts, controls, wires) && Arrives(wires, arrivals)
    requires Closing(Run(labelled, arrivals), end, {})
    requires forall h, i | 0 <= h < |hosts| && 0 <= i < |hosts[h]| :: hosts[h][i].key != k
    ensures Shown(end, k) == []
  {
    ReadIs(wires);
    forall g | 0 <= g < |wires|
      ensures Only(wires[g], k) == []
    {
      NothingOnWire(hosts[g], controls[g], wires[g], k);
    }
    NoneOfMerge(wires, arrivals, k);
    RunShows(labelled, arrivals, k);
    assert Settled(Run(labelled, arrivals), end, {}, k);
  }

  // ---------- No tearing ----------

  /** Every write of a run of pumped frames ends at most one line, and only at its end,
      so another process's write can never split a line from its newline. */
  lemma WriteEndsItsLine(labelled: bool, source: Source, n: nat, open: bool)
    requires n < |Chunks(source.bytes)|
    ensures var f := Pumped(source.key.rank, source.key.stderr, source.bytes)[n];
      var w := Written(labelled, f, open);
      && NEWLINE !in w[..|w| - (if IsEol(f.flags) then 1 else 0)]
      && (IsEol(f.flags) ==> w != [] && w[|w| - 1] == NEWLINE)
  {
    var c := Chunks(source.bytes)[n];
    ChunkShape(source.bytes, n);
    OutFrameIs(source.key.rank, source.key.stderr, c);
    var w := Written(labelled, OutFrame(source.key.rank, source.key.stderr, c), open);
    var lead := if open then [] else Prefix(labelled, source.key.rank);
    assert NEWLINE !in lead;
    assert w[..|w| - (if c.eol then 1 else 0)] == lead + c.data;
  }
}
