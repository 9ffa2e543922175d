/**
 The stepper's output pump: a rank's byte stream cut into lines, a line longer
 than the buffer into full chunks, and the flag that says which chunk ended a line.
 */
module Pump {
  import opened Frames

  const NEWLINE: byte := 10

  /** The reader's buffer, and so the longest chunk. */
  const MAX_CHUNK: nat := 0x1_0000

  /** The first newline of s, |s| when there is none. */
  function NewlineAt(s: seq<byte>): (i: nat)
    ensures i <= |s| && NEWLINE !in s[..i] && (i < |s| ==> s[i] == NEWLINE)
  {
    if s == [] || s[0] == NEWLINE then 0
    else
      var i := NewlineAt(s[1..]);
      assert s[..i + 1] == [s[0]] + s[1..][..i];
      i + 1
  }

  datatype Status = Line | BufferFull | Ended

  /** How ReadSlice ends: a newline in the buffer, a full buffer, or the end of input. */
  function SliceStatus(s: seq<byte>): Status {
    var i := NewlineAt(s);
    if i < |s| && i < MAX_CHUNK then Line else if |s| >= MAX_CHUNK then BufferFull else Ended
  }

  /** How many bytes ReadSlice consumes. */
  function SliceLength(s: seq<byte>): (n: nat)
    ensures n <= |s| && (s != [] ==> n > 0)
  {
    match SliceStatus(s)
    case Line => NewlineAt(s) + 1
    case BufferFull => MAX_CHUNK
    case Ended => |s|
  }

  /** A chunk of output, without its newline. */
  datatype Chunk = Chunk(data: seq<byte>, eol: bool)

  function ChunkOf(s: seq<byte>): Chunk
    requires s != []
  {
    if SliceStatus(s) == Line then Chunk(s[..NewlineAt(s)], true) else Chunk(s[..SliceLength(s)], false)
  }

  /** All chunks of a stream. */
  function Chunks(s: seq<byte>): seq<Chunk>
    decreases |s|
  {
    if s == [] then [] else [ChunkOf(s)] + Chunks(s[SliceLength(s)..])
  }

  function OutFrame(rank: uint32, stderr: bool, c: Chunk): Frame {
    Frame(OUT, rank, (if stderr then STDERR_FLAG else 0) + (if c.eol then EOL_FLAG else 0), c.data)
  }

  function OutFrames(rank: uint32, stderr: bool, chunks: seq<Chunk>): (fs: seq<Frame>)
    ensures |fs| == |chunks|
  {
    seq(|chunks|, i requires 0 <= i < |chunks| => OutFrame(rank, stderr, chunks[i]))
  }

  /** The frames a rank's stream becomes. */
  function Pumped(rank: uint32, stderr: bool, s: seq<byte>): seq<Frame> {
    OutFrames(rank, stderr, Chunks(s))
  }

  class StreamReader {
    var rest: seq<byte>

    constructor (s: seq<byte>)
      ensures rest == s
    {
      rest := s;
    }

    /** bufio.Reader.ReadSlice('\n'), the newline included in the slice. */
    method ReadSlice() returns (slice: seq<byte>, status: Status)
      modifies this
      ensures status == SliceStatus(old(rest))
      ensures slice == old(rest)[..SliceLength(old(rest))] && rest == old(rest)[SliceLength(old(rest))..]
    {
      var i := 0;
      while i < |rest| && i < MAX_CHUNK && rest[i] != NEWLINE
        invariant 0 <= i <= |rest| && i <= MAX_CHUNK
        invariant NewlineAt(rest) == i + NewlineAt(rest[i..])
        invariant rest == old(rest)
      {
        assert rest[i..][1..] == rest[i + 1..];
        i := i + 1;
      }
      if i < |rest| && i < MAX_CHUNK {
        slice, status := rest[..i + 1], Line;
      } else if i == MAX_CHUNK {
        slice, status := rest[..i], BufferFull;
      } else {
        slice, status := rest, Ended;
      }
      rest := rest[|slice|..];
    }
  }

  lemma OutFramesHead(rank: uint32, stderr: bool, s: seq<byte>)
    requires s != []
    ensures Pumped(rank, stderr, s)
         == [OutFrame(rank, stderr, ChunkOf(s))] + Pumped(rank, stderr, s[SliceLength(s)..])
  {
  }

  /** The frames one pump sends for a stream. */
  method PumpStream(rank: uint32, stderr: bool, r: StreamReader) returns (sent: seq<Frame>)
    modifies r
    ensures sent == Pumped(rank, stderr, old(r.rest))
  {
    sent := [];
    ghost var all := Pumped(rank, stderr, r.rest);
    var flag: byte := if stderr then STDERR_FLAG else 0;
    while true
      invariant sent + Pumped(rank, stderr, r.rest) == all
      decreases |r.rest|
    {
      ghost var s := r.rest;
      if s != [] {
        OutFramesHead(rank, stderr, s);
        assert sent + Pumped(rank, stderr, s)
            == (sent + [OutFrame(rank, stderr, ChunkOf(s))]) + Pumped(rank, stderr, s[SliceLength(s)..]);
      }
      var slice, status := r.ReadSlice();
      assert status == Line ==> slice[..|slice| - 1] == s[..NewlineAt(s)];
      assert s != [] && status == Ended ==> slice == s == s[..|s|];
      if status == Line {
        sent := sent + [Frame(OUT, rank, flag + EOL_FLAG, slice[..|slice| - 1])];
      } else if status == BufferFull {
        sent := sent + [Frame(OUT, rank, flag, slice)];
      } else {
        if |slice| > 0 {
          sent := sent + [Frame(OUT, rank, flag, slice)];
        }
        assert Pumped(rank, stderr, []) == [];
        return;
      }
    }
  }

  /** A chunk's frame on the wire: type 4, flag 1 for stderr and 2 for an ended line, its rank
      and its bytes. */
  lemma OutFrameLayout(rank: uint32, stderr: bool, c: Chunk)
    requires |c.data| <= MAX_PAYLOAD
    ensures var s := Encode(OutFrame(rank, stderr, c));
      && |s| >= 10 && s[0] == 4 && s[1] == (if stderr then 1 else 0) + (if c.eol then 2 else 0)
      && BigEndian(s, 2) == rank && s[10..] == c.data
  {
    FrameLayout(OutFrame(rank, stderr, c));
  }

  // ---------- What the chunks are ----------

  /** A chunk's bytes, its newline back in place. */
  function Body(c: Chunk): seq<byte> {
    c.data + (if c.eol then [NEWLINE] else [])
  }

  function AllBytes(chunks: seq<Chunk>): seq<byte> {
    if chunks == [] then [] else Body(chunks[0]) + AllBytes(chunks[1..])
  }

  lemma ChunkText(s: seq<byte>)
    requires s != []
    ensures Body(ChunkOf(s)) == s[..SliceLength(s)]
  {
    if SliceStatus(s) == Line {
      assert s[..NewlineAt(s) + 1] == s[..NewlineAt(s)] + [NEWLINE];
    }
  }

  /** No byte is lost, added or moved, however long the lines are. */
  lemma {:induction false} ChunksKeepBytes(s: seq<byte>)
    ensures AllBytes(Chunks(s)) == s
    decreases |s|
  {
    if s != [] {
      var n := SliceLength(s);
      ChunksKeepBytes(s[n..]);
      ChunkText(s);
      assert s == s[..n] + s[n..];
    }
  }

  /** Every chunk fits a frame, holds no newline, and is empty only for an empty line. */
  lemma {:induction false} ChunkShape(s: seq<byte>, i: nat)
    requires i < |Chunks(s)|
    ensures var c := Chunks(s)[i]; |c.data| <= MAX_CHUNK && NEWLINE !in c.data && (!c.eol ==> c.data != [])
    decreases |s|
  {
    var n := SliceLength(s);
    if i == 0 {
      NoNewlineBefore(s, n);
    } else {
      ChunkShape(s[n..], i - 1);
    }
  }

  lemma NoNewlineBefore(s: seq<byte>, n: nat)
    requires n <= |s|
    ensures n <= NewlineAt(s) ==> NEWLINE !in s[..n]
  {
    if n <= NewlineAt(s) {
      assert forall k | 0 <= k < n :: s[k] == s[..NewlineAt(s)][k];
    }
  }

  /** A line is split only where it fills the buffer: a chunk without a newline is a
      full one, or the last of the stream. */
  lemma {:induction false} OnlyLongLinesSplit(s: seq<byte>, i: nat)
    requires i < |Chunks(s)| - 1
    ensures var c := Chunks(s)[i]; c.eol || |c.data| == 65536
    decreases |s|
  {
    if i > 0 {
      OnlyLongLinesSplit(s[SliceLength(s)..], i - 1);
    }
  }
}
