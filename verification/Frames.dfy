/**
 The binary frame codec between srun and its steppers: a ten byte header (type,
 flags, rank, payload length; integers big-endian) and the payload.
 */
module Frames {

  type byte = x: int | 0 <= x < 256

  type uint32 = x: int | 0 <= x < 0x1_0000_0000

  const OUT: byte := 4

  const STDERR_FLAG: byte := 1
  const EOL_FLAG: byte := 2

  /** The largest payload the codec lets through. */
  const MAX_PAYLOAD: nat := 0x10_0000

  const HEADER: nat := 10

  datatype Frame = Frame(kind: byte, rank: uint32, flags: byte, payload: seq<byte>)

  /** f.Flags & FlagStderr and f.Flags & FlagEOL. */
  predicate IsStderr(flags: byte) {
    flags % 2 == 1
  }

  predicate IsEol(flags: byte) {
    flags / 2 % 2 == 1
  }

  // ---------- Integers ----------

  /** binary.BigEndian.PutUint32 */
  function Put32(v: uint32): (s: seq<byte>)
    ensures |s| == 4
  {
    [v / 256 / 256 / 256, v / 256 / 256 % 256, v / 256 % 256, v % 256]
  }

  /** binary.BigEndian.Uint32 */
  function Get32(s: seq<byte>): (v: uint32)
    requires |s| == 4
  {
    var a: int, b: int, c: int, d: int := s[0], s[1], s[2], s[3];
    ((a * 256 + b) * 256 + c) * 256 + d
  }

  lemma GetOfPut(v: uint32)
    ensures Get32(Put32(v)) == v
  {
  }

  lemma {:induction false} PutOfGet(s: seq<byte>)
    requires |s| == 4
    ensures Put32(Get32(s)) == s
  {
    var v := Get32(s);
    var a: int, b: int, c: int := s[0], s[1], s[2];
    assert v / 256 == (a * 256 + b) * 256 + c;
    assert v / 256 / 256 == a * 256 + b;
  }

  // ---------- One frame ----------

  function Header(kind: byte, flags: byte, rank: uint32, n: uint32): (s: seq<byte>)
    ensures |s| == HEADER
  {
    [kind, flags] + Put32(rank) + Put32(n)
  }

  predicate Sendable(f: Frame) {
    |f.payload| <= MAX_PAYLOAD
  }

  function Encode(f: Frame): (s: seq<byte>)
    requires Sendable(f)
    ensures |s| == HEADER + |f.payload|
  {
    Header(f.kind, f.flags, f.rank, |f.payload|) + f.payload
  }

  /** What one Read gives: a frame, io.EOF, io.ErrUnexpectedEOF or a refused length. */
  datatype Outcome = Got(frame: Frame) | Eof | UnexpectedEof | TooLong(n: nat)

  /** io.ReadFull for n bytes of s: nothing at all is EOF, too little is unexpected. */
  function Short(s: seq<byte>, n: nat): Outcome
    requires |s| < n
  {
    if s == [] then Eof else UnexpectedEof
  }

  function Decode(s: seq<byte>): Outcome {
    if |s| < HEADER then Short(s, HEADER)
    else
      var n := Get32(s[6..10]);
      if n > MAX_PAYLOAD then TooLong(n)
      else if |s| - HEADER < n then Short(s[HEADER..], n)
      else Got(Frame(s[0], Get32(s[2..6]), s[1], s[HEADER..HEADER + n]))
  }

  /** The bytes a Read leaves unread. */
  function Unread(s: seq<byte>): seq<byte> {
    if |s| < HEADER then []
    else
      var n := Get32(s[6..10]);
      if n > MAX_PAYLOAD then s[HEADER..]
      else if |s| - HEADER < n then []
      else s[HEADER + n..]
  }

  /** copy(buf[at:], data) */
  method Copy(buf: array<byte>, at: nat, data: seq<byte>)
    requires at + |data| <= buf.Length
    modifies buf
    ensures buf[..] == old(buf[..at]) + data + old(buf[at + |data|..])
  {
    forall i | 0 <= i < |data| {
      buf[at + i] := data[i];
    }
  }

  class FrameWriter {
    var out: seq<byte>

    constructor ()
      ensures out == []
    {
      out := [];
    }

    /** Assembles the frame in a buffer and writes it in one piece. */
    method Write(f: Frame) returns (ok: bool)
      modifies this
      ensures ok == Sendable(f)
      ensures out == if ok then old(out) + Encode(f) else old(out)
    {
      if |f.payload| > MAX_PAYLOAD {
        return false;
      }
      var n := |f.payload|;
      var buf := new byte[HEADER + n];
      Copy(buf, 0, [f.kind, f.flags]);
      Copy(buf, 2, Put32(f.rank));
      Copy(buf, 6, Put32(n));
      Copy(buf, HEADER, f.payload);
      assert buf[..] == [f.kind, f.flags] + Put32(f.rank) + Put32(n) + f.payload;
      out := out + buf[..];
      return true;
    }
  }

  class FrameReader {
    var rest: seq<byte>

    constructor (s: seq<byte>)
      ensures rest == s
    {
      rest := s;
    }

    /** io.ReadFull: n bytes, or all there are. */
    method ReadFull(n: nat) returns (got: seq<byte>, full: bool)
      modifies this
      ensures full == (|old(rest)| >= n)
      ensures got == if full then old(rest)[..n] else old(rest)
      ensures rest == if full then old(rest)[n..] else []
    {
      full := |rest| >= n;
      if full {
        got, rest := rest[..n], rest[n..];
      } else {
        got, rest := rest, [];
      }
    }

    method Read() returns (r: Outcome)
      modifies this
      ensures r == Decode(old(rest)) && rest == Unread(old(rest))
    {
      var header, whole := ReadFull(HEADER);
      if !whole {
        return Short(header, HEADER);
      }
      assert header[6..10] == old(rest)[6..10] && header[2..6] == old(rest)[2..6];
      var n := Get32(header[6..10]);
      if n > MAX_PAYLOAD {
        return TooLong(n);
      }
      var payload, all := ReadFull(n);
      if !all {
        return Short(payload, n);
      }
      return Got(Frame(header[0], Get32(header[2..6]), header[1], payload));
    }
  }

  /** The number four bytes stand for, the most significant first. */
  function BigEndian(s: seq<byte>, at: nat): int
    requires at + 4 <= |s|
  {
    var a: int, b: int, c: int, d: int := s[at], s[at + 1], s[at + 2], s[at + 3];
    a * 0x100_0000 + b * 0x1_0000 + c * 0x100 + d
  }

  lemma PutIsBigEndian(v: uint32)
    ensures BigEndian(Put32(v), 0) == v
  {
    GetOfPut(v);
  }

  /** The bytes on the wire, one by one: the type, the flags, the rank, the payload's length,
      and the payload, of one mebibyte at most. */
  lemma FrameLayout(f: Frame)
    requires Sendable(f)
    ensures |f.payload| <= 1_048_576
    ensures var s := Encode(f);
      && |s| == 10 + |f.payload| && s[0] == f.kind && s[1] == f.flags
      && BigEndian(s, 2) == f.rank && BigEndian(s, 6) == |f.payload| && s[10..] == f.payload
  {
    var s, rank, size := Encode(f), Put32(f.rank), Put32(|f.payload|);
    PutIsBigEndian(f.rank);
    PutIsBigEndian(|f.payload|);
    assert s == [f.kind, f.flags] + rank + size + f.payload;
    assert forall i | 0 <= i < 4 :: s[2 + i] == rank[i] && s[6 + i] == size[i];
  }

  /** A frame comes back whole, and nothing after it is touched. */
  lemma DecodeOfEncode(f: Frame, tail: seq<byte>)
    requires Sendable(f)
    ensures Decode(Encode(f) + tail) == Got(f) && Unread(Encode(f) + tail) == tail
  {
    var s := Encode(f) + tail;
    var h := Header(f.kind, f.flags, f.rank, |f.payload|);
    assert s[..HEADER] == h;
    assert s[2..6] == h[2..6] == Put32(f.rank);
    assert s[6..10] == h[6..10] == Put32(|f.payload|);
    GetOfPut(f.rank);
    GetOfPut(|f.payload|);
    assert s[HEADER..HEADER + |f.payload|] == f.payload;
    assert s[HEADER + |f.payload|..] == tail;
  }

  /** Whatever decodes is the encoding of what it decodes to: the format has one spelling. */
  lemma EncodeOfDecode(s: seq<byte>)
    requires Decode(s).Got?
    ensures Sendable(Decode(s).frame) && s == Encode(Decode(s).frame) + Unread(s)
  {
    var f := Decode(s).frame;
    var n := Get32(s[6..10]);
    PutOfGet(s[2..6]);
    PutOfGet(s[6..10]);
    assert s[..HEADER] == [s[0], s[1]] + s[2..6] + s[6..10];
    assert s == s[..HEADER] + s[HEADER..HEADER + n] + s[HEADER + n..];
  }

  /** When a Read reports io.EOF: the stream is over, or it was cut right behind a header. */
  lemma EofIff(s: seq<byte>)
    ensures Decode(s) == Eof <==> s == [] || (|s| == HEADER && 0 < Get32(s[6..10]) <= MAX_PAYLOAD)
  {
  }

  /** So io.EOF is not always a clean end of stream, as its documentation has it. */
  lemma CutBehindHeaderIsEof()
    ensures var f := Frame(OUT, 0, EOL_FLAG, [65]);
      Decode(Encode(f)[..HEADER]) == Eof && Encode(f)[..HEADER] != []
  {
    var f := Frame(OUT, 0, EOL_FLAG, [65]);
    var s := Encode(f)[..HEADER];
    assert s == Header(OUT, EOL_FLAG, 0, 1);
    assert s[6..10] == Put32(1);
  }

  // ---------- A stream of frames ----------

  function EncodeAll(fs: seq<Frame>): seq<byte>
    requires forall i | 0 <= i < |fs| :: Sendable(fs[i])
  {
    if fs == [] then [] else Encode(fs[0]) + EncodeAll(fs[1..])
  }

  /** The frames a reader gets before its first Read that gives none. */
  function ReadAll(s: seq<byte>): seq<Frame>
    decreases |s|
  {
    var r := Decode(s);
    if r.Got? then [r.frame] + ReadAll(Unread(s)) else []
  }

  lemma {:induction false} ReadAllOfEncodeAll(fs: seq<Frame>)
    requires forall i | 0 <= i < |fs| :: Sendable(fs[i])
    ensures ReadAll(EncodeAll(fs)) == fs
  {
    if fs != [] {
      DecodeOfEncode(fs[0], EncodeAll(fs[1..]));
      ReadAllOfEncodeAll(fs[1..]);
    }
  }

  /** A decoded frame depends only on its own bytes. */
  lemma {:induction false} DecodeOfPrefix(s: seq<byte>, n: nat)
    requires n <= |s| && Decode(s[..n]).Got?
    ensures Decode(s) == Decode(s[..n]) && Unread(s[..n]) <= Unread(s)
  {
    var f := Decode(s[..n]).frame;
    EncodeOfDecode(s[..n]);
    assert s == Encode(f) + (Unread(s[..n]) + s[n..]);
    DecodeOfEncode(f, Unread(s[..n]) + s[n..]);
  }

  /** A stream cut anywhere yields a prefix of the frames sent, none torn or invented. */
  lemma {:induction false} CutStream(s: seq<byte>, n: nat)
    requires n <= |s|
    ensures ReadAll(s[..n]) <= ReadAll(s)
    decreases |s|
  {
    if Decode(s[..n]).Got? {
      DecodeOfPrefix(s, n);
      var m := |Unread(s[..n])|;
      assert Unread(s)[..m] == Unread(s[..n]);
      CutStream(Unread(s), m);
    }
  }
}
