/**
 * Demultiplexing of a container's log stream (parseDockerLogs in
 * server/src/services/dockerRunner.ts and its compiled twin).
 *
 * The Docker Engine API frames a non-TTY log stream: every frame starts
 * with an 8-byte header whose byte 0 is the stream (1 stdout, 2 stderr)
 * and whose bytes 4-7 hold the payload length as a big-endian unsigned
 * 32-bit integer; the payload follows. The parser walks the frames with an
 * offset, decodes each payload on its own and appends it to the text of
 * its stream; a short header or a payload that overruns the buffer ends
 * the walk without an error.
 */
module DockerLogs {
  import Strings

  type Byte = b: int | 0 <= b < 256

  const HeaderSize: nat := 8
  const StdoutStream: Byte := 1
  const StderrStream: Byte := 2
  const Two32: nat := 0x1_0000_0000

  /** `buf.readUInt32BE(i)`. */
  function ReadUInt32BE(buf: seq<Byte>, i: nat): (n: nat)
    requires i + 4 <= |buf|
    ensures n < Two32
  {
    (buf[i] as int) * 0x100_0000 + (buf[i + 1] as int) * 0x1_0000
      + (buf[i + 2] as int) * 0x100 + (buf[i + 3] as int)
  }

  /** The four big-endian bytes of a 32-bit length. */
  function UInt32BE(n: nat): (r: seq<Byte>)
    requires n < Two32
    ensures |r| == 4 && ReadUInt32BE(r, 0) == n
  {
    var q1 := n / 0x100;
    var q2 := q1 / 0x100;
    var q3 := q2 / 0x100;
    assert q3 < 0x100;
    [q3, q2 % 0x100, q1 % 0x100, n % 0x100]
  }

  /** One frame of the stream: its stream byte and its payload. */
  datatype Frame = Frame(stream: Byte, payload: seq<Byte>)

  predicate Encodable(f: Frame) {
    |f.payload| < Two32
  }

  predicate AllEncodable(fs: seq<Frame>) {
    forall i :: 0 <= i < |fs| ==> Encodable(fs[i])
  }

  /** The bytes the engine writes for one frame (bytes 1-3 of the header are zero). */
  function EncodeFrame(f: Frame): (r: seq<Byte>)
    requires Encodable(f)
    ensures |r| == HeaderSize + |f.payload|
  {
    [f.stream, 0, 0, 0] + UInt32BE(|f.payload|) + f.payload
  }

  /** A log stream made of whole frames. */
  function Encode(fs: seq<Frame>): (r: seq<Byte>)
    requires AllEncodable(fs)
  {
    if fs == [] then [] else EncodeFrame(fs[0]) + Encode(fs[1..])
  }

  /** The frames the walk reads from `offset` on, in order: it stops at a
      header shorter than 8 bytes or at a payload that runs past the end of
      the buffer. */
  function FramesFrom(buf: seq<Byte>, offset: nat): seq<Frame>
    decreases |buf| - offset
  {
    if offset + HeaderSize > |buf| then []
    else
      var size := ReadUInt32BE(buf, offset + 4);
      if offset + HeaderSize + size > |buf| then []
      else
        [Frame(buf[offset], buf[offset + HeaderSize..offset + HeaderSize + size])]
          + FramesFrom(buf, offset + HeaderSize + size)
  }

  /** The frames of a whole buffer. */
  function Frames(buf: seq<Byte>): seq<Frame> {
    FramesFrom(buf, 0)
  }

  /** The text of one stream: the decoded payloads of its frames, in order.
      Decoding happens frame by frame, as the source does. */
  function StreamText(fs: seq<Frame>, stream: Byte, decode: seq<Byte> -> string): string {
    if fs == [] then ""
    else
      var head := if fs[0].stream == stream then decode(fs[0].payload) else "";
      head + StreamText(fs[1..], stream, decode)
  }

  /** parseDockerLogs: the offset walk over the buffer. */
  method ParseDockerLogs(buffer: seq<Byte>, decode: seq<Byte> -> string)
    returns (stdout: string, stderr: string)
    ensures stdout == StreamText(Frames(buffer), StdoutStream, decode)
    ensures stderr == StreamText(Frames(buffer), StderrStream, decode)
  {
    stdout, stderr := "", "";
    var offset: nat := 0;
    while offset < |buffer|
      invariant offset <= |buffer|
      invariant stdout + StreamText(FramesFrom(buffer, offset), StdoutStream, decode)
        == StreamText(Frames(buffer), StdoutStream, decode)
      invariant stderr + StreamText(FramesFrom(buffer, offset), StderrStream, decode)
        == StreamText(Frames(buffer), StderrStream, decode)
      decreases |buffer| - offset
    {
      ghost var start := offset;
      if offset + HeaderSize > |buffer| {
        break;
      }
      var streamType := buffer[offset];
      var size := ReadUInt32BE(buffer, offset + 4);
      offset := offset + HeaderSize;
      if offset + size > |buffer| {
        break;
      }
      var content := decode(buffer[offset..offset + size]);
      ghost var frame := Frame(streamType, buffer[offset..offset + size]);
      offset := offset + size;
      ghost var rest := FramesFrom(buffer, offset);
      FramesFromStep(buffer, start);
      assert FramesFrom(buffer, start) == [frame] + rest;
      WalkStep(stdout, frame, rest, StdoutStream, decode, StreamText(Frames(buffer), StdoutStream, decode));
      WalkStep(stderr, frame, rest, StderrStream, decode, StreamText(Frames(buffer), StderrStream, decode));
      if streamType == StdoutStream {
        stdout := stdout + content;
      } else if streamType == StderrStream {
        stderr := stderr + content;
      }
    }
  }

  /** The loop's invariant survives consuming one frame: its payload moves
      onto the text of its own stream and no other. */
  lemma WalkStep(acc: string, f: Frame, rest: seq<Frame>, stream: Byte, decode: seq<Byte> -> string, total: string)
    requires acc + StreamText([f] + rest, stream, decode) == total
    ensures f.stream == stream ==> (acc + decode(f.payload)) + StreamText(rest, stream, decode) == total
    ensures f.stream != stream ==> acc + StreamText(rest, stream, decode) == total
  {
    Consume(acc, f, rest, stream, decode);
  }

  /** Where a whole frame can be read, the walk reads it and goes on
      behind it. */
  lemma FramesFromStep(buf: seq<Byte>, at: nat)
    requires !StopsAt(buf, at)
    ensures var size := ReadUInt32BE(buf, at + 4);
      FramesFrom(buf, at) == [Frame(buf[at], buf[at + HeaderSize..at + HeaderSize + size])]
        + FramesFrom(buf, at + HeaderSize + size)
  {
  }

  /** A frame in front of others adds its payload to its own stream only. */
  lemma StreamTextCons(f: Frame, rest: seq<Frame>, stream: Byte, decode: seq<Byte> -> string)
    ensures StreamText([f] + rest, stream, decode)
      == (if f.stream == stream then decode(f.payload) else "") + StreamText(rest, stream, decode)
  {
    assert ([f] + rest)[1..] == rest;
  }

  /** The walk's step: consuming a frame moves its payload onto the text of
      its own stream and leaves every other stream's text as it was. */
  lemma Consume(acc: string, f: Frame, rest: seq<Frame>, stream: Byte, decode: seq<Byte> -> string)
    ensures f.stream == stream ==>
      acc + StreamText([f] + rest, stream, decode) == (acc + decode(f.payload)) + StreamText(rest, stream, decode)
    ensures f.stream != stream ==>
      acc + StreamText([f] + rest, stream, decode) == acc + StreamText(rest, stream, decode)
  {
    StreamTextCons(f, rest, stream, decode);
    var tail := StreamText(rest, stream, decode);
    if f.stream == stream {
      assert acc + (decode(f.payload) + tail) == (acc + decode(f.payload)) + tail;
    } else {
      assert "" + tail == tail;
    }
  }

  /** A tail the walk cannot read a whole frame from. */
  predicate Truncated(tail: seq<Byte>) {
    |tail| < HeaderSize || HeaderSize + ReadUInt32BE(tail, 4) > |tail|
  }

  /** The walk cannot read a whole frame at `at`. */
  predicate StopsAt(buf: seq<Byte>, at: nat) {
    at + HeaderSize > |buf| || at + HeaderSize + ReadUInt32BE(buf, at + 4) > |buf|
  }

  /** `buf` holds `bytes` from position `at` on. */
  predicate HoldsAt(buf: seq<Byte>, at: nat, bytes: seq<Byte>) {
    at + |bytes| <= |buf| && forall k :: 0 <= k < |bytes| ==> buf[at + k] == bytes[k]
  }

  lemma HoldsAtSplit(buf: seq<Byte>, at: nat, a: seq<Byte>, b: seq<Byte>)
    requires HoldsAt(buf, at, a + b)
    ensures HoldsAt(buf, at, a) && HoldsAt(buf, at + |a|, b)
  {
    forall k | 0 <= k < |a|
      ensures buf[at + k] == a[k]
    {
      assert (a + b)[k] == a[k];
    }
    forall k | 0 <= k < |b|
      ensures buf[at + |a| + k] == b[k]
    {
      assert (a + b)[|a| + k] == b[k];
    }
  }

  /** Bytes behind a prefix read the same as on their own. */
  lemma ReadBehind(pre: seq<Byte>, s: seq<Byte>, i: nat)
    requires i + 4 <= |s|
    ensures ReadUInt32BE(pre + s, |pre| + i) == ReadUInt32BE(s, i)
  {
    var b := pre + s;
    assert b[|pre| + i] == s[i] && b[|pre| + i + 1] == s[i + 1];
    assert b[|pre| + i + 2] == s[i + 2] && b[|pre| + i + 3] == s[i + 3];
  }

  /** What the walk reads at a position that holds one encoded frame. */
  lemma ReadFrameAt(buf: seq<Byte>, at: nat, f: Frame)
    requires Encodable(f) && HoldsAt(buf, at, EncodeFrame(f))
    ensures at + HeaderSize + |f.payload| <= |buf|
    ensures buf[at] == f.stream
    ensures ReadUInt32BE(buf, at + 4) == |f.payload|
    ensures buf[at + HeaderSize..at + HeaderSize + |f.payload|] == f.payload
  {
    var n := |f.payload|;
    var e, len := EncodeFrame(f), UInt32BE(n);
    assert e[0] == f.stream;
    assert buf[at] == e[0];
    assert buf[at + 4] == e[4] == len[0] && buf[at + 5] == e[5] == len[1];
    assert buf[at + 6] == e[6] == len[2] && buf[at + 7] == e[7] == len[3];
    forall j | 0 <= j < n
      ensures buf[at + HeaderSize..at + HeaderSize + n][j] == f.payload[j]
    {
      assert buf[at + HeaderSize + j] == e[HeaderSize + j];
    }
  }

  /** Round trip, from any position: where `buf` holds whole encoded frames
      and no whole frame follows them, the walk reads exactly those frames. */
  lemma {:induction false} FramesFromHolds(buf: seq<Byte>, at: nat, fs: seq<Frame>)
    requires AllEncodable(fs) && HoldsAt(buf, at, Encode(fs))
    requires StopsAt(buf, at + |Encode(fs)|)
    ensures FramesFrom(buf, at) == fs
    decreases |fs|
  {
    if fs != [] {
      var f, e := fs[0], EncodeFrame(fs[0]);
      AllEncodableTail(fs);
      HoldsAtSplit(buf, at, e, Encode(fs[1..]));
      FramesFromHolds(buf, at + |e|, fs[1..]);
      FramesFromHead(buf, at, f, fs[1..]);
      Strings.HeadAndTail(fs);
    } else {
      assert |Encode(fs)| == 0;
      assert StopsAt(buf, at);
    }
  }

  /** An encoded frame at `at` is the first frame the walk reads there. */
  lemma FramesFromHead(buf: seq<Byte>, at: nat, f: Frame, rest: seq<Frame>)
    requires Encodable(f) && HoldsAt(buf, at, EncodeFrame(f))
    requires FramesFrom(buf, at + |EncodeFrame(f)|) == rest
    ensures FramesFrom(buf, at) == [f] + rest
  {
    ReadFrameAt(buf, at, f);
    FramesFromStep(buf, at);
    var size := |f.payload|;
    assert Frame(buf[at], buf[at + HeaderSize..at + HeaderSize + size]) == f;
  }

  lemma AllEncodableTail(fs: seq<Frame>)
    requires fs != [] && AllEncodable(fs)
    ensures AllEncodable(fs[1..])
    ensures Encode(fs) == EncodeFrame(fs[0]) + Encode(fs[1..])
  {
    forall i | 0 <= i < |fs[1..]| ensures Encodable(fs[1..][i]) {
      assert fs[1..][i] == fs[i + 1];
    }
  }

  /** Round trip: reading back a stream of whole frames gives exactly those
      frames, and a truncated tail behind them contributes nothing. */
  lemma FramesOfEncode(fs: seq<Frame>, tail: seq<Byte>)
    requires AllEncodable(fs) && Truncated(tail)
    ensures Frames(Encode(fs) + tail) == fs
  {
    var enc := Encode(fs);
    var buf := enc + tail;
    assert HoldsAt(buf, 0, enc) by {
      forall k | 0 <= k < |enc| ensures buf[0 + k] == enc[k] { }
    }
    if |tail| >= HeaderSize {
      ReadBehind(enc, tail, 4);
    }
    FramesFromHolds(buf, 0, fs);
  }

  lemma {:induction false} StreamTextAppend(fs: seq<Frame>, gs: seq<Frame>, stream: Byte, decode: seq<Byte> -> string)
    ensures StreamText(fs + gs, stream, decode) == StreamText(fs, stream, decode) + StreamText(gs, stream, decode)
  {
    if fs == [] {
      assert fs + gs == gs;
    } else {
      assert (fs + gs)[1..] == fs[1..] + gs;
      StreamTextAppend(fs[1..], gs, stream, decode);
    }
  }

  /** Appending one frame appends its decoded payload to its own stream and
      nothing to any other: type 1 goes to stdout, type 2 to stderr, and
      every other type is consumed and dropped. */
  lemma FrameGoesToItsStream(fs: seq<Frame>, f: Frame, decode: seq<Byte> -> string)
    ensures StreamText(fs + [f], StdoutStream, decode)
      == StreamText(fs, StdoutStream, decode) + (if f.stream == StdoutStream then decode(f.payload) else "")
    ensures StreamText(fs + [f], StderrStream, decode)
      == StreamText(fs, StderrStream, decode) + (if f.stream == StderrStream then decode(f.payload) else "")
  {
    StreamTextAppend(fs, [f], StdoutStream, decode);
    StreamTextAppend(fs, [f], StderrStream, decode);
  }

  /** The walk consumes a frame's 8 header bytes and its payload, no more. */
  lemma {:induction false} EncodeLength(fs: seq<Frame>)
    requires AllEncodable(fs)
    ensures |Encode(fs)| == HeaderSize * |fs| + PayloadBytes(fs)
  {
    if fs != [] {
      EncodeLength(fs[1..]);
    }
  }

  function PayloadBytes(fs: seq<Frame>): nat {
    if fs == [] then 0 else |fs[0].payload| + PayloadBytes(fs[1..])
  }
}
