/**
 Wire framing and the connection's decode loop (src/transport/frame.cpp:93-165,
 src/transport/server.cpp:303-344 and 398-407). The payload hash is a parameter: any function to
 64 bits. Responses and sockets are not part of this model.
 */
module Frame {
  import opened Checked
  import opened Domain
  import opened Bytes

  type Hash64 = seq<Byte> -> U64

  const HEADER: nat := 20
  const MAGIC: nat := 0x31464F4C
  const VERSION: Byte := 1

  datatype FrameType = Ping | Pong | PushRecords | PushAck | QueryState | StateReport | ErrorReport | Shutdown

  const TYPES: seq<FrameType> := [Ping, Pong, PushRecords, PushAck, QueryState, StateReport, ErrorReport, Shutdown]

  function CodeOf(t: FrameType): (c: Byte)
    ensures 1 <= c <= 8 && TYPES[c - 1] == t
  {
    match t
    case Ping => 1
    case Pong => 2
    case PushRecords => 3
    case PushAck => 4
    case QueryState => 5
    case StateReport => 6
    case ErrorReport => 7
    case Shutdown => 8
  }

  type Flags = n: nat | n < 65536

  datatype Frame = Frame(kind: FrameType, flags: Flags, payload: seq<Byte>)

  datatype Fault = Corrupt | WrongVersion | NotSupported | TooLarge

  datatype Decoded = NeedMore | Bad(fault: Fault) | Whole(frame: Frame, consumed: nat)

  // ---------------------------------------------------------------------------
  // One frame
  // ---------------------------------------------------------------------------

  /** The four single bytes between the magic and the size. */
  function Marks(f: Frame): seq<Byte> { [VERSION, CodeOf(f.kind), f.flags % 256, f.flags / 256] }

  function HeaderOf(hash: Hash64, f: Frame): (h: seq<Byte>)
    ensures |h| == HEADER
  {
    LittleEndian(MAGIC, 4) + Marks(f) + LittleEndian(|f.payload|, 4) + LittleEndian(hash(f.payload), 8)
  }

  function Wire(hash: Hash64, f: Frame): (s: seq<Byte>)
    ensures |s| == HEADER + |f.payload|
  {
    HeaderOf(hash, f) + f.payload
  }

  /** `encode_frame`: refuses a payload over the bound; the flags are not checked. */
  method EncodeFrame(hash: Hash64, f: Frame, maxPayload: nat) returns (out: Option<seq<Byte>>)
    ensures out == if |f.payload| > maxPayload then Option.None else Some(Wire(hash, f))
  {
    if |f.payload| > maxPayload {
      return Option.None;
    }
    var writer := new ByteWriter();
    writer.Int(MAGIC, 4);
    writer.U8(VERSION);
    writer.U8(CodeOf(f.kind));
    writer.U8(f.flags % 256);
    writer.U8(f.flags / 256);
    assert writer.buffer == LittleEndian(MAGIC, 4) + Marks(f);
    writer.Int(|f.payload|, 4);
    writer.Int(hash(f.payload), 8);
    writer.Raw(f.payload);
    return Some(writer.buffer);
  }

  function FlagsIn(low: nat, high: nat): nat { low + 256 * high }

  function Decode(hash: Hash64, buf: seq<Byte>, maxPayload: nat): Decoded {
    if |buf| < HEADER then NeedMore
    else if FromLittle(buf[0..4]) != MAGIC then Bad(Corrupt)
    else if buf[4] != VERSION then Bad(WrongVersion)
    else if buf[5] < 1 || buf[5] > 8 then Bad(NotSupported)
    else if FlagsIn(buf[6], buf[7]) != 0 then Bad(NotSupported)
    else
      var size := FromLittle(buf[8..12]);
      if size > maxPayload then Bad(TooLarge)
      else if |buf| < HEADER + size then NeedMore
      else
        var payload := buf[HEADER..HEADER + size];
        if hash(payload) != FromLittle(buf[12..20]) then Bad(Corrupt)
        else Whole(Frame(TYPES[buf[5] - 1], 0, payload), HEADER + size)
  }

  lemma {:induction false} Pieces(a: seq<Byte>, b: seq<Byte>, c: seq<Byte>, d: seq<Byte>)
    requires |a| == 4 && |b| == 4 && |c| == 4 && |d| == 8
    ensures
      var h := a + b + c + d;
      h[0..4] == a && h[4] == b[0] && h[5] == b[1] && h[6] == b[2] && h[7] == b[3] && h[8..12] == c && h[12..20] == d
  {
  }

  /** What a decoder reads from any buffer that starts with a frame's header. */
  lemma {:induction false} HeaderReads(hash: Hash64, f: Frame, buf: seq<Byte>)
    requires |f.payload| < TWO_32 && |buf| >= HEADER && buf[..HEADER] == HeaderOf(hash, f)
    ensures FromLittle(buf[0..4]) == MAGIC && buf[4] == VERSION && buf[5] == CodeOf(f.kind)
    ensures FlagsIn(buf[6], buf[7]) == f.flags
    ensures FromLittle(buf[8..12]) == |f.payload| && FromLittle(buf[12..20]) == hash(f.payload)
  {
    var h := HeaderOf(hash, f);
    Pow256Values();
    Pieces(LittleEndian(MAGIC, 4), Marks(f), LittleEndian(|f.payload|, 4), LittleEndian(hash(f.payload), 8));
    LittleRoundTrip(MAGIC, 4);
    LittleRoundTrip(|f.payload|, 4);
    LittleRoundTrip(hash(f.payload), 8);
    SliceOfPrefix(buf, h, 0, 4);
    SliceOfPrefix(buf, h, 8, 12);
    SliceOfPrefix(buf, h, 12, 20);
    assert forall i | 0 <= i < HEADER :: buf[i] == h[i] by {
      assert forall i | 0 <= i < HEADER :: buf[..HEADER][i] == buf[i];
    }
  }

  lemma SliceOfPrefix<T>(s: seq<T>, p: seq<T>, i: nat, j: nat)
    requires i <= j <= |p| <= |s| && s[..|p|] == p
    ensures s[i..j] == p[i..j]
  {
    forall q | 0 <= q < |p| ensures s[q] == p[q] {
      assert s[..|p|][q] == s[q];
    }
  }

  /** A whole frame at the front is decoded and measured exactly when its flags are zero. */
  lemma {:induction false} DecodeWhole(hash: Hash64, f: Frame, rest: seq<Byte>, maxPayload: nat)
    requires |f.payload| <= maxPayload && |f.payload| < TWO_32
    ensures Decode(hash, Wire(hash, f) + rest, maxPayload)
         == if f.flags == 0 then Whole(f, |Wire(hash, f)|) else Bad(NotSupported)
  {
    var buf := Wire(hash, f) + rest;
    assert buf[..HEADER] == HeaderOf(hash, f);
    assert buf[HEADER..HEADER + |f.payload|] == f.payload;
    HeaderReads(hash, f, buf);
  }

  /** Any proper prefix of a frame is "not enough bytes yet", never an error. */
  lemma {:induction false} DecodePrefix(hash: Hash64, f: Frame, n: nat, maxPayload: nat)
    requires |f.payload| <= maxPayload && |f.payload| < TWO_32 && f.flags == 0 && n < |Wire(hash, f)|
    ensures Decode(hash, Wire(hash, f)[..n], maxPayload) == NeedMore
  {
    var buf := Wire(hash, f)[..n];
    if n >= HEADER {
      assert buf[..HEADER] == HeaderOf(hash, f);
      HeaderReads(hash, f, buf);
    }
  }

  // ---------------------------------------------------------------------------
  // The decode loop
  // ---------------------------------------------------------------------------

  datatype Status = Waiting | Finished | Broken(fault: Fault)

  datatype Drained = Drained(frames: seq<Frame>, rest: seq<Byte>, status: Status)

  function Prepend(frames: seq<Frame>, d: Drained): Drained { d.(frames := frames + d.frames) }

  lemma PrependTwice(xs: seq<Frame>, ys: seq<Frame>, d: Drained)
    ensures Prepend(xs, Prepend(ys, d)) == Prepend(xs + ys, d)
  {
    assert xs + (ys + d.frames) == (xs + ys) + d.frames;
  }

  lemma PrependNothing(d: Drained)
    ensures Prepend([], d) == d
  {
    assert [] + d.frames == d.frames;
  }

  lemma WholeConsumes(hash: Hash64, buf: seq<Byte>, maxPayload: nat)
    requires Decode(hash, buf, maxPayload).Whole?
    ensures 0 < Decode(hash, buf, maxPayload).consumed <= |buf|
  {
  }

  /** Decodes and erases frames until bytes are missing, a frame is bad, or a shutdown is served. */
  function Drain(hash: Hash64, buf: seq<Byte>, maxPayload: nat): Drained
    decreases |buf|
  {
    match Decode(hash, buf, maxPayload)
    case NeedMore => Drained([], buf, Waiting)
    case Bad(fault) => Drained([], buf, Broken(fault))
    case Whole(f, consumed) =>
      WholeConsumes(hash, buf, maxPayload);
      if f.kind == Shutdown then Drained([f], buf[consumed..], Finished)
      else
        var more := Drain(hash, buf[consumed..], maxPayload);
        Prepend([f], more)
  }

  /** Appends each received chunk, checks the read bound, drains; stops when finished or broken. */
  function Serve(hash: Hash64, buf: seq<Byte>, chunks: seq<seq<Byte>>, maxPayload: nat, readBound: nat): Drained
    decreases |chunks|
  {
    if chunks == [] then Drained([], buf, Waiting)
    else
      var grown := buf + chunks[0];
      if |grown| > readBound then Drained([], grown, Broken(TooLarge))
      else
        var d := Drain(hash, grown, maxPayload);
        if d.status != Waiting then d
        else
          var more := Serve(hash, d.rest, chunks[1..], maxPayload, readBound);
          Prepend(d.frames, more)
  }

  // ---------------------------------------------------------------------------
  // Chunking does not matter
  // ---------------------------------------------------------------------------

  function Stream(hash: Hash64, frames: seq<Frame>): seq<Byte> {
    if frames == [] then [] else Wire(hash, frames[0]) + Stream(hash, frames[1..])
  }

  function Join(chunks: seq<seq<Byte>>): seq<Byte> {
    if chunks == [] then [] else chunks[0] + Join(chunks[1..])
  }

  /** The frames up to and including the first shutdown. */
  function Served(frames: seq<Frame>): seq<Frame> {
    if frames == [] then []
    else if frames[0].kind == Shutdown then [frames[0]]
    else [frames[0]] + Served(frames[1..])
  }

  predicate NoShutdown(frames: seq<Frame>) { forall i | 0 <= i < |frames| :: frames[i].kind != Shutdown }

  predicate Sendable(frames: seq<Frame>, maxPayload: nat) {
    forall i | 0 <= i < |frames| ::
      frames[i].flags == 0 && |frames[i].payload| <= maxPayload && |frames[i].payload| < TWO_32
  }

  lemma {:induction false} SplitFront<T>(buf: seq<T>, tail: seq<T>, w: seq<T>, more: seq<T>)
    requires buf + tail == w + more
    ensures |buf| >= |w| ==> buf == w + buf[|w|..] && buf[|w|..] + tail == more
    ensures |buf| < |w| ==> buf == w[..|buf|]
  {
    if |buf| >= |w| {
      assert buf[..|w|] == (buf + tail)[..|w|] == w;
      assert buf[|w|..] + tail == (buf + tail)[|w|..] == more;
    } else {
      assert buf == (buf + tail)[..|buf|] == (w + more)[..|buf|] == w[..|buf|];
    }
  }

  /** Where draining a buffer leaves a stream of frames of which `tail` is still to come. */
  ghost predicate DrainedTo(hash: Hash64, d: Drained, frames: seq<Frame>, tail: seq<Byte>, maxPayload: nat, k: nat) {
    && k <= |frames|
    && (d.status == Finished ==> d.frames == Served(frames))
    && (d.status == Waiting ==>
          && d.frames == frames[..k] && NoShutdown(frames[..k]) && d.rest + tail == Stream(hash, frames[k..])
          && Decode(hash, d.rest, maxPayload) == NeedMore)
    && !d.status.Broken?
  }

  lemma {:induction false} DrainStep(hash: Hash64, more: Drained, frames: seq<Frame>, tail: seq<Byte>, maxPayload: nat, k: nat)
    requires frames != [] && frames[0].kind != Shutdown && DrainedTo(hash, more, frames[1..], tail, maxPayload, k)
    ensures DrainedTo(hash, Prepend([frames[0]], more), frames, tail, maxPayload, k + 1)
  {
    assert frames[..k + 1] == [frames[0]] + frames[1..][..k];
    assert frames[k + 1..] == frames[1..][k..];
  }

  lemma {:induction false} DrainWhole(hash: Hash64, f: Frame, rest: seq<Byte>, maxPayload: nat)
    requires |f.payload| <= maxPayload && |f.payload| < TWO_32 && f.flags == 0
    ensures Drain(hash, Wire(hash, f) + rest, maxPayload)
         == if f.kind == Shutdown then Drained([f], rest, Finished) else Prepend([f], Drain(hash, rest, maxPayload))
  {
    DecodeWhole(hash, f, rest, maxPayload);
    assert (Wire(hash, f) + rest)[|Wire(hash, f)|..] == rest;
  }

  /** A buffer that holds less than the first frame waits untouched. */
  lemma {:induction false} DrainShort(hash: Hash64, buf: seq<Byte>, tail: seq<Byte>, frames: seq<Frame>, maxPayload: nat)
    requires Sendable(frames, maxPayload) && buf + tail == Stream(hash, frames)
    requires frames == [] || (|buf| < |Wire(hash, frames[0])| && buf == Wire(hash, frames[0])[..|buf|])
    ensures DrainedTo(hash, Drain(hash, buf, maxPayload), frames, tail, maxPayload, 0)
  {
    if frames != [] {
      DecodePrefix(hash, frames[0], |buf|, maxPayload);
    }
    assert frames[0..] == frames && frames[..0] == [];
  }

  /** A buffer that starts with a whole frame serves it, then whatever its rest serves. */
  lemma {:induction false} DrainLong(hash: Hash64, f: Frame, after: seq<Byte>, tail: seq<Byte>, frames: seq<Frame>, maxPayload: nat, j: nat)
    requires Sendable(frames, maxPayload) && frames != [] && f == frames[0]
    requires f.kind != Shutdown ==> DrainedTo(hash, Drain(hash, after, maxPayload), frames[1..], tail, maxPayload, j)
    ensures f.kind != Shutdown ==> DrainedTo(hash, Drain(hash, Wire(hash, f) + after, maxPayload), frames, tail, maxPayload, j + 1)
    ensures f.kind == Shutdown ==> DrainedTo(hash, Drain(hash, Wire(hash, f) + after, maxPayload), frames, tail, maxPayload, 0)
  {
    DrainWhole(hash, f, after, maxPayload);
    if f.kind != Shutdown {
      DrainStep(hash, Drain(hash, after, maxPayload), frames, tail, maxPayload, j);
    }
  }

  lemma SendableRest(frames: seq<Frame>, maxPayload: nat)
    requires Sendable(frames, maxPayload) && frames != []
    ensures Sendable(frames[1..], maxPayload)
  {
  }

  /** Either the first frame decides, or it is whole and the rest goes on. */
  lemma {:induction false} DrainFirst(hash: Hash64, buf: seq<Byte>, tail: seq<Byte>, frames: seq<Frame>, maxPayload: nat) returns (decided: bool, after: seq<Byte>)
    requires Sendable(frames, maxPayload) && buf + tail == Stream(hash, frames)
    ensures decided ==> DrainedTo(hash, Drain(hash, buf, maxPayload), frames, tail, maxPayload, 0)
    ensures !decided ==> frames != [] && frames[0].kind != Shutdown && buf == Wire(hash, frames[0]) + after
                         && after + tail == Stream(hash, frames[1..])
  {
    decided, after := true, [];
    if frames == [] {
      DrainShort(hash, buf, tail, frames, maxPayload);
      return;
    }
    var w := Wire(hash, frames[0]);
    SplitFront(buf, tail, w, Stream(hash, frames[1..]));
    if |buf| < |w| {
      DrainShort(hash, buf, tail, frames, maxPayload);
    } else {
      after := buf[|w|..];
      decided := frames[0].kind == Shutdown;
      if decided {
        DrainLong(hash, frames[0], after, tail, frames, maxPayload, 0);
      }
    }
  }

  lemma {:induction false} DrainFollows(hash: Hash64, buf: seq<Byte>, tail: seq<Byte>, frames: seq<Frame>, maxPayload: nat) returns (k: nat)
    requires Sendable(frames, maxPayload) && buf + tail == Stream(hash, frames)
    ensures DrainedTo(hash, Drain(hash, buf, maxPayload), frames, tail, maxPayload, k)
    decreases |frames|
  {
    var decided, after := DrainFirst(hash, buf, tail, frames, maxPayload);
    if decided {
      k := 0;
    } else {
      SendableRest(frames, maxPayload);
      var j := DrainFollows(hash, after, tail, frames[1..], maxPayload);
      DrainLong(hash, frames[0], after, tail, frames, maxPayload, j);
      k := j + 1;
    }
  }

  lemma {:induction false} ServedAfter(frames: seq<Frame>, k: nat)
    requires k <= |frames| && NoShutdown(frames[..k])
    ensures Served(frames) == frames[..k] + Served(frames[k..])
  {
    if k == 0 {
      assert frames[0..] == frames;
    } else {
      assert frames[0].kind != Shutdown by { assert frames[..k][0] == frames[0]; }
      assert frames[1..][..k - 1] == frames[..k][1..];
      ServedAfter(frames[1..], k - 1);
      assert frames[..k] == [frames[0]] + frames[1..][..k - 1];
      assert frames[1..][k - 1..] == frames[k..];
    }
  }

  /** Bytes left over by a drain that waits are fewer than one whole frame of the largest size. */
  lemma LeftoverIsShort(hash: Hash64, buf: seq<Byte>, maxPayload: nat)
    requires Decode(hash, buf, maxPayload) == NeedMore
    ensures |buf| < HEADER + maxPayload || |buf| < HEADER
  {
  }

  /** A whole stream that still needs more bytes holds no frame. */
  lemma NothingMissing(hash: Hash64, frames: seq<Frame>, maxPayload: nat)
    requires Sendable(frames, maxPayload) && Decode(hash, Stream(hash, frames), maxPayload) == NeedMore
    ensures frames == []
  {
    if frames != [] {
      DecodeWhole(hash, frames[0], Stream(hash, frames[1..]), maxPayload);
    }
  }

  predicate ChunksWithin(chunks: seq<seq<Byte>>, bound: nat) { forall i | 0 <= i < |chunks| :: |chunks[i]| <= bound }

  lemma {:induction false} ServeFollows(hash: Hash64, buf: seq<Byte>, chunks: seq<seq<Byte>>, frames: seq<Frame>, maxPayload: nat, chunkBound: nat, readBound: nat)
    requires Sendable(frames, maxPayload) && buf + Join(chunks) == Stream(hash, frames)
    requires Decode(hash, buf, maxPayload) == NeedMore
    requires ChunksWithin(chunks, chunkBound) && HEADER + maxPayload + chunkBound <= readBound
    ensures
      var d := Serve(hash, buf, chunks, maxPayload, readBound);
      && d.frames == Served(frames) && !d.status.Broken?
      && (NoShutdown(frames) ==> d.rest == [] && d.status == Waiting)
      && (!NoShutdown(frames) ==> d.status == Finished)
    decreases |chunks|
  {
    if chunks == [] {
      assert buf + Join(chunks) == buf;
      NothingMissing(hash, frames, maxPayload);
    } else {
      var grown, tail := buf + chunks[0], Join(chunks[1..]);
      LeftoverIsShort(hash, buf, maxPayload);
      assert |chunks[0]| <= chunkBound;
      assert grown + tail == buf + Join(chunks);
      var k := DrainFollows(hash, grown, tail, frames, maxPayload);
      var d := Drain(hash, grown, maxPayload);
      if d.status == Waiting {
        ServeFollows(hash, d.rest, chunks[1..], frames[k..], maxPayload, chunkBound, readBound);
        ServedAfter(frames, k);
        assert NoShutdown(frames) <==> NoShutdown(frames[k..]) by { SplitShutdown(frames, k); }
      } else {
        FinishedMeansShutdown(hash, grown, maxPayload);
        ServedMember(frames, d.frames[|d.frames| - 1]);
      }
    }
  }

  lemma SplitShutdown(frames: seq<Frame>, k: nat)
    requires k <= |frames| && NoShutdown(frames[..k])
    ensures NoShutdown(frames) <==> NoShutdown(frames[k..])
  {
    if NoShutdown(frames[k..]) {
      forall i | 0 <= i < |frames| ensures frames[i].kind != Shutdown {
        if i < k { assert frames[..k][i] == frames[i]; } else { assert frames[k..][i - k] == frames[i]; }
      }
    }
  }

  lemma {:induction false} FinishedMeansShutdown(hash: Hash64, buf: seq<Byte>, maxPayload: nat)
    requires Drain(hash, buf, maxPayload).status == Finished
    ensures
      var d := Drain(hash, buf, maxPayload);
      d.frames != [] && d.frames[|d.frames| - 1].kind == Shutdown
    decreases |buf|
  {
    var first := Decode(hash, buf, maxPayload);
    WholeConsumes(hash, buf, maxPayload);
    if first.frame.kind != Shutdown {
      FinishedMeansShutdown(hash, buf[first.consumed..], maxPayload);
    }
  }

  lemma {:induction false} ServedMember(frames: seq<Frame>, f: Frame)
    requires f in Served(frames)
    ensures f in frames
  {
    if frames[0].kind != Shutdown && f != frames[0] {
      ServedMember(frames[1..], f);
    }
  }

  /**
   For every list of sendable frames and every way of cutting its bytes into chunks that the read
   bound has room for, the connection serves exactly that list in order, up to its first shutdown,
   and never breaks; with a shutdown it ends finished, without one waiting with an empty buffer.
   */
  lemma {:induction false} ChunkingIsInvisible(hash: Hash64, frames: seq<Frame>, chunks: seq<seq<Byte>>, maxPayload: nat, chunkBound: nat, readBound: nat)
    requires Sendable(frames, maxPayload) && Join(chunks) == Stream(hash, frames)
    requires ChunksWithin(chunks, chunkBound) && HEADER + maxPayload + chunkBound <= readBound
    ensures
      var d := Serve(hash, [], chunks, maxPayload, readBound);
      && d.frames == Served(frames) && !d.status.Broken?
      && (NoShutdown(frames) ==> d.rest == [] && d.status == Waiting)
      && (!NoShutdown(frames) ==> d.status == Finished)
  {
    assert [] + Join(chunks) == Join(chunks);
    ServeFollows(hash, [], chunks, frames, maxPayload, chunkBound, readBound);
  }

  // ---------------------------------------------------------------------------
  // The connection
  // ---------------------------------------------------------------------------

  class Connection {
    const hash: Hash64
    const maxPayload: nat
    const readBound: nat
    var buffer: seq<Byte>

    constructor (hash: Hash64, maxPayload: nat, readBound: nat)
      ensures buffer == [] && this.hash == hash && this.maxPayload == maxPayload && this.readBound == readBound
    {
      this.hash, this.maxPayload, this.readBound := hash, maxPayload, readBound;
      buffer := [];
    }

    /** The inner loop: decode at the front of the buffer and erase what was consumed. */
    method DecodeAvailable() returns (frames: seq<Frame>, status: Status)
      modifies this
      ensures Drained(frames, buffer, status) == Drain(hash, old(buffer), maxPayload)
    {
      frames := [];
      PrependNothing(Drain(hash, buffer, maxPayload));
      while true
        invariant Drain(hash, old(buffer), maxPayload) == Prepend(frames, Drain(hash, buffer, maxPayload))
        decreases |buffer|
      {
        var decoded := Decode(hash, buffer, maxPayload);
        match decoded {
          case Bad(fault) => return frames, Broken(fault);
          case NeedMore => return frames, Waiting;
          case Whole(f, consumed) =>
            WholeConsumes(hash, buffer, maxPayload);
            PrependTwice(frames, [f], Drain(hash, buffer[consumed..], maxPayload));
            buffer := buffer[consumed..];
            frames := frames + [f];
            if f.kind == Shutdown {
              return frames, Finished;
            }
        }
      }
    }

    /** The outer loop over received chunks. */
    method Handle(chunks: seq<seq<Byte>>) returns (frames: seq<Frame>, status: Status)
      modifies this
      ensures Drained(frames, buffer, status) == Serve(hash, old(buffer), chunks, maxPayload, readBound)
    {
      frames := [];
      var i := 0;
      assert chunks[0..] == chunks;
      PrependNothing(Serve(hash, buffer, chunks, maxPayload, readBound));
      while i < |chunks|
        invariant 0 <= i <= |chunks|
        invariant Serve(hash, old(buffer), chunks, maxPayload, readBound)
               == Prepend(frames, Serve(hash, buffer, chunks[i..], maxPayload, readBound))
      {
        assert chunks[i..][1..] == chunks[i + 1..];
        buffer := buffer + chunks[i];
        if |buffer| > readBound {
          return frames, Broken(TooLarge);
        }
        var got, now := DecodeAvailable();
        PrependTwice(frames, got, Serve(hash, buffer, chunks[i + 1..], maxPayload, readBound));
        frames := frames + got;
        if now != Waiting {
          return frames, now;
        }
        i := i + 1;
      }
      return frames, Waiting;
    }
  }
}
