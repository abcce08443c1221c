/**
 Frames on the wire and the incremental decoder of a socket's byte stream.
 */
module Frames {
  import opened Bytes

  type Channel = c: nat | c < 0x1_0000

  /** A frame keeps its whole serialised form. */
  datatype Frame = Frame(kind: byte, channel: Channel, data: seq<byte>)

  const METHOD: byte := 1
  const HEADER: byte := 2
  const BODY: byte := 3
  const HEARTBEAT: byte := 8
  const FRAME_END: byte := 0xCE
  const CHANNEL_WIDTH: nat := 2
  const LENGTH_WIDTH: nat := 4
  const HEADER_SIZE: nat := 7
  const OVERHEAD: nat := 8

  /** `declared` is the payload length written into the frame. */
  function Serialize(kind: byte, channel: Channel, declared: nat, payload: seq<byte>): (bs: seq<byte>)
    ensures |bs| == |payload| + OVERHEAD
  {
    [kind] + BigEndian(channel, CHANNEL_WIDTH) + BigEndian(declared, LENGTH_WIDTH) + payload + [FRAME_END]
  }

  function Build(kind: byte, channel: Channel, declared: nat, payload: seq<byte>): Frame {
    Frame(kind, channel, Serialize(kind, channel, declared, payload))
  }

  function Payload(f: Frame): seq<byte> {
    if |f.data| < OVERHEAD then [] else f.data[HEADER_SIZE..|f.data| - 1]
  }

  function Word(high: int, low: int): int {
    high * 256 + low
  }

  /** The payload length in the header at the front of the bytes. */
  function DeclaredLength(bs: seq<byte>): nat
    requires |bs| >= HEADER_SIZE
  {
    FromBigEndian(bs[3..HEADER_SIZE])
  }

  datatype Decoded = PARTIAL | DECODE_ERROR | OK(frame: Frame)

  function DecodeFrame(bs: seq<byte>): (d: Decoded)
    ensures d.OK? ==> OVERHEAD <= |d.frame.data| && d.frame.data <= bs
  {
    if |bs| < OVERHEAD then PARTIAL
    else
      var size := OVERHEAD + DeclaredLength(bs);
      if |bs| < size then PARTIAL
      else if bs[size - 1] != FRAME_END then DECODE_ERROR
      else OK(Frame(bs[0], Word(bs[1], bs[2]), bs[..size]))
  }

  /** A frame which declares the length of the payload it carries. */
  predicate WellBuilt(f: Frame) {
    OVERHEAD <= |f.data| < OVERHEAD + 0x1_0000_0000
    && f == Build(f.kind, f.channel, |f.data| - OVERHEAD, Payload(f))
  }

  lemma LastByte(bs: seq<byte>, b: byte)
    ensures FromBigEndian(bs + [b]) == Word(FromBigEndian(bs), b)
  {
    assert (bs + [b])[..|bs|] == bs;
  }

  lemma TwoBytes(bs: seq<byte>)
    requires |bs| == 2
    ensures Word(bs[0], bs[1]) == FromBigEndian(bs)
  {
    LastByte([], bs[0]);
    LastByte([bs[0]], bs[1]);
    assert [] + [bs[0]] == [bs[0]];
    assert bs == [bs[0]] + [bs[1]];
  }

  lemma HeaderUnchanged(bs: seq<byte>, more: seq<byte>)
    requires |bs| >= HEADER_SIZE
    ensures DeclaredLength(bs + more) == DeclaredLength(bs)
    ensures (bs + more)[0] == bs[0] && Word((bs + more)[1], (bs + more)[2]) == Word(bs[1], bs[2])
  {
    assert (bs + more)[3..HEADER_SIZE] == bs[3..HEADER_SIZE];
  }

  lemma Layout(kind: byte, channel: seq<byte>, length: seq<byte>, payload: seq<byte>, rest: seq<byte>)
    requires |channel| == 2 && |length| == 4
    ensures var bs := [kind] + channel + length + payload + [FRAME_END] + rest;
      bs[0] == kind && Word(bs[1], bs[2]) == Word(channel[0], channel[1])
      && DeclaredLength(bs) == FromBigEndian(length)
      && bs[7..7 + |payload|] == payload && bs[7 + |payload|] == FRAME_END
  {
    var bs := [kind] + channel + length + payload + [FRAME_END] + rest;
    var head, tail := [kind] + channel + length, payload + [FRAME_END] + rest;
    assert bs == head + tail;
    HeaderUnchanged(head, tail);
    assert head[1] == channel[0] && head[2] == channel[1] && head[3..7] == length;
    assert bs[7..] == tail;
    assert tail[..|payload|] == payload && tail[|payload|] == FRAME_END;
  }

  lemma FieldsOfSerialized(kind: byte, channel: Channel, declared: nat, payload: seq<byte>, rest: seq<byte>)
    requires declared < 0x1_0000_0000
    ensures var bs := Serialize(kind, channel, declared, payload) + rest;
      bs[0] == kind && Word(bs[1], bs[2]) == channel && DeclaredLength(bs) == declared
      && bs[7..7 + |payload|] == payload && bs[7 + |payload|] == FRAME_END
  {
    Layout(kind, BigEndian(channel, 2), BigEndian(declared, 4), payload, rest);
    TwoBytes(BigEndian(channel, 2));
    PowersOf256();
    BigEndianRoundTrip(channel, 2);
    BigEndianRoundTrip(declared, 4);
  }

  lemma BuildIsWellBuilt(kind: byte, channel: Channel, payload: seq<byte>)
    requires |payload| < 0x1_0000_0000
    ensures WellBuilt(Build(kind, channel, |payload|, payload))
    ensures Payload(Build(kind, channel, |payload|, payload)) == payload
  {
    FieldsOfSerialized(kind, channel, |payload|, payload, []);
    var f := Build(kind, channel, |payload|, payload);
    assert f.data + [] == f.data;
    assert Payload(f) == payload;
  }

  /** A frame on the wire: its kind, its channel in two bytes, the length of its payload
      in four, the payload and the end mark. */
  lemma FrameBytes(kind: byte, channel: Channel, payload: seq<byte>)
    requires |payload| < 0x1_0000_0000
    ensures var n := |payload|;
      Build(kind, channel, n, payload).data
      == [kind, channel / 256, channel % 256, n / 0x100_0000, n / 0x1_0000 % 256, n / 256 % 256, n % 256]
         + payload + [0xCE]
  {
    var n := |payload|;
    TwoBytesSplit(channel);
    FourBytesSplit(n);
  }

  lemma TwoBytesSplit(n: nat)
    requires n < 0x1_0000
    ensures BigEndian(n, 2) == [n / 256, n % 256]
  {
    assert BigEndian(n / 256 / 256, 0) == [];
    assert BigEndian(n / 256, 1) == [n / 256];
  }

  lemma FourBytesSplit(n: nat)
    requires n < 0x1_0000_0000
    ensures BigEndian(n, 4) == [n / 0x100_0000, n / 0x1_0000 % 256, n / 256 % 256, n % 256]
  {
    TwoBytesSplit(n / 0x1_0000);
    assert n / 256 / 256 == n / 0x1_0000;
    assert n / 0x1_0000 / 256 == n / 0x100_0000;
    assert BigEndian(n / 256, 3) == BigEndian(n / 256 / 256, 2) + [n / 256 % 256];
    assert BigEndian(n, 4) == BigEndian(n / 256, 3) + [n % 256];
  }

  /** A frame followed by anything is read back, and nothing beyond it. */
  lemma FrameRoundTrip(f: Frame, rest: seq<byte>)
    requires WellBuilt(f)
    ensures DecodeFrame(f.data + rest) == OK(f)
  {
    FieldsOfSerialized(f.kind, f.channel, |f.data| - OVERHEAD, Payload(f), rest);
    assert (f.data + rest)[..|f.data|] == f.data;
  }

  lemma StrictPrefixPartial(f: Frame, n: nat)
    requires WellBuilt(f) && n < |f.data|
    ensures DecodeFrame(f.data[..n]) == PARTIAL
  {
    if n >= OVERHEAD {
      FieldsOfSerialized(f.kind, f.channel, |f.data| - OVERHEAD, Payload(f), []);
      assert f.data + [] == f.data && f.data[..n] + f.data[n..] == f.data;
      HeaderUnchanged(f.data[..n], f.data[n..]);
    }
  }

  /** More bytes never change a verdict once there is one. */
  lemma VerdictStable(bs: seq<byte>, more: seq<byte>)
    requires !DecodeFrame(bs).PARTIAL?
    ensures DecodeFrame(bs + more) == DecodeFrame(bs)
  {
    var size := OVERHEAD + DeclaredLength(bs);
    HeaderUnchanged(bs, more);
    assert (bs + more)[..size] == bs[..size] && (bs + more)[size - 1] == bs[size - 1];
  }

  // ---- Reading a stream ----

  datatype Drained = Drained(frames: seq<Frame>, rest: seq<byte>, failed: bool)

  /** Every whole frame at the front of the bytes. */
  function Drain(bs: seq<byte>): Drained
    decreases |bs|
  {
    match DecodeFrame(bs)
    case PARTIAL => Drained([], bs, false)
    case DECODE_ERROR => Drained([], bs, true)
    case OK(f) =>
      var d := Drain(bs[|f.data|..]);
      Drained([f] + d.frames, d.rest, d.failed)
  }

  datatype ReturnCode = SUCCESS | MAX_FRAME_SIZE | CORRUPT

  /** The decoder's buffer, what it has handed out so far and its last verdict. */
  datatype Stream = Stream(frames: seq<Frame>, buffer: seq<byte>, code: ReturnCode)

  function Outcome(d: Drained, maxFrameSize: nat): ReturnCode {
    if d.failed then CORRUPT else if |d.rest| > maxFrameSize then MAX_FRAME_SIZE else SUCCESS
  }

  /** After a corrupt frame the buffer keeps everything. */
  function AppendBytes(s: Stream, chunk: seq<byte>, maxFrameSize: nat): Stream {
    var d := Drain(s.buffer + chunk);
    Stream(s.frames + d.frames, if d.failed then s.buffer + chunk else d.rest, Outcome(d, maxFrameSize))
  }

  class Decoder {
    const maxFrameSize: nat
    var buffer: seq<byte>

    constructor (maxFrameSize: nat)
      ensures this.maxFrameSize == maxFrameSize && buffer == []
    {
      this.maxFrameSize, buffer := maxFrameSize, [];
    }

    method Append(outFrames: seq<Frame>, chunk: seq<byte>) returns (frames: seq<Frame>, code: ReturnCode)
      modifies this
      ensures Stream(frames, buffer, code)
           == AppendBytes(Stream(outFrames, old(buffer), SUCCESS), chunk, maxFrameSize)
    {
      buffer := buffer + chunk;
      var decoded, rest, failed := DrainLoop(buffer);
      frames := outFrames + decoded;
      if failed {
        return frames, CORRUPT;
      }
      buffer := rest;
      code := if |buffer| > maxFrameSize then MAX_FRAME_SIZE else SUCCESS;
    }
  }

  method DrainLoop(bs: seq<byte>) returns (frames: seq<Frame>, rest: seq<byte>, failed: bool)
    ensures Drained(frames, rest, failed) == Drain(bs)
  {
    frames, rest := [], bs;
    var verdict := DecodeFrame(rest);
    while verdict.OK?
      invariant verdict == DecodeFrame(rest)
      invariant Drain(bs) == After(frames, Drain(rest))
      decreases |rest|
    {
      var f := verdict.frame;
      var tail := rest[|f.data|..];
      DrainFrame(f, rest, tail);
      AfterAfter(frames, [f], Drain(tail));
      frames, rest := frames + [f], tail;
      verdict := DecodeFrame(rest);
    }
    failed := verdict.DECODE_ERROR?;
    assert frames + [] == frames;
  }

  /** Drained frames in front of what is drained later. */
  function After(earlier: seq<Frame>, d: Drained): Drained {
    Drained(earlier + d.frames, d.rest, d.failed)
  }

  lemma DrainFrame(f: Frame, bs: seq<byte>, tail: seq<byte>)
    requires DecodeFrame(bs) == OK(f) && tail == bs[|f.data|..]
    ensures Drain(bs) == After([f], Drain(tail))
  {
  }

  lemma AfterAfter(a: seq<Frame>, b: seq<Frame>, d: Drained)
    ensures After(a, After(b, d)) == After(a + b, d)
  {
    assert a + (b + d.frames) == a + b + d.frames;
  }

  /** Draining can stop anywhere and resume with the bytes that came later. */
  lemma {:induction false} DrainResumes(bs: seq<byte>, more: seq<byte>)
    requires !Drain(bs).failed
    ensures Drain(bs + more) == After(Drain(bs).frames, Drain(Drain(bs).rest + more))
    decreases |bs|
  {
    match DecodeFrame(bs)
    case OK(f) =>
      var tail := bs[|f.data|..];
      DrainFrame(f, bs, tail);
      DrainResumes(tail, more);
      FrameStays(f, bs, tail, more);
      AfterAfter([f], Drain(tail).frames, Drain(Drain(tail).rest + more));
    case _ =>
  }

  lemma AppendThenDrop(bs: seq<byte>, more: seq<byte>, k: nat)
    requires k <= |bs|
    ensures (bs + more)[k..] == bs[k..] + more
  {
  }

  lemma FrameStays(f: Frame, bs: seq<byte>, tail: seq<byte>, more: seq<byte>)
    requires DecodeFrame(bs) == OK(f) && tail == bs[|f.data|..]
    ensures Drain(bs + more) == After([f], Drain(tail + more))
  {
    VerdictStable(bs, more);
    AppendThenDrop(bs, more, |f.data|);
    DrainFrame(f, bs + more, tail + more);
  }

  function Joined(chunks: seq<seq<byte>>): seq<byte> {
    if chunks == [] then [] else Joined(chunks[..|chunks| - 1]) + chunks[|chunks| - 1]
  }

  /** A decoder fed chunk by chunk until a verdict other than success. */
  function Feed(chunks: seq<seq<byte>>, maxFrameSize: nat): Stream {
    if chunks == [] then Stream([], [], SUCCESS)
    else
      var s := Feed(chunks[..|chunks| - 1], maxFrameSize);
      if s.code != SUCCESS then s else AppendBytes(s, chunks[|chunks| - 1], maxFrameSize)
  }

  /** While no error is reported, how the stream was cut into chunks is invisible. */
  lemma {:induction false} ChunksInvisible(chunks: seq<seq<byte>>, maxFrameSize: nat)
    requires Feed(chunks, maxFrameSize).code == SUCCESS
    ensures Feed(chunks, maxFrameSize).frames == Drain(Joined(chunks)).frames
    ensures Feed(chunks, maxFrameSize).buffer == Drain(Joined(chunks)).rest
    ensures !Drain(Joined(chunks)).failed
  {
    if chunks != [] {
      var earlier := chunks[..|chunks| - 1];
      ChunksInvisible(earlier, maxFrameSize);
      DrainResumes(Joined(earlier), chunks[|chunks| - 1]);
    }
  }

  /** The next chunk is refused as corrupt exactly when a frame in the stream so far does
      not end where it says, and as too long exactly when what is left of it without a
      whole frame exceeds the limit. */
  lemma VerdictExactly(chunks: seq<seq<byte>>, chunk: seq<byte>, maxFrameSize: nat)
    requires Feed(chunks, maxFrameSize).code == SUCCESS
    ensures var code, all := Feed(chunks + [chunk], maxFrameSize).code, Drain(Joined(chunks) + chunk);
      && (code == CORRUPT <==> all.failed)
      && (code == MAX_FRAME_SIZE <==> !all.failed && |all.rest| > maxFrameSize)
  {
    assert (chunks + [chunk])[..|chunks|] == chunks;
    ChunksInvisible(chunks, maxFrameSize);
    DrainResumes(Joined(chunks), chunk);
  }

  function Bytestream(fs: seq<Frame>): seq<byte> {
    if fs == [] then [] else fs[0].data + Bytestream(fs[1..])
  }

  /** Some of the frames whole, and less than the next one over. */
  predicate Cut(d: Drained, fs: seq<Frame>) {
    !d.failed && d.frames <= fs
    && (if |d.frames| < |fs| then |d.rest| < |fs[|d.frames|].data| else d.rest == [])
  }

  lemma CutStep(f: Frame, d: Drained, fs: seq<Frame>)
    requires Cut(d, fs)
    ensures Cut(After([f], d), [f] + fs)
  {
  }

  /** A beginning of a stream of frames gives whole frames and part of the next. */
  lemma {:induction false} DrainPrefix(fs: seq<Frame>, n: nat)
    requires forall f | f in fs :: WellBuilt(f)
    requires n <= |Bytestream(fs)|
    ensures Cut(Drain(Bytestream(fs)[..n]), fs)
    ensures n == |Bytestream(fs)| ==> Drain(Bytestream(fs)[..n]).frames == fs
  {
    if fs == [] {
      assert Bytestream(fs)[..n] == [];
    } else {
      var f, later, more := fs[0], fs[1..], Bytestream(fs[1..]);
      assert fs == [f] + later;
      AppendThenTake(f.data, more, n);
      if n < |f.data| {
        assert WellBuilt(f);
        PrefixOfFirst(f, n, fs);
      } else {
        DrainPrefix(later, n - |f.data|);
        assert WellBuilt(f);
        PrefixPastFirst(f, more[..n - |f.data|], later);
      }
    }
  }

  lemma PrefixOfFirst(f: Frame, n: nat, fs: seq<Frame>)
    requires WellBuilt(f) && n < |f.data| && fs != [] && fs[0] == f
    ensures Cut(Drain(f.data[..n]), fs)
  {
    StrictPrefixPartial(f, n);
  }

  lemma PrefixPastFirst(f: Frame, part: seq<byte>, later: seq<Frame>)
    requires WellBuilt(f) && Cut(Drain(part), later)
    ensures Cut(Drain(f.data + part), [f] + later)
    ensures Drain(f.data + part).frames == [f] + Drain(part).frames
  {
    DrainFront(f, part);
    CutStep(f, Drain(part), later);
  }

  lemma AppendThenTake(bs: seq<byte>, more: seq<byte>, n: nat)
    requires n <= |bs| + |more|
    ensures (bs + more)[..n] == if n < |bs| then bs[..n] else bs + more[..n - |bs|]
  {
  }

  lemma DrainFront(f: Frame, tail: seq<byte>)
    requires WellBuilt(f)
    ensures Drain(f.data + tail) == After([f], Drain(tail))
  {
    FrameRoundTrip(f, tail);
    assert (f.data + tail)[|f.data|..] == tail;
    DrainFrame(f, f.data + tail, tail);
  }

  lemma {:induction false} FeedNeverFails(chunks: seq<seq<byte>>, fs: seq<Frame>, maxFrameSize: nat)
    requires forall f | f in fs :: WellBuilt(f) && |f.data| <= maxFrameSize
    requires Joined(chunks) <= Bytestream(fs)
    ensures Feed(chunks, maxFrameSize).code == SUCCESS
  {
    if chunks != [] {
      var earlier := chunks[..|chunks| - 1];
      assert Joined(earlier) <= Bytestream(fs);
      FeedNeverFails(earlier, fs, maxFrameSize);
      ChunksInvisible(earlier, maxFrameSize);
      DrainResumes(Joined(earlier), chunks[|chunks| - 1]);
      DrainPrefix(fs, |Joined(chunks)|);
      assert Bytestream(fs)[..|Joined(chunks)|] == Joined(chunks);
    }
  }

  /** Frames within the limit arrive whole, in order and without error, however
      their bytes are cut; and no frame is held back once its last byte is in. */
  lemma StreamDelivered(chunks: seq<seq<byte>>, fs: seq<Frame>, maxFrameSize: nat)
    requires forall f | f in fs :: WellBuilt(f) && |f.data| <= maxFrameSize
    requires Joined(chunks) <= Bytestream(fs)
    ensures var s := Feed(chunks, maxFrameSize);
      s.code == SUCCESS && Cut(Drained(s.frames, s.buffer, false), fs)
      && (Joined(chunks) == Bytestream(fs) ==> s.frames == fs && s.buffer == [])
  {
    FeedNeverFails(chunks, fs, maxFrameSize);
    ChunksInvisible(chunks, maxFrameSize);
    DrainPrefix(fs, |Joined(chunks)|);
    assert Bytestream(fs)[..|Joined(chunks)|] == Joined(chunks);
  }
}

/**
 Messages cut into frames and put together again, one content at a time per
 channel. A method is its encoded form; which byte strings decode as a method is
 a parameter.
 */
module Framing {
  import opened Wrappers
  import opened Bytes
  import opened ContentCodec
  import opened Frames

  datatype Message = Heartbeat | Method(encoded: seq<byte>) | Content(properties: seq<Property>, body: seq<byte>)

  const BASIC: nat := 60
  const DEFAULT_MAX_FRAME_SIZE: nat := 150000

  /** A content being received. */
  datatype Maker = Maker(properties: seq<Property>, body: seq<byte>, remaining: nat)

  type Makers = map<Channel, Maker>

  datatype Outcome = DONE(message: Message) | MORE | CHANNEL_EXCEPTION | CONNECTION_EXCEPTION

  // ---- Receiving ----

  type MethodTest = seq<byte> -> bool

  /** What a frame does to its channel's unfinished content, if there is one. */
  function Accept(slot: Option<Maker>, f: Frame, isMethod: MethodTest): (Option<Maker>, Outcome) {
    if f.kind == METHOD then
      if slot.Some? || !isMethod(Payload(f)) then (slot, CHANNEL_EXCEPTION) else (slot, DONE(Method(Payload(f))))
    else if f.kind == HEARTBEAT then
      (slot, DONE(Heartbeat))
    else if f.kind == HEADER then
      if slot.Some? then (slot, CHANNEL_EXCEPTION)
      else
        match DecodeHeader(Payload(f))
        case None => (slot, CHANNEL_EXCEPTION)
        case Some(h) =>
          if h.bodySize == 0 then (slot, DONE(Content(h.properties, [])))
          else (Some(Maker(h.properties, [], h.bodySize)), MORE)
    else if f.kind == BODY then
      if slot.None? then (slot, CHANNEL_EXCEPTION)
      else
        var m, part := slot.value, Payload(f);
        if m.remaining < |part| then (slot, CHANNEL_EXCEPTION)
        else if m.remaining == |part| then (None, DONE(Content(m.properties, m.body + part)))
        else (Some(Maker(m.properties, m.body + part, m.remaining - |part|)), MORE)
    else
      (slot, CONNECTION_EXCEPTION)
  }

  /** The frame does not go with its channel: a method or a header before the content
      begun is complete, a method or a header that cannot be read, or a body without a
      header or longer than announced. */
  predicate Misplaced(slot: Option<Maker>, f: Frame, isMethod: MethodTest) {
    || (f.kind == 1 && (slot.Some? || !isMethod(Payload(f))))
    || (f.kind == 2 && (slot.Some? || DecodeHeader(Payload(f)).None?))
    || (f.kind == 3 && (slot.None? || |Payload(f)| > slot.value.remaining))
  }

  /** Exactly those close the channel, exactly frames of an unknown kind the connection,
      and neither changes the content begun. */
  lemma RefusedExactly(slot: Option<Maker>, f: Frame, isMethod: MethodTest)
    ensures Accept(slot, f, isMethod).1 == CHANNEL_EXCEPTION <==> Misplaced(slot, f, isMethod)
    ensures Accept(slot, f, isMethod).1 == CONNECTION_EXCEPTION <==> f.kind !in {1, 2, 3, 8}
    ensures Misplaced(slot, f, isMethod) || f.kind !in {1, 2, 3, 8} ==> Accept(slot, f, isMethod).0 == slot
  {
  }

  function Slot(makers: Makers, c: Channel): Option<Maker> {
    if c in makers then Some(makers[c]) else None
  }

  function Put(makers: Makers, c: Channel, slot: Option<Maker>): Makers {
    if slot.None? then makers - {c} else makers[c := slot.value]
  }

  lemma PutBack(makers: Makers, c: Channel)
    ensures Put(makers, c, Slot(makers, c)) == makers
  {
  }

  function Append(makers: Makers, f: Frame, isMethod: MethodTest): (Makers, Outcome) {
    var next := Accept(Slot(makers, f.channel), f, isMethod);
    (Put(makers, f.channel, next.0), next.1)
  }

  class Framer {
    var makers: Makers
    var maxFrameSize: nat
    const isMethod: MethodTest

    ghost predicate Valid()
      reads this
    {
      maxFrameSize > OVERHEAD
    }

    constructor (isMethod: MethodTest)
      ensures Valid() && makers == map[] && maxFrameSize == 150000 && this.isMethod == isMethod
    {
      makers, maxFrameSize, this.isMethod := map[], DEFAULT_MAX_FRAME_SIZE, isMethod;
    }

    /** A size without room for a payload is refused. */
    method SetMaxFrameSize(maxSize: nat) returns (ok: bool)
      requires Valid()
      modifies this`maxFrameSize
      ensures Valid() && ok == (maxSize > OVERHEAD)
      ensures maxFrameSize == if ok then maxSize else old(maxFrameSize)
    {
      if maxSize <= OVERHEAD {
        return false;
      }
      maxFrameSize := maxSize;
      return true;
    }

    method AppendFrame(f: Frame) returns (channel: Channel, outcome: Outcome)
      modifies this`makers
      ensures channel == f.channel
      ensures (makers, outcome) == Append(old(makers), f, isMethod)
    {
      channel := f.channel;
      PutBack(makers, channel);
      if f.kind == METHOD {
        if channel in makers || !isMethod(Payload(f)) {
          return channel, CHANNEL_EXCEPTION;
        }
        return channel, DONE(Method(Payload(f)));
      }
      if f.kind == HEARTBEAT {
        return channel, DONE(Heartbeat);
      }
      if f.kind == HEADER {
        if channel in makers {
          return channel, CHANNEL_EXCEPTION;
        }
        var header := DecodeHeader(Payload(f));
        if header.None? {
          return channel, CHANNEL_EXCEPTION;
        }
        var maker := Maker(header.value.properties, [], header.value.bodySize);
        if maker.remaining <= 0 {
          return channel, DONE(Content(maker.properties, maker.body));
        }
        makers := makers[channel := maker];
        return channel, MORE;
      }
      if f.kind == BODY {
        if channel !in makers {
          return channel, CHANNEL_EXCEPTION;
        }
        var maker, part := makers[channel], Payload(f);
        if maker.remaining < |part| {
          return channel, CHANNEL_EXCEPTION;
        }
        maker := Maker(maker.properties, maker.body + part, maker.remaining - |part|);
        if maker.remaining <= 0 {
          makers := makers - {channel};
          return channel, DONE(Content(maker.properties, maker.body));
        }
        makers := makers[channel := maker];
        return channel, MORE;
      }
      return channel, CONNECTION_EXCEPTION;
    }

    method ClearChannel(channel: Channel)
      modifies this`makers
      ensures makers == Put(old(makers), channel, None)
    {
      makers := makers - {channel};
    }

    method MakeFrames(frames: seq<Frame>, channel: Channel, message: Message) returns (all: seq<Frame>)
      requires Valid() && Encodable(message)
      ensures all == frames + FramesOf(message, channel, maxFrameSize)
    {
      match message
      case Heartbeat => all := frames + [HeartbeatFrame()];
      case Method(m) => all := frames + [Build(METHOD, channel, |m|, m)];
      case Content(_, _) =>
        var bodies := SerializeBody(message.body, channel, maxFrameSize - OVERHEAD);
        all := frames + [HeaderFrame(message, channel)] + bodies;
        assert all == frames + ([HeaderFrame(message, channel)] + bodies);
    }
  }

  // ---- Sending ----

  predicate Encodable(m: Message) {
    m.Content? ==> WellTyped(m.properties, EXPECTED_TYPES) && |m.body| < 0x1_0000_0000_0000_0000
  }

  function HeaderOf(m: Message): (h: ContentHeader)
    requires m.Content? && Encodable(m)
    ensures ValidHeader(h)
  {
    ContentHeader(BASIC, |m.body|, m.properties)
  }

  function HeaderFrame(m: Message, channel: Channel): Frame
    requires m.Content? && Encodable(m)
  {
    Build(HEADER, channel, HeaderSize(HeaderOf(m)), EncodeHeader(HeaderOf(m)))
  }

  function HeartbeatFrame(): Frame {
    Build(HEARTBEAT, 0, 0, [])
  }

  function BodyFrames(body: seq<byte>, channel: Channel, room: nat): seq<Frame>
    requires room > 0
  {
    if body == [] then []
    else if |body| <= room then [Build(BODY, channel, |body|, body)]
    else [Build(BODY, channel, room, body[..room])] + BodyFrames(body[room..], channel, room)
  }

  function FramesOf(m: Message, channel: Channel, max: nat): seq<Frame>
    requires max > OVERHEAD && Encodable(m)
  {
    match m
    case Heartbeat => [HeartbeatFrame()]
    case Method(encoded) => [Build(METHOD, channel, |encoded|, encoded)]
    case Content(_, body) => [HeaderFrame(m, channel)] + BodyFrames(body, channel, max - OVERHEAD)
  }

  /** What goes over the wire first for a message: the heartbeat frame, a method frame
      with the encoded method, or a header frame of the basic class with the size of the
      body. */
  lemma WireBytes(m: Message, channel: Channel, max: nat)
    requires max > OVERHEAD && Encodable(m) && (m.Method? ==> |m.encoded| < 0x1_0000_0000)
    ensures var first := FramesOf(m, channel, max)[0].data;
      match m
      case Heartbeat => FramesOf(m, channel, max) == [Frame(8, 0, [8, 0, 0, 0, 0, 0, 0, 0xCE])]
      case Method(encoded) =>
        var n := |encoded|;
        && |FramesOf(m, channel, max)| == 1
        && first[..3] == [1, channel / 256, channel % 256]
        && first[3..7] == [n / 0x100_0000, n / 0x1_0000 % 256, n / 256 % 256, n % 256]
        && first[7..] == encoded + [0xCE]
      case Content(_, _) =>
        && first[..3] == [2, channel / 256, channel % 256]
        && first[7..11] == [0, 60, 0, 0]
  {
    match m
    case Heartbeat =>
      FrameBytes(HEARTBEAT, 0, []);
      assert HeartbeatFrame().data == [8, 0, 0, 0, 0, 0, 0, 0xCE];
    case Method(encoded) => FrameBytes(METHOD, channel, encoded);
    case Content(_, _) => HeaderFrameBytes(m, channel);
  }

  lemma HeaderFrameBytes(m: Message, channel: Channel)
    requires m.Content? && Encodable(m)
    ensures var bs := HeaderFrame(m, channel).data;
      |bs| >= 11 && bs[..3] == [2, channel / 256, channel % 256] && bs[7..11] == [0, 60, 0, 0]
  {
    var h := HeaderOf(m);
    var bs, rest := HeaderFrame(m, channel).data, EncodeHeader(h) + [FRAME_END];
    HeaderBytes(h, 0);
    TwoBytesSplit(channel);
    assert bs == [HEADER] + BigEndian(channel, 2) + BigEndian(HeaderSize(h), 4) + rest;
    assert bs[7..] == rest;
    assert bs[7..11] == rest[..4] == EncodeHeader(h)[..4];
  }

  function BodyFrameAt(body: seq<byte>, i: nat, channel: Channel, room: nat): Frame
    requires i < |body|
  {
    var size := if room < |body| - i then room else |body| - i;
    Build(BODY, channel, size, body[i..i + size])
  }

  method SerializeBody(body: seq<byte>, channel: Channel, room: nat) returns (bodies: seq<Frame>)
    requires room > 0
    ensures bodies == BodyFrames(body, channel, room)
  {
    bodies := [];
    var i := 0;
    assert body[0..] == body;
    while i < |body|
      invariant 0 <= i
      invariant bodies + BodyFrames(Suffix(body, i), channel, room) == BodyFrames(body, channel, room)
      decreases |body| - i
    {
      ChunkStep(bodies, body, i, channel, room);
      bodies := bodies + [BodyFrameAt(body, i, channel, room)];
      i := i + room;
    }
    assert bodies + [] == bodies;
  }

  /** What is left from position i, nothing when i is past the end. */
  ghost function Suffix(body: seq<byte>, i: nat): seq<byte> {
    if i <= |body| then body[i..] else []
  }

  lemma FirstBodyFrame(rest: seq<byte>, size: nat, channel: Channel, room: nat)
    requires room > 0 && rest != [] && size == if room < |rest| then room else |rest|
    ensures BodyFrames(rest, channel, room)
         == [Build(BODY, channel, size, rest[..size])] + BodyFrames(rest[size..], channel, room)
  {
    if size == |rest| {
      assert rest[..size] == rest && rest[size..] == [];
    }
  }

  lemma SuffixParts(body: seq<byte>, i: nat, size: nat)
    requires i + size <= |body|
    ensures Suffix(body, i)[..size] == body[i..i + size] && Suffix(body, i)[size..] == Suffix(body, i + size)
  {
  }

  lemma NextChunk(body: seq<byte>, i: nat, channel: Channel, room: nat)
    requires room > 0 && i < |body|
    ensures BodyFrames(Suffix(body, i), channel, room)
         == [BodyFrameAt(body, i, channel, room)] + BodyFrames(Suffix(body, i + room), channel, room)
  {
    var size := if room < |body| - i then room else |body| - i;
    FirstBodyFrame(Suffix(body, i), size, channel, room);
    SuffixParts(body, i, size);
    assert Suffix(body, i + size) == Suffix(body, i + room);
  }

  lemma Regroup(done: seq<Frame>, f: Frame, rest: seq<Frame>)
    ensures done + ([f] + rest) == done + [f] + rest
  {
  }

  lemma ChunkStep(done: seq<Frame>, body: seq<byte>, i: nat, channel: Channel, room: nat)
    requires room > 0 && i < |body|
    ensures done + BodyFrames(Suffix(body, i), channel, room)
         == done + [BodyFrameAt(body, i, channel, room)] + BodyFrames(Suffix(body, i + room), channel, room)
  {
    NextChunk(body, i, channel, room);
    Regroup(done, BodyFrameAt(body, i, channel, room), BodyFrames(Suffix(body, i + room), channel, room));
  }

  // ---- Frames of one channel ----

  /** What the frames of one channel do, starting from its unfinished content. */
  function AcceptAll(slot: Option<Maker>, fs: seq<Frame>, isMethod: MethodTest): (Option<Maker>, seq<Outcome>)
    decreases |fs|
  {
    if fs == [] then (slot, [])
    else
      var next := Accept(slot, fs[0], isMethod);
      var later := AcceptAll(next.0, fs[1..], isMethod);
      (later.0, [next.1] + later.1)
  }

  lemma AcceptOne(slot: Option<Maker>, f: Frame, isMethod: MethodTest)
    ensures var next := Accept(slot, f, isMethod); AcceptAll(slot, [f], isMethod) == (next.0, [next.1])
  {
    var next := Accept(slot, f, isMethod);
    assert [f][1..] == [];
    assert AcceptAll(next.0, [], isMethod) == (next.0, []);
    assert [next.1] + [] == [next.1];
  }

  lemma AcceptFirst(slot: Option<Maker>, f: Frame, fs: seq<Frame>, isMethod: MethodTest)
    ensures var next := Accept(slot, f, isMethod); var later := AcceptAll(next.0, fs, isMethod);
      AcceptAll(slot, [f] + fs, isMethod) == (later.0, [next.1] + later.1)
  {
    assert ([f] + fs)[1..] == fs;
  }

  lemma {:induction false} AcceptAppend(slot: Option<Maker>, fs: seq<Frame>, gs: seq<Frame>, isMethod: MethodTest)
    ensures var mid := AcceptAll(slot, fs, isMethod); var end := AcceptAll(mid.0, gs, isMethod);
      AcceptAll(slot, fs + gs, isMethod) == (end.0, mid.1 + end.1)
    decreases |fs|
  {
    var mid := AcceptAll(slot, fs, isMethod);
    var end := AcceptAll(mid.0, gs, isMethod);
    if fs == [] {
      assert fs + gs == gs && [] + end.1 == end.1;
    } else {
      var next := Accept(slot, fs[0], isMethod);
      AcceptAppend(next.0, fs[1..], gs, isMethod);
      assert (fs + gs)[0] == fs[0] && (fs + gs)[1..] == fs[1..] + gs;
      var first := AcceptAll(next.0, fs[1..], isMethod).1;
      assert mid.1 + end.1 == [next.1] + (first + end.1);
    }
  }

  /** Everything but the last frame of a message leaves it unfinished. */
  function Progress(m: Message, frames: nat): seq<Outcome>
    requires frames > 0
  {
    seq(frames - 1, _ => MORE) + [DONE(m)]
  }

  lemma ProgressStep(m: Message, frames: nat)
    requires frames > 1
    ensures Progress(m, frames) == [MORE] + Progress(m, frames - 1)
  {
  }

  lemma ProgressOne(m: Message)
    ensures Progress(m, 1) == [DONE(m)]
  {
  }

  lemma BodyAccepted(maker: Maker, part: seq<byte>, channel: Channel, isMethod: MethodTest)
    requires |part| < 0x1_0000_0000
    ensures var f := Build(BODY, channel, |part|, part);
      |part| < maker.remaining ==>
        Accept(Some(maker), f, isMethod)
        == (Some(Maker(maker.properties, maker.body + part, maker.remaining - |part|)), MORE)
    ensures var f := Build(BODY, channel, |part|, part);
      |part| == maker.remaining ==>
        Accept(Some(maker), f, isMethod) == (None, DONE(Content(maker.properties, maker.body + part)))
  {
    BuildIsWellBuilt(BODY, channel, part);
  }

  lemma {:induction false} BodyReassembled(
    maker: Maker, rest: seq<byte>, channel: Channel, room: nat, isMethod: MethodTest)
    requires 0 < room < 0x1_0000_0000 && rest != [] && maker.remaining == |rest|
    ensures var fs := BodyFrames(rest, channel, room);
      |fs| > 0 && AcceptAll(Some(maker), fs, isMethod)
                  == (None, Progress(Content(maker.properties, maker.body + rest), |fs|))
    decreases |rest|
  {
    var fs := BodyFrames(rest, channel, room);
    var whole := Content(maker.properties, maker.body + rest);
    if |rest| <= room {
      BodyAccepted(maker, rest, channel, isMethod);
      AcceptOne(Some(maker), fs[0], isMethod);
      ProgressOne(whole);
    } else {
      var next := Maker(maker.properties, maker.body + rest[..room], maker.remaining - room);
      BodyAccepted(maker, rest[..room], channel, isMethod);
      BodyReassembled(next, rest[room..], channel, room, isMethod);
      AcceptFirst(Some(maker), fs[0], BodyFrames(rest[room..], channel, room), isMethod);
      assert maker.body + rest[..room] + rest[room..] == maker.body + rest by {
        assert rest[..room] + rest[room..] == rest;
      }
      ProgressStep(whole, |fs|);
    }
  }

  /** What can be sent on a channel and recognised by the receiver. */
  predicate Sendable(m: Message, channel: Channel, isMethod: MethodTest) {
    match m
    case Heartbeat => channel == 0
    case Method(encoded) => isMethod(encoded) && |encoded| < 0x1_0000_0000
    case Content(properties, _) => Encodable(m) && StringsFit(properties) && HeaderSize(HeaderOf(m)) < 0x1_0000_0000
  }

  lemma HeaderAccepted(m: Message, channel: Channel, isMethod: MethodTest)
    requires m.Content? && Sendable(m, channel, isMethod)
    ensures Accept(None, HeaderFrame(m, channel), isMethod)
         == if m.body == [] then (None, DONE(m)) else (Some(Maker(m.properties, [], |m.body|)), MORE)
  {
    var h := HeaderOf(m);
    HeaderRoundTrip(h);
    HeaderSizeExact(h);
    BuildIsWellBuilt(HEADER, channel, EncodeHeader(h));
  }

  /** A message's frames give the message with the last of them and leave the
      channel ready for the next one. */
  lemma MessageReassembled(m: Message, channel: Channel, max: nat, isMethod: MethodTest)
    requires Sendable(m, channel, isMethod) && OVERHEAD < max <= 0x1_0000_0000
    ensures var fs := FramesOf(m, channel, max);
      |fs| > 0 && AcceptAll(None, fs, isMethod) == (None, Progress(m, |fs|))
  {
    match m
    case Heartbeat =>
      AcceptOne(None, HeartbeatFrame(), isMethod);
      ProgressOne(m);
    case Method(encoded) =>
      BuildIsWellBuilt(METHOD, channel, encoded);
      AcceptOne(None, Build(METHOD, channel, |encoded|, encoded), isMethod);
      ProgressOne(m);
    case Content(_, _) =>
      ContentReassembled(m, channel, max - OVERHEAD, isMethod);
  }

  lemma ContentReassembled(m: Message, channel: Channel, room: nat, isMethod: MethodTest)
    requires m.Content? && Sendable(m, channel, isMethod) && 0 < room < 0x1_0000_0000
    ensures var fs := [HeaderFrame(m, channel)] + BodyFrames(m.body, channel, room);
      AcceptAll(None, fs, isMethod) == (None, Progress(m, |fs|))
  {
    var head, bodies := HeaderFrame(m, channel), BodyFrames(m.body, channel, room);
    HeaderAccepted(m, channel, isMethod);
    if m.body == [] {
      assert [head] + [] == [head];
      AcceptOne(None, head, isMethod);
      ProgressOne(m);
    } else {
      AcceptFirst(None, head, bodies, isMethod);
      BodyReassembled(Maker(m.properties, [], |m.body|), m.body, channel, room, isMethod);
      assert [] + m.body == m.body;
      ProgressStep(m, 1 + |bodies|);
    }
  }

  predicate AllSendable(ms: seq<Message>, channel: Channel, isMethod: MethodTest) {
    forall i | 0 <= i < |ms| :: Sendable(ms[i], channel, isMethod)
  }

  ghost function AllFrames(ms: seq<Message>, channel: Channel, max: nat): seq<Frame>
    requires max > OVERHEAD
  {
    if ms == [] then []
    else (if Encodable(ms[0]) then FramesOf(ms[0], channel, max) else []) + AllFrames(ms[1..], channel, max)
  }

  /** How many frames each message takes. */
  ghost function FrameCounts(ms: seq<Message>, channel: Channel, max: nat): (counts: seq<nat>)
    requires max > OVERHEAD
    ensures |counts| == |ms| && forall i | 0 <= i < |counts| :: counts[i] > 0
  {
    if ms == [] then []
    else
      [if Encodable(ms[0]) && FramesOf(ms[0], channel, max) != [] then |FramesOf(ms[0], channel, max)| else 1]
      + FrameCounts(ms[1..], channel, max)
  }

  /** Message after message, each finished by the last of its frames. */
  function AllProgress(ms: seq<Message>, counts: seq<nat>): seq<Outcome>
    requires |counts| == |ms| && forall i | 0 <= i < |counts| :: counts[i] > 0
  {
    if ms == [] then [] else Progress(ms[0], counts[0]) + AllProgress(ms[1..], counts[1..])
  }

  lemma FramesFirst(ms: seq<Message>, channel: Channel, max: nat)
    requires OVERHEAD < max && ms != [] && Encodable(ms[0]) && FramesOf(ms[0], channel, max) != []
    ensures AllFrames(ms, channel, max) == FramesOf(ms[0], channel, max) + AllFrames(ms[1..], channel, max)
    ensures var counts := FrameCounts(ms, channel, max);
      counts[0] == |FramesOf(ms[0], channel, max)| && counts[1..] == FrameCounts(ms[1..], channel, max)
  {
  }

  lemma {:induction false} ChannelReassembled(ms: seq<Message>, channel: Channel, max: nat, isMethod: MethodTest)
    requires AllSendable(ms, channel, isMethod) && OVERHEAD < max <= 0x1_0000_0000
    ensures AcceptAll(None, AllFrames(ms, channel, max), isMethod)
         == (None, AllProgress(ms, FrameCounts(ms, channel, max)))
  {
    if ms != [] {
      assert Sendable(ms[0], channel, isMethod);
      MessageReassembled(ms[0], channel, max, isMethod);
      ChannelReassembled(ms[1..], channel, max, isMethod);
      FramesFirst(ms, channel, max);
      AcceptAppend(None, FramesOf(ms[0], channel, max), AllFrames(ms[1..], channel, max), isMethod);
    }
  }

  // ---- Interleaved channels ----

  /** The results of a sequence of frames, each with the channel it was for. */
  function Receive(makers: Makers, fs: seq<Frame>, isMethod: MethodTest): (Makers, seq<(Channel, Outcome)>)
    decreases |fs|
  {
    if fs == [] then (makers, [])
    else
      var next := Append(makers, fs[0], isMethod);
      var later := Receive(next.0, fs[1..], isMethod);
      (later.0, [(fs[0].channel, next.1)] + later.1)
  }

  function On(fs: seq<Frame>, c: Channel): seq<Frame> {
    if fs == [] then [] else (if fs[0].channel == c then [fs[0]] else []) + On(fs[1..], c)
  }

  function ResultsOn(log: seq<(Channel, Outcome)>, c: Channel): seq<Outcome> {
    if log == [] then [] else (if log[0].0 == c then [log[0].1] else []) + ResultsOn(log[1..], c)
  }

  lemma ResultsFirst(c: Channel, first: (Channel, Outcome), log: seq<(Channel, Outcome)>)
    ensures ResultsOn([first] + log, c) == if first.0 == c then [first.1] + ResultsOn(log, c) else ResultsOn(log, c)
  {
    assert ([first] + log)[1..] == log;
  }

  lemma ReceiveFirst(makers: Makers, fs: seq<Frame>, isMethod: MethodTest)
    requires fs != []
    ensures var next := Append(makers, fs[0], isMethod); var later := Receive(next.0, fs[1..], isMethod);
      Receive(makers, fs, isMethod) == (later.0, [(fs[0].channel, next.1)] + later.1)
  {
  }

  /** What one frame does to a channel. */
  lemma AppendSlot(makers: Makers, f: Frame, c: Channel, isMethod: MethodTest)
    ensures var next := Append(makers, f, isMethod);
      if f.channel == c then (Slot(next.0, c), next.1) == Accept(Slot(makers, c), f, isMethod)
      else Slot(next.0, c) == Slot(makers, c)
  {
  }

  lemma OnFirst(fs: seq<Frame>, c: Channel)
    requires fs != []
    ensures On(fs, c) == if fs[0].channel == c then [fs[0]] + On(fs[1..], c) else On(fs[1..], c)
  {
  }

  /** A channel sees only its own frames: whatever is interleaved with them, its
      results and its unfinished content are those of its frames alone. */
  lemma {:induction false} ChannelsDoNotInterfere(makers: Makers, fs: seq<Frame>, c: Channel, isMethod: MethodTest)
    ensures var all := Receive(makers, fs, isMethod);
      (Slot(all.0, c), ResultsOn(all.1, c)) == AcceptAll(Slot(makers, c), On(fs, c), isMethod)
    decreases |fs|
  {
    if fs != [] {
      var f := fs[0];
      var next := Append(makers, f, isMethod);
      var later := Receive(next.0, fs[1..], isMethod);
      ReceiveFirst(makers, fs, isMethod);
      AppendSlot(makers, f, c, isMethod);
      OnFirst(fs, c);
      ChannelsDoNotInterfere(next.0, fs[1..], c, isMethod);
      ResultsFirst(c, (f.channel, next.1), later.1);
      if f.channel == c {
        AcceptFirst(Slot(makers, c), f, On(fs[1..], c), isMethod);
      }
    }
  }

  /** The messages to be sent on each channel. */
  type Outgoing = Channel -> seq<Message>

  /** Some interleaving of the frames of all channels. */
  ghost predicate Interleaved(fs: seq<Frame>, sent: Outgoing, max: nat)
    requires max > OVERHEAD
  {
    forall c: Channel :: On(fs, c) == AllFrames(sent(c), c, max)
  }

  /** Every interleaving gives back, per channel, the messages sent: unfinished
      until the last frame of each, and nothing left over. */
  lemma InterleavingReassembled(fs: seq<Frame>, sent: Outgoing, max: nat, isMethod: MethodTest, c: Channel)
    requires OVERHEAD < max <= 0x1_0000_0000 && Interleaved(fs, sent, max)
    requires AllSendable(sent(c), c, isMethod)
    ensures var all := Receive(map[], fs, isMethod);
      Slot(all.0, c) == None && ResultsOn(all.1, c) == AllProgress(sent(c), FrameCounts(sent(c), c, max))
  {
    ChannelsDoNotInterfere(map[], fs, c, isMethod);
    ChannelReassembled(sent(c), c, max, isMethod);
  }

  function Messages(log: seq<Outcome>): seq<Message> {
    if log == [] then []
    else (if log[0].DONE? then [log[0].message] else []) + Messages(log[1..])
  }

  lemma MessagesFirst(o: Outcome, rest: seq<Outcome>)
    ensures Messages([o] + rest) == (if o.DONE? then [o.message] else []) + Messages(rest)
  {
    assert ([o] + rest)[1..] == rest;
  }

  lemma RegroupMessages(a: seq<Message>, b: seq<Message>, c: seq<Message>)
    ensures a + (b + c) == a + b + c
  {
  }

  lemma {:induction false} MessagesAppend(a: seq<Outcome>, b: seq<Outcome>)
    ensures Messages(a + b) == Messages(a) + Messages(b)
  {
    if a == [] {
      assert a + b == b;
    } else {
      var o, rest := a[0], a[1..];
      assert a == [o] + rest && a + b == [o] + (rest + b);
      MessagesAppend(rest, b);
      MessagesFirst(o, rest);
      MessagesFirst(o, rest + b);
      RegroupMessages(if o.DONE? then [o.message] else [], Messages(rest), Messages(b));
    }
  }

  lemma {:induction false} MessagesOfProgress(m: Message, frames: nat)
    requires frames > 0
    ensures Messages(Progress(m, frames)) == [m]
  {
    if frames == 1 {
      ProgressOne(m);
      assert Messages([]) == [];
    } else {
      ProgressStep(m, frames);
      MessagesOfProgress(m, frames - 1);
      assert ([MORE] + Progress(m, frames - 1))[1..] == Progress(m, frames - 1);
    }
  }

  lemma ProgressThen(m: Message, frames: nat, later: seq<Outcome>)
    requires frames > 0
    ensures Messages(Progress(m, frames) + later) == [m] + Messages(later)
  {
    MessagesOfProgress(m, frames);
    MessagesAppend(Progress(m, frames), later);
  }

  lemma {:induction false} AllProgressMessages(ms: seq<Message>, counts: seq<nat>)
    requires |counts| == |ms| && forall i | 0 <= i < |counts| :: counts[i] > 0
    ensures Messages(AllProgress(ms, counts)) == ms
  {
    if ms != [] {
      AllProgressMessages(ms[1..], counts[1..]);
      ProgressThen(ms[0], counts[0], AllProgress(ms[1..], counts[1..]));
      assert ms == [ms[0]] + ms[1..];
    }
  }

  // ---- Frame sizes ----

  /** Body frames are never empty nor over the limit, and all but the last are full. */
  lemma {:induction false} BodyFrameSizes(body: seq<byte>, channel: Channel, max: nat, i: nat)
    requires max > OVERHEAD && i < |BodyFrames(body, channel, max - OVERHEAD)|
    ensures var fs := BodyFrames(body, channel, max - OVERHEAD);
      OVERHEAD < |fs[i].data| <= max && (i < |fs| - 1 ==> |fs[i].data| == max)
    decreases |body|
  {
    var room := max - OVERHEAD;
    if |body| > room && i > 0 {
      BodyFrameSizes(body[room..], channel, max, i - 1);
    }
  }

  lemma {:induction false} FramesWellBuilt(m: Message, channel: Channel, max: nat, isMethod: MethodTest)
    requires Sendable(m, channel, isMethod) && OVERHEAD < max <= 0x1_0000_0000
    ensures forall f | f in FramesOf(m, channel, max) :: WellBuilt(f) && f.channel == channel
  {
    match m
    case Heartbeat => BuildIsWellBuilt(HEARTBEAT, 0, []);
    case Method(encoded) => BuildIsWellBuilt(METHOD, channel, encoded);
    case Content(_, body) =>
      HeaderSizeExact(HeaderOf(m));
      BuildIsWellBuilt(HEADER, channel, EncodeHeader(HeaderOf(m)));
      BodyFramesWellBuilt(body, channel, max - OVERHEAD);
  }

  lemma {:induction false} BodyFramesWellBuilt(body: seq<byte>, channel: Channel, room: nat)
    requires 0 < room < 0x1_0000_0000
    ensures forall f | f in BodyFrames(body, channel, room) :: WellBuilt(f) && f.channel == channel
    decreases |body|
  {
    if |body| > room {
      BuildIsWellBuilt(BODY, channel, body[..room]);
      BodyFramesWellBuilt(body[room..], channel, room);
    } else if body != [] {
      BuildIsWellBuilt(BODY, channel, body);
    }
  }

  lemma {:induction false} AllFramesWellBuilt(ms: seq<Message>, channel: Channel, max: nat, isMethod: MethodTest)
    requires AllSendable(ms, channel, isMethod) && OVERHEAD < max <= 0x1_0000_0000
    ensures forall f | f in AllFrames(ms, channel, max) :: WellBuilt(f)
  {
    if ms != [] {
      assert Sendable(ms[0], channel, isMethod);
      FramesWellBuilt(ms[0], channel, max, isMethod);
      AllFramesWellBuilt(ms[1..], channel, max, isMethod);
    }
  }

  lemma {:induction false} OnOwnChannel(fs: seq<Frame>, f: Frame)
    requires f in fs
    ensures f in On(fs, f.channel)
  {
    if f != fs[0] {
      OnOwnChannel(fs[1..], f);
    }
  }

  /** From messages to bytes and back: any interleaving of the channels' frames,
      written out and received in any chunks by a decoder whose limit is not below
      a frame, gives every channel its messages in order. */
  lemma WireRoundTrip(
    chunks: seq<seq<byte>>, fs: seq<Frame>, sent: Outgoing, max: nat, limit: nat, isMethod: MethodTest, c: Channel)
    requires OVERHEAD < max <= 0x1_0000_0000 && Interleaved(fs, sent, max)
    requires forall c: Channel :: AllSendable(sent(c), c, isMethod)
    requires forall f | f in fs :: |f.data| <= limit
    requires Joined(chunks) == Bytestream(fs)
    ensures var s := Feed(chunks, limit); var all := Receive(map[], s.frames, isMethod);
      s.code == SUCCESS && s.buffer == []
      && Messages(ResultsOn(all.1, c)) == sent(c) && Slot(all.0, c) == None
      && forall o | o in ResultsOn(all.1, c) :: o.DONE? || o.MORE?
  {
    forall f | f in fs
      ensures WellBuilt(f)
    {
      OnOwnChannel(fs, f);
      AllFramesWellBuilt(sent(f.channel), f.channel, max, isMethod);
    }
    StreamDelivered(chunks, fs, limit);
    InterleavingReassembled(fs, sent, max, isMethod, c);
    AllProgressMessages(sent(c), FrameCounts(sent(c), c, max));
    NoException(sent(c), FrameCounts(sent(c), c, max));
  }

  lemma {:induction false} NoException(ms: seq<Message>, counts: seq<nat>)
    requires |counts| == |ms| && forall i | 0 <= i < |counts| :: counts[i] > 0
    ensures forall o | o in AllProgress(ms, counts) :: o.DONE? || o.MORE?
  {
    if ms != [] {
      NoException(ms[1..], counts[1..]);
    }
  }

  /** A frame that declares more than it carries takes the difference from the bytes
      behind it: partial until they are there, then judged by the last of them. */
  lemma OverdeclaredSwallows(kind: byte, channel: Channel, declared: nat, payload: seq<byte>, rest: seq<byte>)
    requires |payload| < declared < 0x1_0000_0000
    ensures var bs := Serialize(kind, channel, declared, payload) + rest;
      var size := OVERHEAD + declared;
      DecodeFrame(bs) ==
        if |bs| < size then PARTIAL
        else if bs[size - 1] != FRAME_END then DECODE_ERROR
        else OK(Frame(kind, channel, bs[..size]))
  {
    FieldsOfSerialized(kind, channel, declared, payload, rest);
  }

  /** A header frame is recognised on the wire, whatever follows, exactly when its
      strings fit: its declared length counts strings in full while the bytes hold 255
      of them. Otherwise it is partial until `missing` bytes of what follows are there,
      and then swallows them or is an error. */
  lemma HeaderFrameOnWire(m: Message, channel: Channel, rest: seq<byte>)
    requires m.Content? && Encodable(m) && HeaderSize(HeaderOf(m)) < 0x1_0000_0000
    ensures var f := HeaderFrame(m, channel);
      DecodeFrame(f.data + rest) == OK(f) <==> StringsFit(m.properties)
    ensures var f := HeaderFrame(m, channel);
      var missing := HeaderSize(HeaderOf(m)) - |EncodeHeader(HeaderOf(m))|;
      !StringsFit(m.properties) ==>
        missing > 0 && DecodeFrame(f.data + rest) ==
          if |rest| < missing then PARTIAL
          else if rest[missing - 1] != FRAME_END then DECODE_ERROR
          else OK(Frame(HEADER, channel, f.data + rest[..missing]))
  {
    var h, f := HeaderOf(m), HeaderFrame(m, channel);
    HeaderSizeExact(h);
    if StringsFit(m.properties) {
      BuildIsWellBuilt(HEADER, channel, EncodeHeader(h));
      FrameRoundTrip(f, rest);
    } else {
      OverdeclaredSwallows(HEADER, channel, HeaderSize(h), EncodeHeader(h), rest);
      var missing := HeaderSize(h) - |EncodeHeader(h)|;
      if |rest| >= missing {
        assert (f.data + rest)[..|f.data| + missing] == f.data + rest[..missing];
      }
    }
  }
}
