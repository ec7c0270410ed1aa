/**
 The framed codec: a 4-byte big-endian length and a payload.  The frame layer does not look
 inside payloads, so it is stated for every lawful payload coder; `Messages.MessageCoder` is
 the one the program uses.
 */
module Codec {
  import opened Bytes
  import opened Bincode

  const MAX_FRAME_SIZE: nat := 16 * 1024 * 1024
  const LENGTH_PREFIX_SIZE: nat := 4
  const U32_LIMIT: nat := 0x1_0000_0000

  datatype CodecError = FrameTooLarge(size: u32) | Deserialization

  /** What one call of the decoder makes of a buffer, with the buffer it leaves. */
  datatype Step<M> =
    | Incomplete
    | Frame(message: M, rest: seq<byte>)
    | Failed(error: CodecError, rest: seq<byte>)

  function Header(length: nat): seq<byte> {
    BigEndian(length, LENGTH_PREFIX_SIZE)
  }

  function DeclaredLength(buf: seq<byte>): (n: u32)
    requires |buf| >= LENGTH_PREFIX_SIZE
  {
    Pow256Values();
    FromBigEndian(buf[..LENGTH_PREFIX_SIZE])
  }

  function DecodeStep<M>(c: Coder<M>, buf: seq<byte>): (s: Step<M>)
    ensures s.Frame? ==> |s.rest| + LENGTH_PREFIX_SIZE <= |buf|
  {
    if |buf| < LENGTH_PREFIX_SIZE then Incomplete
    else
      var length := DeclaredLength(buf);
      var total := LENGTH_PREFIX_SIZE + length;
      if length > MAX_FRAME_SIZE then Failed(FrameTooLarge(length), buf)
      else if |buf| < total then Incomplete
      else match c.dec(buf[LENGTH_PREFIX_SIZE..total])
           case None => Failed(Deserialization, buf[total..])
           case Some((m, _)) => Frame(m, buf[total..])
  }

  /** The bytes one message becomes; the length is cut to 32 bits before it is compared. */
  function EncodeFrame<M>(c: Coder<M>, m: M): Result<seq<byte>, CodecError> {
    var payload := c.enc(m);
    var length := |payload| % U32_LIMIT;
    if length > MAX_FRAME_SIZE then Err(FrameTooLarge(length)) else Ok(Header(length) + payload)
  }

  predicate Fits<M>(c: Coder<M>, m: M) {
    |c.enc(m)| <= MAX_FRAME_SIZE
  }

  function FrameOf<M>(c: Coder<M>, m: M): seq<byte>
    requires Fits(c, m)
  {
    Header(|c.enc(m)|) + c.enc(m)
  }

  // ----- The codec over mutable buffers -----

  class BytesMut {
    var data: seq<byte>

    constructor ()
      ensures data == []
    {
      data := [];
    }

    method Advance(n: nat)
      requires n <= |data|
      modifies this
      ensures data == old(data)[n..]
    {
      data := data[n..];
    }

    method SplitTo(n: nat) returns (front: seq<byte>)
      requires n <= |data|
      modifies this
      ensures old(data) == front + data && |front| == n
    {
      front := data[..n];
      data := data[n..];
    }

    method PutU32(n: u32)
      modifies this
      ensures data == old(data) + BigEndian(n, 4)
    {
      data := data + BigEndian(n, 4);
    }

    method ExtendFromSlice(bytes: seq<byte>)
      modifies this
      ensures data == old(data) + bytes
    {
      data := data + bytes;
    }
  }

  lemma Regroup(a: seq<byte>, b: seq<byte>, c: seq<byte>)
    ensures a + b + c == a + (b + c)
  {
  }

  class WolfUsbCodec<M> {
    const payloads: Coder<M>

    constructor (c: Coder<M>)
      ensures payloads == c
    {
      payloads := c;
    }

    /** A partial frame leaves the buffer as it was; a frame is cut off its front. */
    method Decode(src: BytesMut) returns (r: Result<Option<M>, CodecError>)
      modifies src
      ensures match DecodeStep(payloads, old(src.data))
              case Incomplete => r == Ok(None) && src.data == old(src.data)
              case Frame(m, rest) => r == Ok(Some(m)) && src.data == rest
              case Failed(e, rest) => r == Err(e) && src.data == rest
    {
      if |src.data| < LENGTH_PREFIX_SIZE {
        return Ok(None);
      }
      var length := DeclaredLength(src.data);
      if length > MAX_FRAME_SIZE {
        return Err(FrameTooLarge(length));
      }
      if |src.data| < LENGTH_PREFIX_SIZE + length {
        return Ok(None);
      }
      src.Advance(LENGTH_PREFIX_SIZE);
      var payload := src.SplitTo(length);
      assert payload == old(src.data)[LENGTH_PREFIX_SIZE..LENGTH_PREFIX_SIZE + length];
      match payloads.dec(payload)
      case None => return Err(Deserialization);
      case Some((m, _)) => return Ok(Some(m));
    }

    /** Appends one frame, or fails and leaves the output buffer unchanged. */
    method Encode(item: M, dst: BytesMut) returns (r: Result<(), CodecError>)
      modifies dst
      ensures match EncodeFrame(payloads, item)
              case Ok(frame) => r == Ok(()) && dst.data == old(dst.data) + frame
              case Err(e) => r == Err(e) && dst.data == old(dst.data)
    {
      var payload := payloads.enc(item);
      var length := |payload| % U32_LIMIT;
      if length > MAX_FRAME_SIZE {
        return Err(FrameTooLarge(length));
      }
      ghost var before := dst.data;
      dst.PutU32(length);
      dst.ExtendFromSlice(payload);
      Regroup(before, Header(length), payload);
      r := Ok(());
    }
  }

  // ----- Round trip, and exactly when it holds -----

  lemma HeaderDeclares(length: nat, tail: seq<byte>)
    requires length < U32_LIMIT
    ensures DeclaredLength(Header(length) + tail) == length
  {
    Pow256Values();
    BigEndianRoundTrip(length, LENGTH_PREFIX_SIZE);
    assert (Header(length) + tail)[..LENGTH_PREFIX_SIZE] == Header(length);
  }

  lemma FrameRoundTrip<M(!new)>(c: Coder<M>, m: M, suffix: seq<byte>)
    requires Lawful(c) && Fits(c, m)
    ensures EncodeFrame(c, m) == Ok(FrameOf(c, m))
    ensures DecodeStep(c, FrameOf(c, m) + suffix) == Frame(m, suffix)
  {
    var payload := c.enc(m);
    var buf := FrameOf(c, m) + suffix;
    var total := LENGTH_PREFIX_SIZE + |payload|;
    assert buf == Header(|payload|) + (payload + suffix);
    HeaderDeclares(|payload|, payload + suffix);
    assert buf[LENGTH_PREFIX_SIZE..total] == payload && buf[total..] == suffix;
    assert RoundTrips(c, m, []);
    assert payload + [] == payload;
  }

  /**
   The length is reduced to 32 bits before the size check, so an encoding can succeed for a
   payload of 4 GiB or more.  A successful encoding decodes to its message if and only if the
   payload is within the frame limit; otherwise the peer always sees a deserialization error.
   */
  lemma EncodedFrameDecodesIff<M(!new)>(c: Coder<M>, m: M)
    requires Lawful(c) && EncodeFrame(c, m).Ok?
    ensures DecodeStep(c, EncodeFrame(c, m).value) == Frame(m, []) <==> Fits(c, m)
    ensures !Fits(c, m) ==> DecodeStep(c, EncodeFrame(c, m).value).Failed?
                            && DecodeStep(c, EncodeFrame(c, m).value).error == Deserialization
  {
    var payload, frame := c.enc(m), EncodeFrame(c, m).value;
    if Fits(c, m) {
      FrameRoundTrip(c, m, []);
      assert frame + [] == frame;
    } else {
      var n := |payload| % U32_LIMIT;
      HeaderDeclares(n, payload);
      assert frame[LENGTH_PREFIX_SIZE..LENGTH_PREFIX_SIZE + n] == payload[..n];
      TruncatedEncoding(c, m, n);
    }
  }

  /** A proper prefix of a frame is never taken for anything: the decoder waits. */
  lemma PartialFrameWaits<M>(c: Coder<M>, m: M, n: nat)
    requires Fits(c, m) && n < |FrameOf(c, m)|
    ensures DecodeStep(c, FrameOf(c, m)[..n]) == Incomplete
  {
    if n >= LENGTH_PREFIX_SIZE {
      HeaderDeclares(|c.enc(m)|, c.enc(m)[..n - LENGTH_PREFIX_SIZE]);
      assert FrameOf(c, m)[..n] == Header(|c.enc(m)|) + c.enc(m)[..n - LENGTH_PREFIX_SIZE];
    }
  }

  // ----- Streams of frames -----

  /** The messages a reader has handed out, the bytes it still holds, the error that ended it. */
  datatype Reader<M> = Reader(messages: seq<M>, buffer: seq<byte>, error: Option<CodecError>)

  function After<M>(ms: seq<M>, r: Reader<M>): Reader<M> {
    r.(messages := ms + r.messages)
  }

  lemma AfterAfter<M>(a: seq<M>, b: seq<M>, r: Reader<M>)
    ensures After(a, After(b, r)) == After(a + b, r)
    ensures After([], r) == r
  {
    assert a + (b + r.messages) == a + b + r.messages;
    assert [] + r.messages == r.messages;
  }

  /** Decodes until the buffer holds no whole frame or an error ends the stream. */
  function Drain<M>(c: Coder<M>, buf: seq<byte>): Reader<M>
    decreases |buf|
  {
    match DecodeStep(c, buf)
    case Incomplete => Reader([], buf, None)
    case Failed(e, rest) => Reader([], rest, Some(e))
    case Frame(m, rest) =>
      After([m], Drain(c, rest))
  }

  /** One more read from the stream; nothing is read once an error has ended it. */
  function Feed<M>(c: Coder<M>, r: Reader<M>, chunk: seq<byte>): Reader<M> {
    if r.error.Some? then r
    else After(r.messages, Drain(c, r.buffer + chunk))
  }

  function FeedAll<M>(c: Coder<M>, chunks: seq<seq<byte>>): Reader<M> {
    if |chunks| == 0 then Reader([], [], None)
    else Feed(c, FeedAll(c, chunks[..|chunks| - 1]), chunks[|chunks| - 1])
  }

  function Flatten(chunks: seq<seq<byte>>): seq<byte> {
    if |chunks| == 0 then [] else Flatten(chunks[..|chunks| - 1]) + chunks[|chunks| - 1]
  }

  /** More bytes never change what the decoder has already seen in full. */
  lemma StepExtends<M>(c: Coder<M>, a: seq<byte>, b: seq<byte>)
    ensures match DecodeStep(c, a)
            case Incomplete => true
            case Frame(m, rest) => DecodeStep(c, a + b) == Frame(m, rest + b)
            case Failed(e, rest) => DecodeStep(c, a + b) == Failed(e, rest + b)
  {
    if !DecodeStep(c, a).Incomplete? {
      assert (a + b)[..LENGTH_PREFIX_SIZE] == a[..LENGTH_PREFIX_SIZE];
      var total := LENGTH_PREFIX_SIZE + DeclaredLength(a);
      if total <= |a| {
        assert (a + b)[LENGTH_PREFIX_SIZE..total] == a[LENGTH_PREFIX_SIZE..total];
        TakeExtends(a, total, b);
      }
    }
  }

  lemma {:induction false} DrainExtends<M>(c: Coder<M>, a: seq<byte>, b: seq<byte>)
    ensures var now := Drain(c, a);
            if now.error.Some? then Drain(c, a + b) == now.(buffer := now.buffer + b)
            else Drain(c, a + b) == After(now.messages, Drain(c, now.buffer + b))
    decreases |a|
  {
    StepExtends(c, a, b);
    match DecodeStep(c, a)
    case Incomplete =>
      AfterAfter([], [], Drain(c, a + b));
    case Failed(_, _) =>
    case Frame(m, rest) =>
      DrainExtends(c, rest, b);
      var inner := Drain(c, rest);
      AfterAfter([m], inner.messages, Drain(c, inner.buffer + b));
  }

  /**
   However a stream is cut into reads, the reader hands out the same messages and stops at the
   same first error as if it had all come at once, and keeps the same bytes when there is none.
   */
  lemma {:induction false} ChunkInvariance<M>(c: Coder<M>, chunks: seq<seq<byte>>)
    ensures var whole := Drain(c, Flatten(chunks));
            && FeedAll(c, chunks).messages == whole.messages
            && FeedAll(c, chunks).error == whole.error
            && (whole.error.None? ==> FeedAll(c, chunks).buffer == whole.buffer)
  {
    if |chunks| > 0 {
      var front, last := chunks[..|chunks| - 1], chunks[|chunks| - 1];
      ChunkInvariance(c, front);
      DrainExtends(c, Flatten(front), last);
    }
  }

  function Frames<M>(c: Coder<M>, ms: seq<M>): seq<byte>
    requires forall m :: m in ms ==> Fits(c, m)
  {
    if |ms| == 0 then [] else FrameOf(c, ms[0]) + Frames(c, ms[1..])
  }

  /** A batch of frames, in any cut, reads back as exactly that batch; what follows is untouched. */
  lemma {:induction false} BatchRoundTrip<M(!new)>(c: Coder<M>, ms: seq<M>, suffix: seq<byte>)
    requires Lawful(c)
    requires forall m :: m in ms ==> Fits(c, m)
    ensures Drain(c, Frames(c, ms) + suffix) == After(ms, Drain(c, suffix))
  {
    if |ms| == 0 {
      assert Frames(c, ms) + suffix == suffix;
      AfterAfter([], [], Drain(c, suffix));
    } else {
      var tail := Frames(c, ms[1..]) + suffix;
      assert Frames(c, ms) + suffix == FrameOf(c, ms[0]) + tail;
      FrameRoundTrip(c, ms[0], tail);
      BatchRoundTrip(c, ms[1..], suffix);
      AfterAfter([ms[0]], ms[1..], Drain(c, suffix));
      assert [ms[0]] + ms[1..] == ms;
    }
  }

  lemma BatchInChunks<M(!new)>(c: Coder<M>, ms: seq<M>, chunks: seq<seq<byte>>)
    requires Lawful(c)
    requires forall m :: m in ms ==> Fits(c, m)
    requires Flatten(chunks) == Frames(c, ms)
    ensures FeedAll(c, chunks) == Reader(ms, [], None)
  {
    ChunkInvariance(c, chunks);
    BatchRoundTrip(c, ms, []);
    assert Frames(c, ms) + [] == Frames(c, ms) && ms + [] == ms;
  }
}
