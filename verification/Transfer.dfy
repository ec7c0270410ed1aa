/** Executing a transfer on an open handle, and what its reply weighs on the wire. */
module Transfer {
  import opened Bytes
  import opened Bincode
  import opened Messages
  import opened Texts
  import Codec
  import Usb

  const MAX_TRANSFER_BUFFER: u32 := 16 * 1024 * 1024
  const MIN_TIMEOUT_MS: u64 := 1

  /** What the device does with a transfer: an error, or the bytes it sends (IN) and the
      number of bytes it accepts (OUT).  A read never fills more than its buffer and a write
      never takes more than its data. */
  datatype Io = Io(error: Option<Usb.UsbCode>, incoming: seq<byte>, accepted: nat)

  function Delivered(io: Io, capacity: nat): (b: seq<byte>)
    ensures |b| <= capacity
  {
    if |io.incoming| <= capacity then io.incoming else io.incoming[..capacity]
  }

  function Taken(io: Io, offered: nat): (n: nat)
    ensures n <= offered
  {
    if io.accepted <= offered then io.accepted else offered
  }

  /** A timeout of 0 would mean "wait for ever" to libusb. */
  function SafeTimeout(timeoutMs: u64): (t: u64)
    ensures t > 0 && (timeoutMs > 0 ==> t == timeoutMs)
  {
    if timeoutMs < MIN_TIMEOUT_MS then MIN_TIMEOUT_MS else timeoutMs
  }

  function Failed(s: u64, d: DeviceId, text: Text): TransferReply {
    TransferReply(s, d, false, [], 0, Some(text))
  }

  predicate DirectionIn(b: byte) {
    b >= 0x80
  }

  function TooLong(length: u32): Text {
    TextOf("Requested length " + Decimal(length) + " exceeds maximum " + Decimal(MAX_TRANSFER_BUFFER))
  }

  function ReadReply(s: u64, d: DeviceId, capacity: u32, io: Io): TransferReply {
    if io.error.Some? then Failed(s, d, TextOf(UsbText(io.error.value)))
    else
      var data := Delivered(io, capacity);
      TransferReply(s, d, true, data, |data|, None)
  }

  function WriteReply(s: u64, d: DeviceId, data: Vec<byte>, io: Io): TransferReply {
    if io.error.Some? then Failed(s, d, TextOf(UsbText(io.error.value)))
    else TransferReply(s, d, true, [], Taken(io, |data|) % Codec.U32_LIMIT, None)
  }

  function ControlReply(req: ControlRequest, io: Io): TransferReply {
    if DirectionIn(req.requestType) then ReadReply(req.sessionId, req.deviceId, req.length, io)
    else WriteReply(req.sessionId, req.deviceId, req.data, io)
  }

  /** Bulk and interrupt transfers differ only in the libusb call. */
  function EndpointReply(req: EndpointRequest, io: Io): TransferReply {
    if DirectionIn(req.endpoint) then
      if req.length > MAX_TRANSFER_BUFFER then Failed(req.sessionId, req.deviceId, TooLong(req.length))
      else ReadReply(req.sessionId, req.deviceId, req.length, io)
    else WriteReply(req.sessionId, req.deviceId, req.data, io)
  }

  // ----- The calls and their buffers -----

  /** A transfer as libusb is asked for it; `capacity` is the size of the buffer of a read. */
  datatype UsbCall =
    | OnControl(requestType: byte, request: byte, value: u16, index: u16, payload: seq<byte>, capacity: nat,
                timeout: u64)
    | OnEndpoint(interrupt: bool, endpoint: byte, payload: seq<byte>, capacity: nat, timeout: u64)

  /** A device answers each call. */
  type Device = UsbCall -> Io

  function ControlCall(req: ControlRequest): (call: UsbCall)
    ensures call.timeout > 0 && (DirectionIn(req.requestType) ==> call.payload == [])
  {
    var input := DirectionIn(req.requestType);
    OnControl(req.requestType, req.request, req.value, req.index, if input then [] else req.data,
              if input then req.length else 0, SafeTimeout(req.timeoutMs))
  }

  function EndpointCall(req: EndpointRequest, interrupt: bool): (call: UsbCall)
    ensures call.timeout > 0 && (DirectionIn(req.endpoint) ==> call.payload == [])
  {
    var input := DirectionIn(req.endpoint);
    OnEndpoint(interrupt, req.endpoint, if input then [] else req.data, if input then req.length else 0,
               SafeTimeout(req.timeoutMs))
  }

  /** The device's side of a read call: fills the front of the buffer. */
  method Fill(buf: array<byte>, io: Io) returns (n: nat)
    modifies buf
    ensures n <= buf.Length && buf[..n] == Delivered(io, buf.Length)
  {
    var bytes := Delivered(io, buf.Length);
    n := |bytes|;
    for k := 0 to n
      invariant buf[..k] == bytes[..k]
    {
      buf[k] := bytes[k];
    }
  }

  /** Lets the device fill the buffer, and cuts it to the count returned. */
  method ReadInto(s: u64, d: DeviceId, buf: array<byte>, io: Io) returns (reply: TransferReply)
    requires buf.Length < Codec.U32_LIMIT
    modifies buf
    ensures reply == ReadReply(s, d, buf.Length, io)
  {
    if io.error.Some? {
      return Failed(s, d, TextOf(UsbText(io.error.value)));
    }
    var n := Fill(buf, io);
    reply := TransferReply(s, d, true, buf[..n], n, None);
  }

  /** `ControlReply` to what the device answers to `ControlCall`. */
  method ExecuteControlTransfer(device: Device, req: ControlRequest) returns (reply: TransferReply)
    ensures reply == ControlReply(req, device(ControlCall(req)))
  {
    var timeout := SafeTimeout(req.timeoutMs);
    if DirectionIn(req.requestType) {
      var buf := new byte[req.length](_ => 0);
      var io := device(OnControl(req.requestType, req.request, req.value, req.index, [], buf.Length, timeout));
      reply := ReadInto(req.sessionId, req.deviceId, buf, io);
    } else {
      var io := device(OnControl(req.requestType, req.request, req.value, req.index, req.data, 0, timeout));
      reply := WriteReply(req.sessionId, req.deviceId, req.data, io);
    }
  }

  /** `EndpointReply` to what the device answers to `EndpointCall`; a read that is too long is
      refused without a call. */
  method ExecuteEndpointTransfer(device: Device, req: EndpointRequest, interrupt: bool) returns (reply: TransferReply)
    ensures reply == EndpointReply(req, device(EndpointCall(req, interrupt)))
  {
    var timeout := SafeTimeout(req.timeoutMs);
    if DirectionIn(req.endpoint) {
      if req.length > MAX_TRANSFER_BUFFER {
        return Failed(req.sessionId, req.deviceId, TooLong(req.length));
      }
      var buf := new byte[req.length](_ => 0);
      var io := device(OnEndpoint(interrupt, req.endpoint, [], buf.Length, timeout));
      reply := ReadInto(req.sessionId, req.deviceId, buf, io);
    } else {
      var io := device(OnEndpoint(interrupt, req.endpoint, req.data, 0, timeout));
      reply := WriteReply(req.sessionId, req.deviceId, req.data, io);
    }
  }

  // ----- What every reply keeps -----

  /** A reply to a transfer of session `s` on device `d` in direction `input` with at most `limit` bytes. */
  predicate WellFormed(r: TransferReply, s: u64, d: DeviceId, input: bool, limit: nat) {
    && r.sessionId == s && r.deviceId == d
    && (r.success <==> r.errorMessage.None?)
    && (!r.success ==> r.data == [] && r.bytesTransferred == 0)
    && (r.success && input ==> |r.data| == r.bytesTransferred <= limit)
    && (r.success && !input ==> r.data == [])
  }

  lemma RepliesWellFormed(c: ControlRequest, e: EndpointRequest, io: Io)
    ensures WellFormed(ControlReply(c, io), c.sessionId, c.deviceId, DirectionIn(c.requestType), c.length)
    ensures WellFormed(EndpointReply(e, io), e.sessionId, e.deviceId, DirectionIn(e.endpoint), e.length)
    ensures DirectionIn(c.requestType) && ControlReply(c, io).success ==>
              ControlReply(c, io).data <= io.incoming
    ensures DirectionIn(e.endpoint) && EndpointReply(e, io).success ==>
              e.length <= MAX_TRANSFER_BUFFER && EndpointReply(e, io).data <= io.incoming
    ensures !DirectionIn(e.endpoint) && EndpointReply(e, io).success && |e.data| < Codec.U32_LIMIT ==>
              EndpointReply(e, io).bytesTransferred <= |e.data|
  {
  }

  // ----- Weight on the wire -----

  /** The encoded size of a successful reply: 5 bytes of fixed fields, three varints, the data. */
  function ReplySize(r: TransferReply): nat {
    5 + VarintSize(r.sessionId) + VarintSize(|r.data|) + |r.data| + VarintSize(r.bytesTransferred)
  }

  /** A successful reply can be sent if and only if this sum is within the frame limit. */
  lemma ReplyFitsIff(c: Coder<Message>, r: TransferReply)
    requires CarriesReplies(c) && r.errorMessage.None?
    ensures Codec.Fits(c, TransferResult(r)) <==> ReplySize(r) <= Codec.MAX_FRAME_SIZE
    ensures |r.data| <= Codec.MAX_FRAME_SIZE - 24 ==> Codec.Fits(c, TransferResult(r))
  {
    assert c.enc(TransferResult(r)) == EncodeVarint(13) + ReplyBytes(r);
  }

  /** The reply a full buffer gives weighs this much. */
  function FullReplySize(req: EndpointRequest): nat {
    5 + VarintSize(req.sessionId) + 2 * VarintSize(req.length) + req.length
  }

  /** The encoded size does not shrink with the data. */
  lemma SmallerReplySmaller(req: EndpointRequest, n: nat)
    requires n <= req.length
    ensures 5 + VarintSize(req.sessionId) + 2 * VarintSize(n) + n <= FullReplySize(req)
  {
  }

  /**
   Whatever the device answers, a successful reply to a read can be sent, if and only if the
   request is refused for its length or the reply of a full buffer fits a frame.  Requests between
   the two pass the server's check and can still end the connection.
   */
  lemma ReadAlwaysSendableIff(c: Coder<Message>, req: EndpointRequest)
    requires CarriesReplies(c) && DirectionIn(req.endpoint)
    ensures (forall io :: EndpointReply(req, io).success ==> Codec.Fits(c, TransferResult(EndpointReply(req, io))))
            <==> req.length > MAX_TRANSFER_BUFFER || FullReplySize(req) <= Codec.MAX_FRAME_SIZE
  {
    if req.length <= MAX_TRANSFER_BUFFER {
      if FullReplySize(req) <= Codec.MAX_FRAME_SIZE {
        forall io | EndpointReply(req, io).success
          ensures Codec.Fits(c, TransferResult(EndpointReply(req, io)))
        {
          var r := EndpointReply(req, io);
          SmallerReplySmaller(req, |r.data|);
          ReplyFitsIff(c, r);
        }
      } else {
        var full := Io(None, seq(req.length, _ => 0), 0);
        var r := EndpointReply(req, full);
        assert r.success && |r.data| == req.length;
        ReplyFitsIff(c, r);
      }
    }
  }

  /**
   The longest read the server accepts can give a reply that no frame holds: a device that fills
   the whole buffer makes the reply unsendable, whatever the session.
   */
  lemma FullReadUnsendable(c: Coder<Message>, req: EndpointRequest, io: Io)
    requires CarriesReplies(c)
    requires DirectionIn(req.endpoint) && req.length == MAX_TRANSFER_BUFFER
    requires io.error.None? && |io.incoming| >= MAX_TRANSFER_BUFFER
    ensures EndpointReply(req, io).success
    ensures !Codec.Fits(c, TransferResult(EndpointReply(req, io)))
  {
    ReplyFitsIff(c, EndpointReply(req, io));
  }
}
