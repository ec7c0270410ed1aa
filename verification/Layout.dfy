/** Bytes on the wire, written out: values that pin the byte order, the thresholds and the indices. */
module Layout {
  import opened Bytes
  import opened Bincode
  import opened Messages
  import opened Codec

  /** The last value of each width and the first of the next. */
  lemma VarintBoundaries()
    ensures EncodeVarint(250) == [250]
    ensures EncodeVarint(251) == [251, 251, 0]
    ensures EncodeVarint(0xFFFF) == [251, 255, 255]
    ensures EncodeVarint(0x1_0000) == [252, 0, 0, 1, 0]
    ensures EncodeVarint(0xFFFF_FFFF) == [252, 255, 255, 255, 255]
    ensures EncodeVarint(0x1_0000_0000) == [253, 0, 0, 0, 0, 1, 0, 0, 0]
  {
    hide LittleEndian;
    TwoBytes();
    FourBytes();
    EightBytes();
  }

  lemma TwoBytes()
    ensures LittleEndian(251, 2) == [251, 0] && LittleEndian(0xFFFF, 2) == [255, 255]
    ensures LittleEndian(1, 2) == [1, 0]
  {
    assert LittleEndian(0, 1) == [0] && LittleEndian(255, 1) == [255];
  }

  lemma FourBytes()
    ensures LittleEndian(0x1_0000, 4) == [0, 0, 1, 0] && LittleEndian(0xFFFF_FFFF, 4) == [255, 255, 255, 255]
    ensures LittleEndian(1, 4) == [1, 0, 0, 0]
  {
    TwoBytes();
    assert LittleEndian(0x100, 3) == [0, 1, 0] && LittleEndian(0xFF_FFFF, 3) == [255, 255, 255];
    assert LittleEndian(0, 2) == [0, 0] && LittleEndian(0, 3) == [0, 0, 0];
  }

  lemma EightBytes()
    ensures LittleEndian(0x1_0000_0000, 8) == [0, 0, 0, 0, 1, 0, 0, 0]
  {
    FourBytes();
    assert LittleEndian(0x100, 5) == [0, 1, 0, 0, 0];
    assert LittleEndian(0x1_0000, 6) == [0, 0, 1, 0, 0, 0];
    assert LittleEndian(0x100_0000, 7) == [0, 0, 0, 1, 0, 0, 0];
  }

  lemma EnumLayout(p: Payloads, m: Message)
    requires p.AllLawful()
    ensures Enum(p).enc(m) == EncodeVarint(Tag(m)) + EncodeBody(p, m)
  {
  }

  lemma DeviceIdLayout(d: DeviceId)
    ensures DeviceIdCoder().enc(d) == [d.busNumber, d.address]
  {
  }

  lemma DetachLayout(r: DetachRequest)
    ensures DetachRequestCoder().enc(r) == [r.deviceId.busNumber, r.deviceId.address] + EncodeVarint(r.sessionId)
  {
    DeviceIdLayout(r.deviceId);
  }

  ghost predicate LaysOutIds(p: AttachmentCoders) {
    && (forall d: DeviceId :: p.deviceId.enc(d) == [d.busNumber, d.address])
    && (forall r: DetachRequest ::
          p.detach.enc(r) == [r.deviceId.busNumber, r.deviceId.address] + EncodeVarint(r.sessionId))
  }

  /** The requests of an attach, a detach and a bridge, and the two messages that carry nothing. */
  ghost predicate CarriesRequests(c: Coder<Message>) {
    && (forall d: DeviceId :: c.enc(Attach(d)) == [6, d.busNumber, d.address])
    && (forall d: DeviceId, s: u64 ::
          c.enc(Detach(DetachRequest(d, s))) == [8, d.busNumber, d.address] + EncodeVarint(s))
    && (forall d: DeviceId :: c.enc(Bridge(d)) == [20, d.busNumber, d.address])
    && c.enc(Ping) == [24] && c.enc(Pong) == [25]
  }

  lemma EnumCarriesIds(p: Payloads, d: DeviceId)
    requires p.AllLawful() && LaysOutIds(p.attachment)
    ensures Enum(p).enc(Attach(d)) == [6, d.busNumber, d.address]
    ensures Enum(p).enc(Bridge(d)) == [20, d.busNumber, d.address]
  {
    hide Enum;
    EnumLayout(p, Attach(d));
    EnumLayout(p, Bridge(d));
  }

  lemma EnumCarriesDetach(p: Payloads, d: DeviceId, s: u64)
    requires p.AllLawful() && LaysOutIds(p.attachment)
    ensures Enum(p).enc(Detach(DetachRequest(d, s))) == [8, d.busNumber, d.address] + EncodeVarint(s)
  {
    hide Enum;
    EnumLayout(p, Detach(DetachRequest(d, s)));
    assert [8] + ([d.busNumber, d.address] + EncodeVarint(s)) == [8, d.busNumber, d.address] + EncodeVarint(s);
  }

  lemma EnumCarriesRequests(p: Payloads)
    requires p.AllLawful() && LaysOutIds(p.attachment)
    ensures CarriesRequests(Enum(p))
  {
    hide Enum, LaysOutIds;
    forall d: DeviceId
      ensures Enum(p).enc(Attach(d)) == [6, d.busNumber, d.address]
      ensures Enum(p).enc(Bridge(d)) == [20, d.busNumber, d.address]
    {
      EnumCarriesIds(p, d);
    }
    forall d: DeviceId, s: u64
      ensures Enum(p).enc(Detach(DetachRequest(d, s))) == [8, d.busNumber, d.address] + EncodeVarint(s)
    {
      EnumCarriesDetach(p, d, s);
    }
    EnumLayout(p, Ping);
    EnumLayout(p, Pong);
  }

  lemma WireLaysOutIds()
    ensures LaysOutIds(WireAttachmentCoders())
  {
    hide DeviceIdCoder, DetachRequestCoder;
    forall d: DeviceId ensures DeviceIdCoder().enc(d) == [d.busNumber, d.address] {
      DeviceIdLayout(d);
    }
    forall r: DetachRequest
      ensures DetachRequestCoder().enc(r) == [r.deviceId.busNumber, r.deviceId.address] + EncodeVarint(r.sessionId)
    {
      DetachLayout(r);
    }
  }

  lemma WireCarriesRequests()
    ensures CarriesRequests(MessageCoder())
  {
    hide CarriesRequests, LaysOutIds, WireTransferCoders, WireHandshakeCoders, WireAttachmentCoders,
         WireOutcomeCoders, Enum;
    WireLaysOutIds();
    EnumCarriesRequests(WirePayloads());
  }

  /** A frame is the length of its payload, most significant byte first, and the payload. */
  lemma AttachFrame(c: Coder<Message>, d: DeviceId)
    requires CarriesRequests(c)
    ensures EncodeFrame(c, Attach(d)) == Ok([0, 0, 0, 3, 6, d.busNumber, d.address])
  {
    BigEndianThree();
    var payload := c.enc(Attach(d));
    assert payload == [6, d.busNumber, d.address];
    assert [0, 0, 0, 3] + payload == [0, 0, 0, 3, 6, d.busNumber, d.address];
  }

  lemma BigEndianThree()
    ensures BigEndian(3, 4) == [0, 0, 0, 3]
  {
    assert BigEndian(0, 2) == [0, 0];
    assert BigEndian(0, 3) == [0, 0, 0];
  }
}
