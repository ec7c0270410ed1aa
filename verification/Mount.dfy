/** The mount client after the switch to raw bytes: its half of the import exchange. */
module Mount {
  import opened Bytes
  import opened Bincode
  import opened Import
  import opened RawStreams

  datatype Failure =
    | BusidTooLong
    | SendFailed
    | HeaderLost
    | UnexpectedCode(code: u16)
    | Rejected(status: u32)
    | RecordLost

  /** What the peer's bytes make of the import, and how many of them it takes. */
  function Judged(incoming: seq<byte>): (Result<Imported, Failure>, nat) {
    if |incoming| < HEADER_SIZE then (Err(HeaderLost), |incoming|)
    else if Code(incoming) != OP_REP_IMPORT then (Err(UnexpectedCode(Code(incoming))), HEADER_SIZE)
    else if Status(incoming) != 0 then (Err(Rejected(Status(incoming))), HEADER_SIZE)
    else if |incoming| < REPLY_SIZE then (Err(RecordLost), |incoming|)
    else (Ok(ReadRecord(incoming[HEADER_SIZE..REPLY_SIZE])), REPLY_SIZE)
  }

  /** Sends the request and reads the reply, taking no byte beyond it. */
  method OpReqImport(stream: RawStream, busid: Text) returns (r: Result<Imported, Failure>)
    requires stream.written == []
    modifies stream
    ensures |busid| >= 32 ==>
              r == Err(BusidTooLong) && stream.written == [] && stream.incoming == old(stream.incoming)
    ensures |busid| < 32 && old(stream.budget) < REQUEST_SIZE ==>
              r == Err(SendFailed) && stream.written == ImportRequest(busid)[..old(stream.budget)]
              && stream.incoming == old(stream.incoming)
    ensures |busid| < 32 && old(stream.budget) >= REQUEST_SIZE ==>
              stream.written == ImportRequest(busid)
              && (r, |old(stream.incoming)| - |stream.incoming|) == Judged(old(stream.incoming))
              && stream.incoming == old(stream.incoming)[Judged(old(stream.incoming)).1..]
  {
    var request := BuildRequest(busid);
    if request.Err? {
      return Err(BusidTooLong);
    }
    var sent := stream.WriteAll(request.value);
    if !sent {
      return Err(SendFailed);
    }
    var header := stream.ReadExact(HEADER_SIZE);
    if header.None? {
      return Err(HeaderLost);
    }
    assert header.value[2..4] == old(stream.incoming)[2..4] && header.value[4..8] == old(stream.incoming)[4..8];
    if Code(header.value) != OP_REP_IMPORT {
      return Err(UnexpectedCode(Code(header.value)));
    }
    if Status(header.value) != 0 {
      return Err(Rejected(Status(header.value)));
    }
    var record := stream.ReadExact(RECORD_SIZE);
    if record.None? {
      return Err(RecordLost);
    }
    assert record.value == old(stream.incoming)[HEADER_SIZE..REPLY_SIZE];
    r := Ok(ReadRecord(record.value));
  }

  lemma ReplyParts(r: DeviceRecord, after: seq<byte>)
    ensures var bytes := ImportReply(r) + after;
            && |bytes| >= REPLY_SIZE && Code(bytes) == OP_REP_IMPORT && Status(bytes) == 0
            && bytes[HEADER_SIZE..REPLY_SIZE] == WireBytes(r)
  {
    hide Header, WireBytes, Code, Status;
    var bytes := ImportReply(r) + after;
    assert bytes == Header(OP_REP_IMPORT) + (WireBytes(r) + after);
    HeaderFields(OP_REP_IMPORT, WireBytes(r) + after);
  }

  /** The server's reply is accepted, whatever follows it, with the device the server described and
      exactly the 320 bytes of the reply. */
  lemma ReplyAccepted(r: DeviceRecord, after: seq<byte>)
    ensures Judged(ImportReply(r) + after)
            == (Ok(Imported(Devid(r.busNum, r.devNum), r.speed % 0x100, r.vendorId, r.productId)), REPLY_SIZE)
  {
    hide ImportReply, WireBytes, ReadRecord, Code, Status, Devid;
    ReplyParts(r, after);
    RecordRoundTrip(r);
  }

  /** A proper part of the reply never passes for a device. */
  lemma CutReplyRefused(r: DeviceRecord, n: nat)
    requires n < REPLY_SIZE
    ensures Judged(ImportReply(r)[..n]) == (Err(if n < HEADER_SIZE then HeaderLost else RecordLost), n)
  {
    hide Header, WireBytes, Code, Status;
    if n >= HEADER_SIZE {
      var cut := ImportReply(r)[..n];
      assert cut == Header(OP_REP_IMPORT) + WireBytes(r)[..n - HEADER_SIZE];
      HeaderFields(OP_REP_IMPORT, WireBytes(r)[..n - HEADER_SIZE]);
    }
  }
}
