/**
 A client and the server over two FIFO byte channels, with reads of any size: a client that takes
 turns (the session client and the mount client both do), the server's message loop, and the
 switch from frames to raw USB/IP bytes.  Stated for every lawful payload coder.
 */
module Exchange {
  import opened Bytes
  import opened Bincode
  import opened Messages
  import opened Codec
  import opened Devices
  import opened Connections
  import opened Clients
  import opened Import
  import opened Texts

  datatype ClientPhase =
    | Ready
    | Awaiting
    | Requested(busid: Text, got: seq<byte>)   // raw mode: import request sent, reply partly read
    | Mounted(reply: seq<byte>)                // whole reply read, socket handed to the kernel
    | GaveUp(error: ClientError)               // the client method failed and the client left

  datatype ServerPhase =
    | Listening
    | Bridging(got: seq<byte>)                 // raw mode: import request partly read
    | HandedOff(request: seq<byte>)            // reply written, socket handed to the kernel
    | Stopped

  /** `requests`/`replies` is what the client has sent and taken; `answers` what the server has
      sent.  `dropped` are the bytes thrown away with a read buffer.  The kernel counters hold
      what the two kernels have written since they own a socket. */
  datatype World = World(
    toServer: seq<byte>,
    toClient: seq<byte>,
    clientBuf: seq<byte>,
    serverBuf: seq<byte>,
    client: ClientPhase,
    server: ServerPhase,
    requests: seq<Message>,
    replies: seq<Message>,
    answers: seq<Message>,
    dropped: seq<byte>,
    clientKernel: seq<byte>,
    serverKernel: seq<byte>,
    conn: Conn,
    manager: Manager,
    record: DeviceRecord,
    who: Caller)

  datatype Move =
    | ClientSends(msg: Message)
    | ClientReads(n: nat)
    | ClientTakes
    | ClientImports(n: nat)
    | ServerReads(n: nat)
    | ServerServes(env: Env)
    | ServerImports(n: nat)
    | ServerStops
    | ClientKernelWrites(bytes: seq<byte>)
    | ServerKernelWrites(bytes: seq<byte>)
    | OthersAct(m: Manager)
    | DeviceChanges(r: DeviceRecord)

  function Start(who: Caller, conn: Conn, m: Manager, r: DeviceRecord): World {
    World([], [], [], [], Ready, Listening, [], [], [], [], [], [], conn, m, r, who)
  }

  /** How many bytes `read_exact` still wants. */
  function Wanted(got: seq<byte>): nat {
    if |got| < HEADER_SIZE then HEADER_SIZE - |got| else if |got| < REPLY_SIZE then REPLY_SIZE - |got| else 0
  }

  /** The hypothesis under which the 32-bit length of a frame is its real length. */
  predicate ReplyUnder4GiB(c: Coder<Message>, w: World, env: Env) {
    match DecodeStep(c, w.serverBuf)
    case Frame(msg, _) => |c.enc(Handle(w.manager, w.conn, msg, env).2.message)| < U32_LIMIT
    case _ => true
  }

  predicate CanMove(c: Coder<Message>, w: World, move: Move) {
    match move
    case ClientSends(msg) => w.client.Ready? && Fits(c, msg)
    case ClientReads(n) => w.client.Awaiting? && DecodeStep(c, w.clientBuf).Incomplete? && 1 <= n <= |w.toClient|
    case ClientTakes => w.client.Awaiting? && !DecodeStep(c, w.clientBuf).Incomplete?
    case ClientImports(n) => w.client.Requested? && 1 <= n <= |w.toClient| && n <= Wanted(w.client.got)
    case ServerReads(n) => w.server.Listening? && DecodeStep(c, w.serverBuf).Incomplete? && 1 <= n <= |w.toServer|
    case ServerServes(env) =>
      w.server.Listening? && !DecodeStep(c, w.serverBuf).Incomplete? && ReplyUnder4GiB(c, w, env)
    case ServerImports(n) => w.server.Bridging? && 1 <= n <= |w.toServer| && n <= REQUEST_SIZE - |w.server.got|
    case ServerStops => w.server.Listening? || w.server.Bridging?
    case ClientKernelWrites(_) => w.client.Mounted?
    case ServerKernelWrites(_) => w.server.HandedOff?
    case OthersAct(_) => true
    case DeviceChanges(_) => w.server.Listening?
  }

  /** A client leaves when its hello or its bridge request fails, and when it is surprised; any
      other failure is handed to the caller, and the session goes on. */
  predicate Leaves(request: Message, error: ClientError) {
    request.Hello? || request.Bridge? || error.UnexpectedMessage?
  }

  /** The client decodes a reply and judges it by its request.  An accepted bridge makes it drop its
      read buffer with the framed stream and write the import request. */
  function TakeReply(c: Coder<Message>, w: World): World
    requires |w.requests| > 0
  {
    match DecodeStep(c, w.clientBuf)
    case Frame(m, rest) => Judged(w, m, rest)
    case Failed(error, rest) => w.(clientBuf := rest, client := GaveUp(StreamFailed(error)))
    case Incomplete => w
  }

  function Judged(w: World, m: Message, rest: seq<byte>): World
    requires |w.requests| > 0
  {
    var request := w.requests[|w.requests| - 1];
    var verdict := Verdict(w.who, request, m);
    if verdict.Some? then
      w.(clientBuf := rest, replies := w.replies + [m],
         client := if Leaves(request, verdict.value) then GaveUp(verdict.value) else Ready)
    else if !request.Bridge? || !m.BridgeAccepted? then
      w.(clientBuf := rest, replies := w.replies + [m], client := Ready)
    else if |m.acceptance.busid| >= 32 then
      w.(clientBuf := [], replies := w.replies + [m], dropped := w.dropped + rest,
         client := GaveUp(ProtocolError(TextOf("busid too long"))))
    else
      w.(clientBuf := [], replies := w.replies + [m], dropped := w.dropped + rest,
         client := Requested(m.acceptance.busid, []), toServer := w.toServer + ImportRequest(m.acceptance.busid))
  }

  /** The server's half of one turn once the request is handled: the reply goes out if a frame can
      hold it.  An accepted bridge makes the server drop its read buffer with the framed stream. */
  function AfterServing(c: Coder<Message>, w: World, rest: seq<byte>, m: Manager, conn: Conn, action: Action): World {
    match EncodeFrame(c, action.message)
    case Err(_) => w.(serverBuf := rest, manager := m, conn := conn, server := Stopped)
    case Ok(frame) =>
      w.(serverBuf := if action.ToBridge? then [] else rest,
         dropped := if action.ToBridge? then w.dropped + rest else w.dropped,
         manager := m, conn := conn, toClient := w.toClient + frame, answers := w.answers + [action.message],
         server := if action.ToBridge? then Bridging([]) else w.server)
  }

  function ServeRequest(c: Coder<Message>, w: World, env: Env): World {
    match DecodeStep(c, w.serverBuf)
    case Frame(msg, rest) =>
      var (m', conn', action) := Handle(w.manager, w.conn, msg, env);
      AfterServing(c, w, rest, m', conn', action)
    case _ => w.(server := Stopped)
  }

  /** After the 40th byte the server looks at the code and writes its reply. */
  function ReadRequest(w: World, got: seq<byte>): World
    requires w.server.Bridging?
  {
    if |got| < REQUEST_SIZE then w.(server := Bridging(got))
    else if Code(got) != OP_REQ_IMPORT then w.(server := Stopped)
    else w.(server := HandedOff(got), toClient := w.toClient + ImportReply(w.record))
  }

  /** After the 8th byte the client looks at the header, after the 320th it is done. */
  function ReadReply(w: World, got: seq<byte>): World
    requires w.client.Requested?
  {
    if |got| == HEADER_SIZE && (Code(got) != OP_REP_IMPORT || Status(got) != 0) then
      w.(client := GaveUp(ProtocolError(TextOf("import refused"))))
    else if |got| >= REPLY_SIZE then w.(client := Mounted(got))
    else w.(client := Requested(w.client.busid, got))
  }

  function Send(c: Coder<Message>, w: World, msg: Message): World
    requires Fits(c, msg)
  {
    w.(toServer := w.toServer + FrameOf(c, msg), requests := w.requests + [msg], client := Awaiting)
  }

  function ClientRead(w: World, n: nat): World
    requires n <= |w.toClient|
  {
    w.(clientBuf := w.clientBuf + w.toClient[..n], toClient := w.toClient[n..])
  }

  function ServerRead(w: World, n: nat): World
    requires n <= |w.toServer|
  {
    w.(serverBuf := w.serverBuf + w.toServer[..n], toServer := w.toServer[n..])
  }

  function Perform(c: Coder<Message>, w: World, move: Move): World
    requires CanMove(c, w, move)
    requires w.client.Awaiting? ==> |w.requests| > 0
  {
    match move
    case ClientSends(msg) => Send(c, w, msg)
    case ClientReads(n) => ClientRead(w, n)
    case ClientTakes => TakeReply(c, w)
    case ClientImports(n) => ReadReply(w.(toClient := w.toClient[n..]), w.client.got + w.toClient[..n])
    case ServerReads(n) => ServerRead(w, n)
    case ServerServes(env) => ServeRequest(c, w, env)
    case ServerImports(n) => ReadRequest(w.(toServer := w.toServer[n..]), w.server.got + w.toServer[..n])
    case ServerStops => w.(server := Stopped)
    case ClientKernelWrites(bytes) => w.(toServer := w.toServer + bytes, clientKernel := w.clientKernel + bytes)
    case ServerKernelWrites(bytes) => w.(toClient := w.toClient + bytes, serverKernel := w.serverKernel + bytes)
    case OthersAct(m) => w.(manager := m)
    case DeviceChanges(r) => w.(record := r)
  }

  // ----- The invariant -----

  /** Every reply sent answers its request, and what the client took is what was sent. */
  ghost predicate Conforming(c: Coder<Message>, w: World) {
    && |w.answers| <= |w.requests|
    && |w.replies| <= |w.answers|
    && w.replies == w.answers[..|w.replies|]
    && (forall k :: 0 <= k < |w.requests| ==> Fits(c, w.requests[k]))
    && (forall k :: 0 <= k < |w.answers| ==> Fits(c, w.answers[k]) && Answers(w.requests[k], w.answers[k]))
    && (forall k :: 0 <= k < |w.answers| && w.answers[k].BridgeAccepted? ==> w.requests[k].Bridge?)
  }

  predicate BridgeAnswered(w: World) {
    |w.answers| > 0 && w.answers[|w.answers| - 1].BridgeAccepted?
  }

  /** The last reply is one over which the client leaves with this error. */
  predicate LeftWith(w: World, error: ClientError)
    requires |w.replies| == |w.requests| > 0
  {
    var last := |w.requests| - 1;
    Verdict(w.who, w.requests[last], w.replies[last]) == Some(error) && Leaves(w.requests[last], error)
  }

  ghost predicate FramePhase(c: Coder<Message>, w: World)
    requires Conforming(c, w)
  {
    && w.clientKernel == [] && w.serverKernel == []
    && match w.client
       case Ready =>
         && |w.replies| == |w.requests| && |w.answers| == |w.requests|
         && w.clientBuf + w.toClient == []
         && w.serverBuf + w.toServer == []
         && (w.server.Listening? || w.server.Stopped?)
       case GaveUp(error) =>
         && |w.replies| == |w.requests| && |w.answers| == |w.requests| > 0
         && w.clientBuf + w.toClient == []
         && w.serverBuf + w.toServer == []
         && (w.server.Listening? || w.server.Stopped?)
         && LeftWith(w, error)
       case Awaiting =>
         && |w.requests| > 0 && |w.replies| == |w.requests| - 1
         && if |w.answers| < |w.requests| then
              && w.clientBuf + w.toClient == []
              && (w.server.Stopped?
                  || (w.server.Listening? && w.serverBuf + w.toServer == FrameOf(c, w.requests[|w.requests| - 1])))
            else
              && w.clientBuf + w.toClient == FrameOf(c, w.answers[|w.answers| - 1])
              && w.serverBuf + w.toServer == []
              && (w.server.Stopped? || w.server == if BridgeAnswered(w) then Bridging([]) else Listening)
       case _ => false
  }

  ghost predicate RawPhase(w: World) {
    && |w.replies| == |w.requests| == |w.answers| && BridgeAnswered(w)
    && w.clientBuf == [] && w.serverBuf == []
    && match w.client
       case Requested(busid, got) =>
         && w.clientKernel == []
         && |got| < REPLY_SIZE
         && busid == w.answers[|w.answers| - 1].acceptance.busid
         && (match w.server
             case Bridging(read) => |read| < REQUEST_SIZE && read + w.toServer == ImportRequest(busid)
                                    && got + w.toClient == [] && w.serverKernel == []
             case HandedOff(read) => read == ImportRequest(busid) && w.toServer == []
                                     && got + w.toClient == ImportReply(w.record) + w.serverKernel
             case Stopped => got + w.toClient == [] && w.serverKernel == []
             case Listening => false)
       case Mounted(reply) =>
         && w.server == HandedOff(ImportRequest(w.answers[|w.answers| - 1].acceptance.busid))
         && reply == ImportReply(w.record)
         && w.toClient == w.serverKernel && w.toServer == w.clientKernel
       case _ => false
  }

  ghost predicate Inv(c: Coder<Message>, w: World) {
    && Conforming(c, w)
    && w.dropped == []
    && (FramePhase(c, w) || RawPhase(w))
  }

  // ----- Every move keeps it -----

  lemma PartOfFrame(c: Coder<Message>, m: Message, buf: seq<byte>, rest: seq<byte>)
    requires Lawful(c) && Fits(c, m) && buf + rest == FrameOf(c, m)
    ensures rest == [] ==> DecodeStep(c, buf) == Frame(m, [])
    ensures rest != [] ==> DecodeStep(c, buf) == Incomplete
  {
    if rest == [] {
      assert buf == FrameOf(c, m) + [];
      FrameRoundTrip(c, m, []);
    } else {
      assert buf == FrameOf(c, m)[..|buf|];
      PartialFrameWaits(c, m, |buf|);
    }
  }

  lemma EmptyParts(a: seq<byte>, b: seq<byte>)
    requires a + b == []
    ensures a == [] && b == []
  {
    assert |a + b| == |a| + |b|;
  }

  lemma MovedBytes(buf: seq<byte>, channel: seq<byte>, n: nat)
    requires n <= |channel|
    ensures buf + channel[..n] + channel[n..] == buf + channel
  {
  }

  lemma SentConforms(c: Coder<Message>, w: World, msg: Message)
    requires Conforming(c, w) && Fits(c, msg)
    ensures Conforming(c, Send(c, w, msg))
  {
    hide Fits, FrameOf, Answers;
    var w' := Send(c, w, msg);
    assert forall k :: 0 <= k < |w.requests| ==> w'.requests[k] == w.requests[k];
  }

  lemma SendKeepsInv(c: Coder<Message>, w: World, msg: Message)
    requires Lawful(c) && Inv(c, w) && w.client.Ready? && Fits(c, msg)
    ensures Inv(c, Send(c, w, msg))
  {
    hide Verdict, Answers, Fits, FrameOf;
    SentConforms(c, w, msg);
    EmptyParts(w.serverBuf, w.toServer);
    var w' := Send(c, w, msg);
    assert w'.serverBuf + w'.toServer == FrameOf(c, msg);
    assert FramePhase(c, w');
  }

  /** Whether the messages conform does not depend on anything else. */
  lemma SameMessagesConform(c: Coder<Message>, w: World, w': World)
    requires Conforming(c, w) && w'.requests == w.requests && w'.replies == w.replies && w'.answers == w.answers
    ensures Conforming(c, w')
  {
    hide Answers, Fits;
  }

  lemma ClientReadKeepsInv(c: Coder<Message>, w: World, n: nat)
    requires Inv(c, w) && w.client.Awaiting? && n <= |w.toClient|
    ensures Inv(c, ClientRead(w, n))
  {
    hide Verdict, Conforming, FrameOf, ImportRequest, ImportReply;
    SameMessagesConform(c, w, ClientRead(w, n));
    assert FramePhase(c, w);
    MovedBytes(w.clientBuf, w.toClient, n);
    assert FramePhase(c, ClientRead(w, n));
  }

  lemma ServerReadKeepsInv(c: Coder<Message>, w: World, n: nat)
    requires Inv(c, w) && w.server.Listening? && n <= |w.toServer|
    ensures Inv(c, ServerRead(w, n))
  {
    hide Verdict, Conforming, FrameOf, ImportRequest, ImportReply;
    SameMessagesConform(c, w, ServerRead(w, n));
    assert FramePhase(c, w);
    MovedBytes(w.serverBuf, w.toServer, n);
    assert FramePhase(c, ServerRead(w, n));
  }

  /** A client that can decode has its whole reply and nothing else. */
  lemma WholeReply(c: Coder<Message>, w: World)
    requires Lawful(c) && Inv(c, w) && w.client.Awaiting? && !DecodeStep(c, w.clientBuf).Incomplete?
    ensures |w.answers| == |w.requests| > 0 && |w.replies| == |w.requests| - 1
    ensures w.toClient == [] && w.toServer == [] && w.serverBuf == []
    ensures DecodeStep(c, w.clientBuf) == Frame(w.answers[|w.answers| - 1], [])
    ensures w.server.Stopped? || w.server == if BridgeAnswered(w) then Bridging([]) else Listening
  {
    hide Verdict;
    if |w.answers| < |w.requests| {
      EmptyParts(w.clientBuf, w.toClient);
    } else {
      PartOfFrame(c, w.answers[|w.answers| - 1], w.clientBuf, w.toClient);
      EmptyParts(w.serverBuf, w.toServer);
    }
  }

  /** A bridge request succeeds with an accepted bridge and nothing else. */
  lemma BridgeVerdict(who: Caller, request: Message, reply: Message)
    requires request.Bridge?
    ensures Verdict(who, request, reply).None? <==> reply.BridgeAccepted?
  {
  }

  lemma TakeKeepsInv(c: Coder<Message>, w: World)
    requires Lawful(c) && Inv(c, w) && w.client.Awaiting? && !DecodeStep(c, w.clientBuf).Incomplete?
    ensures |w.requests| > 0 && Inv(c, TakeReply(c, w))
  {
    hide Verdict;
    WholeReply(c, w);
    JudgedKeepsInv(c, w);
  }

  /** The client has its whole reply and nothing else. */
  ghost predicate ReplyInHand(c: Coder<Message>, w: World) {
    && Conforming(c, w) && FramePhase(c, w) && w.dropped == [] && w.client.Awaiting?
    && |w.answers| == |w.requests| > 0 && |w.replies| == |w.requests| - 1
    && w.toClient == [] && w.toServer == [] && w.serverBuf == []
    && (w.server.Stopped? || w.server == if BridgeAnswered(w) then Bridging([]) else Listening)
  }

  function Taken(w: World, client: ClientPhase, toServer: seq<byte>): World
    requires |w.answers| > 0
  {
    w.(clientBuf := [], replies := w.replies + [w.answers[|w.answers| - 1]], client := client, toServer := toServer)
  }

  lemma FrameTaken(c: Coder<Message>, w: World, client: ClientPhase)
    requires ReplyInHand(c, w) && !BridgeAnswered(w)
    requires client.Ready? || (client.GaveUp? && LeftWith(Taken(w, client, []), client.error))
    ensures Inv(c, Taken(w, client, []))
  {
    hide Verdict;
    assert w.replies + [w.answers[|w.answers| - 1]] == w.answers;
    assert FramePhase(c, Taken(w, client, []));
  }

  lemma BridgeTaken(c: Coder<Message>, w: World)
    requires ReplyInHand(c, w) && BridgeAnswered(w)
    ensures var busid := w.answers[|w.answers| - 1].acceptance.busid;
            |busid| < 32 && Inv(c, Taken(w, Requested(busid, []), ImportRequest(busid)))
  {
    hide Verdict, ImportRequest, Fits;
    var last := |w.answers| - 1;
    var busid := w.answers[last].acceptance.busid;
    assert w.replies + [w.answers[last]] == w.answers;
    assert Answers(w.requests[last], w.answers[last]);
    assert [] + ImportRequest(busid) == ImportRequest(busid);
    assert RawPhase(Taken(w, Requested(busid, []), ImportRequest(busid)));
  }

  lemma JudgedKeepsInv(c: Coder<Message>, w: World)
    requires ReplyInHand(c, w)
    ensures Inv(c, Judged(w, w.answers[|w.answers| - 1], []))
  {
    hide Verdict, Conforming, FramePhase, Inv;
    var last := |w.answers| - 1;
    var request, m := w.requests[last], w.answers[last];
    AcceptedWasAsked(c, w, last);
    if request.Bridge? {
      BridgeVerdict(w.who, request, m);
    }
    var w' := Judged(w, m, []);
    assert w.dropped + [] == [] && [] + [] == w.toServer;
    if BridgeAnswered(w) {
      BridgeTaken(c, w);
      assert [] + ImportRequest(m.acceptance.busid) == ImportRequest(m.acceptance.busid);
      assert w' == Taken(w, w'.client, w'.toServer);
    } else {
      assert w' == Taken(w, w'.client, []);
      FrameTaken(c, w, w'.client);
    }
  }

  lemma AcceptedWasAsked(c: Coder<Message>, w: World, k: nat)
    requires Conforming(c, w) && k < |w.answers|
    ensures w.answers[k].BridgeAccepted? ==> w.requests[k].Bridge?
  {
  }

  lemma StopKeepsInv(c: Coder<Message>, w: World)
    requires Inv(c, w) && (w.server.Listening? || w.server.Bridging?)
    ensures Inv(c, w.(server := Stopped))
  {
    hide Verdict, Conforming, FrameOf, ImportRequest, ImportReply;
    SameMessagesConform(c, w, w.(server := Stopped));
    if FramePhase(c, w) {
      assert FramePhase(c, w.(server := Stopped));
    } else {
      assert RawPhase(w.(server := Stopped));
    }
  }

  lemma ManagerChangeKeepsInv(c: Coder<Message>, w: World, m: Manager)
    requires Inv(c, w)
    ensures Inv(c, w.(manager := m))
  {
    hide Verdict, Conforming, FrameOf, ImportRequest, ImportReply;
    SameMessagesConform(c, w, w.(manager := m));
    if FramePhase(c, w) {
      assert FramePhase(c, w.(manager := m));
    } else {
      assert RawPhase(w.(manager := m));
    }
  }

  lemma RecordChangeKeepsInv(c: Coder<Message>, w: World, r: DeviceRecord)
    requires Inv(c, w) && w.server.Listening?
    ensures Inv(c, w.(record := r))
  {
    hide Verdict, Conforming, FrameOf, ImportRequest, ImportReply;
    SameMessagesConform(c, w, w.(record := r));
    assert FramePhase(c, w);
    assert FramePhase(c, w.(record := r));
  }

  /** A server that can decode has a whole request and nothing else. */
  lemma WholeRequest(c: Coder<Message>, w: World)
    requires Lawful(c) && Inv(c, w) && w.server.Listening? && !DecodeStep(c, w.serverBuf).Incomplete?
    ensures |w.requests| > 0 && |w.answers| == |w.requests| - 1 && w.client.Awaiting?
    ensures w.toServer == [] && w.toClient == [] && w.clientBuf == []
    ensures DecodeStep(c, w.serverBuf) == Frame(w.requests[|w.requests| - 1], [])
  {
    hide Verdict;
    assert FramePhase(c, w);
    if !w.client.Awaiting? || |w.answers| == |w.requests| {
      EmptyParts(w.serverBuf, w.toServer);
    } else {
      PartOfFrame(c, w.requests[|w.requests| - 1], w.serverBuf, w.toServer);
      EmptyParts(w.clientBuf, w.toClient);
    }
  }

  /** The two outcomes of a served request, as plain updates. */
  function Unanswered(w: World, m: Manager, conn: Conn): World {
    w.(serverBuf := [], manager := m, conn := conn, server := Stopped)
  }

  function Replied(c: Coder<Message>, w: World, m: Manager, conn: Conn, reply: Message, server: ServerPhase): World
    requires Fits(c, reply)
  {
    w.(serverBuf := [], manager := m, conn := conn, toClient := w.toClient + FrameOf(c, reply),
       answers := w.answers + [reply], server := server)
  }

  lemma EncodesIffFits(c: Coder<Message>, m: Message)
    requires |c.enc(m)| < U32_LIMIT
    ensures EncodeFrame(c, m).Ok? <==> Fits(c, m)
    ensures Fits(c, m) ==> EncodeFrame(c, m) == Ok(FrameOf(c, m))
  {
  }

  lemma AfterServingForm(c: Coder<Message>, w: World, m: Manager, conn: Conn, action: Action)
    requires |c.enc(action.message)| < U32_LIMIT && w.dropped == []
    ensures AfterServing(c, w, [], m, conn, action) ==
            if Fits(c, action.message)
            then Replied(c, w, m, conn, action.message, if action.ToBridge? then Bridging([]) else w.server)
            else Unanswered(w, m, conn)
  {
    hide EncodeFrame, Fits, FrameOf;
    EncodesIffFits(c, action.message);
    assert w.dropped + [] == [];
  }

  ghost predicate AwaitingReply(c: Coder<Message>, w: World) {
    && Conforming(c, w) && w.dropped == [] && FramePhase(c, w)
    && w.client.Awaiting? && w.server.Listening? && |w.answers| == |w.requests| - 1
    && w.toServer == [] && w.toClient == [] && w.clientBuf == []
  }

  lemma RepliedConforms(c: Coder<Message>, w: World, w': World, reply: Message)
    requires Conforming(c, w) && |w.answers| == |w.requests| - 1 && Fits(c, reply)
    requires Answers(w.requests[|w.answers|], reply) && (reply.BridgeAccepted? ==> w.requests[|w.answers|].Bridge?)
    requires w'.requests == w.requests && w'.replies == w.replies && w'.answers == w.answers + [reply]
    ensures Conforming(c, w')
  {
    hide Fits, Answers;
    PrefixKept(w.answers, |w.replies|, reply);
    forall k | 0 <= k < |w'.answers|
      ensures Fits(c, w'.answers[k]) && Answers(w'.requests[k], w'.answers[k])
              && (w'.answers[k].BridgeAccepted? ==> w'.requests[k].Bridge?)
    {
      assert w'.answers[k] == if k < |w.answers| then w.answers[k] else reply;
    }
  }

  lemma PrefixKept(s: seq<Message>, n: nat, m: Message)
    requires n <= |s|
    ensures (s + [m])[..n] == s[..n]
  {
  }

  lemma ReplyKeepsInv(c: Coder<Message>, w: World, m: Manager, conn: Conn, action: Action)
    requires AwaitingReply(c, w) && Proper(w.requests[|w.requests| - 1], action) && Fits(c, action.message)
    ensures Inv(c, Replied(c, w, m, conn, action.message, if action.ToBridge? then Bridging([]) else w.server))
  {
    hide Verdict, Answers, Fits, FrameOf, Conforming;
    var w' := Replied(c, w, m, conn, action.message, if action.ToBridge? then Bridging([]) else w.server);
    AnsweredInPart(c, w);
    RepliedConforms(c, w, w', action.message);
    assert w'.answers[|w.answers|] == action.message;
    assert w'.clientBuf + w'.toClient == FrameOf(c, action.message);
    assert w'.serverBuf + w'.toServer == [];
    assert FramePhase(c, w');
  }

  lemma AnsweredInPart(c: Coder<Message>, w: World)
    requires Conforming(c, w)
    ensures |w.replies| <= |w.answers| <= |w.requests| && w.replies == w.answers[..|w.replies|]
  {
  }

  lemma RefusalKeepsInv(c: Coder<Message>, w: World, m: Manager, conn: Conn)
    requires AwaitingReply(c, w)
    ensures Inv(c, Unanswered(w, m, conn))
  {
    hide Verdict, Conforming, FrameOf;
    SameMessagesConform(c, w, Unanswered(w, m, conn));
    assert FramePhase(c, Unanswered(w, m, conn));
  }

  lemma ServedKeepsInv(c: Coder<Message>, w: World, m: Manager, conn: Conn, action: Action)
    requires AwaitingReply(c, w)
    requires Proper(w.requests[|w.requests| - 1], action) && |c.enc(action.message)| < U32_LIMIT
    ensures Inv(c, AfterServing(c, w, [], m, conn, action))
  {
    hide Inv, FramePhase, Conforming, AfterServing, Replied, Unanswered, Fits;
    AfterServingForm(c, w, m, conn, action);
    if Fits(c, action.message) {
      ReplyKeepsInv(c, w, m, conn, action);
    } else {
      RefusalKeepsInv(c, w, m, conn);
    }
  }

  lemma ServeKeepsInv(c: Coder<Message>, w: World, env: Env)
    requires Lawful(c) && Inv(c, w) && CanMove(c, w, ServerServes(env))
    ensures Inv(c, ServeRequest(c, w, env))
  {
    hide Handle, DecodeStep, AfterServing, RawPhase, FramePhase, Conforming, Proper;
    WholeRequest(c, w);
    ListeningIsFrames(c, w);
    var msg := w.requests[|w.requests| - 1];
    EveryRequestAnswered(w.manager, w.conn, msg, env);
    var (m', conn', action) := Handle(w.manager, w.conn, msg, env);
    ServedKeepsInv(c, w, m', conn', action);
  }

  lemma ListeningIsFrames(c: Coder<Message>, w: World)
    requires Inv(c, w) && w.server.Listening?
    ensures FramePhase(c, w)
  {
    hide FramePhase;
  }

  lemma WholeImportRequest(busid: Text, got: seq<byte>, rest: seq<byte>)
    requires |got| == REQUEST_SIZE && got + rest == ImportRequest(busid)
    ensures got == ImportRequest(busid) && rest == [] && Code(got) == OP_REQ_IMPORT
  {
    assert |got + rest| == REQUEST_SIZE;
    assert got == Import.Header(OP_REQ_IMPORT) + Pad(busid, 32);
    HeaderFields(OP_REQ_IMPORT, Pad(busid, 32));
  }

  lemma BridgingIsRaw(c: Coder<Message>, w: World)
    requires Inv(c, w) && w.server.Bridging? && w.toServer != []
    ensures RawPhase(w) && w.client.Requested? && w.client.got == [] && w.toClient == []
    ensures w.server.got + w.toServer == ImportRequest(w.client.busid) && |w.server.got| < REQUEST_SIZE
  {
    hide Verdict;
    if FramePhase(c, w) {
      EmptyParts(w.serverBuf, w.toServer);
    }
    EmptyParts(w.client.got, w.toClient);
  }

  lemma PartOfRequestRead(w: World, got: seq<byte>, rest: seq<byte>)
    requires RawPhase(w) && w.server.Bridging? && w.client.Requested?
    requires |got| < REQUEST_SIZE && got + rest == ImportRequest(w.client.busid)
    ensures RawPhase(w.(toServer := rest, server := Bridging(got)))
  {
  }

  lemma WholeRequestRead(w: World)
    requires RawPhase(w) && w.server.Bridging? && w.client.Requested? && w.client.got == [] && w.toClient == []
    ensures RawPhase(w.(toServer := [], server := HandedOff(ImportRequest(w.client.busid)),
                        toClient := w.toClient + ImportReply(w.record)))
  {
    hide ImportReply, ImportRequest;
    assert [] + ([] + ImportReply(w.record)) == ImportReply(w.record) + [];
  }

  lemma RequestReadKeepsInv(c: Coder<Message>, w: World, n: nat)
    requires Lawful(c) && Inv(c, w) && w.server.Bridging?
    requires 1 <= n <= |w.toServer| && n <= REQUEST_SIZE - |w.server.got|
    ensures Inv(c, ReadRequest(w.(toServer := w.toServer[n..]), w.server.got + w.toServer[..n]))
  {
    hide Verdict, FramePhase, RawPhase, ImportRequest, ImportReply;
    BridgingIsRaw(c, w);
    var got, rest := w.server.got + w.toServer[..n], w.toServer[n..];
    var w' := ReadRequest(w.(toServer := rest), got);
    MovedBytes(w.server.got, w.toServer, n);
    if |got| == REQUEST_SIZE {
      WholeImportRequest(w.client.busid, got, rest);
      WholeRequestRead(w);
      assert w' == w.(toServer := [], server := HandedOff(got), toClient := w.toClient + ImportReply(w.record));
    } else {
      PartOfRequestRead(w, got, rest);
      assert w' == w.(toServer := rest, server := Bridging(got));
    }
  }

  lemma PartOfImportReply(r: DeviceRecord, kernel: seq<byte>, got: seq<byte>, rest: seq<byte>)
    requires got + rest == ImportReply(r) + kernel
    ensures |got| == HEADER_SIZE ==> Code(got) == OP_REP_IMPORT && Status(got) == 0
    ensures |got| == REPLY_SIZE ==> got == ImportReply(r) && rest == kernel
  {
    hide Import.Header, WireBytes, Code, Status;
    var whole := ImportReply(r) + kernel;
    assert got == whole[..|got|] && rest == whole[|got|..];
    if |got| == HEADER_SIZE {
      assert got == Import.Header(OP_REP_IMPORT) + [];
      HeaderFields(OP_REP_IMPORT, []);
    }
  }

  lemma PartOfReplyRead(w: World, got: seq<byte>, rest: seq<byte>)
    requires RawPhase(w) && w.client.Requested? && w.server.HandedOff?
    requires |got| < REPLY_SIZE && got + rest == ImportReply(w.record) + w.serverKernel
    ensures RawPhase(w.(toClient := rest, client := Requested(w.client.busid, got)))
  {
    hide ImportReply, ImportRequest;
  }

  lemma WholeReplyRead(w: World)
    requires RawPhase(w) && w.client.Requested? && w.server.HandedOff?
    ensures RawPhase(w.(toClient := w.serverKernel, client := Mounted(ImportReply(w.record))))
  {
    hide ImportReply, ImportRequest;
  }

  /** While the import reply has bytes on the way, the server has written it. */
  lemma ReplyOnItsWay(c: Coder<Message>, w: World)
    requires Inv(c, w) && w.client.Requested? && w.toClient != []
    ensures RawPhase(w) && w.server.HandedOff? && w.client.got + w.toClient == ImportReply(w.record) + w.serverKernel
  {
    hide ImportReply, ImportRequest, Conforming, Verdict;
    assert RawPhase(w);
    assert |w.client.got + w.toClient| >= 1;
  }

  lemma ReplyReadKeepsInv(c: Coder<Message>, w: World, n: nat)
    requires Inv(c, w) && w.client.Requested? && 1 <= n <= |w.toClient| && n <= Wanted(w.client.got)
    ensures Inv(c, ReadReply(w.(toClient := w.toClient[n..]), w.client.got + w.toClient[..n]))
  {
    hide Verdict, FramePhase, RawPhase, ImportReply, Conforming, Code, Status;
    ReplyOnItsWay(c, w);
    var got, rest := w.client.got + w.toClient[..n], w.toClient[n..];
    var w' := ReadReply(w.(toClient := rest), got);
    MovedBytes(w.client.got, w.toClient, n);
    PartOfImportReply(w.record, w.serverKernel, got, rest);
    SameMessagesConform(c, w, w');
    if |got| < REPLY_SIZE {
      PartOfReplyRead(w, got, rest);
      assert w' == w.(toClient := rest, client := Requested(w.client.busid, got));
    } else {
      WholeReplyRead(w);
      assert w' == w.(toClient := w.serverKernel, client := Mounted(ImportReply(w.record)));
    }
  }

  lemma ClientKernelKeepsInv(c: Coder<Message>, w: World, bytes: seq<byte>)
    requires Inv(c, w) && w.client.Mounted?
    ensures Inv(c, w.(toServer := w.toServer + bytes, clientKernel := w.clientKernel + bytes))
  {
    hide Verdict, Conforming, ImportReply, ImportRequest;
    assert RawPhase(w);
    SameMessagesConform(c, w, w.(toServer := w.toServer + bytes, clientKernel := w.clientKernel + bytes));
    assert RawPhase(w.(toServer := w.toServer + bytes, clientKernel := w.clientKernel + bytes));
  }

  lemma ServerKernelKeepsInv(c: Coder<Message>, w: World, bytes: seq<byte>)
    requires Inv(c, w) && w.server.HandedOff?
    ensures Inv(c, w.(toClient := w.toClient + bytes, serverKernel := w.serverKernel + bytes))
  {
    hide Verdict, Conforming, ImportReply, ImportRequest;
    assert RawPhase(w);
    var w' := w.(toClient := w.toClient + bytes, serverKernel := w.serverKernel + bytes);
    SameMessagesConform(c, w, w');
    if w.client.Requested? {
      MoreKernelBytes(w.client.got, w.toClient, ImportReply(w.record), w.serverKernel, bytes);
    }
    assert RawPhase(w');
  }

  lemma MoreKernelBytes(got: seq<byte>, channel: seq<byte>, reply: seq<byte>, kernel: seq<byte>, bytes: seq<byte>)
    requires got + channel == reply + kernel
    ensures got + (channel + bytes) == reply + (kernel + bytes)
  {
    assert got + (channel + bytes) == (got + channel) + bytes;
    assert reply + (kernel + bytes) == (reply + kernel) + bytes;
  }

  lemma AwaitingAsked(c: Coder<Message>, w: World)
    requires Inv(c, w) && w.client.Awaiting?
    ensures |w.requests| > 0
  {
  }

  lemma MoveKeepsInv(c: Coder<Message>, w: World, move: Move)
    requires Lawful(c) && Inv(c, w) && CanMove(c, w, move)
    ensures w.client.Awaiting? ==> |w.requests| > 0
    ensures Inv(c, Perform(c, w, move))
  {
    hide Inv, Handle, DecodeStep, TakeReply, ServeRequest, ReadRequest, ReadReply, Send, ClientRead, ServerRead;
    if w.client.Awaiting? {
      AwaitingAsked(c, w);
    }
    match move
    case ClientSends(msg) => SendKeepsInv(c, w, msg);
    case ClientReads(n) => ClientReadKeepsInv(c, w, n);
    case ClientTakes => TakeKeepsInv(c, w);
    case ClientImports(n) => ReplyReadKeepsInv(c, w, n);
    case ServerReads(n) => ServerReadKeepsInv(c, w, n);
    case ServerServes(env) => ServeKeepsInv(c, w, env);
    case ServerImports(n) => RequestReadKeepsInv(c, w, n);
    case ServerStops => StopKeepsInv(c, w);
    case ClientKernelWrites(bytes) => ClientKernelKeepsInv(c, w, bytes);
    case ServerKernelWrites(bytes) => ServerKernelKeepsInv(c, w, bytes);
    case OthersAct(m) => ManagerChangeKeepsInv(c, w, m);
    case DeviceChanges(r) => RecordChangeKeepsInv(c, w, r);
  }

  // ----- The gate, seen from the client -----

  /** One of these replies lets the client in. */
  ghost predicate Greeted(replies: seq<Message>) {
    exists j :: 0 <= j < |replies| && LetsIn(replies[j])
  }

  /** The connection's flag is what its replies say; a bridge request meets an error exactly if the
      server has a key and no earlier reply let the client in. */
  ghost predicate Gated(w: World) {
    && |w.answers| <= |w.requests|
    && (w.server.Listening? ==> (w.conn.authenticated <==> Greeted(w.answers)))
    && forall k :: 0 <= k < |w.answers| && w.requests[k].Bridge? ==>
         (w.answers[k].Error? <==> w.conn.key.Some? && !Greeted(w.answers[..k]))
  }

  /** A client whose hello failed sends nothing more. */
  ghost predicate Admissible(w: World) {
    && |w.replies| <= |w.requests|
    && forall k :: 0 <= k < |w.replies| && w.requests[k].Hello? && Verdict(w.who, w.requests[k], w.replies[k]).Some? ==>
         k == |w.replies| - 1 && w.client.GaveUp?
  }

  /** Nothing was said between `w` and `w'`. */
  ghost predicate NothingSaid(w: World, w': World) {
    && w'.requests == w.requests && w'.replies == w.replies && w'.answers == w.answers
    && w'.conn == w.conn && w'.who == w.who
    && (w'.server.Listening? ==> w.server.Listening?)
    && (w.client.GaveUp? ==> w'.client.GaveUp?)
  }

  lemma SilenceKeepsTalk(w: World, w': World)
    requires Gated(w) && Admissible(w) && NothingSaid(w, w')
    ensures Gated(w') && Admissible(w')
  {
    hide Verdict;
  }

  lemma SendKeepsTalk(c: Coder<Message>, w: World, msg: Message)
    requires Gated(w) && Admissible(w) && w.client.Ready? && Fits(c, msg)
    ensures Gated(Send(c, w, msg)) && Admissible(Send(c, w, msg))
  {
    hide Verdict;
    var w' := Send(c, w, msg);
    assert forall k :: 0 <= k < |w.requests| ==> w'.requests[k] == w.requests[k];
  }

  lemma JudgedKeepsTalk(w: World, m: Message, rest: seq<byte>)
    requires Gated(w) && Admissible(w) && w.client.Awaiting? && |w.replies| == |w.requests| - 1
    ensures Gated(Judged(w, m, rest)) && Admissible(Judged(w, m, rest))
  {
    hide Verdict;
    var w' := Judged(w, m, rest);
    assert forall k :: 0 <= k < |w.replies| ==> w'.replies[k] == w.replies[k];
  }

  lemma GreetedMore(replies: seq<Message>, m: Message)
    ensures Greeted(replies + [m]) <==> Greeted(replies) || LetsIn(m)
  {
    var more := replies + [m];
    assert more[|replies|] == m;
    assert forall j :: 0 <= j < |replies| ==> more[j] == replies[j];
  }

  /** The server's answer to a request keeps the gate as its replies describe it. */
  lemma RepliedKeepsTalk(c: Coder<Message>, w: World, env: Env)
    requires Gated(w) && Admissible(w) && w.server.Listening? && |w.answers| == |w.requests| - 1
    requires Fits(c, Handle(w.manager, w.conn, w.requests[|w.answers|], env).2.message)
    ensures var (m', conn', action) := Handle(w.manager, w.conn, w.requests[|w.answers|], env);
            var w' := Replied(c, w, m', conn', action.message, if action.ToBridge? then Bridging([]) else w.server);
            Gated(w') && Admissible(w')
  {
    hide Handle, Greeted, Verdict;
    var n := |w.answers|;
    var msg := w.requests[n];
    var (m', conn', action) := Handle(w.manager, w.conn, msg, env);
    var answers := w.answers + [action.message];
    GreetedMore(w.answers, action.message);
    FlagFollowsReplies(w.manager, w.conn, msg, env);
    assert answers[..n] == w.answers;
    assert forall k :: 0 <= k < n ==> answers[k] == w.answers[k] && answers[..k] == w.answers[..k];
    if msg.Bridge? {
      if Locked(w.conn) {
        LockedBridgeRefused(w.manager, w.conn, msg, env);
      } else {
        OpenBridgeDecided(w.manager, w.conn, msg, env);
      }
    }
  }

  lemma ServeKeepsTalk(c: Coder<Message>, w: World, env: Env)
    requires Lawful(c) && Inv(c, w) && Gated(w) && Admissible(w) && CanMove(c, w, ServerServes(env))
    ensures Gated(ServeRequest(c, w, env)) && Admissible(ServeRequest(c, w, env))
  {
    hide Handle, Inv, Gated, Admissible, Fits;
    WholeRequest(c, w);
    var msg := w.requests[|w.answers|];
    var (m', conn', action) := Handle(w.manager, w.conn, msg, env);
    NothingDroppedYet(c, w);
    AfterServingForm(c, w, m', conn', action);
    if Fits(c, action.message) {
      RepliedKeepsTalk(c, w, env);
    } else {
      UnansweredKeepsTalk(w, msg, env);
    }
  }

  lemma NothingDroppedYet(c: Coder<Message>, w: World)
    requires Inv(c, w)
    ensures w.dropped == []
  {
  }

  lemma UnansweredKeepsTalk(w: World, msg: Message, env: Env)
    requires Gated(w) && Admissible(w)
    ensures var (m', conn', action) := Handle(w.manager, w.conn, msg, env);
            Gated(Unanswered(w, m', conn')) && Admissible(Unanswered(w, m', conn'))
  {
    hide Handle, Greeted, Verdict;
    FlagFollowsReplies(w.manager, w.conn, msg, env);
  }

  lemma TakeKeepsTalk(c: Coder<Message>, w: World)
    requires Lawful(c) && Inv(c, w) && Gated(w) && Admissible(w)
    requires w.client.Awaiting? && !DecodeStep(c, w.clientBuf).Incomplete?
    ensures |w.requests| > 0 && Gated(TakeReply(c, w)) && Admissible(TakeReply(c, w))
  {
    hide Inv, Gated, Admissible;
    WholeReply(c, w);
    JudgedKeepsTalk(w, w.answers[|w.answers| - 1], []);
  }

  /** The whole invariant of a run. */
  ghost predicate Sound(c: Coder<Message>, w: World) {
    Inv(c, w) && Gated(w) && Admissible(w)
  }

  lemma MoveKeepsTalk(c: Coder<Message>, w: World, move: Move)
    requires Lawful(c) && Sound(c, w) && CanMove(c, w, move)
    requires w.client.Awaiting? ==> |w.requests| > 0
    ensures Gated(Perform(c, w, move)) && Admissible(Perform(c, w, move))
  {
    hide Inv, Gated, Admissible, TakeReply, ServeRequest, Handle, DecodeStep;
    match move
    case ClientSends(msg) => SendKeepsTalk(c, w, msg);
    case ClientTakes => TakeKeepsTalk(c, w);
    case ServerServes(env) => ServeKeepsTalk(c, w, env);
    case _ => SilenceKeepsTalk(w, Perform(c, w, move));
  }

  lemma MoveKeepsSound(c: Coder<Message>, w: World, move: Move)
    requires Lawful(c) && Sound(c, w) && CanMove(c, w, move)
    ensures w.client.Awaiting? ==> |w.requests| > 0
    ensures Sound(c, Perform(c, w, move))
  {
    hide Inv, Gated, Admissible, Perform, CanMove;
    MoveKeepsInv(c, w, move);
    MoveKeepsTalk(c, w, move);
  }

  // ----- Whole runs -----

  /** The moves lead from `w` to `end`. */
  ghost predicate Plays(c: Coder<Message>, w: World, moves: seq<Move>, end: World)
    decreases moves
  {
    if moves == [] then w == end
    else
      && CanMove(c, w, moves[0])
      && (w.client.Awaiting? ==> |w.requests| > 0)
      && Plays(c, Perform(c, w, moves[0]), moves[1..], end)
  }

  lemma {:induction false} PlaysKeepSound(c: Coder<Message>, w: World, moves: seq<Move>, end: World)
    requires Lawful(c) && Sound(c, w) && Plays(c, w, moves, end)
    ensures Sound(c, end)
    decreases moves
  {
    hide Sound, CanMove;
    if moves != [] {
      MoveKeepsSound(c, w, moves[0]);
      PlaysKeepSound(c, Perform(c, w, moves[0]), moves[1..], end);
    }
  }

  /** What an observer of both ends may rely on.  No read buffer ever held a byte when it was thrown
      away; the k-th reply answers the k-th request, and the client takes the replies in the order
      they were sent; a client that left did so over the last reply it took. */
  ghost predicate Faithful(w: World) {
    && w.dropped == []
    && |w.replies| <= |w.answers| <= |w.requests|
    && w.replies == w.answers[..|w.replies|]
    && (forall k :: 0 <= k < |w.answers| ==> Answers(w.requests[k], w.answers[k]))
    && (w.client.GaveUp? ==> |w.replies| == |w.requests| > 0 && LeftWith(w, w.client.error))
  }

  /** Reply `k` is one that the client method for its request does not expect. */
  predicate Surprising(w: World, k: nat)
    requires k < |w.replies| <= |w.requests|
  {
    Verdict(w.who, w.requests[k], w.replies[k]) == Some(UnexpectedMessage)
  }

  /** The switch to raw bytes loses nothing and takes nothing: the server's import request is the 40
      bytes of the accepted device, the client's reply the 320 bytes the server wrote, and what
      follows on either channel is what the other side's kernel wrote. */
  ghost predicate SwitchExact(w: World) {
    && (w.server.HandedOff? ==>
          && BridgeAnswered(w) && w.clientBuf == [] && w.serverBuf == []
          && w.server.request == ImportRequest(w.answers[|w.answers| - 1].acceptance.busid)
          && |w.server.request| == REQUEST_SIZE && w.toServer == w.clientKernel)
    && (w.client.Mounted? ==>
          && w.server.HandedOff?
          && w.client.reply == ImportReply(w.record) && |w.client.reply| == REPLY_SIZE
          && w.toClient == w.serverKernel)
    && (w.clientKernel != [] ==> w.client.Mounted?)
    && (w.serverKernel != [] ==> w.server.HandedOff?)
  }

  lemma InvIsFaithful(c: Coder<Message>, w: World)
    requires Inv(c, w)
    ensures Faithful(w)
  {
    hide Verdict;
  }

  lemma InvSwitchesExactly(c: Coder<Message>, w: World)
    requires Inv(c, w)
    ensures SwitchExact(w)
  {
    hide Verdict;
  }

  lemma FramesFlow(c: Coder<Message>, w: World)
    requires Lawful(c) && Inv(c, w) && !w.server.Stopped? && w.client.Awaiting?
    ensures DecodeStep(c, w.clientBuf).Incomplete? && w.toClient == [] ==>
              w.server.Listening? && (DecodeStep(c, w.serverBuf).Incomplete? ==> w.toServer != [])
  {
    hide Verdict;
    if |w.answers| < |w.requests| {
      PartOfFrame(c, w.requests[|w.requests| - 1], w.serverBuf, w.toServer);
    } else {
      PartOfFrame(c, w.answers[|w.answers| - 1], w.clientBuf, w.toClient);
    }
  }

  lemma RawBytesFlow(c: Coder<Message>, w: World)
    requires Inv(c, w) && !w.server.Stopped? && w.client.Requested?
    ensures Wanted(w.client.got) > 0
    ensures w.toClient == [] ==> w.server.Bridging? && w.toServer != [] && |w.server.got| < REQUEST_SIZE
  {
    hide Verdict;
    assert |ImportRequest(w.client.busid)| == REQUEST_SIZE && |ImportReply(w.record)| == REPLY_SIZE;
    if w.server.Bridging? {
      assert |w.server.got + w.toServer| == REQUEST_SIZE;
    } else {
      assert |w.client.got + w.toClient| >= REPLY_SIZE;
    }
  }

  /** A waiting client never waits for bytes that will not come: it has something to read or to
      take, or the server has. */
  lemma NeverStuckInFrames(c: Coder<Message>, w: World)
    requires Lawful(c) && Inv(c, w) && !w.server.Stopped? && w.client.Awaiting?
    ensures
      || CanMove(c, w, ClientReads(1)) || CanMove(c, w, ClientTakes) || CanMove(c, w, ServerReads(1))
      || (w.server.Listening? && !DecodeStep(c, w.serverBuf).Incomplete?)
  {
    hide Inv, Handle, DecodeStep;
    FramesFlow(c, w);
  }

  lemma NeverStuckInRawBytes(c: Coder<Message>, w: World)
    requires Inv(c, w) && !w.server.Stopped? && w.client.Requested?
    ensures CanMove(c, w, ClientImports(1)) || CanMove(c, w, ServerImports(1))
  {
    hide Inv, Handle, DecodeStep;
    RawBytesFlow(c, w);
  }

  /** A reply is unexpected exactly if its request asked for a bridge, the server has a key, and no
      earlier reply let the client in. */
  lemma SurprisingIff(c: Coder<Message>, w: World, k: nat)
    requires Sound(c, w) && k < |w.replies|
    ensures Surprising(w, k) <==> w.requests[k].Bridge? && w.conn.key.Some? && !Greeted(w.replies[..k])
  {
    hide Verdict, FramePhase, RawPhase, Greeted;
    assert w.replies[..k] == w.answers[..k] && w.replies[k] == w.answers[k];
    UnexpectedReplyIff(w.who, w.requests[k], w.replies[k]);
  }

  lemma AcceptedHelloLetsIn(who: Caller, request: Message, reply: Message)
    requires request.Hello? && Verdict(who, request, reply).None?
    ensures LetsIn(reply)
  {
  }

  /** A client that says hello first, as both clients do, is never surprised: it sends a bridge
      request only if its hello was accepted. */
  lemma HelloFirstNeverSurprised(c: Coder<Message>, w: World, k: nat)
    requires Sound(c, w) && k < |w.replies| && w.requests[0].Hello?
    ensures !Surprising(w, k)
  {
    hide Verdict, FramePhase, RawPhase;
    SurprisingIff(c, w, k);
    if k > 0 {
      assert Verdict(w.who, w.requests[0], w.replies[0]).None?;
      AcceptedHelloLetsIn(w.who, w.requests[0], w.replies[0]);
      assert LetsIn(w.replies[..k][0]);
    }
  }

  lemma StartIsSound(c: Coder<Message>, who: Caller, conn: Conn, m: Manager, r: DeviceRecord)
    requires !conn.authenticated
    ensures Sound(c, Start(who, conn, m, r))
  {
  }

  /** In every run of a turn-taking client against the server, whatever the reads return, whatever
      the other connections do to the shared manager. */
  lemma ExchangeIsExact(c: Coder<Message>, who: Caller, conn: Conn, m: Manager, r: DeviceRecord,
                        moves: seq<Move>, w: World)
    requires Lawful(c) && !conn.authenticated && Plays(c, Start(who, conn, m, r), moves, w)
    ensures Faithful(w) && SwitchExact(w)
    ensures forall k :: 0 <= k < |w.replies| ==>
              (Surprising(w, k) <==> w.requests[k].Bridge? && w.conn.key.Some? && !Greeted(w.replies[..k]))
    ensures |w.replies| > 0 && w.requests[0].Hello? ==> forall k :: 0 <= k < |w.replies| ==> !Surprising(w, k)
  {
    hide Plays, Surprising, Greeted, SwitchExact, Verdict;
    StartIsSound(c, who, conn, m, r);
    PlaysKeepSound(c, Start(who, conn, m, r), moves, w);
    InvIsFaithful(c, w);
    InvSwitchesExactly(c, w);
    forall k | 0 <= k < |w.replies|
      ensures Surprising(w, k) <==> w.requests[k].Bridge? && w.conn.key.Some? && !Greeted(w.replies[..k])
      ensures w.requests[0].Hello? ==> !Surprising(w, k)
    {
      SurprisingIff(c, w, k);
      if w.requests[0].Hello? {
        HelloFirstNeverSurprised(c, w, k);
      }
    }
  }

  /** Asking for a bridge before a hello does surprise: a keyed server answers with an error, which
      the mount client's method does not expect. */
  lemma BridgeBeforeHelloSurprises(m: Manager, conn: Conn, d: DeviceId, env: Env, who: Caller)
    requires conn.key.Some? && !conn.authenticated
    ensures Verdict(who, Bridge(d), Handle(m, conn, Bridge(d), env).2.message) == Some(UnexpectedMessage)
  {
    UnexpectedIff(m, conn, Bridge(d), env, who);
  }
}
