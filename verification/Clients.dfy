/**
 The two clients.  Both take turns on a framed stream: one request out, one reply in.  The
 functions say what a client makes of a reply; the lemmas that this server never sends one that
 the client does not expect.
 */
module Clients {
  import opened Bytes
  import opened Bincode
  import opened Messages
  import opened Texts
  import opened Handshake
  import opened Devices
  import opened Connections
  import Codec
  import Requests

  datatype ClientError =
    | StreamFailed(error: Codec.CodecError)
    | ConnectionClosed
    | ProtocolError(text: Text)
    | AuthenticationRefused(text: Text)
    | VersionMismatch(remote: u32)
    | UnexpectedMessage

  // ----- What a client makes of a reply -----

  function OrElse(t: Option<Text>, default: string): Text
    requires |default| < U64_LIMIT
  {
    if t.Some? then t.value else TextOf(default)
  }

  function DeviceListing(m: Message): Result<Vec<DeviceInfo>, ClientError> {
    if m.DeviceList? then Ok(m.devices)
    else if m.Error? then Err(ProtocolError(m.error.message))
    else Err(UnexpectedMessage)
  }

  function Descriptors(m: Message): Result<DeviceDescriptorTree, ClientError> {
    if m.DescriptorData? then Ok(m.descriptorReply.descriptors)
    else if m.Error? then Err(ProtocolError(m.error.message))
    else Err(UnexpectedMessage)
  }

  function AttachedId(m: Message): Result<u64, ClientError> {
    if m.AttachResult? && m.attachReply.success then
      match m.attachReply.sessionId
      case Some(s) => Ok(s)
      case None => Err(ProtocolError(TextOf("Server returned success but no session_id")))
    else if m.AttachResult? then Err(ProtocolError(OrElse(m.attachReply.errorMessage, "Attach failed")))
    else if m.Error? then Err(ProtocolError(m.error.message))
    else Err(UnexpectedMessage)
  }

  function DetachDone(m: Message): Result<(), ClientError> {
    if m.DetachResult? && m.detachReply.success then Ok(())
    else if m.DetachResult? then Err(ProtocolError(OrElse(m.detachReply.errorMessage, "Detach failed")))
    else if m.Error? then Err(ProtocolError(m.error.message))
    else Err(UnexpectedMessage)
  }

  function Transferred(m: Message): Result<TransferReply, ClientError> {
    if m.TransferResult? then Ok(m.transferReply)
    else if m.Error? then Err(ProtocolError(m.error.message))
    else Err(UnexpectedMessage)
  }

  /** The reply to a claim, release or set-configuration, if it is the right one of the three. */
  function SettingDone(m: Message, right: bool, failure: string): Result<(), ClientError>
    requires right ==> m.ClaimInterfaceResult? || m.ReleaseInterfaceResult? || m.SetConfigurationResult?
    requires |failure| < U64_LIMIT
  {
    if right then
      if m.settingReply.success then Ok(()) else Err(ProtocolError(OrElse(m.settingReply.errorMessage, failure)))
    else if m.Error? then Err(ProtocolError(m.error.message))
    else Err(UnexpectedMessage)
  }

  function ClaimDone(m: Message): Result<(), ClientError> {
    SettingDone(m, m.ClaimInterfaceResult?, "Claim interface failed")
  }

  function ReleaseDone(m: Message): Result<(), ClientError> {
    SettingDone(m, m.ReleaseInterfaceResult?, "Release interface failed")
  }

  function ConfigureDone(m: Message): Result<(), ClientError> {
    SettingDone(m, m.SetConfigurationResult?, "Set configuration failed")
  }

  /** The session client's view of the reply to its Hello. */
  function Connected(key: Option<Key>, nonce: Nonce, m: Message): Result<Text, ClientError> {
    if !m.HelloResponse? then Err(UnexpectedMessage)
    else
      var r := m.helloReply;
      if !r.authAccepted then Err(AuthenticationRefused(OrElse(r.errorMessage, "Unknown auth error")))
      else if key.Some? && r.authChallengeResponse != ServerProof(key.value, nonce) then
        Err(AuthenticationRefused(TextOf("Server HMAC verification failed")))
      else if r.protocolVersion != PROTOCOL_VERSION then Err(VersionMismatch(r.protocolVersion))
      else Ok(r.serverName)
  }

  /** The mount client's view of the same reply. */
  function Admitted(key: Option<Key>, nonce: Nonce, m: Message): Result<(), ClientError> {
    if !m.HelloResponse? then Err(UnexpectedMessage)
    else
      var r := m.helloReply;
      if !r.authAccepted then Err(AuthenticationRefused(OrElse(r.errorMessage, "")))
      else if key.Some? && r.authChallengeResponse != ServerProof(key.value, nonce) then
        Err(AuthenticationRefused(TextOf("Server HMAC verification failed")))
      else Ok(())
  }

  function BridgeBusid(m: Message): Result<Text, ClientError> {
    if m.BridgeAccepted? then Ok(m.acceptance.busid)
    else if m.BridgeRejected? then Err(ProtocolError(m.reason))
    else Err(UnexpectedMessage)
  }

  /** One of the two clients: the mount client does not look at the version in a hello's reply. */
  datatype Caller = Caller(key: Option<Key>, mount: bool)

  function ErrorOf<T>(r: Result<T, ClientError>): Option<ClientError> {
    if r.Ok? then None else Some(r.error)
  }

  /** The error, if any, with which the client method for this request ends on this reply.  The
      clients send no other requests. */
  function Verdict(who: Caller, request: Message, reply: Message): Option<ClientError> {
    if request.Hello? then
      if who.mount then ErrorOf(Admitted(who.key, request.hello.authNonce, reply))
      else ErrorOf(Connected(who.key, request.hello.authNonce, reply))
    else if request.ListDevices? then ErrorOf(DeviceListing(reply))
    else if request.GetDescriptors? then ErrorOf(Descriptors(reply))
    else if request.Attach? then ErrorOf(AttachedId(reply))
    else if request.Detach? then ErrorOf(DetachDone(reply))
    else if request.ControlTransfer? || request.BulkTransfer? || request.InterruptTransfer? then
      ErrorOf(Transferred(reply))
    else if request.ClaimInterface? then ErrorOf(ClaimDone(reply))
    else if request.ReleaseInterface? then ErrorOf(ReleaseDone(reply))
    else if request.SetConfiguration? then ErrorOf(ConfigureDone(reply))
    else if request.Bridge? then ErrorOf(BridgeBusid(reply))
    else None
  }

  // ----- The clients as objects -----

  type Arrival = Result<Message, Codec.CodecError>

  /** A framed stream as a value: what was sent, what is still to come, and whether sending works. */
  datatype Stream = Stream(sent: seq<Message>, incoming: seq<Arrival>, sendError: Option<Codec.CodecError>) {
    /** The stream after a turn with this request. */
    function After(request: Message): Stream {
      if sendError.Some? then this
      else Stream(sent + [request], if incoming == [] then [] else incoming[1..], sendError)
    }

    /** The reply of the next turn. */
    function Reply(): Result<Message, ClientError> {
      if sendError.Some? then Err(StreamFailed(sendError.value))
      else if |incoming| == 0 then Err(ConnectionClosed)
      else match incoming[0]
           case Ok(m) => Ok(m)
           case Err(e) => Err(StreamFailed(e))
    }
  }

  class Framed {
    var sent: seq<Message>
    var incoming: seq<Arrival>
    var sendError: Option<Codec.CodecError>

    ghost function Value(): Stream
      reads this
    {
      Stream(sent, incoming, sendError)
    }

    constructor (input: seq<Arrival>)
      ensures sent == [] && incoming == input && sendError.None?
    {
      sent, incoming, sendError := [], input, None;
    }

    method Send(m: Message) returns (r: Result<(), Codec.CodecError>)
      modifies this`sent
      ensures if sendError.Some? then r == Err(sendError.value) && sent == old(sent)
              else r == Ok(()) && sent == old(sent) + [m]
    {
      if sendError.Some? {
        return Err(sendError.value);
      }
      sent := sent + [m];
      r := Ok(());
    }

    method Next() returns (r: Option<Arrival>)
      modifies this`incoming
      ensures if old(incoming) == [] then r == None && incoming == []
              else r == Some(old(incoming)[0]) && incoming == old(incoming)[1..]
    {
      if |incoming| == 0 {
        return None;
      }
      r := Some(incoming[0]);
      incoming := incoming[1..];
    }
  }

  function Then<A, B>(r: Result<A, ClientError>, f: A -> Result<B, ClientError>): Result<B, ClientError> {
    match r
    case Ok(a) => f(a)
    case Err(e) => Err(e)
  }

  /** One request out, one reply in. */
  method SendAndRecv(framed: Framed, m: Message) returns (r: Result<Message, ClientError>)
    modifies framed
    ensures r == old(framed.Value()).Reply() && framed.Value() == old(framed.Value()).After(m)
  {
    var sending := framed.Send(m);
    if sending.Err? {
      return Err(StreamFailed(sending.error));
    }
    var next := framed.Next();
    match next
    case None => r := Err(ConnectionClosed);
    case Some(Ok(reply)) => r := Ok(reply);
    case Some(Err(e)) => r := Err(StreamFailed(e));
  }

  class Session {
    const framed: Framed

    constructor (f: Framed)
      ensures framed == f
    {
      framed := f;
    }

    method Connect(name: Text, key: Option<Key>, nonce: Nonce) returns (r: Result<Text, ClientError>)
      modifies framed
      ensures r == Then(old(framed.Value()).Reply(), m => Connected(key, nonce, m))
      ensures framed.Value() == old(framed.Value()).After(Hello(ClientHello(key, name, nonce)))
    {
      var proof: Vec<byte> := [];
      if key.Some? {
        proof := ClientProof(key.value, nonce);
      }
      var response := SendAndRecv(framed, Hello(HelloRequest(PROTOCOL_VERSION, name, nonce, proof)));
      if response.Err? {
        return Err(response.error);
      }
      if !response.value.HelloResponse? {
        return Err(UnexpectedMessage);
      }
      var hello := response.value.helloReply;
      if !hello.authAccepted {
        return Err(AuthenticationRefused(OrElse(hello.errorMessage, "Unknown auth error")));
      }
      if key.Some? {
        if hello.authChallengeResponse != ServerProof(key.value, nonce) {
          return Err(AuthenticationRefused(TextOf("Server HMAC verification failed")));
        }
      }
      if hello.protocolVersion != PROTOCOL_VERSION {
        return Err(VersionMismatch(hello.protocolVersion));
      }
      r := Ok(hello.serverName);
    }

    method ListDevices() returns (r: Result<Vec<DeviceInfo>, ClientError>)
      modifies framed
      ensures r == Then(old(framed.Value()).Reply(), m => DeviceListing(m))
      ensures framed.Value() == old(framed.Value()).After(Message.ListDevices)
    {
      var response := SendAndRecv(framed, Message.ListDevices);
      match response
      case Err(e) => r := Err(e);
      case Ok(m) =>
        if m.DeviceList? {
          r := Ok(m.devices);
        } else if m.Error? {
          r := Err(ProtocolError(m.error.message));
        } else {
          r := Err(UnexpectedMessage);
        }
    }

    method GetDescriptors(d: DeviceId) returns (r: Result<DeviceDescriptorTree, ClientError>)
      modifies framed
      ensures r == Then(old(framed.Value()).Reply(), m => Descriptors(m))
      ensures framed.Value() == old(framed.Value()).After(Message.GetDescriptors(d))
    {
      var response := SendAndRecv(framed, Message.GetDescriptors(d));
      match response
      case Err(e) => r := Err(e);
      case Ok(m) =>
        if m.DescriptorData? {
          r := Ok(m.descriptorReply.descriptors);
        } else if m.Error? {
          r := Err(ProtocolError(m.error.message));
        } else {
          r := Err(UnexpectedMessage);
        }
    }

    method Attach(d: DeviceId) returns (r: Result<u64, ClientError>)
      modifies framed
      ensures r == Then(old(framed.Value()).Reply(), m => AttachedId(m))
      ensures framed.Value() == old(framed.Value()).After(Message.Attach(d))
    {
      var response := SendAndRecv(framed, Message.Attach(d));
      match response
      case Err(e) => r := Err(e);
      case Ok(m) =>
        if m.AttachResult? {
          if !m.attachReply.success {
            r := Err(ProtocolError(OrElse(m.attachReply.errorMessage, "Attach failed")));
          } else if m.attachReply.sessionId.Some? {
            r := Ok(m.attachReply.sessionId.value);
          } else {
            r := Err(ProtocolError(TextOf("Server returned success but no session_id")));
          }
        } else if m.Error? {
          r := Err(ProtocolError(m.error.message));
        } else {
          r := Err(UnexpectedMessage);
        }
    }

    method Detach(d: DeviceId, s: u64) returns (r: Result<(), ClientError>)
      modifies framed
      ensures r == Then(old(framed.Value()).Reply(), m => DetachDone(m))
      ensures framed.Value() == old(framed.Value()).After(Message.Detach(DetachRequest(d, s)))
    {
      var response := SendAndRecv(framed, Message.Detach(DetachRequest(d, s)));
      match response
      case Err(e) => r := Err(e);
      case Ok(m) =>
        if m.DetachResult? {
          if m.detachReply.success {
            r := Ok(());
          } else {
            r := Err(ProtocolError(OrElse(m.detachReply.errorMessage, "Detach failed")));
          }
        } else if m.Error? {
          r := Err(ProtocolError(m.error.message));
        } else {
          r := Err(UnexpectedMessage);
        }
    }

    /** Control, bulk and interrupt transfers differ only in the request. */
    method RequestTransfer(request: Message) returns (r: Result<TransferReply, ClientError>)
      requires request.ControlTransfer? || request.BulkTransfer? || request.InterruptTransfer?
      modifies framed
      ensures r == Then(old(framed.Value()).Reply(), m => Transferred(m))
      ensures framed.Value() == old(framed.Value()).After(request)
    {
      var response := SendAndRecv(framed, request);
      match response
      case Err(e) => r := Err(e);
      case Ok(m) =>
        if m.TransferResult? {
          r := Ok(m.transferReply);
        } else if m.Error? {
          r := Err(ProtocolError(m.error.message));
        } else {
          r := Err(UnexpectedMessage);
        }
    }

    method ClaimInterface(s: u64, d: DeviceId, i: byte) returns (r: Result<(), ClientError>)
      modifies framed
      ensures r == Then(old(framed.Value()).Reply(), m => ClaimDone(m))
      ensures framed.Value() == old(framed.Value()).After(Message.ClaimInterface(SettingRequest(s, d, i)))
    {
      var response := SendAndRecv(framed, Message.ClaimInterface(SettingRequest(s, d, i)));
      match response
      case Err(e) => r := Err(e);
      case Ok(m) =>
        if m.ClaimInterfaceResult? {
          if m.settingReply.success {
            r := Ok(());
          } else {
            r := Err(ProtocolError(OrElse(m.settingReply.errorMessage, "Claim interface failed")));
          }
        } else if m.Error? {
          r := Err(ProtocolError(m.error.message));
        } else {
          r := Err(UnexpectedMessage);
        }
    }

    method ReleaseInterface(s: u64, d: DeviceId, i: byte) returns (r: Result<(), ClientError>)
      modifies framed
      ensures r == Then(old(framed.Value()).Reply(), m => ReleaseDone(m))
      ensures framed.Value() == old(framed.Value()).After(Message.ReleaseInterface(SettingRequest(s, d, i)))
    {
      var response := SendAndRecv(framed, Message.ReleaseInterface(SettingRequest(s, d, i)));
      match response
      case Err(e) => r := Err(e);
      case Ok(m) =>
        if m.ReleaseInterfaceResult? {
          if m.settingReply.success {
            r := Ok(());
          } else {
            r := Err(ProtocolError(OrElse(m.settingReply.errorMessage, "Release interface failed")));
          }
        } else if m.Error? {
          r := Err(ProtocolError(m.error.message));
        } else {
          r := Err(UnexpectedMessage);
        }
    }

    method SetConfiguration(s: u64, d: DeviceId, configuration: byte) returns (r: Result<(), ClientError>)
      modifies framed
      ensures r == Then(old(framed.Value()).Reply(), m => ConfigureDone(m))
      ensures framed.Value() == old(framed.Value()).After(Message.SetConfiguration(SettingRequest(s, d, configuration)))
    {
      var response := SendAndRecv(framed, Message.SetConfiguration(SettingRequest(s, d, configuration)));
      match response
      case Err(e) => r := Err(e);
      case Ok(m) =>
        if m.SetConfigurationResult? {
          if m.settingReply.success {
            r := Ok(());
          } else {
            r := Err(ProtocolError(OrElse(m.settingReply.errorMessage, "Set configuration failed")));
          }
        } else if m.Error? {
          r := Err(ProtocolError(m.error.message));
        } else {
          r := Err(UnexpectedMessage);
        }
    }
  }

  /** The mount client's hello. */
  method DoHello(framed: Framed, key: Option<Key>, nonce: Nonce) returns (r: Result<(), ClientError>)
    modifies framed
    ensures r == Then(old(framed.Value()).Reply(), m => Admitted(key, nonce, m))
    ensures framed.Value() == old(framed.Value()).After(Hello(ClientHello(key, MOUNT_NAME, nonce)))
  {
    var proof: Vec<byte> := [];
    if key.Some? {
      proof := ClientProof(key.value, nonce);
    }
    var response := SendAndRecv(framed, Hello(HelloRequest(PROTOCOL_VERSION, MOUNT_NAME, nonce, proof)));
    if response.Err? {
      return Err(response.error);
    }
    if !response.value.HelloResponse? {
      return Err(UnexpectedMessage);
    }
    var hello := response.value.helloReply;
    if !hello.authAccepted {
      return Err(AuthenticationRefused(OrElse(hello.errorMessage, "")));
    }
    if key.Some? {
      if hello.authChallengeResponse != ServerProof(key.value, nonce) {
        return Err(AuthenticationRefused(TextOf("Server HMAC verification failed")));
      }
    }
    r := Ok(());
  }

  /** Asks for the bridge and returns the busid the server wants in the import request. */
  method SendBridge(framed: Framed, d: DeviceId) returns (r: Result<Text, ClientError>)
    modifies framed
    ensures r == Then(old(framed.Value()).Reply(), m => BridgeBusid(m))
    ensures framed.Value() == old(framed.Value()).After(Message.Bridge(d))
  {
    var response := SendAndRecv(framed, Message.Bridge(d));
    match response
    case Err(e) => r := Err(e);
    case Ok(m) =>
      if m.BridgeAccepted? {
        r := Ok(m.acceptance.busid);
      } else if m.BridgeRejected? {
        r := Err(ProtocolError(m.reason));
      } else {
        r := Err(UnexpectedMessage);
      }
  }

  const MOUNT_NAME: Text := TextOf("wolfusb-mount")

  /** What the mount client makes of the replies to its two requests. */
  function Mounting(key: Option<Key>, nonce: Nonce, hello: Message, bridge: Message): Result<Text, ClientError> {
    Then(Admitted(key, nonce, hello), _ => BridgeBusid(bridge))
  }

  /** The two framed turns of a mount: a refused hello ends it before the bridge request. */
  method Mount(framed: Framed, key: Option<Key>, nonce: Nonce, d: DeviceId) returns (r: Result<Text, ClientError>)
    modifies framed
    ensures var hello := old(framed.Value()).After(Hello(ClientHello(key, MOUNT_NAME, nonce)));
            var admitted := Then(old(framed.Value()).Reply(), m => Admitted(key, nonce, m));
            && r == Then(admitted, _ => Then(hello.Reply(), m => BridgeBusid(m)))
            && framed.Value() == if admitted.Ok? then hello.After(Message.Bridge(d)) else hello
  {
    var admitted := DoHello(framed, key, nonce);
    if admitted.Err? {
      return Err(admitted.error);
    }
    r := SendBridge(framed, d);
  }

  // ----- Conformance of the server's replies -----

  /** The reply is of the kind that the client method for this request handles. */
  predicate Answers(request: Message, reply: Message) {
    if request.Hello? then reply.HelloResponse?
    else if request.Ping? then reply.Pong?
    else
      || reply.Error?
      || (request.ListDevices? && reply.DeviceList?)
      || (request.GetDescriptors? && reply.DescriptorData? && reply.descriptorReply.deviceId == request.deviceId)
      || (request.Attach? && reply.AttachResult? && reply.attachReply.deviceId == request.deviceId
          && (reply.attachReply.success <==> reply.attachReply.sessionId.Some?))
      || (request.Detach? && reply.DetachResult? && reply.detachReply.deviceId == request.detach.deviceId)
      || ((request.ControlTransfer? || request.BulkTransfer? || request.InterruptTransfer?) && reply.TransferResult?)
      || (request.ClaimInterface? && reply.ClaimInterfaceResult?)
      || (request.ReleaseInterface? && reply.ReleaseInterfaceResult?)
      || (request.SetConfiguration? && reply.SetConfigurationResult?)
      || (request.Bridge? && (reply.BridgeRejected?
                              || (reply.BridgeAccepted? && reply.acceptance.deviceId == request.deviceId
                                  && |reply.acceptance.busid| < 32)))
  }

  /** The reply answers the request; exactly an accepted bridge request hands the stream over. */
  predicate Proper(request: Message, action: Action) {
    && Answers(request, action.message)
    && (action.ToBridge? <==> action.message.BridgeAccepted?)
    && (action.ToBridge? ==> request.Bridge? && action.target == request.deviceId)
  }

  lemma AttachAnswered(m: Manager, c: Conn, d: DeviceId, env: Env)
    ensures Proper(Message.Attach(d), Finish(c, BeginAttach(m, c, d, env.attach).1, env.io).1)
  {
    hide Manager.Attach, FailureText;
  }

  lemma DetachAnswered(m: Manager, c: Conn, req: DetachRequest, env: Env)
    ensures Proper(Message.Detach(req), Finish(c, BeginDetach(m, c, req, env.detach).1, env.io).1)
  {
    hide Manager.Detach, FailureText;
  }

  lemma TransferBegins(m: Manager, c: Conn, s: u64, d: DeviceId, msg: Message, listed: bool)
    ensures var p := BeginTransfer(m, c, s, d, msg, listed);
            if p.Transferring? then p.request == msg
            else p.Answered? && p.action.Reply? && p.action.message.TransferResult?
  {
    hide Gate;
  }

  lemma TransferExecuted(msg: Message, io: Connections.Transfer.Io)
    requires msg.ControlTransfer? || msg.BulkTransfer? || msg.InterruptTransfer?
    ensures Executed(msg, io).TransferResult?
  {
    hide Connections.Transfer.ControlReply, Connections.Transfer.EndpointReply;
  }

  lemma TransferAnswered(m: Manager, c: Conn, s: u64, d: DeviceId, msg: Message, env: Env)
    requires msg.ControlTransfer? || msg.BulkTransfer? || msg.InterruptTransfer?
    ensures Proper(msg, Finish(c, BeginTransfer(m, c, s, d, msg, env.listed), env.io).1)
  {
    hide BeginTransfer, Executed;
    TransferBegins(m, c, s, d, msg, env.listed);
    TransferExecuted(msg, env.io);
  }

  lemma QueryAnswered(m: Manager, c: Conn, msg: Message, env: Env)
    requires msg.ListDevices? || msg.GetDescriptors? || msg.Bridge?
    ensures Proper(msg, Finish(c, BeginOpen(m, c, msg, env).1, env.io).1)
  {
    hide BeginAttach, BeginDetach, BeginTransfer, BeginClaim, BeginRelease, BeginConfigure, FailureText, Decimal;
  }

  lemma SettingAnswered(m: Manager, c: Conn, msg: Message, env: Env)
    requires msg.ClaimInterface? || msg.ReleaseInterface? || msg.SetConfiguration?
    ensures Proper(msg, Finish(c, BeginOpen(m, c, msg, env).1, env.io).1)
  {
    hide BeginAttach, BeginDetach, BeginTransfer, BeginClaim, BeginRelease, BeginConfigure;
    hide ListReply, DescriptorsReply, BridgeAction, Unexpected;
  }

  lemma StrayAnswered(m: Manager, c: Conn, msg: Message, env: Env)
    requires BeginOpen(m, c, msg, env).1 == Answered(Reply(Unexpected())) && !msg.Hello? && !msg.Ping?
    ensures Proper(msg, Finish(c, BeginOpen(m, c, msg, env).1, env.io).1)
  {
    hide BeginOpen;
  }

  lemma OpenRequestsAnswered(m: Manager, c: Conn, msg: Message, env: Env)
    requires !msg.Hello? && !msg.Ping?
    ensures Proper(msg, Finish(c, BeginOpen(m, c, msg, env).1, env.io).1)
  {
    hide BeginAttach, BeginDetach, BeginTransfer, BeginClaim, BeginRelease, BeginConfigure;
    hide ListReply, DescriptorsReply, BridgeAction, Proper, Finish, Unexpected;
    if msg.Attach? {
      AttachAnswered(m, c, msg.deviceId, env);
    } else if msg.Detach? {
      DetachAnswered(m, c, msg.detach, env);
    } else if msg.ControlTransfer? {
      TransferAnswered(m, c, msg.control.sessionId, msg.control.deviceId, msg, env);
    } else if msg.BulkTransfer? || msg.InterruptTransfer? {
      TransferAnswered(m, c, msg.transfer.sessionId, msg.transfer.deviceId, msg, env);
    } else if msg.ClaimInterface? || msg.ReleaseInterface? || msg.SetConfiguration? {
      SettingAnswered(m, c, msg, env);
    } else if msg.ListDevices? || msg.GetDescriptors? || msg.Bridge? {
      QueryAnswered(m, c, msg, env);
    } else {
      StrayAnswered(m, c, msg, env);
    }
  }

  lemma EveryRequestAnswered(m: Manager, c: Conn, msg: Message, env: Env)
    ensures Proper(msg, Handle(m, c, msg, env).2)
  {
    hide BeginOpen, FailureText;
    if !msg.Hello? && !msg.Ping? {
      OpenRequestsAnswered(m, c, msg, env);
    }
  }

  /** Given a reply of this server, no client method ends in "unexpected message". */
  lemma NeverUnexpected(m: Manager, c: Conn, msg: Message, env: Env, key: Option<Key>, nonce: Nonce)
    ensures var reply := Handle(m, c, msg, env).2.message;
            && (msg.Hello? ==> Connected(key, nonce, reply) != Err(UnexpectedMessage)
                               && Admitted(key, nonce, reply) != Err(UnexpectedMessage))
            && (msg.ListDevices? ==> DeviceListing(reply) != Err(UnexpectedMessage))
            && (msg.GetDescriptors? ==> Descriptors(reply) != Err(UnexpectedMessage))
            && (msg.Attach? ==> AttachedId(reply) != Err(UnexpectedMessage))
            && (msg.Detach? ==> DetachDone(reply) != Err(UnexpectedMessage))
            && (msg.ControlTransfer? || msg.BulkTransfer? || msg.InterruptTransfer? ==>
                  Transferred(reply) != Err(UnexpectedMessage))
            && (msg.ClaimInterface? ==> ClaimDone(reply) != Err(UnexpectedMessage))
            && (msg.ReleaseInterface? ==> ReleaseDone(reply) != Err(UnexpectedMessage))
            && (msg.SetConfiguration? ==> ConfigureDone(reply) != Err(UnexpectedMessage))
            && (msg.Bridge? && !Locked(c) ==> BridgeBusid(reply) != Err(UnexpectedMessage))
  {
    hide Handle, Answers, Locked;
    UnexpectedIff(m, c, msg, env, Caller(key, false));
    UnexpectedIff(m, c, msg, env, Caller(key, true));
  }

  lemma OpenBridgeDecided(m: Manager, c: Conn, msg: Message, env: Env)
    requires msg.Bridge? && !Locked(c)
    ensures !Handle(m, c, msg, env).2.message.Error?
  {
    hide Begin, BeginOpen, Locked, Busid, Decimal;
    Requests.PassedOn(m, c, msg, env);
    Requests.BridgeOpens(m, c, msg.deviceId, env);
  }

  lemma LockedBridgeRefused(m: Manager, c: Conn, msg: Message, env: Env)
    requires msg.Bridge? && Locked(c)
    ensures Handle(m, c, msg, env).2.message.Error?
  {
    hide BeginOpen;
  }

  /** A reply of the right kind is unexpected exactly when it is an error in place of a bridge. */
  lemma UnexpectedReplyIff(who: Caller, request: Message, reply: Message)
    requires Answers(request, reply)
    ensures Verdict(who, request, reply) == Some(UnexpectedMessage) <==> request.Bridge? && reply.Error?
  {
  }

  /** This server surprises a client exactly when that asks for a bridge behind the gate. */
  lemma UnexpectedIff(m: Manager, c: Conn, msg: Message, env: Env, who: Caller)
    ensures Verdict(who, msg, Handle(m, c, msg, env).2.message) == Some(UnexpectedMessage) <==> msg.Bridge? && Locked(c)
  {
    hide Handle, Verdict, Answers;
    EveryRequestAnswered(m, c, msg, env);
    UnexpectedReplyIff(who, msg, Handle(m, c, msg, env).2.message);
    if msg.Bridge? {
      if Locked(c) {
        LockedBridgeRefused(m, c, msg, env);
      } else {
        OpenBridgeDecided(m, c, msg, env);
      }
    }
  }

  /** A reply that tells the client it is in. */
  predicate LetsIn(reply: Message) {
    reply.HelloResponse? && reply.helloReply.authAccepted
  }

  /** The connection's flag follows the hello replies it sends. */
  lemma FlagFollowsReplies(m: Manager, c: Conn, msg: Message, env: Env)
    ensures var (_, c', action) := Handle(m, c, msg, env);
            && c'.key == c.key
            && (c'.authenticated <==> c.authenticated || LetsIn(action.message))
  {
    hide BeginOpen, FailureText;
    if !msg.Hello? && !msg.Ping? {
      EveryRequestAnswered(m, c, msg, env);
      OpenKeepsFlag(m, c, msg, env);
    }
  }

  lemma OpenKeepsFlag(m: Manager, c: Conn, msg: Message, env: Env)
    ensures var c' := Finish(c, BeginOpen(m, c, msg, env).1, env.io).0;
            c'.key == c.key && c'.authenticated == c.authenticated
  {
    hide BeginOpen, Executed;
    OpenAdmitsNobody(m, c, msg, env);
  }

  lemma OpenAdmitsNobody(m: Manager, c: Conn, msg: Message, env: Env)
    ensures !BeginOpen(m, c, msg, env).1.Admitted?
  {
    hide Manager.Attach, Manager.Detach, Gate, BeginClaim, BeginRelease, BeginConfigure, ListReply,
         DescriptorsReply, BridgeAction, FailureText, Decimal;
  }

  lemma HelloAdmitsIff(m: Manager, c: Conn, key: Option<Key>, nonce: Nonce, env: Env)
    requires !c.authenticated
    ensures Admitted(key, nonce, Handle(m, c, Hello(ClientHello(key, MOUNT_NAME, nonce)), env).2.message).Ok?
            <==> KeysAgree(key, c.key, nonce)
  {
    hide BeginOpen;
    BothAuthenticatedIff(key, c.key, MOUNT_NAME, nonce);
  }

  lemma OpenBridgeAnswer(m: Manager, c: Conn, d: DeviceId, env: Env)
    requires !Locked(c)
    ensures var busid := BridgeBusid(Handle(m, c, Message.Bridge(d), env).2.message);
            (busid.Ok? <==> env.port.Some?) && (busid.Ok? ==> busid.value == Busid(d, env.port.value))
  {
    hide Begin, BeginOpen, Locked, Busid, Decimal;
    Requests.PassedOn(m, c, Message.Bridge(d), env);
    Requests.BridgeOpens(m, c, d, env);
  }

  /**
   A mount against this server gets the busid if and only if the keys agree and the device is
   found, whatever the other connections do between its two requests.
   */
  lemma MountSucceedsIff(m: Manager, c: Conn, key: Option<Key>, nonce: Nonce, env: Env,
                         m': Manager, d: DeviceId, env': Env)
    requires !c.authenticated
    ensures var (_, c', hello) := Handle(m, c, Hello(ClientHello(key, MOUNT_NAME, nonce)), env);
            var bridge := Handle(m', c', Message.Bridge(d), env').2;
            var r := Mounting(key, nonce, hello.message, bridge.message);
            && (r.Ok? <==> KeysAgree(key, c.key, nonce) && env'.port.Some?)
            && (r.Ok? ==> r.value == Busid(d, env'.port.value))
  {
    hide Handle, KeysAgree, Admitted, BridgeBusid, Locked;
    var (_, c', hello) := Handle(m, c, Hello(ClientHello(key, MOUNT_NAME, nonce)), env);
    HelloAdmitsIff(m, c, key, nonce, env);
    if Admitted(key, nonce, hello.message).Ok? {
      AdmittedMeansUnlocked(m, c, key, MOUNT_NAME, nonce, env);
      OpenBridgeAnswer(m', c', d, env');
    }
  }

  lemma AttachGivesNewId(m: Manager, c: Conn, d: DeviceId, env: Env)
    ensures var (m', p) := BeginAttach(m, c, d, env.attach);
            if p.Attached? then
              && p == Attached(d, m.nextSessionId) && m'.nextSessionId == Successor(m.nextSessionId)
              && m'.sessionToDevice == m.sessionToDevice[m.nextSessionId := d]
              && d !in m.attachments && d in m'.attachments
            else p.Answered? && AttachedId(p.action.message).Err?
  {
    hide DetachDrivers, FailureText, Decimal;
  }

  /** The id a client gets from an attach is the one the manager just allocated for that device. */
  lemma AttachReturnsNewId(m: Manager, c: Conn, d: DeviceId, env: Env, s: u64)
    requires AttachedId(Handle(m, c, Attach(d), env).2.message) == Ok(s)
    ensures var (m', c', _) := Handle(m, c, Attach(d), env);
            && s == m.nextSessionId && m'.nextSessionId == Successor(s)
            && m'.sessionToDevice == m.sessionToDevice[s := d]
            && d !in m.attachments && d in m'.attachments
            && c'.sessions == c.sessions[s := d]
  {
    hide BeginAttach, BeginOpen, FailureText, Decimal;
    Requests.AttachOpens(m, c, d, env);
    AttachGivesNewId(m, c, d, env);
  }

  /** A mount client admitted by this server is never refused for lack of a hello. */
  lemma AdmittedMeansUnlocked(m: Manager, c: Conn, key: Option<Key>, name: Text, nonce: Nonce, env: Env)
    requires Admitted(key, nonce, Handle(m, c, Hello(ClientHello(key, name, nonce)), env).2.message).Ok?
    ensures !Locked(Handle(m, c, Hello(ClientHello(key, name, nonce)), env).1)
  {
    hide BeginOpen;
  }
}
