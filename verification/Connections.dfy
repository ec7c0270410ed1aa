/**
 One server connection.  A request is handled in two halves: `Begin` is everything up to the
 release of the manager's lock (local checks and the one locked region), `Finish` what the
 connection does afterwards on its own: its session table, its flag, the reply.  Other
 connections can run between the two.
 */
module Connections {
  import opened Bytes
  import opened Bincode
  import opened Messages
  import opened Texts
  import opened Handshake
  import opened Devices
  import Transfer
  import Usb

  datatype Conn = Conn(key: Option<Key>, authenticated: bool, sessions: map<u64, DeviceId>, peer: Address)

  datatype Action = Reply(message: Message) | ToBridge(message: Message, target: DeviceId)

  /** What is left to do once the lock is released. */
  datatype Pending =
    | Answered(action: Action)
    | Admitted(hello: HelloReply)
    | Attached(device: DeviceId, session: u64)
    | Detached(session: u64, farewell: DetachReply)
    | Transferring(session: u64, device: DeviceId, handle: nat, request: Message)

  /** Everything a request meets in the outside world. */
  datatype Env = Env(
    attach: AttachEnv,
    detach: DetachEnv,
    fault: Option<Usb.UsbCode>,
    configure: ConfigureEnv,
    listed: bool,
    listing: Result<Vec<DeviceInfo>, Failure>,
    tree: Result<DeviceDescriptorTree, Failure>,
    port: Option<byte>,
    io: Transfer.Io)

  function ErrorMessage(code: ErrorCode, text: Text): Message {
    Error(ErrorReply(code, text))
  }

  predicate Locked(c: Conn) {
    c.key.Some? && !c.authenticated
  }

  function TransferRefused(s: u64, d: DeviceId, text: Text): Message {
    TransferResult(Transfer.Failed(s, d, text))
  }

  function SettingOutcome(r: Result<(), Failure>): SettingReply {
    match r
    case Ok(_) => SettingReply(true, None)
    case Err(f) => SettingReply(false, Some(FailureText(f)))
  }

  const INVALID_SESSION: SettingReply := SettingReply(false, Some(TextOf("Invalid session")))

  /** The busid the bridge client is told: bus, address and port, in decimal. */
  function Busid(d: DeviceId, port: byte): (t: Text)
    ensures |t| < 32
  {
    DecimalLength(d.busNumber, 2);
    DecimalLength(d.address, 2);
    DecimalLength(port, 2);
    TextOf(Decimal(d.busNumber) + "-" + Decimal(d.address) + "-" + Decimal(port))
  }

  function BridgeAction(d: DeviceId, port: Option<byte>): Action {
    match port
    case None =>
      Reply(BridgeRejected(TextOf("Device not found at bus=" + Decimal(d.busNumber) + " addr=" + Decimal(d.address))))
    case Some(p) =>
      ToBridge(BridgeAccepted(BridgeAcceptance(d, Busid(d, p), 0, 0, 0, 0, 0, 0, 0, 0, 0, 0, 0)), d)
  }

  /** The gate of a transfer: the session is this connection's, it is the device's, and the
      device is still the one that was attached. */
  function Gate(m: Manager, c: Conn, s: u64, d: DeviceId, listed: bool): Result<nat, Text> {
    if s !in c.sessions then Err(TextOf("Invalid session"))
    else match m.ValidateSession(s, d)
         case Err(f) => Err(FailureText(f))
         case Ok(_) =>
           match m.GetHandle(d, listed)
           case Err(f) => Err(FailureText(f))
           case Ok(h) => Ok(h)
  }

  function BeginTransfer(m: Manager, c: Conn, s: u64, d: DeviceId, msg: Message, listed: bool): Pending {
    match Gate(m, c, s, d, listed)
    case Err(text) => Answered(Reply(TransferRefused(s, d, text)))
    case Ok(h) => Transferring(s, d, h, msg)
  }

  function BeginDetach(m: Manager, c: Conn, req: DetachRequest, env: DetachEnv): (Manager, Pending) {
    if req.sessionId !in c.sessions then
      (m, Answered(Reply(DetachResult(DetachReply(req.deviceId, false,
                                                  Some(TextOf("Session does not belong to this connection")))))))
    else
      var (m', r) := m.Detach(req.deviceId, req.sessionId, env);
      (m', Detached(req.sessionId,
                    match r
                    case Ok(_) => DetachReply(req.deviceId, true, None)
                    case Err(f) => DetachReply(req.deviceId, false, Some(FailureText(f)))))
  }

  function BeginAttach(m: Manager, c: Conn, d: DeviceId, env: AttachEnv): (Manager, Pending) {
    var (m', r) := m.Attach(d, c.peer, env);
    (m', match r
         case Ok(s) => Attached(d, s)
         case Err(f) => Answered(Reply(AttachResult(AttachReply(d, false, Some(FailureText(f)), None)))))
  }

  function ListReply(listing: Result<Vec<DeviceInfo>, Failure>): Message {
    match listing
    case Ok(devices) => DeviceList(devices)
    case Err(f) => ErrorMessage(UsbError, FailureText(f))
  }

  function DescriptorsReply(d: DeviceId, tree: Result<DeviceDescriptorTree, Failure>): Message {
    match tree
    case Ok(t) => DescriptorData(DescriptorReply(d, t))
    case Err(f) => ErrorMessage(DeviceNotFound, FailureText(f))
  }

  function BeginClaim(m: Manager, c: Conn, req: SettingRequest, fault: Option<Usb.UsbCode>): (Manager, SettingReply) {
    if req.sessionId !in c.sessions then (m, INVALID_SESSION)
    else
      var (m', r) := m.Claim(req.deviceId, req.number, fault);
      (m', SettingOutcome(r))
  }

  function BeginRelease(m: Manager, c: Conn, req: SettingRequest, fault: Option<Usb.UsbCode>): (Manager, SettingReply) {
    if req.sessionId !in c.sessions then (m, INVALID_SESSION)
    else
      var (m', r) := m.Release(req.deviceId, req.number, fault);
      (m', SettingOutcome(r))
  }

  function BeginConfigure(m: Manager, c: Conn, req: SettingRequest, env: ConfigureEnv): (Manager, SettingReply) {
    if req.sessionId !in c.sessions then (m, INVALID_SESSION)
    else
      var (m', r) := m.Configure(req.deviceId, env);
      (m', SettingOutcome(r))
  }

  function Unexpected(): Message {
    ErrorMessage(InternalError, TextOf("Unexpected message type"))
  }

  function Unauthenticated(): Message {
    ErrorMessage(AuthenticationFailed, TextOf("Not authenticated. Send Hello first."))
  }

  function Begin(m: Manager, c: Conn, msg: Message, env: Env): (Manager, Pending) {
    if msg.Hello? then
      (m, if Admits(c.key, msg.hello) then Admitted(ServerReply(c.key, msg.hello))
          else Answered(Reply(HelloResponse(ServerReply(c.key, msg.hello)))))
    else if msg.Ping? then (m, Answered(Reply(Pong)))
    else if Locked(c) then
      (m, Answered(Reply(Unauthenticated())))
    else BeginOpen(m, c, msg, env)
  }

  /** Requests of a connection that may make them. */
  function BeginOpen(m: Manager, c: Conn, msg: Message, env: Env): (Manager, Pending) {
    if msg.ListDevices? then (m, Answered(Reply(ListReply(env.listing))))
    else if msg.GetDescriptors? then (m, Answered(Reply(DescriptorsReply(msg.deviceId, env.tree))))
    else if msg.Attach? then BeginAttach(m, c, msg.deviceId, env.attach)
    else if msg.Detach? then BeginDetach(m, c, msg.detach, env.detach)
    else if msg.ControlTransfer? then
      (m, BeginTransfer(m, c, msg.control.sessionId, msg.control.deviceId, msg, env.listed))
    else if msg.BulkTransfer? || msg.InterruptTransfer? then
      (m, BeginTransfer(m, c, msg.transfer.sessionId, msg.transfer.deviceId, msg, env.listed))
    else if msg.ClaimInterface? then
      var (m', r) := BeginClaim(m, c, msg.setting, env.fault);
      (m', Answered(Reply(ClaimInterfaceResult(r))))
    else if msg.ReleaseInterface? then
      var (m', r) := BeginRelease(m, c, msg.setting, env.fault);
      (m', Answered(Reply(ReleaseInterfaceResult(r))))
    else if msg.SetConfiguration? then
      var (m', r) := BeginConfigure(m, c, msg.setting, env.configure);
      (m', Answered(Reply(SetConfigurationResult(r))))
    else if msg.Bridge? then (m, Answered(BridgeAction(msg.deviceId, env.port)))
    else (m, Answered(Reply(Unexpected())))
  }

  /** The reply to a transfer that passed its gate. */
  function Executed(request: Message, io: Transfer.Io): Message {
    if request.ControlTransfer? then TransferResult(Transfer.ControlReply(request.control, io))
    else if request.BulkTransfer? || request.InterruptTransfer? then
      TransferResult(Transfer.EndpointReply(request.transfer, io))
    else Unexpected()
  }

  function Finish(c: Conn, p: Pending, io: Transfer.Io): (Conn, Action) {
    match p
    case Answered(action) => (c, action)
    case Admitted(reply) => (c.(authenticated := true), Reply(HelloResponse(reply)))
    case Attached(d, s) =>
      (c.(sessions := c.sessions[s := d]), Reply(AttachResult(AttachReply(d, true, None, Some(s)))))
    case Detached(s, reply) => (c.(sessions := c.sessions - {s}), Reply(DetachResult(reply)))
    case Transferring(_, _, _, request) => (c, Reply(Executed(request, io)))
  }

  lemma AnswerFinishes(c: Conn, reply: Message, io: Transfer.Io)
    ensures Finish(c, Answered(Reply(reply)), io) == (c, Reply(reply))
  {
  }

  lemma TransferFinishes(c: Conn, s: u64, d: DeviceId, h: nat, request: Message, io: Transfer.Io)
    ensures Finish(c, Transferring(s, d, h, request), io) == (c, Reply(Executed(request, io)))
  {
    hide Executed;
  }

  lemma ControlExecuted(req: ControlRequest, io: Transfer.Io)
    ensures Executed(ControlTransfer(req), io) == TransferResult(Transfer.ControlReply(req, io))
  {
    hide Transfer.ControlReply, Transfer.EndpointReply, Unexpected;
  }

  lemma EndpointExecuted(req: EndpointRequest, io: Transfer.Io)
    ensures Executed(BulkTransfer(req), io) == TransferResult(Transfer.EndpointReply(req, io))
    ensures Executed(InterruptTransfer(req), io) == TransferResult(Transfer.EndpointReply(req, io))
  {
    hide Transfer.ControlReply, Transfer.EndpointReply, Unexpected;
  }

  /** A request handled with nothing in between. */
  function Handle(m: Manager, c: Conn, msg: Message, env: Env): (Manager, Conn, Action) {
    var (m', p) := Begin(m, c, msg, env);
    var (c', action) := Finish(c, p, env.io);
    (m', c', action)
  }

  // ----- The message loop -----

  /** A decoded message with what handling it meets, and whether its reply can be sent. */
  datatype Incoming = Incoming(message: Message, env: Env, sendable: bool)

  /** How the loop ends: the state, the replies sent, and the bridge target if it hands off. */
  datatype Ended = Ended(manager: Manager, conn: Conn, replies: seq<Message>, handoff: Option<DeviceId>)

  function Serve(m: Manager, c: Conn, input: seq<Incoming>): Ended
    decreases |input|
  {
    if |input| == 0 then Ended(m, c, [], None)
    else
      var (m', c', action) := Handle(m, c, input[0].message, input[0].env);
      if !input[0].sendable then Ended(m', c', [], None)
      else match action
           case ToBridge(reply, target) => Ended(m', c', [reply], Some(target))
           case Reply(reply) =>
             var rest := Serve(m', c', input[1..]);
             rest.(replies := [reply] + rest.replies)
  }

  /** `order` visits each of the sessions once. */
  ghost predicate Enumerates(order: seq<Visit>, sessions: set<u64>) {
    && (forall k :: 0 <= k < |order| ==> order[k].session in sessions)
    && (forall s :: s in sessions ==> exists k :: 0 <= k < |order| && order[k].session == s)
    && (forall j, k :: 0 <= j < k < |order| ==> order[j].session != order[k].session)
  }

  /** The outcome of the USB calls depends on the session they are made for, not on its place. */
  ghost predicate Follows(order: seq<Visit>, env: u64 -> DetachEnv) {
    forall v :: v in order ==> v.env == env(v.session)
  }

  // ----- The connection as an object -----

  class Connection {
    const deviceManager: DeviceManager
    const peerAddr: Address
    const sharedKey: Option<Key>
    var authenticated: bool
    var sessions: map<u64, DeviceId>

    ghost function Value(): Conn
      reads this
    {
      Conn(sharedKey, authenticated, sessions, peerAddr)
    }

    constructor (manager: DeviceManager, addr: Address, key: Option<Key>)
      ensures deviceManager == manager && Value() == Conn(key, false, map[], addr)
    {
      deviceManager, peerAddr, sharedKey, authenticated, sessions := manager, addr, key, false, map[];
    }

    method HandleHello(req: HelloRequest) returns (reply: Message)
      modifies this
      ensures reply == HelloResponse(ServerReply(sharedKey, req))
      ensures Value() == old(Value()).(authenticated := old(authenticated) || Admits(sharedKey, req))
    {
      if req.protocolVersion != PROTOCOL_VERSION {
        return HelloResponse(Refusal(VersionText(req.protocolVersion)));
      }
      if sharedKey.Some? {
        if req.authProof != ClientProof(sharedKey.value, req.authNonce) {
          return HelloResponse(Refusal(TextOf("Authentication failed")));
        }
        authenticated := true;
        reply := HelloResponse(HelloReply(PROTOCOL_VERSION, TextOf("wolfusb"), true,
                                          ServerProof(sharedKey.value, req.authNonce), None));
      } else {
        authenticated := true;
        reply := HelloResponse(HelloReply(PROTOCOL_VERSION, TextOf("wolfusb"), true, [], None));
      }
    }

    method HandleAttach(d: DeviceId, env: AttachEnv) returns (reply: Message)
      modifies this, deviceManager
      ensures var (m', p) := BeginAttach(old(deviceManager.Value()), old(Value()), d, env);
              && deviceManager.Value() == m'
              && forall io :: (Value(), Reply(reply)) == Finish(old(Value()), p, io)
    {
      hide Manager.Attach, FailureText;
      var r := deviceManager.Attach(d, peerAddr, env);
      match r
      case Ok(s) =>
        sessions := sessions[s := d];
        reply := AttachResult(AttachReply(d, true, None, Some(s)));
      case Err(f) =>
        reply := AttachResult(AttachReply(d, false, Some(FailureText(f)), None));
    }

    /** The local session goes even when the manager reports an error. */
    method HandleDetach(req: DetachRequest, env: DetachEnv) returns (reply: Message)
      modifies this, deviceManager
      ensures var (m', p) := BeginDetach(old(deviceManager.Value()), old(Value()), req, env);
              && deviceManager.Value() == m'
              && forall io :: (Value(), Reply(reply)) == Finish(old(Value()), p, io)
    {
      hide Manager.Detach, FailureText;
      if req.sessionId !in sessions {
        return DetachResult(DetachReply(req.deviceId, false,
                                        Some(TextOf("Session does not belong to this connection"))));
      }
      var r := deviceManager.Detach(req.deviceId, req.sessionId, env);
      sessions := sessions - {req.sessionId};
      match r
      case Ok(_) => reply := DetachResult(DetachReply(req.deviceId, true, None));
      case Err(f) => reply := DetachResult(DetachReply(req.deviceId, false, Some(FailureText(f))));
    }

    method PassGate(s: u64, d: DeviceId, listed: bool) returns (r: Result<nat, Text>)
      ensures r == Gate(deviceManager.Value(), Value(), s, d, listed)
    {
      if s !in sessions {
        return Err(TextOf("Invalid session"));
      }
      var valid := deviceManager.ValidateSession(s, d);
      if valid.Err? {
        return Err(FailureText(valid.error));
      }
      var handle := deviceManager.GetHandle(d, listed);
      if handle.Err? {
        return Err(FailureText(handle.error));
      }
      r := Ok(handle.value);
    }

    method HandleControlTransfer(req: ControlRequest, listed: bool, io: Transfer.Io) returns (reply: Message)
      ensures (Value(), Reply(reply)) ==
              Finish(Value(), BeginTransfer(deviceManager.Value(), Value(), req.sessionId, req.deviceId,
                                            ControlTransfer(req), listed), io)
    {
      hide Gate, Finish, Executed, TransferRefused, Transfer.ControlReply, Transfer.EndpointReply;
      var gate := PassGate(req.sessionId, req.deviceId, listed);
      match gate
      case Err(text) =>
        reply := TransferRefused(req.sessionId, req.deviceId, text);
        AnswerFinishes(Value(), reply, io);
      case Ok(_) =>
        var result := Transfer.ExecuteControlTransfer(_ => io, req);
        TransferFinishes(Value(), req.sessionId, req.deviceId, gate.value, ControlTransfer(req), io);
        ControlExecuted(req, io);
        reply := TransferResult(result);
    }

    /** Bulk and interrupt transfers take the same steps. */
    method HandleEndpointTransfer(req: EndpointRequest, interrupt: bool, listed: bool, io: Transfer.Io)
      returns (reply: Message)
      ensures (Value(), Reply(reply)) ==
              Finish(Value(), BeginTransfer(deviceManager.Value(), Value(), req.sessionId, req.deviceId,
                                            if interrupt then InterruptTransfer(req) else BulkTransfer(req),
                                            listed), io)
    {
      hide Gate, Finish, Executed, TransferRefused, Transfer.ControlReply, Transfer.EndpointReply;
      var gate := PassGate(req.sessionId, req.deviceId, listed);
      match gate
      case Err(text) =>
        reply := TransferRefused(req.sessionId, req.deviceId, text);
        AnswerFinishes(Value(), reply, io);
      case Ok(_) =>
        var result := Transfer.ExecuteEndpointTransfer(_ => io, req, interrupt);
        ghost var request := if interrupt then InterruptTransfer(req) else BulkTransfer(req);
        TransferFinishes(Value(), req.sessionId, req.deviceId, gate.value, request, io);
        EndpointExecuted(req, io);
        reply := TransferResult(result);
    }

    method HandleClaimInterface(req: SettingRequest, fault: Option<Usb.UsbCode>) returns (reply: SettingReply)
      modifies deviceManager
      ensures (deviceManager.Value(), reply) == BeginClaim(old(deviceManager.Value()), Value(), req, fault)
    {
      if req.sessionId !in sessions {
        return INVALID_SESSION;
      }
      var r := deviceManager.ClaimInterface(req.deviceId, req.number, fault);
      reply := SettingOutcome(r);
    }

    method HandleReleaseInterface(req: SettingRequest, fault: Option<Usb.UsbCode>) returns (reply: SettingReply)
      modifies deviceManager
      ensures (deviceManager.Value(), reply) == BeginRelease(old(deviceManager.Value()), Value(), req, fault)
    {
      if req.sessionId !in sessions {
        return INVALID_SESSION;
      }
      var r := deviceManager.ReleaseInterface(req.deviceId, req.number, fault);
      reply := SettingOutcome(r);
    }

    method HandleSetConfiguration(req: SettingRequest, env: ConfigureEnv) returns (reply: SettingReply)
      modifies deviceManager
      ensures (deviceManager.Value(), reply) == BeginConfigure(old(deviceManager.Value()), Value(), req, env)
    {
      if req.sessionId !in sessions {
        return INVALID_SESSION;
      }
      var r := deviceManager.SetConfiguration(req.deviceId, env);
      reply := SettingOutcome(r);
    }

    method HandleMessage(msg: Message, env: Env) returns (action: Action)
      modifies this, deviceManager
      ensures (deviceManager.Value(), Value(), action) == Handle(old(deviceManager.Value()), old(Value()), msg, env)
    {
      hide BeginOpen, ServerReply, Admits;
      if msg.Hello? {
        var r := HandleHello(msg.hello);
        action := Reply(r);
      } else if msg.Ping? {
        action := Reply(Pong);
      } else if sharedKey.Some? && !authenticated {
        action := Reply(Unauthenticated());
      } else {
        action := HandleOpen(msg, env);
      }
    }

    method HandleOpen(msg: Message, env: Env) returns (action: Action)
      modifies this, deviceManager
      ensures var (m', p) := BeginOpen(old(deviceManager.Value()), old(Value()), msg, env);
              deviceManager.Value() == m' && (Value(), action) == Finish(old(Value()), p, env.io)
    {
      hide BeginAttach, BeginDetach, BeginTransfer, BeginClaim, BeginRelease, BeginConfigure,
           ListReply, DescriptorsReply, BridgeAction;
      if msg.ListDevices? {
        action := Reply(ListReply(env.listing));
      } else if msg.GetDescriptors? {
        action := Reply(DescriptorsReply(msg.deviceId, env.tree));
      } else if msg.Attach? {
        var r := HandleAttach(msg.deviceId, env.attach);
        action := Reply(r);
      } else if msg.Detach? {
        var r := HandleDetach(msg.detach, env.detach);
        action := Reply(r);
      } else if msg.ControlTransfer? {
        var r := HandleControlTransfer(msg.control, env.listed, env.io);
        action := Reply(r);
      } else if msg.BulkTransfer? || msg.InterruptTransfer? {
        var r := HandleEndpointTransfer(msg.transfer, msg.InterruptTransfer?, env.listed, env.io);
        action := Reply(r);
      } else if msg.ClaimInterface? {
        var r := HandleClaimInterface(msg.setting, env.fault);
        action := Reply(ClaimInterfaceResult(r));
      } else if msg.ReleaseInterface? {
        var r := HandleReleaseInterface(msg.setting, env.fault);
        action := Reply(ReleaseInterfaceResult(r));
      } else if msg.SetConfiguration? {
        var r := HandleSetConfiguration(msg.setting, env.configure);
        action := Reply(SetConfigurationResult(r));
      } else if msg.Bridge? {
        action := BridgeAction(msg.deviceId, env.port);
      } else {
        action := Reply(Unexpected());
      }
    }

    /** The hash map hands its keys out in some order; the calls for each meet `env`. */
    method SessionIds(env: u64 -> DetachEnv) returns (order: seq<Visit>)
      ensures Enumerates(order, sessions.Keys) && Follows(order, env)
    {
      order := [];
      var todo := sessions.Keys;
      while todo != {}
        invariant todo <= sessions.Keys
        invariant Enumerates(order, sessions.Keys - todo) && Follows(order, env)
        decreases todo
      {
        ghost var before, visited := order, sessions.Keys - todo;
        var s :| s in todo;
        order := order + [Visit(s, env(s))];
        todo := todo - {s};
        forall t | t in sessions.Keys - todo
          ensures exists k :: 0 <= k < |order| && order[k].session == t
        {
          if t == s {
            assert order[|before|].session == s;
          } else {
            assert t in visited;
            var k :| 0 <= k < |before| && before[k].session == t;
            assert order[k].session == t;
          }
        }
      }
      assert sessions.Keys - todo == sessions.Keys;
    }

    method Cleanup(env: u64 -> DetachEnv) returns (ghost order: seq<Visit>)
      modifies this, deviceManager
      ensures Enumerates(order, old(sessions).Keys) && Follows(order, env)
      ensures deviceManager.Value() == old(deviceManager.Value()).DetachAllForSessions(order)
      ensures Value() == old(Value()).(sessions := map[])
    {
      if |sessions| == 0 {
        order := [];
        return;
      }
      var visits := SessionIds(env);
      order := visits;
      deviceManager.DetachAllForSessions(visits);
      sessions := map[];
    }

    /** Handles messages until the input ends, a reply cannot be sent, or a bridge takes over;
        only in the last case are the sessions kept. */
    method Run(input: seq<Incoming>, env: u64 -> DetachEnv)
      returns (replies: seq<Message>, handoff: Option<DeviceId>, ghost order: seq<Visit>)
      modifies this, deviceManager
      ensures var end := Serve(old(deviceManager.Value()), old(Value()), input);
              && replies == end.replies && handoff == end.handoff
              && if handoff.Some? then deviceManager.Value() == end.manager && Value() == end.conn
                 else && Enumerates(order, end.conn.sessions.Keys) && Follows(order, env)
                      && deviceManager.Value() == end.manager.DetachAllForSessions(order)
                      && Value() == end.conn.(sessions := map[])
    {
      hide Handle, Manager.DetachAllForSessions;
      ghost var m0, c0 := deviceManager.Value(), Value();
      replies, handoff, order := [], None, [];
      var next := 0;
      var open := true;
      while open && next < |input|
        invariant 0 <= next <= |input|
        invariant open ==> handoff.None?
        invariant var rest := if open then Serve(deviceManager.Value(), Value(), input[next..])
                              else Ended(deviceManager.Value(), Value(), [], handoff);
                  Serve(m0, c0, input) == rest.(replies := replies + rest.replies)
      {
        ghost var rest := Serve(deviceManager.Value(), Value(), input[next..]);
        ghost var sent := replies;
        assert input[next..][1..] == input[next + 1..];
        var action := HandleMessage(input[next].message, input[next].env);
        if !input[next].sendable {
          open := false;
        } else {
          replies := replies + [action.message];
          match action
          case Reply(_) =>
            ghost var later := Serve(deviceManager.Value(), Value(), input[next + 1..]);
            assert sent + ([action.message] + later.replies) == replies + later.replies;
          case ToBridge(_, target) =>
            handoff := Some(target);
            open := false;
        }
        next := next + 1;
      }
      assert !open || input[next..] == [];
      assert replies + [] == replies;
      if handoff.None? {
        order := Cleanup(env);
      }
    }
  }
}
