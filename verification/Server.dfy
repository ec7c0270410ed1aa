/**
 The whole server: one manager behind a lock and any number of connections.  A step is one
 locked region, or what one connection does on its own afterwards; steps of different
 connections interleave freely.
 */
module Server {
  import opened Bytes
  import opened Messages
  import opened Handshake
  import opened Devices
  import opened Ledgers
  import opened Connections
  import Conservation
  import Transfer
  import Usb

  datatype Phase =
    | Reading                      // waiting for a message
    | Working(pending: Pending)    // past the locked region, reply not yet sent
    | Leaving                      // loop ended, cleanup not yet run
    | Cleared                      // sessions detached, table not yet emptied
    | Bridged(target: DeviceId)    // stream handed to the bridge, sessions kept
    | Closed

  datatype Peer = Peer(conn: Conn, phase: Phase)

  datatype System = System(key: Option<Key>, manager: Manager, peers: map<nat, Peer>)

  datatype Step =
    | Accept(id: nat, addr: Address)
    | Receive(id: nat, msg: Message, env: Env)
    | Respond(id: nat, io: Transfer.Io, sendable: bool)
    | Disconnect(id: nat)
    | Sweep(id: nat, order: seq<Visit>)
    | Forget(id: nat)
    | Plug(d: DeviceId, p: nat, device: Usb.UsbDevice)
    | Unplug(d: DeviceId)

  predicate At(sys: System, id: nat, phase: Phase) {
    id in sys.peers && sys.peers[id].phase == phase
  }

  ghost predicate Enabled(sys: System, step: Step) {
    match step
    case Accept(id, _) => id !in sys.peers
    case Receive(id, _, _) => At(sys, id, Reading)
    case Respond(id, _, _) => id in sys.peers && sys.peers[id].phase.Working?
    case Disconnect(id) => At(sys, id, Reading)
    case Sweep(id, order) => At(sys, id, Leaving) && Enumerates(order, sys.peers[id].conn.sessions.Keys)
    case Forget(id) => At(sys, id, Cleared)
    case Plug(_, p, _) => p !in sys.manager.bus.devices
    case Unplug(_) => true
  }

  function Put(sys: System, m: Manager, id: nat, peer: Peer): System {
    sys.(manager := m, peers := sys.peers[id := peer])
  }

  /** Where the loop goes after a reply. */
  function NextPhase(action: Action, sendable: bool): Phase {
    if !sendable then Leaving
    else match action
         case Reply(_) => Reading
         case ToBridge(_, target) => Bridged(target)
  }

  /** One locked region: the request is handled up to the release of the lock. */
  function Received(sys: System, id: nat, msg: Message, env: Env): System
    requires id in sys.peers
  {
    var (m', p) := Begin(sys.manager, sys.peers[id].conn, msg, env);
    Put(sys, m', id, Peer(sys.peers[id].conn, Working(p)))
  }

  /** What the connection does on its own afterwards. */
  function Responded(sys: System, id: nat, io: Transfer.Io, sendable: bool): System
    requires id in sys.peers && sys.peers[id].phase.Working?
  {
    var (c', action) := Finish(sys.peers[id].conn, sys.peers[id].phase.pending, io);
    Put(sys, sys.manager, id, Peer(c', NextPhase(action, sendable)))
  }

  function Apply(sys: System, step: Step): System
    requires Enabled(sys, step)
  {
    hide Begin, Finish, Enumerates;
    match step
    case Accept(id, addr) => Put(sys, sys.manager, id, Peer(Conn(sys.key, false, map[], addr), Reading))
    case Receive(id, msg, env) => Received(sys, id, msg, env)
    case Respond(id, io, sendable) => Responded(sys, id, io, sendable)
    case Disconnect(id) => Put(sys, sys.manager, id, sys.peers[id].(phase := Leaving))
    case Sweep(id, order) =>
      Put(sys, sys.manager.DetachAllForSessions(order), id, sys.peers[id].(phase := Cleared))
    case Forget(id) =>
      Put(sys, sys.manager, id, Peer(sys.peers[id].conn.(sessions := map[]), Closed))
    case Plug(d, p, device) => sys.(manager := Conservation.Apply(sys.manager, Conservation.PlugOp(d, p, device)))
    case Unplug(d) => sys.(manager := Conservation.Apply(sys.manager, Conservation.UnplugOp(d)))
  }

  /** The sessions a connection answers for, counting the change its pending reply will make. */
  function Held(peer: Peer): Sessions {
    match peer.phase
    case Working(Attached(d, s)) => peer.conn.sessions[s := d]
    case Working(Detached(s, _)) => peer.conn.sessions - {s}
    case Cleared => map[]
    case _ => peer.conn.sessions
  }

  function View(sys: System): Ledger {
    Ledger(sys.manager.sessionToDevice, sys.manager.attachments.Keys, sys.manager.nextSessionId,
           map id | id in sys.peers :: Held(sys.peers[id]))
  }

  lemma ViewAfterPut(sys: System, m: Manager, id: nat, peer: Peer)
    ensures View(Put(sys, m, id, peer)).held == View(sys).held[id := Held(peer)]
  {
  }

  // ----- What the locked region of a request does to the tables -----

  /** The tables and the handles of the attachments are the same. */
  ghost predicate Quiet(m: Manager, m': Manager) {
    && m'.sessionToDevice == m.sessionToDevice && m'.nextSessionId == m.nextSessionId
    && m'.attachments.Keys == m.attachments.Keys
    && forall d :: d in m.attachments ==> m'.attachments[d].handle == m.attachments[d].handle
  }

  predicate Attaches(m: Manager, c: Conn, msg: Message, env: Env) {
    msg.Attach? && !Locked(c) && m.Attach(msg.deviceId, c.peer, env.attach).1.Ok?
  }

  predicate Detaches(c: Conn, msg: Message) {
    msg.Detach? && !Locked(c) && msg.detach.sessionId in c.sessions
  }

  /** Nothing in the local table depends on this pending reply. */
  predicate Neutral(p: Pending) {
    p.Answered? || p.Admitted? || p.Transferring?
  }

  lemma SettingsAreQuiet(m: Manager, c: Conn, req: SettingRequest, fault: Option<Usb.UsbCode>, env: ConfigureEnv)
    ensures Quiet(m, BeginClaim(m, c, req, fault).0)
    ensures Quiet(m, BeginRelease(m, c, req, fault).0)
    ensures Quiet(m, BeginConfigure(m, c, req, env).0)
  {
    hide Manager.Claim, Manager.Release, Manager.Configure, Quiet;
    NothingIsQuiet(m);
    ClaimIsQuiet(m, req.deviceId, req.number, fault);
    ReleaseIsQuiet(m, req.deviceId, req.number, fault);
    ConfigureIsQuiet(m, req.deviceId, env);
  }

  lemma NothingIsQuiet(m: Manager)
    ensures Quiet(m, m)
  {
  }

  lemma ClaimIsQuiet(m: Manager, d: DeviceId, i: byte, fault: Option<Usb.UsbCode>)
    ensures Quiet(m, m.Claim(d, i, fault).0)
  {
  }

  lemma ReleaseIsQuiet(m: Manager, d: DeviceId, i: byte, fault: Option<Usb.UsbCode>)
    ensures Quiet(m, m.Release(d, i, fault).0)
  {
  }

  lemma ConfigureIsQuiet(m: Manager, d: DeviceId, env: ConfigureEnv)
    ensures Quiet(m, m.Configure(d, env).0)
  {
  }

  /** The facts the gate has checked, under the lock. */
  ghost predicate GateChecked(m: Manager, c: Conn, p: Pending)
    requires p.Transferring?
  {
    && p.session in c.sessions
    && p.session in m.sessionToDevice && m.sessionToDevice[p.session] == p.device
    && p.device in m.attachments && m.attachments[p.device].handle == p.handle
  }

  /** What `Begin` may have done to the tables, and the reply it may have left pending. */
  ghost predicate Began(m: Manager, c: Conn, msg: Message, env: Env, m': Manager, p: Pending) {
    if Attaches(m, c, msg, env) then
      m' == m.Attach(msg.deviceId, c.peer, env.attach).0 && p == Attached(msg.deviceId, m.nextSessionId)
    else if Detaches(c, msg) then
      m' == m.Detach(msg.detach.deviceId, msg.detach.sessionId, env.detach).0
      && p.Detached? && p.session == msg.detach.sessionId
    else
      && Quiet(m, m') && Neutral(p)
      && (p.Transferring? ==> GateChecked(m, c, p))
      && (p.Admitted? ==> msg.Hello? && Admits(c.key, msg.hello))
  }

  lemma RefusedAttachDoesNothing(m: Manager, d: DeviceId, addr: Address, env: AttachEnv)
    requires m.Attach(d, addr, env).1.Err?
    ensures m.Attach(d, addr, env).0 == m
  {
    hide DetachDrivers;
  }

  lemma AttachGivesNext(m: Manager, d: DeviceId, addr: Address, env: AttachEnv)
    requires m.Attach(d, addr, env).1.Ok?
    ensures m.Attach(d, addr, env).1.value == m.nextSessionId
  {
    hide DetachDrivers;
  }

  lemma AttachBegins(m: Manager, c: Conn, d: DeviceId, env: AttachEnv)
    ensures var (m', p) := BeginAttach(m, c, d, env);
            && m' == m.Attach(d, c.peer, env).0
            && if m.Attach(d, c.peer, env).1.Ok? then p == Attached(d, m.nextSessionId)
               else p.Answered? && Quiet(m, m')
  {
    hide Manager.Attach, Quiet;
    NothingIsQuiet(m);
    if m.Attach(d, c.peer, env).1.Ok? {
      AttachGivesNext(m, d, c.peer, env);
    } else {
      RefusedAttachDoesNothing(m, d, c.peer, env);
    }
  }

  lemma DetachBegins(m: Manager, c: Conn, req: DetachRequest, env: DetachEnv)
    ensures var (m', p) := BeginDetach(m, c, req, env);
            if req.sessionId in c.sessions then
              m' == m.Detach(req.deviceId, req.sessionId, env).0 && p.Detached? && p.session == req.sessionId
            else m' == m && p.Answered?
  {
    hide Manager.Detach;
  }

  lemma TransferBegins(m: Manager, c: Conn, s: u64, d: DeviceId, msg: Message, listed: bool)
    ensures var p := BeginTransfer(m, c, s, d, msg, listed);
            p.Answered? || (p.Transferring? && GateChecked(m, c, p))
  {
  }

  lemma OpenRequestsBegin(m: Manager, c: Conn, msg: Message, env: Env)
    requires !Locked(c) && !msg.Hello? && !msg.Ping?
    ensures var (m', p) := BeginOpen(m, c, msg, env);
            Began(m, c, msg, env, m', p)
  {
    hide Manager.Attach, Manager.Detach, BeginAttach, BeginDetach, BeginTransfer, BeginClaim, BeginRelease,
         BeginConfigure, ListReply, DescriptorsReply, BridgeAction, Quiet, GateChecked;
    NothingIsQuiet(m);
    if msg.ClaimInterface? || msg.ReleaseInterface? || msg.SetConfiguration? {
      SettingsAreQuiet(m, c, msg.setting, env.fault, env.configure);
    } else if msg.Attach? {
      AttachBegins(m, c, msg.deviceId, env.attach);
    } else if msg.Detach? {
      DetachBegins(m, c, msg.detach, env.detach);
    } else if msg.ControlTransfer? {
      TransferBegins(m, c, msg.control.sessionId, msg.control.deviceId, msg, env.listed);
    } else if msg.BulkTransfer? || msg.InterruptTransfer? {
      TransferBegins(m, c, msg.transfer.sessionId, msg.transfer.deviceId, msg, env.listed);
    }
  }

  /** Only an attach that succeeds and a detach of an own session change the tables. */
  lemma OnlyAttachAndDetachChangeTables(m: Manager, c: Conn, msg: Message, env: Env)
    ensures var (m', p) := Begin(m, c, msg, env);
            Began(m, c, msg, env, m', p)
  {
    hide BeginOpen, Manager.Attach, Manager.Detach, GateChecked, ServerReply, Admits, Quiet, Unauthenticated;
    NothingIsQuiet(m);
    if !Locked(c) && !msg.Hello? && !msg.Ping? {
      OpenRequestsBegin(m, c, msg, env);
    }
  }
}
