/**
 How a connection comes to hold two sessions for one attached device: four requests of one
 client, the third of them a Detach that names the wrong device.
 */
module Sharing {
  import opened Bytes
  import opened Messages
  import opened Devices
  import opened Connections
  import opened Sweeps
  import opened Server
  import opened Safety
  import Transfer
  import Usb

  const SMOOTH := Env(AttachEnv(None, None, false, map[]), NO_FAULTS, None, ConfigureEnv(None, [], {}), true,
                      Ok([]), Err(NotAttached), None, Transfer.Io(None, [], 0))

  /** The tables of a manager whose attachments hold no claim and no kernel driver. */
  ghost predicate Has(m: Manager, bus: Usb.Bus, attached: set<DeviceId>, sessions: map<u64, DeviceId>, next: u64) {
    && m.attachments.Keys == attached && m.sessionToDevice == sessions && m.nextSessionId == next
    && m.bus.present == bus.present
    && forall d :: d in m.attachments ==>
         m.attachments[d].claimedInterfaces == [] && m.attachments[d].detachedKernelDrivers == []
  }

  lemma AttachSmoothly(m: Manager, bus: Usb.Bus, attached: set<DeviceId>, sessions: map<u64, DeviceId>, next: u64,
                       d: DeviceId, addr: Address)
    requires Has(m, bus, attached, sessions, next) && d in bus.present && d !in attached && next + 1 < U64_LIMIT
    ensures m.Attach(d, addr, SMOOTH.attach).1 == Ok(next)
    ensures Has(m.Attach(d, addr, SMOOTH.attach).0, bus, attached + {d}, sessions[next := d], next + 1)
  {
  }

  lemma DetachSmoothly(m: Manager, bus: Usb.Bus, attached: set<DeviceId>, sessions: map<u64, DeviceId>, next: u64,
                       d: DeviceId, s: u64)
    requires Has(m, bus, attached, sessions, next) && d in attached
    ensures m.Detach(d, s, NO_FAULTS).1.Ok?
    ensures Has(m.Detach(d, s, NO_FAULTS).0, bus, attached - {d}, sessions - {s}, next)
  {
  }

  // ----- Runs, step by step -----

  ghost predicate RunTo(states: seq<System>, steps: seq<Step>, start: System, end: System) {
    Run(states, steps) && states[0] == start && states[|steps|] == end
  }

  ghost predicate Reached(start: System, end: System) {
    exists states: seq<System>, steps: seq<Step> :: RunTo(states, steps, start, end)
  }

  lemma ReachedStart(start: System)
    requires Initial(start)
    ensures Reached(start, start)
  {
    assert RunTo([start], [], start, start);
  }

  lemma ReachedStep(start: System, sys: System, step: Step)
    requires Reached(start, sys) && Enabled(sys, step) && Unexhausted(Apply(sys, step))
    ensures Reached(start, Apply(sys, step))
  {
    hide Apply, Enabled, Unexhausted, Initial;
    var states: seq<System>, steps: seq<Step> :| RunTo(states, steps, start, sys);
    var states', steps' := states + [Apply(sys, step)], steps + [step];
    assert forall k :: 0 <= k < |states| ==> states'[k] == states[k];
    assert forall k :: 0 <= k < |steps| ==> steps'[k] == steps[k];
    assert RunTo(states', steps', start, Apply(sys, step));
  }

  /** The server after its only connection sent one request and got its reply. */
  function Turned(sys: System, msg: Message): System
    requires At(sys, 0, Reading)
  {
    var (m', c', _) := Handle(sys.manager, sys.peers[0].conn, msg, SMOOTH);
    Put(sys, m', 0, Peer(c', Reading))
  }

  lemma TurnForm(sys: System, msg: Message)
    requires At(sys, 0, Reading) && Handle(sys.manager, sys.peers[0].conn, msg, SMOOTH).2.Reply?
    ensures var between := Apply(sys, Receive(0, msg, SMOOTH));
            && between.manager == Turned(sys, msg).manager
            && Enabled(between, Respond(0, SMOOTH.io, true))
            && Apply(between, Respond(0, SMOOTH.io, true)) == Turned(sys, msg)
  {
    hide Begin, Finish;
    var (m', p) := Begin(sys.manager, sys.peers[0].conn, msg, SMOOTH);
    var between := Apply(sys, Receive(0, msg, SMOOTH));
    assert between == Put(sys, m', 0, Peer(sys.peers[0].conn, Working(p)));
    assert Apply(between, Respond(0, SMOOTH.io, true)).peers == Turned(sys, msg).peers;
  }

  lemma ReachedTurn(start: System, sys: System, msg: Message)
    requires Reached(start, sys) && At(sys, 0, Reading)
    requires Handle(sys.manager, sys.peers[0].conn, msg, SMOOTH).2.Reply?
    requires Unexhausted(Turned(sys, msg))
    ensures Reached(start, Turned(sys, msg))
  {
    hide Reached, Apply, Enabled, Handle;
    TurnForm(sys, msg);
    assert Enabled(sys, Receive(0, msg, SMOOTH)) by { ReadingReceives(sys, msg); }
    ReachedStep(start, sys, Receive(0, msg, SMOOTH));
    ReachedStep(start, Apply(sys, Receive(0, msg, SMOOTH)), Respond(0, SMOOTH.io, true));
  }

  lemma ReadingReceives(sys: System, msg: Message)
    requires At(sys, 0, Reading)
    ensures Enabled(sys, Receive(0, msg, SMOOTH))
  {
  }

  // ----- The four requests -----

  /** Connection 0 is reading and holds these sessions; the manager has these tables. */
  ghost predicate Stands(sys: System, bus: Usb.Bus, attached: set<DeviceId>, sessions: map<u64, DeviceId>, next: u64,
                         own: map<u64, DeviceId>) {
    && Has(sys.manager, bus, attached, sessions, next)
    && At(sys, 0, Reading) && sys.peers[0].conn.key.None? && sys.peers[0].conn.sessions == own
  }

  lemma AttachTurn(start: System, sys: System, bus: Usb.Bus, attached: set<DeviceId>, sessions: map<u64, DeviceId>,
                   next: u64, own: map<u64, DeviceId>, d: DeviceId)
    requires Reached(start, sys) && Stands(sys, bus, attached, sessions, next, own)
    requires d in bus.present && d !in attached && next < 10
    ensures Reached(start, Turned(sys, Attach(d)))
    ensures Stands(Turned(sys, Attach(d)), bus, attached + {d}, sessions[next := d], next + 1, own[next := d])
  {
    hide Reached, Has, Manager.Attach;
    AttachSmoothly(sys.manager, bus, attached, sessions, next, d, sys.peers[0].conn.peer);
    NextOf(Turned(sys, Attach(d)).manager, bus, attached + {d}, sessions[next := d], next + 1);
    ReachedTurn(start, sys, Attach(d));
  }

  lemma NextOf(m: Manager, bus: Usb.Bus, attached: set<DeviceId>, sessions: map<u64, DeviceId>, next: u64)
    requires Has(m, bus, attached, sessions, next)
    ensures m.nextSessionId == next
  {
  }

  lemma DetachTurn(start: System, sys: System, bus: Usb.Bus, attached: set<DeviceId>, sessions: map<u64, DeviceId>,
                   next: u64, own: map<u64, DeviceId>, d: DeviceId, s: u64)
    requires Reached(start, sys) && Stands(sys, bus, attached, sessions, next, own)
    requires d in attached && s in own && next < 10
    ensures Reached(start, Turned(sys, Detach(DetachRequest(d, s))))
    ensures Stands(Turned(sys, Detach(DetachRequest(d, s))), bus, attached - {d}, sessions - {s}, next, own - {s})
  {
    hide Reached, Has, Manager.Detach;
    DetachSmoothly(sys.manager, bus, attached, sessions, next, d, s);
    NextOf(Turned(sys, Detach(DetachRequest(d, s))).manager, bus, attached - {d}, sessions - {s}, next);
    ReachedTurn(start, sys, Detach(DetachRequest(d, s)));
  }

  function Fresh(bus: Usb.Bus): System {
    System(None, Manager(map[], map[], 1, bus), map[])
  }

  lemma AcceptedFirst(bus: Usb.Bus)
    ensures var sys := Apply(Fresh(bus), Accept(0, 0));
            Reached(Fresh(bus), sys) && Stands(sys, bus, {}, map[], 1, map[])
  {
    hide Reached;
    ReachedStart(Fresh(bus));
    ReachedStep(Fresh(bus), Fresh(bus), Accept(0, 0));
  }

  lemma LeavingKeepsTables(start: System, sys: System)
    requires Reached(start, sys) && At(sys, 0, Reading) && sys.manager.nextSessionId < 10
    ensures var left := Apply(sys, Disconnect(0));
            && Reached(start, left) && At(left, 0, Leaving)
            && left.manager == sys.manager && left.peers[0].conn == sys.peers[0].conn
  {
    hide Reached;
    ReachedStep(start, sys, Disconnect(0));
  }

  /**
   Attach `a` (id 1), attach `b` (id 2), detach `b` under id 1, attach `b` again (id 3), leave: the
   connection is about to be cleaned up with two sessions for the one attached device `b`.  So a
   client that names a wrong device reaches the states in which the order of the ids matters,
   on every bus with two devices.
   */
  lemma SharingIsReachable(bus: Usb.Bus, a: DeviceId, b: DeviceId) returns (end: System)
    requires a in bus.present && b in bus.present && a != b
    ensures Reached(Fresh(bus), end) && At(end, 0, Leaving)
    ensures end.peers[0].conn.sessions == map[2 := b, 3 := b]
    ensures end.manager.sessionToDevice == map[2 := b, 3 := b] && end.manager.attachments.Keys == {a, b}
    ensures !NoSharing(end.manager, end.peers[0].conn.sessions.Keys)
    ensures !OrderIndependent(end.manager, end.peers[0].conn.sessions.Keys)
  {
    var sys := FourTurns(bus, a, b);
    LeavingKeepsTables(Fresh(bus), sys);
    end := Apply(sys, Disconnect(0));
    assert 2 in end.manager.sessionToDevice && 3 in end.manager.sessionToDevice;
    OrderMattersIff(end.manager, end.peers[0].conn.sessions.Keys);
  }

  lemma FourTurns(bus: Usb.Bus, a: DeviceId, b: DeviceId) returns (end: System)
    requires a in bus.present && b in bus.present && a != b
    ensures Reached(Fresh(bus), end) && Stands(end, bus, {a, b}, map[2 := b, 3 := b], 4, map[2 := b, 3 := b])
  {
    hide Reached, Turned, Has, Apply;
    var start, one, two := Fresh(bus), map[1 := a], map[1 := a, 2 := b];
    AcceptedFirst(bus);
    var sys := Apply(start, Accept(0, 0));
    AttachTurn(start, sys, bus, {}, map[], 1, map[], a);
    sys := Turned(sys, Attach(a));
    AttachTurn(start, sys, bus, {} + {a}, one, 2, one, b);
    sys := Turned(sys, Attach(b));
    assert one[2 := b] == two && {} + {a} + {b} == {a, b};
    DetachTurn(start, sys, bus, {a, b}, two, 3, two, b, 1);
    sys := Turned(sys, Detach(DetachRequest(b, 1)));
    assert two - {1} == map[2 := b] && {a, b} - {b} == {a};
    AttachTurn(start, sys, bus, {a}, map[2 := b], 3, map[2 := b], b);
    end := Turned(sys, Attach(b));
    assert {a} + {b} == {a, b};
  }
}
