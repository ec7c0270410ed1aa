/** What every run of the server keeps. */
module Safety {
  import opened Bytes
  import opened Messages
  import opened Devices
  import opened Ledgers
  import opened Connections
  import opened Sweeps
  import opened Server
  import Transfer

  // ----- Well-behaved clients -----

  /** A Detach that would be carried out names the device its session was opened for. */
  ghost predicate Matched(sys: System, step: Step) {
    step.Receive? && step.id in sys.peers && Detaches(sys.peers[step.id].conn, step.msg) ==>
      sys.peers[step.id].conn.sessions[step.msg.detach.sessionId] == step.msg.detach.deviceId
  }

  /** A transfer under way still has its session, its device and its handle. */
  ghost predicate TransferSafe(sys: System, id: nat)
    requires id in sys.peers
  {
    var c := sys.peers[id].conn;
    match sys.peers[id].phase
    case Working(Transferring(s, d, h, _)) =>
      && s in c.sessions && c.sessions[s] == d
      && d in sys.manager.attachments && sys.manager.attachments[d].handle == h
    case _ => true
  }

  ghost predicate Inv(sys: System) {
    && Good(View(sys))
    && forall id :: id in sys.peers ==> TransferSafe(sys, id)
  }

  ghost predicate Unexhausted(sys: System) {
    sys.manager.nextSessionId + 1 < U64_LIMIT
  }

  /** Whatever device another connection holds a session for is still attached, by the same handle. */
  ghost predicate OthersKept(sys: System, id: nat, m': Manager) {
    forall jd: nat, s: u64 :: jd != id && Holds(View(sys), jd, s) ==>
      var d := View(sys).held[jd][s];
      d in m'.attachments && d in sys.manager.attachments
      && m'.attachments[d].handle == sys.manager.attachments[d].handle
  }

  lemma OtherTransfersSafe(sys: System, m': Manager, id: nat, peer: Peer)
    requires Inv(sys) && OthersKept(sys, id, m')
    ensures var sys' := Put(sys, m', id, peer);
            forall jd :: jd in sys.peers && jd != id ==> TransferSafe(sys', jd)
  {
    var sys' := Put(sys, m', id, peer);
    forall jd | jd in sys.peers && jd != id ensures TransferSafe(sys', jd) {
      var p := sys.peers[jd];
      if p.phase.Working? && p.phase.pending.Transferring? {
        assert TransferSafe(sys, jd);
        assert Held(p) == p.conn.sessions;
        assert Holds(View(sys), jd, p.phase.pending.session);
      }
    }
  }

  /** The tables after a successful attach. */
  ghost predicate Granted(m: Manager, d: DeviceId, m': Manager) {
    && d !in m.attachments
    && m'.sessionToDevice == m.sessionToDevice[m.nextSessionId := d]
    && m'.nextSessionId == Successor(m.nextSessionId)
    && m'.attachments.Keys == m.attachments.Keys + {d}
    && forall e :: e in m.attachments ==> m'.attachments[e] == m.attachments[e]
  }

  lemma AttachGrants(m: Manager, d: DeviceId, addr: Address, env: AttachEnv)
    requires m.Attach(d, addr, env).1.Ok?
    ensures Granted(m, d, m.Attach(d, addr, env).0)
  {
  }

  lemma GrantedView(sys: System, id: nat, d: DeviceId, m': Manager)
    requires At(sys, id, Reading) && Granted(sys.manager, d, m') && Unexhausted(sys)
    ensures var peer := Peer(sys.peers[id].conn, Working(Attached(d, sys.manager.nextSessionId)));
            View(Put(sys, m', id, peer)) == Grant(View(sys), id, d)
  {
    ViewAfterPut(sys, m', id, Peer(sys.peers[id].conn, Working(Attached(d, sys.manager.nextSessionId))));
  }

  /** The devices of held sessions are attached. */
  lemma HeldIsAttached(sys: System, id: nat, s: u64)
    requires Good(View(sys)) && Holds(View(sys), id, s)
    ensures View(sys).held[id][s] in sys.manager.attachments
  {
    assert View(sys).held[id][s] in View(sys).devices.Values;
  }

  lemma GrantKeepsOthers(sys: System, id: nat, d: DeviceId, m': Manager)
    requires Good(View(sys)) && Granted(sys.manager, d, m')
    ensures OthersKept(sys, id, m')
  {
    hide Good, View;
    forall jd: nat, s: u64 | jd != id && Holds(View(sys), jd, s)
      ensures View(sys).held[jd][s] in sys.manager.attachments
    {
      HeldIsAttached(sys, jd, s);
    }
  }

  /** A connection whose reply is not a transfer has no transfer to protect. */
  lemma InvAfterPut(sys: System, m': Manager, id: nat, peer: Peer)
    requires Inv(sys) && OthersKept(sys, id, m') && Good(View(Put(sys, m', id, peer)))
    requires TransferSafe(Put(sys, m', id, peer), id)
    ensures Inv(Put(sys, m', id, peer))
  {
    hide Good, OthersKept, View, TransferSafe;
    OtherTransfersSafe(sys, m', id, peer);
  }

  lemma ReadyToGrant(sys: System, id: nat, d: DeviceId, m': Manager)
    requires At(sys, id, Reading) && Unexhausted(sys) && Granted(sys.manager, d, m')
    ensures id in View(sys).held && d !in View(sys).attached && View(sys).next + 1 < U64_LIMIT
  {
  }

  lemma GrantKeepsInv(sys: System, id: nat, d: DeviceId, m': Manager)
    requires Inv(sys) && Unexhausted(sys) && At(sys, id, Reading)
    requires Granted(sys.manager, d, m')
    ensures var sys' := Put(sys, m', id, Peer(sys.peers[id].conn, Working(Attached(d, sys.manager.nextSessionId))));
            View(sys') == Grant(View(sys), id, d) && Inv(sys')
  {
    hide Good, OthersKept, View, Grant;
    GrantedView(sys, id, d, m');
    ReadyToGrant(sys, id, d, m');
    GrantKeepsGood(View(sys), id, d);
    GrantKeepsOthers(sys, id, d, m');
    InvAfterPut(sys, m', id, Peer(sys.peers[id].conn, Working(Attached(d, sys.manager.nextSessionId))));
  }

  lemma DetachedView(sys: System, id: nat, s: u64, env: DetachEnv, r: DetachReply)
    requires At(sys, id, Reading) && s in sys.peers[id].conn.sessions
    requires sys.peers[id].conn.sessions[s] in sys.manager.attachments
    requires s in sys.manager.sessionToDevice && sys.manager.sessionToDevice[s] == sys.peers[id].conn.sessions[s]
    ensures var c, m := sys.peers[id].conn, sys.manager;
            View(Put(sys, m.Detach(c.sessions[s], s, env).0, id, Peer(c, Working(Detached(s, r)))))
            == Revoke(View(sys), id, s)
  {
    hide ReleaseAll, ReattachAll;
    var c, m := sys.peers[id].conn, sys.manager;
    ViewAfterPut(sys, m.Detach(c.sessions[s], s, env).0, id, Peer(c, Working(Detached(s, r))));
  }

  lemma DetachKeepsOthers(sys: System, id: nat, s: u64, m': Manager)
    requires Good(View(sys)) && At(sys, id, Reading) && s in sys.peers[id].conn.sessions
    requires m'.attachments == sys.manager.attachments - {sys.peers[id].conn.sessions[s]}
    ensures OthersKept(sys, id, m')
  {
    assert Holds(View(sys), id, s);
    forall jd: nat, t: u64 | jd != id && Holds(View(sys), jd, t)
      ensures View(sys).held[jd][t] in sys.manager.attachments
      ensures View(sys).held[jd][t] != sys.peers[id].conn.sessions[s]
    {
      HeldIsAttached(sys, jd, t);
      assert t != s;
    }
  }

  /** A connection detaches the session it holds for the device it names. */
  lemma DetachKeepsInv(sys: System, id: nat, s: u64, env: DetachEnv, r: DetachReply)
    requires Inv(sys) && At(sys, id, Reading) && s in sys.peers[id].conn.sessions
    ensures var c, m := sys.peers[id].conn, sys.manager;
            var sys' := Put(sys, m.Detach(c.sessions[s], s, env).0, id, Peer(c, Working(Detached(s, r))));
            && s in View(sys).devices
            && View(sys') == Revoke(View(sys), id, s) && Inv(sys')
  {
    hide Good, OthersKept, View, Revoke, Manager.Detach;
    var m, c := sys.manager, sys.peers[id].conn;
    var d := c.sessions[s];
    OwnSession(sys, id, s);
    DetachedView(sys, id, s, env, r);
    RevokeKeepsGood(View(sys), id, s);
    DetachTakesOne(m, d, s, env);
    DetachKeepsOthers(sys, id, s, m.Detach(d, s, env).0);
    InvAfterPut(sys, m.Detach(d, s, env).0, id, Peer(c, Working(Detached(s, r))));
  }

  lemma OwnSession(sys: System, id: nat, s: u64)
    requires Good(View(sys)) && At(sys, id, Reading) && s in sys.peers[id].conn.sessions
    ensures var d := sys.peers[id].conn.sessions[s];
            && d in sys.manager.attachments && s in sys.manager.sessionToDevice && sys.manager.sessionToDevice[s] == d
            && Holds(View(sys), id, s) && View(sys).devices == sys.manager.sessionToDevice
  {
    assert Holds(View(sys), id, s);
    HeldIsAttached(sys, id, s);
  }

  lemma DetachTakesOne(m: Manager, d: DeviceId, s: u64, env: DetachEnv)
    requires d in m.attachments
    ensures m.Detach(d, s, env).0.attachments == m.attachments - {d}
  {
  }

  lemma QuietKeepsInv(sys: System, id: nat, m': Manager, peer: Peer)
    requires Inv(sys) && id in sys.peers
    requires Quiet(sys.manager, m') && Held(peer) == Held(sys.peers[id])
    requires TransferSafe(Put(sys, m', id, peer), id)
    ensures View(Put(sys, m', id, peer)) == View(sys)
    ensures Inv(Put(sys, m', id, peer))
  {
    ViewAfterPut(sys, m', id, peer);
    assert View(Put(sys, m', id, peer)).held == View(sys).held;
    assert OthersKept(sys, id, m') by {
      forall jd: nat, s: u64 | jd != id && Holds(View(sys), jd, s)
        ensures View(sys).held[jd][s] in sys.manager.attachments
      {
        assert View(sys).held[jd][s] in View(sys).devices.Values;
      }
    }
    OtherTransfersSafe(sys, m', id, peer);
  }

  lemma QuietRequestKeepsInv(sys: System, id: nat, m': Manager, p: Pending)
    requires Inv(sys) && At(sys, id, Reading) && Quiet(sys.manager, m') && Neutral(p)
    requires p.Transferring? ==> GateChecked(sys.manager, sys.peers[id].conn, p)
    ensures Inv(Put(sys, m', id, Peer(sys.peers[id].conn, Working(p))))
  {
    hide Good;
    if p.Transferring? {
      OwnSession(sys, id, p.session);
    }
    QuietKeepsInv(sys, id, m', Peer(sys.peers[id].conn, Working(p)));
  }

  lemma BegunKeepsInv(sys: System, id: nat, msg: Message, env: Env, m': Manager, p: Pending)
    requires Inv(sys) && Unexhausted(sys) && At(sys, id, Reading)
    requires Matched(sys, Receive(id, msg, env)) && Began(sys.manager, sys.peers[id].conn, msg, env, m', p)
    ensures Inv(Put(sys, m', id, Peer(sys.peers[id].conn, Working(p))))
  {
    hide Inv, Quiet, GateChecked, Manager.Attach, Manager.Detach, Granted;
    var m, c := sys.manager, sys.peers[id].conn;
    if Attaches(m, c, msg, env) {
      AttachGrants(m, msg.deviceId, c.peer, env.attach);
      GrantKeepsInv(sys, id, msg.deviceId, m');
    } else if Detaches(c, msg) {
      DetachKeepsInv(sys, id, msg.detach.sessionId, env.detach, p.farewell);
    } else {
      QuietRequestKeepsInv(sys, id, m', p);
    }
  }

  lemma ReceiveKeepsInv(sys: System, id: nat, msg: Message, env: Env)
    requires Inv(sys) && Unexhausted(sys) && At(sys, id, Reading)
    requires Matched(sys, Receive(id, msg, env))
    ensures Inv(Apply(sys, Receive(id, msg, env)))
  {
    hide Begin, Began, Inv, Finish, Manager.DetachAllForSessions, Matched;
    OnlyAttachAndDetachChangeTables(sys.manager, sys.peers[id].conn, msg, env);
    var (m', p) := Begin(sys.manager, sys.peers[id].conn, msg, env);
    BegunKeepsInv(sys, id, msg, env, m', p);
  }

  lemma RespondKeepsView(sys: System, id: nat, io: Transfer.Io, sendable: bool)
    requires Enabled(sys, Respond(id, io, sendable))
    ensures View(Apply(sys, Respond(id, io, sendable))) == View(sys)
  {
    hide Begin, Executed, Manager.DetachAllForSessions;
    var (c', action) := Finish(sys.peers[id].conn, sys.peers[id].phase.pending, io);
    var peer := Peer(c', NextPhase(action, sendable));
    assert Held(peer) == Held(sys.peers[id]);
    ViewAfterPut(sys, sys.manager, id, peer);
    assert View(Put(sys, sys.manager, id, peer)).held == View(sys).held;
  }

  lemma RespondKeepsInv(sys: System, id: nat, io: Transfer.Io, sendable: bool)
    requires Inv(sys) && Enabled(sys, Respond(id, io, sendable))
    ensures View(Apply(sys, Respond(id, io, sendable))) == View(sys)
    ensures Inv(Apply(sys, Respond(id, io, sendable)))
  {
    hide Begin, Executed, Manager.DetachAllForSessions;
    var (c', action) := Finish(sys.peers[id].conn, sys.peers[id].phase.pending, io);
    var peer := Peer(c', NextPhase(action, sendable));
    assert Held(peer) == Held(sys.peers[id]);
    QuietKeepsInv(sys, id, sys.manager, peer);
  }

  /** Every session of a closing connection is one the sweep will take, and none shares its device. */
  lemma OwnSessionsSwept(sys: System, id: nat)
    requires Good(View(sys)) && At(sys, id, Leaving)
    ensures NoSharing(sys.manager, sys.peers[id].conn.sessions.Keys)
    ensures Swept(sys.manager, sys.peers[id].conn.sessions.Keys) == sys.peers[id].conn.sessions.Keys
  {
    var m, mine := sys.manager, sys.peers[id].conn.sessions.Keys;
    forall s | s in mine ensures s in Swept(m, mine) {
      assert Holds(View(sys), id, s);
      HeldIsAttached(sys, id, s);
    }
  }

  lemma SweptView(sys: System, id: nat, m': Manager)
    requires At(sys, id, Leaving) && SweptTo(sys.manager, sys.peers[id].conn.sessions.Keys, m')
    requires Swept(sys.manager, sys.peers[id].conn.sessions.Keys) == sys.peers[id].conn.sessions.Keys
    ensures View(Put(sys, m', id, sys.peers[id].(phase := Cleared))) == RevokeAll(View(sys), id)
  {
    ViewAfterPut(sys, m', id, sys.peers[id].(phase := Cleared));
  }

  /** The sweep of a closing connection revokes exactly its sessions. */
  lemma SweepRevokesAll(sys: System, id: nat, order: seq<Visit>)
    requires Good(View(sys)) && Enabled(sys, Sweep(id, order))
    ensures View(Apply(sys, Sweep(id, order))) == RevokeAll(View(sys), id)
    ensures var m' := sys.manager.DetachAllForSessions(order);
            m'.attachments ==
            sys.manager.attachments - Image(sys.manager.sessionToDevice, sys.peers[id].conn.sessions.Keys)
  {
    hide Begin, Finish, Manager.DetachAllForSessions, Good, View, NoSharing, Swept, RevokeAll, Distinct, Visited;
    EnumerationVisits(order, sys.peers[id].conn.sessions.Keys);
    OwnSessionsSwept(sys, id);
    SweepExactly(sys.manager, order);
    SweptView(sys, id, sys.manager.DetachAllForSessions(order));
  }

  /** What other connections hold is not among the devices swept. */
  lemma SweepKeepsOthers(sys: System, id: nat, m': Manager)
    requires Good(View(sys)) && At(sys, id, Leaving)
    requires m'.attachments
             == sys.manager.attachments - Image(sys.manager.sessionToDevice, sys.peers[id].conn.sessions.Keys)
    ensures OthersKept(sys, id, m')
  {
    var mine := sys.peers[id].conn.sessions.Keys;
    forall jd: nat, t: u64 | jd != id && Holds(View(sys), jd, t)
      ensures View(sys).held[jd][t] in m'.attachments
    {
      var d := View(sys).held[jd][t];
      HeldIsAttached(sys, jd, t);
      assert !Holds(View(sys), id, t);
      forall s | s in mine && s in sys.manager.sessionToDevice ensures sys.manager.sessionToDevice[s] != d {
        assert s != t;
      }
    }
  }

  lemma SweepKeepsInv(sys: System, id: nat, order: seq<Visit>)
    requires Inv(sys) && Enabled(sys, Sweep(id, order))
    ensures Inv(Apply(sys, Sweep(id, order)))
  {
    hide Begin, Finish, Manager.DetachAllForSessions, Good, View, RevokeAll, OthersKept, Enumerates;
    SweepRevokesAll(sys, id, order);
    PeerKnown(sys, id);
    RevokeAllKeepsGood(View(sys), id);
    SweepKeepsOthers(sys, id, sys.manager.DetachAllForSessions(order));
    InvAfterPut(sys, sys.manager.DetachAllForSessions(order), id, sys.peers[id].(phase := Cleared));
  }

  lemma PeerKnown(sys: System, id: nat)
    requires id in sys.peers
    ensures id in View(sys).held
  {
  }

  lemma AcceptKeepsInv(sys: System, id: nat, addr: Address)
    requires Inv(sys) && id !in sys.peers
    ensures Inv(Apply(sys, Accept(id, addr)))
  {
    hide Begin, Finish, Manager.DetachAllForSessions;
    var peer := Peer(Conn(sys.key, false, map[], addr), Reading);
    ViewAfterPut(sys, sys.manager, id, peer);
    assert View(Apply(sys, Accept(id, addr))) == Enroll(View(sys), id);
    EnrollKeepsGood(View(sys), id);
    assert OthersKept(sys, id, sys.manager) by {
      forall jd: nat, s: u64 | jd != id && Holds(View(sys), jd, s)
        ensures View(sys).held[jd][s] in sys.manager.attachments
      {
        assert View(sys).held[jd][s] in View(sys).devices.Values;
      }
    }
    OtherTransfersSafe(sys, sys.manager, id, peer);
  }

  /** Every step of well-behaved clients keeps the invariant. */
  lemma StepKeepsInv(sys: System, step: Step)
    requires Inv(sys) && Unexhausted(sys) && Enabled(sys, step) && Matched(sys, step)
    ensures Inv(Apply(sys, step))
  {
    hide Begin, Finish, Manager.DetachAllForSessions, Enumerates, Good;
    match step
    case Accept(id, addr) => AcceptKeepsInv(sys, id, addr);
    case Receive(id, msg, env) => ReceiveKeepsInv(sys, id, msg, env);
    case Respond(id, io, sendable) => RespondKeepsInv(sys, id, io, sendable);
    case Disconnect(id) => QuietKeepsInv(sys, id, sys.manager, sys.peers[id].(phase := Leaving));
    case Sweep(id, order) => SweepKeepsInv(sys, id, order);
    case Forget(id) =>
      QuietKeepsInv(sys, id, sys.manager, Peer(sys.peers[id].conn.(sessions := map[]), Closed));
    case Plug(_, _, _) => assert View(Apply(sys, step)) == View(sys);
    case Unplug(_) => assert View(Apply(sys, step)) == View(sys);
  }

  // ----- Runs -----

  ghost predicate Initial(sys: System) {
    && sys.peers == map[] && sys.manager.attachments == map[]
    && sys.manager.sessionToDevice == map[] && sys.manager.nextSessionId == 1
  }

  /** `steps[k]` leads from `states[k]` to `states[k + 1]`; no state has used up the 64-bit ids. */
  ghost predicate Run(states: seq<System>, steps: seq<Step>) {
    hide Apply;
    && |states| == |steps| + 1
    && Initial(states[0])
    && (forall k :: 0 <= k < |states| ==> Unexhausted(states[k]))
    && (forall k :: 0 <= k < |steps| ==>
          Enabled(states[k], steps[k]) && states[k + 1] == Apply(states[k], steps[k]))
  }

  ghost predicate MatchedRun(states: seq<System>, steps: seq<Step>) {
    hide Apply;
    Run(states, steps) && forall k :: 0 <= k < |steps| ==> Matched(states[k], steps[k])
  }

  /**
   In every reachable state of any number of interleaved well-behaved connections: live sessions
   and attached devices correspond one to one, each live session is held by exactly one
   connection for the same device, and every transfer that passed its gate still has its
   device attached under the same session and handle.
   */
  lemma {:induction false} AlwaysInv(states: seq<System>, steps: seq<Step>, k: nat)
    requires MatchedRun(states, steps) && k < |states|
    ensures Inv(states[k])
  {
    hide Apply;
    if k == 0 {
      assert View(states[0]).devices.Values == {};
    } else {
      AlwaysInv(states, steps, k - 1);
      StepKeepsInv(states[k - 1], steps[k - 1]);
    }
  }

  /** While a transfer runs outside the lock, whatever the other connections do. */
  lemma TransferProtected(states: seq<System>, steps: seq<Step>, i: nat, j: nat, id: nat)
    requires MatchedRun(states, steps) && i <= j < |states|
    requires id in states[i].peers && states[i].peers[id].phase.Working?
    requires states[i].peers[id].phase.pending.Transferring?
    requires forall k :: i <= k <= j ==> At(states[k], id, states[i].peers[id].phase)
    ensures var p := states[i].peers[id].phase.pending;
            forall k :: i <= k <= j ==>
              && p.device in states[k].manager.attachments
              && states[k].manager.attachments[p.device].handle == p.handle
              && p.session in states[k].manager.sessionToDevice
              && states[k].manager.sessionToDevice[p.session] == p.device
  {
    var p := states[i].peers[id].phase.pending;
    forall k | i <= k <= j
      ensures p.device in states[k].manager.attachments
              && states[k].manager.attachments[p.device].handle == p.handle
              && p.session in states[k].manager.sessionToDevice
              && states[k].manager.sessionToDevice[p.session] == p.device
    {
      AlwaysInv(states, steps, k);
      assert At(states[k], id, states[i].peers[id].phase);
      assert TransferSafe(states[k], id);
      assert Holds(View(states[k]), id, p.session);
    }
  }

  lemma OwnSessionsRecorded(sys: System, id: nat)
    requires Inv(sys) && At(sys, id, Leaving)
    ensures Image(sys.manager.sessionToDevice, sys.peers[id].conn.sessions.Keys) == sys.peers[id].conn.sessions.Values
  {
    var mine := sys.peers[id].conn.sessions;
    forall s | s in mine ensures s in sys.manager.sessionToDevice && sys.manager.sessionToDevice[s] == mine[s] {
      assert Holds(View(sys), id, s);
    }
  }

  /** Closing a connection takes away exactly its devices; every other attachment and every other
      connection's sessions are as before. */
  lemma CleanupTakesExactly(sys: System, id: nat, order: seq<Visit>)
    requires Inv(sys) && Enabled(sys, Sweep(id, order))
    ensures var sys' := Apply(sys, Sweep(id, order));
            var mine := sys.peers[id].conn.sessions;
            && sys'.manager.attachments == sys.manager.attachments - mine.Values
            && sys'.manager.sessionToDevice == sys.manager.sessionToDevice - mine.Keys
            && sys'.manager.nextSessionId == sys.manager.nextSessionId
            && (forall jd :: jd in sys.peers && jd != id ==> jd in sys'.peers && sys'.peers[jd] == sys.peers[jd])
    ensures OrderIndependent(sys.manager, sys.peers[id].conn.sessions.Keys)
  {
    hide Begin, Finish, Manager.DetachAllForSessions;
    var mine := sys.peers[id].conn.sessions;
    SweepRevokesAll(sys, id, order);
    OwnSessionsRecorded(sys, id);
    assert View(Apply(sys, Sweep(id, order))).devices == sys.manager.sessionToDevice - mine.Keys;
    assert View(Apply(sys, Sweep(id, order))).next == sys.manager.nextSessionId;
    OrderMattersIff(sys.manager, mine.Keys);
  }

  /** When no connection holds a session any more, nothing is attached and no session is left. */
  lemma NoSessionsNothingAttached(states: seq<System>, steps: seq<Step>, k: nat)
    requires MatchedRun(states, steps) && k < |states|
    requires forall id :: id in states[k].peers ==> Held(states[k].peers[id]) == map[]
    ensures states[k].manager.attachments == map[] && states[k].manager.sessionToDevice == map[]
  {
    hide Run, Apply;
    AlwaysInv(states, steps, k);
    var m, l := states[k].manager, View(states[k]);
    forall s: u64 ensures s !in m.sessionToDevice {
      assert forall id: nat :: !Holds(l, id, s);
      assert s in l.devices ==> exists id: nat :: Holds(l, id, s);
    }
    assert m.sessionToDevice == map[] && m.attachments.Keys == m.sessionToDevice.Values == {};
  }

  // ----- Handed-off connections -----

  lemma BridgedStays(sys: System, step: Step, id: nat)
    requires Enabled(sys, step) && id in sys.peers && sys.peers[id].phase.Bridged?
    ensures id in Apply(sys, step).peers && Apply(sys, step).peers[id] == sys.peers[id]
  {
    hide Begin, Finish, Manager.DetachAllForSessions, Enumerates;
  }

  lemma {:induction false} BridgedForGood(states: seq<System>, steps: seq<Step>, i: nat, j: nat, id: nat)
    requires Run(states, steps) && i <= j < |states|
    requires id in states[i].peers && states[i].peers[id].phase.Bridged?
    ensures id in states[j].peers && states[j].peers[id] == states[i].peers[id]
  {
    hide Apply;
    if i < j {
      BridgedForGood(states, steps, i, j - 1, id);
      BridgedStays(states[j - 1], steps[j - 1], id);
    }
  }

  /**
   A connection that was handed to a bridge is never cleaned up: in a run of well-behaved clients
   the devices it had attached stay attached under its sessions for good, and every later
   attempt to attach one of them fails.
   */
  lemma BridgedDevicesNeverFreed(states: seq<System>, steps: seq<Step>, i: nat, j: nat, id: nat, s: u64)
    requires MatchedRun(states, steps) && i <= j < |states|
    requires id in states[i].peers && states[i].peers[id].phase.Bridged? && s in states[i].peers[id].conn.sessions
    ensures var d, m := states[i].peers[id].conn.sessions[s], states[j].manager;
            && s in m.sessionToDevice && m.sessionToDevice[s] == d && d in m.attachments
            && forall addr, env :: m.Attach(d, addr, env) == (m, Err(AlreadyAttached))
  {
    hide Run, Apply;
    AlwaysInv(states, steps, j);
    BridgedForGood(states, steps, i, j, id);
    var l := View(states[j]);
    assert Holds(l, id, s);
    assert l.devices[s] in l.devices.Values;
  }

  // ----- The exact boundary -----

  lemma MismatchBreaksTables(l: Ledger, l': Ledger, s: u64, d: DeviceId)
    requires Good(l) && s in l.devices && l.devices[s] != d && d in l.attached
    requires l'.devices == l.devices - {s} && l'.attached == l.attached - {d}
    ensures !Good(l')
  {
    var t :| t in l.devices && l.devices[t] == d;
    assert l'.devices[t] == d;
    assert d in l'.devices.Values;
  }

  lemma OrphanBreaksTables(l: Ledger, l': Ledger, id: nat, s: u64)
    requires Good(l) && Holds(l, id, s)
    requires l'.devices == l.devices && id in l.held && l'.held == l.held[id := l.held[id] - {s}]
    ensures !Good(l')
  {
    forall jd: nat ensures !Holds(l', jd, s) {
      assert jd != id && Holds(l', jd, s) ==> Holds(l, jd, s);
    }
  }

  /**
   From a state that satisfies the invariant, carrying out a Detach of a session the connection
   holds re-establishes the book-keeping if and only if the request names the device recorded for
   that session: naming another attached device strands that device's session, naming one that is
   not attached orphans the session itself.
   */
  lemma DetachBoundary(sys: System, id: nat, req: DetachRequest, env: Env, io: Transfer.Io, sendable: bool)
    requires Inv(sys) && At(sys, id, Reading) && Detaches(sys.peers[id].conn, Detach(req))
    ensures var after := Apply(sys, Receive(id, Detach(req), env));
            && Enabled(after, Respond(id, io, sendable))
            && (Good(View(after)) <==> sys.peers[id].conn.sessions[req.sessionId] == req.deviceId)
            && View(Apply(after, Respond(id, io, sendable))) == View(after)
  {
    hide Good, Begin, Finish, Manager.DetachAllForSessions;
    var m, c := sys.manager, sys.peers[id].conn;
    var s, d := req.sessionId, req.deviceId;
    OnlyAttachAndDetachChangeTables(m, c, Detach(req), env);
    var (m', p) := Begin(m, c, Detach(req), env);
    var peer := Peer(c, Working(p));
    var after := Put(sys, m', id, peer);
    ViewAfterPut(sys, m', id, peer);
    RespondKeepsView(after, id, io, sendable);
    OwnSession(sys, id, s);
    if c.sessions[s] == d {
      DetachKeepsInv(sys, id, s, env.detach, p.farewell);
    } else if d in m.attachments {
      MismatchBreaksTables(View(sys), View(after), s, d);
    } else {
      OrphanBreaksTables(View(sys), View(after), id, s);
    }
  }
}
