/** What every run keeps whatever the clients send: ids, the authentication gate, the USB records. */
module AnyClient {
  import opened Bytes
  import opened Messages
  import opened Handshake
  import opened Devices
  import opened Ledgers
  import opened Connections
  import opened Server
  import opened Safety
  import opened Sweeps
  import Cleanup
  import Clients
  import Conservation
  import Requests
  import Transfer

  // ----- Session ids -----

  lemma {:induction false} SweepShrinks(m: Manager, order: seq<Visit>)
    ensures var m' := m.DetachAllForSessions(order);
            && m'.nextSessionId == m.nextSessionId
            && (forall s :: s in m'.sessionToDevice ==>
                  s in m.sessionToDevice && m'.sessionToDevice[s] == m.sessionToDevice[s])
  {
    if |order| > 0 {
      SweepShrinks(m, order[..|order| - 1]);
    }
  }

  predicate Grants(sys: System, step: Step) {
    step.Receive? && step.id in sys.peers
    && Attaches(sys.manager, sys.peers[step.id].conn, step.msg, step.env)
  }

  /** What one connection's move leaves: no more than it held, and tables with no more in them. */
  lemma PutShrinks(sys: System, m': Manager, id: nat, peer: Peer)
    requires m'.nextSessionId == sys.manager.nextSessionId
    requires forall s :: s in m'.sessionToDevice ==>
               s in sys.manager.sessionToDevice && m'.sessionToDevice[s] == sys.manager.sessionToDevice[s]
    requires forall s :: s in Held(peer) ==>
               id in sys.peers && s in Held(sys.peers[id]) && Held(peer)[s] == Held(sys.peers[id])[s]
    ensures Shrinks(View(sys), View(Put(sys, m', id, peer)))
  {
    hide Held;
    var l, l' := View(sys), View(Put(sys, m', id, peer));
    ViewAfterPut(sys, m', id, peer);
    forall jd: nat, s: u64 | Holds(l', jd, s) ensures Holds(l, jd, s) && l.held[jd][s] == l'.held[jd][s] {
      assert jd != id ==> l'.held[jd] == l.held[jd];
    }
  }

  lemma BegunGrantsOrShrinks(sys: System, id: nat, msg: Message, env: Env, m': Manager, p: Pending)
    requires Unexhausted(sys) && At(sys, id, Reading)
    requires Began(sys.manager, sys.peers[id].conn, msg, env, m', p)
    ensures var sys' := Put(sys, m', id, Peer(sys.peers[id].conn, Working(p)));
            if Attaches(sys.manager, sys.peers[id].conn, msg, env) then View(sys') == Grant(View(sys), id, msg.deviceId)
            else Shrinks(View(sys), View(sys'))
  {
    hide Manager.Attach, Manager.Detach, View, Grant, Shrinks, Granted;
    var m, c := sys.manager, sys.peers[id].conn;
    if Attaches(m, c, msg, env) {
      AttachGrants(m, msg.deviceId, c.peer, env.attach);
      GrantedView(sys, id, msg.deviceId, m');
    } else {
      if Detaches(c, msg) {
        DetachOnlyRemoves(m, msg.detach.deviceId, msg.detach.sessionId, env.detach);
      }
      PutShrinks(sys, m', id, Peer(c, Working(p)));
    }
  }

  lemma DetachOnlyRemoves(m: Manager, d: DeviceId, s: u64, env: DetachEnv)
    ensures var m' := m.Detach(d, s, env).0;
            && m'.nextSessionId == m.nextSessionId
            && (forall t :: t in m'.sessionToDevice ==>
                  t in m.sessionToDevice && m'.sessionToDevice[t] == m.sessionToDevice[t])
  {
  }

  lemma ReceiveGrantsOrShrinks(sys: System, id: nat, msg: Message, env: Env)
    requires Unexhausted(sys) && At(sys, id, Reading)
    ensures var step := Receive(id, msg, env);
            if Grants(sys, step) then View(Apply(sys, step)) == Grant(View(sys), id, msg.deviceId)
            else Shrinks(View(sys), View(Apply(sys, step)))
  {
    hide Begin, Began, View, Shrinks, Grant, Attaches, Finish, Manager.DetachAllForSessions;
    OnlyAttachAndDetachChangeTables(sys.manager, sys.peers[id].conn, msg, env);
    var (m', p) := Begin(sys.manager, sys.peers[id].conn, msg, env);
    BegunGrantsOrShrinks(sys, id, msg, env, m', p);
  }

  lemma ShrinksReflexive(l: Ledger)
    ensures Shrinks(l, l)
  {
  }

  lemma BusChangeKeepsView(sys: System, m': Manager)
    requires m'.attachments == sys.manager.attachments && m'.sessionToDevice == sys.manager.sessionToDevice
    requires m'.nextSessionId == sys.manager.nextSessionId
    ensures View(sys.(manager := m')) == View(sys)
  {
    hide Held;
  }

  /** A step either grants the next id to the connection that attached, or entries only disappear. */
  lemma StepGrantsOrShrinks(sys: System, step: Step)
    requires Unexhausted(sys) && Enabled(sys, step)
    ensures if Grants(sys, step) then View(Apply(sys, step)) == Grant(View(sys), step.id, step.msg.deviceId)
            else Shrinks(View(sys), View(Apply(sys, step)))
  {
    hide Manager.Attach, Manager.DetachAllForSessions, Begin, Finish, Enumerates, Attaches, Grant, View, Shrinks, Put;
    match step
    case Accept(id, addr) => PutShrinks(sys, sys.manager, id, Peer(Conn(sys.key, false, map[], addr), Reading));
    case Receive(id, msg, env) => ReceiveGrantsOrShrinks(sys, id, msg, env);
    case Respond(id, io, sendable) =>
      RespondKeepsView(sys, id, io, sendable);
      ShrinksReflexive(View(sys));
    case Disconnect(id) => PutShrinks(sys, sys.manager, id, sys.peers[id].(phase := Leaving));
    case Sweep(id, order) =>
      SweepShrinks(sys.manager, order);
      PutShrinks(sys, sys.manager.DetachAllForSessions(order), id, sys.peers[id].(phase := Cleared));
    case Forget(id) => PutShrinks(sys, sys.manager, id, Peer(sys.peers[id].conn.(sessions := map[]), Closed));
    case Plug(_, _, _) =>
      BusChangeKeepsView(sys, Apply(sys, step).manager);
      ShrinksReflexive(View(sys));
    case Unplug(_) =>
      BusChangeKeepsView(sys, Apply(sys, step).manager);
      ShrinksReflexive(View(sys));
  }

  lemma StepAges(sys: System, step: Step)
    requires Orderly(View(sys)) && Unexhausted(sys) && Enabled(sys, step)
    ensures Orderly(View(Apply(sys, step))) && Ages(View(sys), View(Apply(sys, step)))
  {
    hide Apply, Grant, Shrinks, Orderly, Ages;
    StepGrantsOrShrinks(sys, step);
    if Grants(sys, step) {
      GrantIsOrderly(View(sys), step.id, step.msg.deviceId);
    } else {
      ShrinkingIsOrderly(View(sys), View(Apply(sys, step)));
    }
  }

  lemma {:induction false} AlwaysOrderly(states: seq<System>, steps: seq<Step>, k: nat)
    requires Run(states, steps) && k < |states|
    ensures Orderly(View(states[k]))
  {
    hide Apply;
    if k > 0 {
      AlwaysOrderly(states, steps, k - 1);
      StepAges(states[k - 1], steps[k - 1]);
    }
  }

  lemma NextAges(states: seq<System>, steps: seq<Step>, k: nat)
    requires Run(states, steps) && k < |steps|
    ensures Ages(View(states[k]), View(states[k + 1]))
  {
    hide View, Ages, Orderly;
    AlwaysOrderly(states, steps, k);
    StepAges(states[k], steps[k]);
  }

  lemma {:induction false} AgesAlong(states: seq<System>, steps: seq<Step>, i: nat, j: nat)
    requires Run(states, steps) && i <= j < |states|
    ensures Ages(View(states[i]), View(states[j]))
  {
    hide Apply, Enabled, View, Ages;
    if i == j {
      AgesReflexive(View(states[i]));
    } else {
      AgesAlong(states, steps, i, j - 1);
      NextAges(states, steps, j - 1);
      AgesTransitive(View(states[i]), View(states[j - 1]), View(states[j]));
    }
  }

  /**
   For clients that may send anything: connections hold disjoint sessions in every state, a later
   grant gives a larger id, and in every later state an id is recorded, if at all, for the device
   it was issued for, and held, if at all, by the connection it was issued to.
   */
  lemma IdsForGood(states: seq<System>, steps: seq<Step>, i: nat, j: nat)
    requires Run(states, steps) && i < j < |states|
    requires Grants(states[i], steps[i])
    ensures var s, d := states[i].manager.nextSessionId, steps[i].msg.deviceId;
            && Holds(View(states[i + 1]), steps[i].id, s)
            && s < states[j].manager.nextSessionId
            && (s in states[j].manager.sessionToDevice ==> states[j].manager.sessionToDevice[s] == d)
            && (forall id: nat :: Holds(View(states[j]), id, s) ==>
                  id == steps[i].id && View(states[j]).held[id][s] == d)
            && (forall id: nat, jd: nat, t: u64 ::
                 Holds(View(states[j]), id, t) && Holds(View(states[j]), jd, t) ==> id == jd)
  {
    AlwaysOrderly(states, steps, i);
    AlwaysOrderly(states, steps, j);
    StepGrantsOrShrinks(states[i], steps[i]);
    AgesAlong(states, steps, i + 1, j);
    var l, s, d := View(states[i]), states[i].manager.nextSessionId, steps[i].msg.deviceId;
    forall id: nat | Holds(View(states[j]), id, s) ensures id == steps[i].id && View(states[j]).held[id][s] == d {
      assert Holds(View(states[i + 1]), id, s);
      assert id != steps[i].id ==> Holds(l, id, s);
    }
  }

  // ----- The authentication gate -----

  /** A phase in which a connection has done nothing but talk. */
  predicate Harmless(phase: Phase) {
    match phase
    case Bridged(_) => false
    case Working(Answered(action)) => action.Reply?
    case Working(p) => p.Admitted?
    case _ => true
  }

  ghost predicate Barred(sys: System) {
    forall id :: id in sys.peers ==>
      && sys.peers[id].conn.key == sys.key
      && (Locked(sys.peers[id].conn) ==> sys.peers[id].conn.sessions == map[] && Harmless(sys.peers[id].phase))
  }

  function Actor(step: Step): Option<nat> {
    match step
    case Accept(id, _) => Some(id)
    case Receive(id, _, _) => Some(id)
    case Respond(id, _, _) => Some(id)
    case Disconnect(id) => Some(id)
    case Sweep(id, _) => Some(id)
    case Forget(id) => Some(id)
    case Plug(_, _, _) => None
    case Unplug(_) => None
  }

  /** A move of one connection keeps the gate if that connection keeps it. */
  lemma PutBarred(sys: System, m': Manager, id: nat, peer: Peer)
    requires Barred(sys) && peer.conn.key == sys.key
    requires Locked(peer.conn) ==> peer.conn.sessions == map[] && Harmless(peer.phase)
    ensures Barred(Put(sys, m', id, peer))
  {
    hide Locked, Harmless;
  }

  lemma BarredPeer(sys: System, id: nat)
    requires Barred(sys) && id in sys.peers
    ensures sys.peers[id].conn.key == sys.key
    ensures Locked(sys.peers[id].conn) ==> sys.peers[id].conn.sessions == map[] && Harmless(sys.peers[id].phase)
  {
    hide Locked, Harmless;
  }

  lemma RespondBarred(sys: System, id: nat, io: Transfer.Io, sendable: bool)
    requires Barred(sys) && id in sys.peers && sys.peers[id].phase.Working?
    ensures Barred(Responded(sys, id, io, sendable))
    ensures Locked(Responded(sys, id, io, sendable).peers[id].conn) ==> Locked(sys.peers[id].conn)
  {
    hide Finish, Barred;
    BarredPeer(sys, id);
    FinishBarred(sys.peers[id].conn, sys.peers[id].phase.pending, io);
    var (c', action) := Finish(sys.peers[id].conn, sys.peers[id].phase.pending, io);
    PutBarred(sys, sys.manager, id, Peer(c', NextPhase(action, sendable)));
  }

  lemma NothingVisited(order: seq<Visit>)
    ensures Visited(order) == {} ==> order == []
  {
    if order != [] {
      assert order[0].session in Visited(order);
    }
  }

  lemma SweepOfNothing(c: Conn, m: Manager, order: seq<Visit>)
    requires c.sessions == map[] && Enumerates(order, c.sessions.Keys)
    ensures m.DetachAllForSessions(order) == m
  {
    EnumerationVisits(order, c.sessions.Keys);
    NothingVisited(order);
    EmptySweep(m);
  }

  /** The gate holds on, an admitted connection stays admitted, and no step of a connection that
      is still locked after it has touched the manager. */
  lemma StepBarred(sys: System, step: Step)
    requires Barred(sys) && Enabled(sys, step)
    ensures var sys' := Apply(sys, step);
            && sys'.key == sys.key && Barred(sys')
            && (forall id :: id in sys.peers ==>
                  id in sys'.peers && (Locked(sys'.peers[id].conn) ==> Locked(sys.peers[id].conn)))
            && (forall id :: Actor(step) == Some(id) && Locked(sys'.peers[id].conn) ==> sys'.manager == sys.manager)
  {
    hide Begin, Finish, Manager.DetachAllForSessions, Barred, Enumerates;
    if Actor(step).Some? && Actor(step).value in sys.peers {
      BarredPeer(sys, Actor(step).value);
    }
    match step
    case Accept(id, addr) => PutBarred(sys, sys.manager, id, Peer(Conn(sys.key, false, map[], addr), Reading));
    case Receive(id, msg, env) => ReceiveBarred(sys, id, msg, env);
    case Respond(id, io, sendable) => RespondBarred(sys, id, io, sendable);
    case Disconnect(id) => PutBarred(sys, sys.manager, id, sys.peers[id].(phase := Leaving));
    case Sweep(id, order) =>
      PutBarred(sys, sys.manager.DetachAllForSessions(order), id, sys.peers[id].(phase := Cleared));
      if Locked(sys.peers[id].conn) {
        SweepOfNothing(sys.peers[id].conn, sys.manager, order);
      }
    case Forget(id) => PutBarred(sys, sys.manager, id, Peer(sys.peers[id].conn.(sessions := map[]), Closed));
    case Plug(_, _, _) => SamePeersBarred(sys, Apply(sys, step).manager);
    case Unplug(_) => SamePeersBarred(sys, Apply(sys, step).manager);
  }

  lemma SamePeersBarred(sys: System, m': Manager)
    requires Barred(sys)
    ensures Barred(sys.(manager := m'))
  {
    hide Locked, Harmless;
  }

  lemma EmptySweep(m: Manager)
    ensures m.DetachAllForSessions([]) == m
  {
  }

  /** Finishing a request never locks a connection again, and one that stays locked has only talked. */
  lemma FinishBarred(c: Conn, p: Pending, io: Transfer.Io)
    ensures var (c', action) := Finish(c, p, io);
            && c'.key == c.key
            && (Locked(c') ==> Locked(c))
            && (Locked(c') && c.sessions == map[] && Harmless(Working(p)) ==> c' == c && action.Reply?)
  {
  }

  /** What a request of a connection behind the gate may leave pending. */
  lemma BeginBarred(m: Manager, c: Conn, msg: Message, env: Env)
    requires Locked(c)
    ensures Begin(m, c, msg, env).0 == m && Harmless(Working(Begin(m, c, msg, env).1))
  {
    hide BeginOpen, ServerReply;
  }

  lemma ReceiveBarred(sys: System, id: nat, msg: Message, env: Env)
    requires Barred(sys) && At(sys, id, Reading)
    ensures var sys' := Apply(sys, Receive(id, msg, env));
            && Barred(sys')
            && (Locked(sys.peers[id].conn) ==> sys'.manager == sys.manager)
  {
    hide Begin, Finish, Manager.DetachAllForSessions, Barred;
    var c := sys.peers[id].conn;
    BarredPeer(sys, id);
    if Locked(c) {
      BeginBarred(sys.manager, c, msg, env);
    }
    var (m', p) := Begin(sys.manager, c, msg, env);
    PutBarred(sys, m', id, Peer(c, Working(p)));
  }

  lemma {:induction false} AlwaysBarred(states: seq<System>, steps: seq<Step>, k: nat)
    requires Run(states, steps) && k < |states|
    ensures Barred(states[k]) && states[k].key == states[0].key
  {
    hide Apply;
    if k > 0 {
      AlwaysBarred(states, steps, k - 1);
      StepBarred(states[k - 1], steps[k - 1]);
    }
  }

  /**
   With a key configured, a connection that has not been admitted by the end of a run has, over the
   whole run and whatever it sent, never changed the device manager, holds no session, and has not
   been handed to a bridge.
   */
  lemma {:induction false} UnadmittedDidNothing(states: seq<System>, steps: seq<Step>, k: nat, id: nat)
    requires Run(states, steps) && k < |states|
    requires id in states[k].peers && Locked(states[k].peers[id].conn)
    ensures Held(states[k].peers[id]) == map[] && !states[k].peers[id].phase.Bridged?
    ensures forall j: nat :: j < k && Actor(steps[j]) == Some(id) ==> states[j + 1].manager == states[j].manager
    ensures forall j: nat :: j <= k && id in states[j].peers ==> Locked(states[j].peers[id].conn)
  {
    hide Apply;
    AlwaysBarred(states, steps, k);
    assert Harmless(states[k].peers[id].phase);
    if k > 0 {
      AlwaysBarred(states, steps, k - 1);
      StepBarred(states[k - 1], steps[k - 1]);
      if id in states[k - 1].peers {
        UnadmittedDidNothing(states, steps, k - 1, id);
      } else {
        NeverSeenBefore(states, steps, k - 1, id);
      }
    }
  }

  /** Connections are never forgotten, so one that is absent has not acted yet. */
  lemma {:induction false} NeverSeenBefore(states: seq<System>, steps: seq<Step>, k: nat, id: nat)
    requires Run(states, steps) && k < |states| && id !in states[k].peers
    ensures forall j: nat :: j < k ==> Actor(steps[j]) != Some(id)
    ensures forall j: nat :: j <= k ==> id !in states[j].peers
  {
    hide Barred, Begin, Finish, Manager.DetachAllForSessions, Enumerates;
    if k > 0 {
      AlwaysBarred(states, steps, k - 1);
      StepBarred(states[k - 1], steps[k - 1]);
      NeverSeenBefore(states, steps, k - 1, id);
    }
  }

  // ----- The same gate, for one connection's message loop -----

  /** How many messages the loop handles before it ends. */
  function Handled(m: Manager, c: Conn, input: seq<Incoming>): (n: nat)
    ensures n <= |input|
    decreases |input|
  {
    if |input| == 0 then 0
    else
      var (m', c', action) := Handle(m, c, input[0].message, input[0].env);
      if !input[0].sendable || action.ToBridge? then 1 else 1 + Handled(m', c', input[1..])
  }

  predicate Admission(key: Option<Key>, msg: Message) {
    msg.Hello? && Admits(key, msg.hello)
  }

  /** The loop ends authenticated if and only if it began so or handled an acceptable Hello;
      Hellos that fail later change nothing. */
  lemma {:induction false} FlagExactly(m: Manager, c: Conn, input: seq<Incoming>)
    ensures Serve(m, c, input).conn.authenticated
            <==> c.authenticated || exists k: nat :: k < Handled(m, c, input) && Admission(c.key, input[k].message)
    decreases |input|
  {
    hide Handle, Admits;
    if |input| > 0 {
      var (m', c', action) := Handle(m, c, input[0].message, input[0].env);
      FinishFlag(m, c, input[0].message, input[0].env);
      if input[0].sendable && !action.ToBridge? {
        FlagExactly(m', c', input[1..]);
        var n := Handled(m, c, input);
        if k: nat :| k < n - 1 && Admission(c.key, input[1..][k].message) {
          assert Admission(c.key, input[k + 1].message);
        }
        if k: nat :| k < n && Admission(c.key, input[k].message) {
          assert k > 0 ==> input[1..][k - 1] == input[k];
        }
      }
    }
  }

  lemma FinishFlag(m: Manager, c: Conn, msg: Message, env: Env)
    ensures var (_, c', _) := Handle(m, c, msg, env);
            c'.key == c.key && (c'.authenticated <==> c.authenticated || Admission(c.key, msg))
  {
    hide BeginOpen, Executed, ServerReply, Admits;
    Clients.OpenKeepsFlag(m, c, msg, env);
  }

  /** The only replies a locked connection gets. */
  predicate LockedReply(r: Message) {
    || r == Pong
    || (r.HelloResponse? && !r.helloReply.authAccepted)
    || (r.Error? && r.error.code == AuthenticationFailed)
  }

  lemma LockedHandle(m: Manager, c: Conn, msg: Message, env: Env)
    requires Locked(c) && !Admission(c.key, msg)
    ensures var (m', c', action) := Handle(m, c, msg, env);
            m' == m && c' == c && action.Reply? && LockedReply(action.message)
  {
    hide BeginOpen;
  }

  lemma {:induction false} NothingWithoutHello(m: Manager, c: Conn, input: seq<Incoming>)
    requires Locked(c)
    requires forall k :: 0 <= k < |input| ==> !Admission(c.key, input[k].message)
    ensures var end := Serve(m, c, input);
            && end.manager == m && end.conn == c && end.handoff.None?
            && forall r :: r in end.replies ==> LockedReply(r)
    decreases |input|
  {
    hide Handle, Locked, LockedReply, Admission;
    if |input| > 0 {
      LockedHandle(m, c, input[0].message, input[0].env);
      NothingWithoutHello(m, c, input[1..]);
    }
  }

  // ----- The USB records -----

  lemma RequestKeepsSound(m: Manager, c: Conn, msg: Message, env: Env)
    requires Conservation.Sound(m)
    ensures Conservation.Sound(Begin(m, c, msg, env).0)
  {
    hide Begin, Conservation.Sound, Conservation.Apply;
    Requests.BeginPerforms(m, c, msg, env);
    var op := Requests.RequestOp(c, msg, env);
    if op.Some? {
      Conservation.SoundKept(m, op.value);
    }
  }

  lemma StepKeepsSound(sys: System, step: Step)
    requires Conservation.Sound(sys.manager) && Enabled(sys, step)
    ensures Conservation.Sound(Apply(sys, step).manager)
  {
    hide Begin, Finish, Manager.DetachAllForSessions, Enumerates, Conservation.Sound, Conservation.Apply;
    match step
    case Receive(id, msg, env) => RequestKeepsSound(sys.manager, sys.peers[id].conn, msg, env);
    case Sweep(_, order) => Cleanup.SweepKeepsSound(sys.manager, order);
    case Plug(d, p, device) => Conservation.SoundKept(sys.manager, Conservation.PlugOp(d, p, device));
    case Unplug(d) => Conservation.SoundKept(sys.manager, Conservation.UnplugOp(d));
    case _ =>
  }

  /** In every reachable state the claims on record are the claims the handles hold. */
  lemma {:induction false} AlwaysSound(states: seq<System>, steps: seq<Step>, k: nat)
    requires Run(states, steps) && k < |states|
    requires Conservation.BusSound(states[0].manager.bus)
    ensures Conservation.Sound(states[k].manager)
  {
    hide Apply, Enabled;
    if k > 0 {
      AlwaysSound(states, steps, k - 1);
      StepKeepsSound(states[k - 1], steps[k - 1]);
    }
  }

  /** In a run of well-behaved clients, cleaning up after a connection gives the same server state
      for every order in which its session ids come out of the hash map. */
  lemma CleanupSameForEveryOrder(states: seq<System>, steps: seq<Step>, k: nat, id: nat,
                                 env: u64 -> DetachEnv, a: seq<Visit>, b: seq<Visit>)
    requires MatchedRun(states, steps) && k < |states| && Conservation.BusSound(states[0].manager.bus)
    requires Enabled(states[k], Sweep(id, a)) && Enabled(states[k], Sweep(id, b))
    requires Follows(a, env) && Follows(b, env)
    ensures Apply(states[k], Sweep(id, a)) == Apply(states[k], Sweep(id, b))
  {
    hide Inv, Begin, Finish, Manager.DetachAllForSessions;
    var sys := states[k];
    AlwaysInv(states, steps, k);
    AlwaysSound(states, steps, k);
    CleanupTakesExactly(sys, id, a);
    OrderMattersIff(sys.manager, sys.peers[id].conn.sessions.Keys);
    Cleanup.OrderIrrelevant(sys.manager, sys.peers[id].conn.sessions.Keys, env, a, b);
  }
}
