/** Cleaning up after a connection, down to the USB bus: the whole final state, for every order. */
module Cleanup {
  import opened Bytes
  import opened Devices
  import opened Ledgers
  import opened Connections
  import opened Sweeps
  import opened Conservation
  import Usb

  predicate Live(m: Manager, s: u64) {
    s in m.sessionToDevice && m.sessionToDevice[s] in m.attachments
  }

  function AttachmentOf(m: Manager, s: u64): Attachment
    requires Live(m, s)
  {
    m.attachments[m.sessionToDevice[s]]
  }

  /** The handle and the device of a swept session, as its detach leaves them. */
  function LeftHandle(m: Manager, s: u64, env: DetachEnv): Usb.OpenHandle
    requires Live(m, s)
  {
    var a := AttachmentOf(m, s);
    var handle := m.bus.Handle(a.handle);
    handle.(claimed := StillClaimed(handle.claimed, a.claimedInterfaces, env.release))
  }

  function LeftDevice(m: Manager, s: u64, env: DetachEnv): Usb.UsbDevice
    requires Live(m, s)
  {
    var a := AttachmentOf(m, s);
    var device := m.bus.DeviceOf(a.handle);
    device.(drivers := device.drivers + GivenBack(LeftHandle(m, s, env).claimed, a.detachedKernelDrivers, env.reattach))
  }

  ghost predicate UsesHandle(m: Manager, done: set<u64>, h: nat) {
    exists s :: s in done && Live(m, s) && AttachmentOf(m, s).handle == h
  }

  ghost predicate UsesDevice(m: Manager, done: set<u64>, p: nat) {
    exists s :: s in done && Live(m, s) && m.bus.Handle(AttachmentOf(m, s).handle).device == p
  }

  /** `b` is the bus of `m` after the sessions in `done` were swept. */
  ghost predicate SweptBus(m: Manager, done: set<u64>, env: u64 -> DetachEnv, b: Usb.Bus) {
    && SamePlaces(m.bus, b)
    && (forall s :: s in done && Live(m, s) ==>
          && b.Handle(AttachmentOf(m, s).handle) == LeftHandle(m, s, env(s))
          && b.DeviceOf(AttachmentOf(m, s).handle) == LeftDevice(m, s, env(s)))
    && (forall h :: h in m.bus.handles && !UsesHandle(m, done, h) ==> b.handles[h] == m.bus.handles[h])
    && (forall p :: p in m.bus.devices && !UsesDevice(m, done, p) ==> b.devices[p] == m.bus.devices[p])
  }

  lemma {:induction false} SweepKeepsSound(m: Manager, order: seq<Visit>)
    requires Sound(m)
    ensures Sound(m.DetachAllForSessions(order))
  {
    if |order| > 0 {
      var n := |order| - 1;
      SweepKeepsSound(m, order[..n]);
      var before, s := m.DetachAllForSessions(order[..n]), order[n].session;
      if s in before.sessionToDevice {
        DetachKeepsSound(before, before.sessionToDevice[s], s, order[n].env);
      }
    }
  }

  /** A swept bus is determined by the sessions swept, whatever their order. */
  lemma SweptBusUnique(m: Manager, done: set<u64>, env: u64 -> DetachEnv, b: Usb.Bus, b': Usb.Bus)
    requires Sound(m) && SweptBus(m, done, env, b) && SweptBus(m, done, env, b')
    ensures b == b'
  {
    forall h | h in m.bus.handles ensures b.handles[h] == b'.handles[h] {
      if UsesHandle(m, done, h) {
        var s :| s in done && Live(m, s) && AttachmentOf(m, s).handle == h;
      }
    }
    forall p | p in m.bus.devices ensures b.devices[p] == b'.devices[p] {
      if UsesDevice(m, done, p) {
        var s :| s in done && Live(m, s) && m.bus.Handle(AttachmentOf(m, s).handle).device == p;
        var h := AttachmentOf(m, s).handle;
        assert h in m.bus.handles;
        assert b.Handle(h).device == p && b'.Handle(h).device == p;
        assert b.DeviceOf(h) == LeftDevice(m, s, env(s)) && b'.DeviceOf(h) == LeftDevice(m, s, env(s));
      }
    }
    assert b.handles == b'.handles && b.devices == b'.devices;
  }

  lemma NewSessionUnused(m: Manager, done: set<u64>, s: u64)
    requires Sound(m) && Live(m, s) && s !in done && NoSharing(m, done + {s})
    ensures !UsesHandle(m, done, AttachmentOf(m, s).handle)
    ensures !UsesDevice(m, done, m.bus.Handle(AttachmentOf(m, s).handle).device)
  {
    forall t | t in done && Live(m, t) ensures m.sessionToDevice[t] != m.sessionToDevice[s] {
      assert t in done + {s} && s in done + {s};
    }
  }

  /** One more handle and device in their final state. */
  function Settle(m: Manager, s: u64, env: DetachEnv, b: Usb.Bus): Usb.Bus
    requires Live(m, s)
  {
    var h := AttachmentOf(m, s).handle;
    b.WithClaimed(h, LeftHandle(m, s, env).claimed).WithDrivers(h, LeftDevice(m, s, env).drivers)
  }

  lemma SettleOwn(m: Manager, done: set<u64>, s: u64, env: DetachEnv, b: Usb.Bus)
    requires Sound(m) && Live(m, s) && SamePlaces(m.bus, b)
    requires var h := AttachmentOf(m, s).handle;
             b.Handle(h) == m.bus.Handle(h) && b.DeviceOf(h) == m.bus.DeviceOf(h)
    ensures var b' := Settle(m, s, env, b);
            var h := AttachmentOf(m, s).handle;
            && SamePlaces(m.bus, b') && b'.Handle(h) == LeftHandle(m, s, env) && b'.DeviceOf(h) == LeftDevice(m, s, env)
            && (forall k :: k in b.handles && k != h ==> b'.handles[k] == b.handles[k])
            && (forall p :: p in b.devices && p != m.bus.Handle(h).device ==> b'.devices[p] == b.devices[p])
  {
    var h := AttachmentOf(m, s).handle;
    assert h in m.bus.handles && m.bus.handles[h].device in m.bus.devices;
  }

  lemma OthersStay(m: Manager, done: set<u64>, env: u64 -> DetachEnv, b: Usb.Bus, b': Usb.Bus, h: nat)
    requires Sound(m) && SweptBus(m, done, env, b) && SamePlaces(m.bus, b') && h in m.bus.handles
    requires !UsesHandle(m, done, h) && !UsesDevice(m, done, m.bus.Handle(h).device)
    requires forall k :: k in b.handles && k != h ==> b'.handles[k] == b.handles[k]
    requires forall p :: p in b.devices && p != m.bus.Handle(h).device ==> b'.devices[p] == b.devices[p]
    ensures forall t :: t in done && Live(m, t) ==>
              && b'.Handle(AttachmentOf(m, t).handle) == LeftHandle(m, t, env(t))
              && b'.DeviceOf(AttachmentOf(m, t).handle) == LeftDevice(m, t, env(t))
  {
    forall t | t in done && Live(m, t)
      ensures b'.Handle(AttachmentOf(m, t).handle) == LeftHandle(m, t, env(t))
              && b'.DeviceOf(AttachmentOf(m, t).handle) == LeftDevice(m, t, env(t))
    {
      var k := AttachmentOf(m, t).handle;
      assert k in m.bus.handles && k != h && m.bus.Handle(k).device != m.bus.Handle(h).device;
      assert b.Handle(k) == LeftHandle(m, t, env(t));
    }
  }

  lemma UsesMore(m: Manager, done: set<u64>, s: u64)
    requires Live(m, s)
    ensures forall k :: UsesHandle(m, done + {s}, k) <==> UsesHandle(m, done, k) || k == AttachmentOf(m, s).handle
    ensures forall p :: UsesDevice(m, done + {s}, p) <==>
                        UsesDevice(m, done, p) || p == m.bus.Handle(AttachmentOf(m, s).handle).device
  {
    var more := done + {s};
    assert s in more;
    assert forall t :: t in done ==> t in more;
  }

  lemma SettleSwept(m: Manager, done: set<u64>, env: u64 -> DetachEnv, b: Usb.Bus, s: u64)
    requires Sound(m) && Live(m, s) && s !in done && NoSharing(m, done + {s}) && SweptBus(m, done, env, b)
    ensures SweptBus(m, done + {s}, env, Settle(m, s, env(s), b))
  {
    hide Settle, LeftHandle, LeftDevice, UsesHandle, UsesDevice, NoSharing, Sound, SamePlaces;
    NewSessionUnused(m, done, s);
    UsesMore(m, done, s);
    var b', h := Settle(m, s, env(s), b), AttachmentOf(m, s).handle;
    HandleKnown(m, s);
    SameKeys(m.bus, b);
    SettleOwn(m, done, s, env(s), b);
    OthersStay(m, done, env, b, b', h);
  }

  lemma HandleKnown(m: Manager, s: u64)
    requires Sound(m) && Live(m, s)
    ensures Known(m.bus, AttachmentOf(m, s).handle)
  {
  }

  lemma SameKeys(b: Usb.Bus, b': Usb.Bus)
    requires SamePlaces(b, b')
    ensures b'.handles.Keys == b.handles.Keys && b'.devices.Keys == b.devices.Keys
    ensures forall h :: h in b.handles ==> b'.Handle(h).device == b.Handle(h).device
  {
  }

  /** What one visit of the sweep does to the bus. */
  lemma VisitSettles(m: Manager, done: set<u64>, env: u64 -> DetachEnv, m': Manager, s: u64)
    requires Sound(m) && Sound(m') && s !in done && NoSharing(m, done + {s})
    requires SweptTo(m, done, m') && SweptBus(m, done, env, m'.bus)
    ensures var b := m'.DetachSession(Visit(s, env(s))).bus;
            b == if Live(m, s) then Settle(m, s, env(s), m'.bus) else m'.bus
  {
    if Live(m, s) {
      StillLive(m, done, m', s);
      NewSessionUnused(m, done, s);
      DetachForm(m', m.sessionToDevice[s], s, env(s));
    } else if s in m'.sessionToDevice {
      assert m'.sessionToDevice[s] == m.sessionToDevice[s];
    }
  }

  lemma StillLive(m: Manager, done: set<u64>, m': Manager, s: u64)
    requires Live(m, s) && s !in done && NoSharing(m, done + {s}) && SweptTo(m, done, m')
    ensures Live(m', s) && m'.sessionToDevice[s] == m.sessionToDevice[s] && AttachmentOf(m', s) == AttachmentOf(m, s)
  {
    assert m.sessionToDevice[s] !in Image(m.sessionToDevice, done) by {
      forall t | t in done && t in m.sessionToDevice ensures m.sessionToDevice[t] != m.sessionToDevice[s] {
        assert t in done + {s} && s in done + {s};
      }
    }
  }

  /** After the sweep, bus and tables are those of the sessions swept. */
  lemma {:induction false} SweepSettlesBus(m: Manager, order: seq<Visit>, env: u64 -> DetachEnv)
    requires Sound(m) && Distinct(order) && NoSharing(m, Visited(order)) && Follows(order, env)
    ensures SweptBus(m, Visited(order), env, m.DetachAllForSessions(order).bus)
  {
    if |order| > 0 {
      var n := |order| - 1;
      var front, s := order[..n], order[n].session;
      assert order == front + [order[n]] && order[n] in order;
      assert Visited(order) == Visited(front) + {s};
      LastIsNew(order);
      SweepSettlesBus(m, front, env);
      SweepExactly(m, front);
      SweepKeepsSound(m, front);
      var m' := m.DetachAllForSessions(front);
      VisitSettles(m, Visited(front), env, m', s);
      if Live(m, s) {
        SettleSwept(m, Visited(front), env, m'.bus, s);
      } else {
        DeadSessionSettled(m, Visited(front), env, m'.bus, s);
      }
    }
  }

  lemma LastIsNew(order: seq<Visit>)
    requires |order| > 0 && Distinct(order)
    ensures order[|order| - 1].session !in Visited(order[..|order| - 1])
  {
    var n := |order| - 1;
    forall v | v in order[..n] ensures v.session != order[n].session {
      var k :| 0 <= k < n && order[k] == v;
    }
  }

  lemma DeadSessionSettled(m: Manager, done: set<u64>, env: u64 -> DetachEnv, b: Usb.Bus, s: u64)
    requires SweptBus(m, done, env, b) && !Live(m, s)
    ensures SweptBus(m, done + {s}, env, b)
  {
    assert forall h :: UsesHandle(m, done, h) ==> UsesHandle(m, done + {s}, h);
    assert forall p :: UsesDevice(m, done, p) ==> UsesDevice(m, done + {s}, p);
  }

  /**
   The hash map gives the ids in any order; given what each detach meets, the whole final state,
   tables and bus, is the same for all of them.
   */
  lemma OrderIrrelevant(m: Manager, sessions: set<u64>, env: u64 -> DetachEnv, a: seq<Visit>, b: seq<Visit>)
    requires Sound(m) && NoSharing(m, sessions)
    requires Enumerates(a, sessions) && Enumerates(b, sessions) && Follows(a, env) && Follows(b, env)
    ensures m.DetachAllForSessions(a) == m.DetachAllForSessions(b)
  {
    EnumerationVisits(a, sessions);
    EnumerationVisits(b, sessions);
    UnsharedIsIndependent(m, sessions, a, b);
    SweepSettlesBus(m, a, env);
    SweepSettlesBus(m, b, env);
    SweptBusUnique(m, sessions, env, m.DetachAllForSessions(a).bus, m.DetachAllForSessions(b).bus);
  }
}
