/**
 What the manager owes the machine it runs on: the interfaces it believes claimed are the ones
 its handle has claimed, and the kernel drivers it took away come back.
 */
module Conservation {
  import opened Bytes
  import opened Messages
  import Usb
  import opened Devices

  function Elements(s: seq<byte>): set<byte> {
    set i | i in s
  }

  lemma ElementsAppend(s: seq<byte>, i: byte)
    ensures Elements(s + [i]) == Elements(s) + {i}
  {
  }

  lemma {:induction false} ElementsWithout(s: seq<byte>, i: byte)
    ensures Elements(Without(s, i)) == Elements(s) - {i}
  {
    if |s| > 0 {
      var front := s[..|s| - 1];
      ElementsWithout(front, i);
      assert s == front + [s[|s| - 1]];
      ElementsAppend(front, s[|s| - 1]);
      if s[|s| - 1] != i {
        ElementsAppend(Without(front, i), s[|s| - 1]);
      } else {
        assert Without(front, i) + [] == Without(front, i);
      }
    }
  }

  // ----- The loops in closed form -----

  predicate Known(b: Usb.Bus, h: nat) {
    h in b.handles && b.handles[h].device in b.devices
  }

  lemma {:induction false} DetachDriversForm(b: Usb.Bus, h: nat, interfaces: seq<byte>, faults: Faults)
    requires Known(b, h)
    ensures var (after, detached) := DetachDrivers(b, h, interfaces, faults);
            && Elements(detached) <= b.DeviceOf(h).drivers
            && after == b.WithDrivers(h, b.DeviceOf(h).drivers - Elements(detached))
  {
    var drivers := b.DeviceOf(h).drivers;
    if |interfaces| == 0 {
      assert drivers - Elements([]) == drivers;
      assert b.WithDrivers(h, drivers) == b;
    } else {
      var n := |interfaces| - 1;
      DetachDriversForm(b, h, interfaces[..n], faults);
      var (before, detached) := DetachDrivers(b, h, interfaces[..n], faults);
      ElementsAppend(detached, interfaces[n]);
      assert drivers - Elements(detached) - {interfaces[n]} == drivers - Elements(detached + [interfaces[n]]);
    }
  }

  /** What stays claimed when every release of some interfaces met a fault. */
  function StillClaimed(claimed: set<byte>, interfaces: seq<byte>, faults: Faults): set<byte> {
    set i | i in claimed && forall k: nat :: k < |interfaces| && interfaces[k] == i ==> k in faults
  }

  lemma {:induction false} ReleaseAllForm(b: Usb.Bus, h: nat, interfaces: seq<byte>, faults: Faults)
    requires Known(b, h)
    ensures ReleaseAll(b, h, interfaces, faults)
         == b.WithClaimed(h, StillClaimed(b.handles[h].claimed, interfaces, faults))
  {
    var claimed := b.handles[h].claimed;
    if |interfaces| == 0 {
      assert StillClaimed(claimed, [], faults) == claimed;
      assert b.WithClaimed(h, claimed) == b;
    } else {
      var n := |interfaces| - 1;
      ReleaseAllForm(b, h, interfaces[..n], faults);
      var front := StillClaimed(claimed, interfaces[..n], faults);
      var all := StillClaimed(claimed, interfaces, faults);
      assert forall k: nat :: k < n ==> interfaces[..n][k] == interfaces[k];
      if n in faults || interfaces[n] !in front {
        assert front == all;
      } else {
        assert front - {interfaces[n]} == all;
      }
      assert b.WithClaimed(h, front).WithClaimed(h, all) == b.WithClaimed(h, all);
    }
  }

  /** The interfaces a reattach loop gives back: asked for, without a fault, and not claimed. */
  function GivenBack(claimed: set<byte>, interfaces: seq<byte>, faults: Faults): set<byte> {
    set k: nat | k < |interfaces| && k !in faults && interfaces[k] !in claimed :: interfaces[k]
  }

  lemma {:induction false} ReattachAllForm(b: Usb.Bus, h: nat, interfaces: seq<byte>, faults: Faults)
    requires Known(b, h)
    ensures ReattachAll(b, h, interfaces, faults)
         == b.WithDrivers(h, b.DeviceOf(h).drivers + GivenBack(b.handles[h].claimed, interfaces, faults))
  {
    var drivers, claimed := b.DeviceOf(h).drivers, b.handles[h].claimed;
    if |interfaces| == 0 {
      assert drivers + GivenBack(claimed, [], faults) == drivers;
      assert b.WithDrivers(h, drivers) == b;
    } else {
      var n := |interfaces| - 1;
      ReattachAllForm(b, h, interfaces[..n], faults);
      var front := GivenBack(claimed, interfaces[..n], faults);
      var all := GivenBack(claimed, interfaces, faults);
      assert forall k: nat :: k < n ==> interfaces[..n][k] == interfaces[k];
      if n in faults || interfaces[n] in claimed {
        assert front == all;
      } else {
        assert front + {interfaces[n]} == all;
        assert drivers + front + {interfaces[n]} == drivers + all;
      }
      assert b.WithDrivers(h, drivers + front).WithDrivers(h, drivers + all) == b.WithDrivers(h, drivers + all);
    }
  }

  // ----- Operations and the invariant they keep -----

  /** Every locked operation of the manager, and the plugging and unplugging around it. */
  datatype Op =
    | AttachOp(d: DeviceId, addr: Address, attachEnv: AttachEnv)
    | DetachOp(d: DeviceId, s: u64, detachEnv: DetachEnv)
    | ClaimOp(d: DeviceId, i: byte, fault: Option<Usb.UsbCode>)
    | ReleaseOp(d: DeviceId, i: byte, fault: Option<Usb.UsbCode>)
    | ConfigureOp(d: DeviceId, configureEnv: ConfigureEnv)
    | PlugOp(d: DeviceId, p: nat, device: Usb.UsbDevice)
    | UnplugOp(d: DeviceId)

  /** A device that is plugged in is a new one, even at an address that was used before. */
  predicate Legal(m: Manager, op: Op) {
    op.PlugOp? ==> op.p !in m.bus.devices
  }

  function Apply(m: Manager, op: Op): Manager {
    match op
    case AttachOp(d, addr, env) => m.Attach(d, addr, env).0
    case DetachOp(d, s, env) => m.Detach(d, s, env).0
    case ClaimOp(d, i, fault) => m.Claim(d, i, fault).0
    case ReleaseOp(d, i, fault) => m.Release(d, i, fault).0
    case ConfigureOp(d, env) => m.Configure(d, env).0
    case PlugOp(d, p, device) =>
      m.(bus := m.bus.(present := m.bus.present[d := p], devices := m.bus.devices[p := device]))
    case UnplugOp(d) => m.(bus := m.bus.(present := m.bus.present - {d}))
  }

  function DeviceFor(m: Manager, d: DeviceId): nat
    requires d in m.attachments
  {
    m.bus.Handle(m.attachments[d].handle).device
  }

  ghost predicate BusSound(b: Usb.Bus) {
    && (forall h :: h in b.handles ==> h < b.nextHandle && b.handles[h].device in b.devices)
    && (forall d :: d in b.present ==> b.present[d] in b.devices)
    && (forall d, e :: d in b.present && e in b.present && b.present[d] == b.present[e] ==> d == e)
  }

  /** Each attachment has a handle of its own on a device of its own. */
  ghost predicate HandlesSound(m: Manager) {
    && (forall d :: d in m.attachments ==> m.attachments[d].handle in m.bus.handles)
    && (forall d, e :: d in m.attachments && e in m.attachments && d != e ==>
          m.attachments[d].handle != m.attachments[e].handle && DeviceFor(m, d) != DeviceFor(m, e))
    && (forall d, e :: d in m.attachments && e in m.bus.present && m.bus.present[e] == DeviceFor(m, d) ==> d == e)
  }

  /** The interfaces recorded as claimed are those the handle has claimed. */
  ghost predicate ClaimsTracked(m: Manager) {
    forall d :: d in m.attachments ==>
      Elements(m.attachments[d].claimedInterfaces) == m.bus.Handle(m.attachments[d].handle).claimed
  }

  ghost predicate Sound(m: Manager) {
    BusSound(m.bus) && HandlesSound(m) && ClaimsTracked(m)
  }

  /** Nothing moved: same devices at the same addresses, and every handle on the same device. */
  ghost predicate SamePlaces(b: Usb.Bus, b': Usb.Bus) {
    && b'.present == b.present && b'.nextHandle == b.nextHandle
    && b'.handles.Keys == b.handles.Keys && b'.devices.Keys == b.devices.Keys
    && (forall h :: h in b.handles ==> b'.handles[h].device == b.handles[h].device)
  }

  lemma SamePlacesKeepBus(b: Usb.Bus, b': Usb.Bus)
    requires BusSound(b) && SamePlaces(b, b')
    ensures BusSound(b')
  {
  }

  lemma SamePlacesKeep(m: Manager, m': Manager)
    requires BusSound(m.bus) && HandlesSound(m)
    requires SamePlaces(m.bus, m'.bus)
    requires forall d :: d in m'.attachments ==>
               d in m.attachments && m'.attachments[d].handle == m.attachments[d].handle
    ensures BusSound(m'.bus) && HandlesSound(m')
    ensures forall d :: d in m'.attachments ==> DeviceFor(m', d) == DeviceFor(m, d)
  {
    SamePlacesKeepBus(m.bus, m'.bus);
    forall d | d in m'.attachments ensures DeviceFor(m', d) == DeviceFor(m, d) {
      assert m.attachments[d].handle in m.bus.handles;
    }
    hide DeviceFor, BusSound;
    assert m'.bus.present == m.bus.present && m'.bus.handles.Keys == m.bus.handles.Keys;
  }

  /** From `m` to `m'` only the attachment of `d`, its handle and its device may have changed, and the
      attachment may have gone. */
  ghost predicate Touches(m: Manager, m': Manager, d: DeviceId) {
    && d in m.attachments && SamePlaces(m.bus, m'.bus)
    && (forall e :: e in m'.attachments ==> e in m.attachments && m'.attachments[e].handle == m.attachments[e].handle)
    && (forall e :: e in m.attachments && e != d ==> e in m'.attachments && m'.attachments[e] == m.attachments[e])
    && (forall h :: h in m.bus.handles && h != m.attachments[d].handle ==> m'.bus.handles[h] == m.bus.handles[h])
    && (forall p :: p in m.bus.devices && p != DeviceFor(m, d) ==> m'.bus.devices[p] == m.bus.devices[p])
  }

  lemma TouchesKeepSound(m: Manager, m': Manager, d: DeviceId)
    requires Sound(m) && Touches(m, m', d)
    requires d in m'.attachments ==>
               Elements(m'.attachments[d].claimedInterfaces) == m'.bus.Handle(m.attachments[d].handle).claimed
    ensures Sound(m')
  {
    SamePlacesKeep(m, m');
    forall e | e in m'.attachments
      ensures Elements(m'.attachments[e].claimedInterfaces) == m'.bus.Handle(m'.attachments[e].handle).claimed
    {
      if e != d {
        assert m.attachments[e].handle in m.bus.handles;
        assert m.attachments[e].handle != m.attachments[d].handle;
      }
    }
  }

  /** A successful attach in closed form. */
  lemma AttachForm(m: Manager, d: DeviceId, addr: Address, env: AttachEnv)
    requires Sound(m) && m.Attach(d, addr, env).1.Ok?
    ensures var m' := m.Attach(d, addr, env).0;
            var p, h := m.bus.present[d], m.bus.nextHandle;
            && m'.attachments.Keys == m.attachments.Keys + {d}
            && (forall e :: e in m.attachments ==> m'.attachments[e] == m.attachments[e])
            && m'.attachments[d].handle == h
            && m'.attachments[d].claimedInterfaces == []
            && var taken := Elements(m'.attachments[d].detachedKernelDrivers);
               && taken <= m.bus.devices[p].drivers
               && m'.bus == m.bus.Open(p).0.WithDrivers(h, m.bus.devices[p].drivers - taken)
  {
    var p := m.bus.present[d];
    var (withHandle, h) := m.bus.Open(p);
    var interfaces := if env.configReadable then m.bus.Device(p).interfaces else [];
    DetachDriversForm(withHandle, h, interfaces, env.faults);
  }

  lemma OpenKeepsBusSound(b: Usb.Bus, p: nat, drivers: set<byte>)
    requires BusSound(b) && p in b.devices
    ensures BusSound(b.Open(p).0.WithDrivers(b.nextHandle, drivers))
  {
  }

  /** `m'` is `m` with device `p` opened for `d` and the drivers in `taken` off it. */
  ghost predicate Opened(m: Manager, d: DeviceId, taken: set<byte>, m': Manager) {
    && d in m.bus.present && m.bus.present[d] in m.bus.devices
    && m'.attachments.Keys == m.attachments.Keys + {d}
    && (forall e :: e in m.attachments ==> m'.attachments[e] == m.attachments[e])
    && m'.attachments[d].handle == m.bus.nextHandle
    && m'.attachments[d].claimedInterfaces == []
    && var p := m.bus.present[d];
       m'.bus == m.bus.Open(p).0.WithDrivers(m.bus.nextHandle, m.bus.devices[p].drivers - taken)
  }

  lemma OpenedDevices(m: Manager, d: DeviceId, taken: set<byte>, m': Manager)
    requires Sound(m) && d !in m.attachments && Opened(m, d, taken, m')
    ensures forall e :: e in m.attachments ==> DeviceFor(m', e) == DeviceFor(m, e)
    ensures DeviceFor(m', d) == m.bus.present[d] && m'.bus.present == m.bus.present
    ensures forall e :: e in m.attachments ==>
              m'.bus.Handle(m.attachments[e].handle).claimed == m.bus.Handle(m.attachments[e].handle).claimed
    ensures m'.bus.Handle(m.bus.nextHandle).claimed == {} && m.bus.nextHandle in m'.bus.handles
    ensures m.bus.handles.Keys <= m'.bus.handles.Keys
  {
  }

  lemma OpenedIsSound(m: Manager, d: DeviceId, taken: set<byte>, m': Manager)
    requires Sound(m) && d !in m.attachments && Opened(m, d, taken, m')
    ensures Sound(m')
  {
    OpenKeepsBusSound(m.bus, m.bus.present[d], m.bus.devices[m.bus.present[d]].drivers - taken);
    OpenedDevices(m, d, taken, m');
    OpenedHandlesSound(m, d, taken, m');
    assert Elements([]) == {};
  }

  lemma OpenedHandlesSound(m: Manager, d: DeviceId, taken: set<byte>, m': Manager)
    requires Sound(m) && d !in m.attachments && Opened(m, d, taken, m')
    ensures HandlesSound(m')
  {
    OpenedDevices(m, d, taken, m');
    OpenedKeys(m, d, taken, m');
    OpenedApart(m, d);
    hide Opened, DeviceFor, ClaimsTracked;
  }

  lemma OpenedApart(m: Manager, d: DeviceId)
    requires Sound(m) && d !in m.attachments && d in m.bus.present
    ensures forall e :: e in m.attachments ==>
              m.attachments[e].handle != m.bus.nextHandle && DeviceFor(m, e) != m.bus.present[d]
  {
    hide DeviceFor, ClaimsTracked;
    forall e | e in m.attachments
      ensures m.attachments[e].handle != m.bus.nextHandle && DeviceFor(m, e) != m.bus.present[d]
    {
      assert m.attachments[e].handle in m.bus.handles;
    }
  }

  lemma OpenedKeys(m: Manager, d: DeviceId, taken: set<byte>, m': Manager)
    requires Opened(m, d, taken, m')
    ensures m'.attachments.Keys == m.attachments.Keys + {d} && m'.attachments[d].handle == m.bus.nextHandle
    ensures forall e :: e in m.attachments ==> m'.attachments[e] == m.attachments[e]
  {
  }

  lemma AttachKeepsSound(m: Manager, d: DeviceId, addr: Address, env: AttachEnv)
    requires Sound(m)
    ensures Sound(m.Attach(d, addr, env).0)
  {
    hide DetachDrivers;
    if m.Attach(d, addr, env).1.Ok? {
      AttachForm(m, d, addr, env);
      var m' := m.Attach(d, addr, env).0;
      OpenedIsSound(m, d, Elements(m'.attachments[d].detachedKernelDrivers), m');
    }
  }

  /** A detach in closed form. */
  lemma DetachForm(m: Manager, d: DeviceId, s: u64, env: DetachEnv)
    requires Sound(m) && d in m.attachments
    ensures var a := m.attachments[d];
            var left := StillClaimed(m.bus.handles[a.handle].claimed, a.claimedInterfaces, env.release);
            var drivers := m.bus.DeviceOf(a.handle).drivers + GivenBack(left, a.detachedKernelDrivers, env.reattach);
            m.Detach(d, s, env).0.bus == m.bus.WithClaimed(a.handle, left).WithDrivers(a.handle, drivers)
  {
    var a := m.attachments[d];
    ReleaseAllForm(m.bus, a.handle, a.claimedInterfaces, env.release);
    var released := ReleaseAll(m.bus, a.handle, a.claimedInterfaces, env.release);
    ReattachAllForm(released, a.handle, a.detachedKernelDrivers, env.reattach);
  }

  lemma DetachTouches(m: Manager, d: DeviceId, s: u64, env: DetachEnv)
    requires Sound(m) && d in m.attachments
    ensures Touches(m, m.Detach(d, s, env).0, d) && d !in m.Detach(d, s, env).0.attachments
  {
    hide ReleaseAll, ReattachAll, StillClaimed, GivenBack, Sound;
    DetachForm(m, d, s, env);
    AttachedIsKnown(m, d);
  }

  lemma DetachKeepsSound(m: Manager, d: DeviceId, s: u64, env: DetachEnv)
    requires Sound(m)
    ensures Sound(m.Detach(d, s, env).0)
  {
    if d in m.attachments {
      hide Manager.Detach, Sound, Touches;
      DetachTouches(m, d, s, env);
      TouchesKeepSound(m, m.Detach(d, s, env).0, d);
    }
  }

  /** The manager with one attachment's claims replaced, on record and on the bus. */
  function WithClaims(m: Manager, d: DeviceId, record: seq<byte>, claimed: set<byte>): Manager
    requires d in m.attachments
  {
    var a := m.attachments[d];
    m.(bus := m.bus.WithClaimed(a.handle, claimed), attachments := m.attachments[d := a.(claimedInterfaces := record)])
  }

  lemma ClaimForm(m: Manager, d: DeviceId, i: byte)
    requires d in m.attachments && m.Claim(d, i, None).1.Ok?
    ensures var a := m.attachments[d];
            m.Claim(d, i, None).0 == WithClaims(m, d, a.claimedInterfaces + [i], m.bus.Handle(a.handle).claimed + {i})
  {
  }

  lemma ReleaseForm(m: Manager, d: DeviceId, i: byte)
    requires d in m.attachments && i in m.bus.Handle(m.attachments[d].handle).claimed
    ensures var a := m.attachments[d];
            m.Release(d, i, None)
            == (WithClaims(m, d, Without(a.claimedInterfaces, i), m.bus.Handle(a.handle).claimed - {i}), Ok(()))
  {
  }

  lemma ClaimsReplacedTouch(m: Manager, d: DeviceId, record: seq<byte>, claimed: set<byte>)
    requires d in m.attachments && Known(m.bus, m.attachments[d].handle)
    ensures var m' := WithClaims(m, d, record, claimed);
            Touches(m, m', d) && d in m'.attachments && m'.bus.Handle(m.attachments[d].handle).claimed == claimed
  {
  }

  lemma NothingTouches(m: Manager, d: DeviceId)
    requires d in m.attachments
    ensures Touches(m, m, d)
  {
  }

  lemma AttachedIsKnown(m: Manager, d: DeviceId)
    requires Sound(m) && d in m.attachments
    ensures Known(m.bus, m.attachments[d].handle)
    ensures Elements(m.attachments[d].claimedInterfaces) == m.bus.Handle(m.attachments[d].handle).claimed
  {
    assert m.attachments[d].handle in m.bus.handles;
  }

  /** What a claim or a release of an interface changes, if it changes anything. */
  ghost predicate ClaimsChanged(m: Manager, m': Manager, d: DeviceId) {
    && Touches(m, m', d) && d in m'.attachments
    && Elements(m'.attachments[d].claimedInterfaces) == m'.bus.Handle(m.attachments[d].handle).claimed
    && m'.bus.devices == m.bus.devices
    && m'.attachments[d].detachedKernelDrivers == m.attachments[d].detachedKernelDrivers
  }

  lemma ClaimTouches(m: Manager, d: DeviceId, i: byte, fault: Option<Usb.UsbCode>)
    requires Sound(m) && d in m.attachments
    ensures ClaimsChanged(m, m.Claim(d, i, fault).0, d)
  {
    hide Sound, Touches, Elements;
    var a := m.attachments[d];
    AttachedIsKnown(m, d);
    if m.Claim(d, i, fault).1.Ok? {
      ClaimForm(m, d, i);
      ElementsAppend(a.claimedInterfaces, i);
      ClaimsReplacedTouch(m, d, a.claimedInterfaces + [i], m.bus.Handle(a.handle).claimed + {i});
    } else {
      NothingTouches(m, d);
    }
  }

  lemma ClaimKeepsSound(m: Manager, d: DeviceId, i: byte, fault: Option<Usb.UsbCode>)
    requires Sound(m)
    ensures Sound(m.Claim(d, i, fault).0)
  {
    if d in m.attachments {
      hide Manager.Claim, Sound, Elements;
      ClaimTouches(m, d, i, fault);
      TouchesKeepSound(m, m.Claim(d, i, fault).0, d);
    }
  }

  lemma ReleaseTouches(m: Manager, d: DeviceId, i: byte, fault: Option<Usb.UsbCode>)
    requires Sound(m) && d in m.attachments
    ensures ClaimsChanged(m, m.Release(d, i, fault).0, d)
  {
    hide Sound, Touches, Elements;
    var a := m.attachments[d];
    AttachedIsKnown(m, d);
    if m.Release(d, i, fault).1.Ok? {
      ReleaseForm(m, d, i);
      ElementsWithout(a.claimedInterfaces, i);
      ClaimsReplacedTouch(m, d, Without(a.claimedInterfaces, i), m.bus.Handle(a.handle).claimed - {i});
    } else {
      NothingTouches(m, d);
    }
  }

  lemma ReleaseKeepsSound(m: Manager, d: DeviceId, i: byte, fault: Option<Usb.UsbCode>)
    requires Sound(m)
    ensures Sound(m.Release(d, i, fault).0)
  {
    if d in m.attachments {
      hide Manager.Release, Sound, Elements;
      ReleaseTouches(m, d, i, fault);
      TouchesKeepSound(m, m.Release(d, i, fault).0, d);
    }
  }

  lemma ConfigureTouches(m: Manager, d: DeviceId, env: ConfigureEnv)
    requires Sound(m) && d in m.attachments
    ensures var m' := m.Configure(d, env).0;
            Touches(m, m', d) && m'.attachments == m.attachments && m'.bus.handles == m.bus.handles
  {
    hide Sound;
    AttachedIsKnown(m, d);
  }

  lemma ConfigureKeepsSound(m: Manager, d: DeviceId, env: ConfigureEnv)
    requires Sound(m)
    ensures Sound(m.Configure(d, env).0)
  {
    if d in m.attachments {
      hide Manager.Configure, Touches, Elements;
      ConfigureTouches(m, d, env);
      TouchesKeepSound(m, m.Configure(d, env).0, d);
    }
  }

  lemma PlugKeepsSound(m: Manager, d: DeviceId, p: nat, device: Usb.UsbDevice)
    requires Sound(m) && p !in m.bus.devices
    ensures Sound(Apply(m, PlugOp(d, p, device)))
  {
    var m' := Apply(m, PlugOp(d, p, device));
    assert forall e :: e in m.attachments ==> DeviceFor(m', e) == DeviceFor(m, e) && DeviceFor(m, e) != p;
  }

  /** No operation of the manager, and no plugging or unplugging, makes its records untrue. */
  lemma SoundKept(m: Manager, op: Op)
    requires Sound(m) && Legal(m, op)
    ensures Sound(Apply(m, op))
  {
    hide Manager.Attach, Manager.Detach, Manager.Claim, Manager.Release, Manager.Configure;
    match op
    case AttachOp(d, addr, env) => AttachKeepsSound(m, d, addr, env);
    case DetachOp(d, s, env) => DetachKeepsSound(m, d, s, env);
    case ClaimOp(d, i, fault) => ClaimKeepsSound(m, d, i, fault);
    case ReleaseOp(d, i, fault) => ReleaseKeepsSound(m, d, i, fault);
    case ConfigureOp(d, env) => ConfigureKeepsSound(m, d, env);
    case PlugOp(d, p, device) => PlugKeepsSound(m, d, p, device);
    case UnplugOp(d) =>
  }

  function ApplyAll(m: Manager, ops: seq<Op>): Manager
    decreases |ops|
  {
    if |ops| == 0 then m else ApplyAll(Apply(m, ops[0]), ops[1..])
  }

  predicate AllLegal(m: Manager, ops: seq<Op>)
    decreases |ops|
  {
    |ops| == 0 || (Legal(m, ops[0]) && AllLegal(Apply(m, ops[0]), ops[1..]))
  }

  // ----- One attachment, from attach to detach -----

  /** Detaching the device, or giving it another configuration. */
  predicate Disturbs(op: Op, d: DeviceId) {
    (op.DetachOp? || op.ConfigureOp?) && op.d == d
  }

  /** Device `p` lacks exactly the drivers the attachment at `d` took from the set `original`. */
  ghost predicate Borrowed(m: Manager, d: DeviceId, h: nat, p: nat, original: set<byte>) {
    && d in m.attachments
    && m.attachments[d].handle == h
    && Known(m.bus, h)
    && m.bus.handles[h].device == p
    && m.bus.devices[p].drivers + Elements(m.attachments[d].detachedKernelDrivers) == original
  }

  lemma AttachBorrows(m: Manager, d: DeviceId, addr: Address, env: AttachEnv)
    requires Sound(m) && m.Attach(d, addr, env).1.Ok?
    ensures var p := m.bus.present[d];
            Borrowed(m.Attach(d, addr, env).0, d, m.bus.nextHandle, p, m.bus.devices[p].drivers)
  {
    AttachForm(m, d, addr, env);
  }

  lemma BorrowedOverAttach(m: Manager, e: DeviceId, addr: Address, env: AttachEnv,
                           d: DeviceId, h: nat, p: nat, original: set<byte>)
    requires Sound(m) && Borrowed(m, d, h, p, original)
    ensures Borrowed(m.Attach(e, addr, env).0, d, h, p, original)
  {
    if m.Attach(e, addr, env).1.Ok? {
      AttachForm(m, e, addr, env);
      assert DeviceFor(m, d) == p && m.bus.present[e] != p;
    }
  }

  /** What touches another attachment leaves the loan alone. */
  lemma TouchesKeepBorrowed(m: Manager, m': Manager, e: DeviceId, d: DeviceId, h: nat, p: nat, original: set<byte>)
    requires Sound(m) && Touches(m, m', e) && e != d && Borrowed(m, d, h, p, original)
    ensures Borrowed(m', d, h, p, original)
  {
    assert DeviceFor(m, d) == p && DeviceFor(m, e) != p && m.attachments[e].handle != h;
  }

  /** So does what leaves the devices and the drivers on record as they are. */
  lemma ClaimsKeepBorrowed(m: Manager, m': Manager, d: DeviceId, h: nat, p: nat, original: set<byte>)
    requires Borrowed(m, d, h, p, original) && ClaimsChanged(m, m', d)
    ensures Borrowed(m', d, h, p, original)
  {
  }

  lemma PlugsKeepBorrowed(m: Manager, op: Op, d: DeviceId, h: nat, p: nat, original: set<byte>)
    requires (op.PlugOp? || op.UnplugOp?) && Legal(m, op) && Borrowed(m, d, h, p, original)
    ensures Borrowed(Apply(m, op), d, h, p, original)
  {
  }

  lemma OpTouches(m: Manager, op: Op)
    requires Sound(m) && (op.DetachOp? || op.ClaimOp? || op.ReleaseOp? || op.ConfigureOp?) && op.d in m.attachments
    ensures Touches(m, Apply(m, op), op.d)
    ensures op.ClaimOp? || op.ReleaseOp? ==> ClaimsChanged(m, Apply(m, op), op.d)
  {
    hide Manager.Attach, Manager.Detach, Manager.Claim, Manager.Release, Manager.Configure, Sound, Touches;
    match op
    case DetachOp(e, s, env) => DetachTouches(m, e, s, env);
    case ClaimOp(e, i, fault) => ClaimTouches(m, e, i, fault);
    case ReleaseOp(e, i, fault) => ReleaseTouches(m, e, i, fault);
    case ConfigureOp(e, env) => ConfigureTouches(m, e, env);
  }

  lemma UnattachedOpDoesNothing(m: Manager, op: Op)
    requires (op.DetachOp? || op.ClaimOp? || op.ReleaseOp? || op.ConfigureOp?) && op.d !in m.attachments
    ensures Apply(m, op) == m
  {
  }

  lemma AttachOpIsAttach(m: Manager, op: Op)
    requires op.AttachOp?
    ensures Apply(m, op) == m.Attach(op.d, op.addr, op.attachEnv).0
  {
    hide Manager.Attach;
  }

  lemma BorrowedKept(m: Manager, op: Op, d: DeviceId, h: nat, p: nat, original: set<byte>)
    requires Sound(m) && Legal(m, op) && !Disturbs(op, d)
    requires Borrowed(m, d, h, p, original)
    ensures Borrowed(Apply(m, op), d, h, p, original)
  {
    hide Apply, Sound, Borrowed, ClaimsChanged, Manager.Attach;
    if op.PlugOp? || op.UnplugOp? {
      PlugsKeepBorrowed(m, op, d, h, p, original);
    } else if op.AttachOp? {
      AttachOpIsAttach(m, op);
      BorrowedOverAttach(m, op.d, op.addr, op.attachEnv, d, h, p, original);
    } else if op.d !in m.attachments {
      UnattachedOpDoesNothing(m, op);
    } else {
      OpTouches(m, op);
      if op.d == d {
        ClaimsKeepBorrowed(m, Apply(m, op), d, h, p, original);
      } else {
        TouchesKeepBorrowed(m, Apply(m, op), op.d, d, h, p, original);
      }
    }
  }

  lemma {:induction false} BorrowedThroughout(m: Manager, ops: seq<Op>, d: DeviceId, h: nat, p: nat,
                                              original: set<byte>)
    requires Sound(m) && AllLegal(m, ops)
    requires forall op :: op in ops ==> !Disturbs(op, d)
    requires Borrowed(m, d, h, p, original)
    ensures Sound(ApplyAll(m, ops)) && Borrowed(ApplyAll(m, ops), d, h, p, original)
    decreases |ops|
  {
    if |ops| > 0 {
      SoundKept(m, ops[0]);
      BorrowedKept(m, ops[0], d, h, p, original);
      BorrowedThroughout(Apply(m, ops[0]), ops[1..], d, h, p, original);
    }
  }

  /**
   What a detach leaves behind, whatever calls fail: exactly the claims whose every release met
   a fault stay, and a driver comes back unless its own reattach met a fault or its interface
   is one of those.
   */
  lemma DetachExactly(m: Manager, d: DeviceId, s: u64, env: DetachEnv)
    requires Sound(m) && d in m.attachments
    ensures var a := m.attachments[d];
            var bus := m.Detach(d, s, env).0.bus;
            var left := StillClaimed(Elements(a.claimedInterfaces), a.claimedInterfaces, env.release);
            && bus.Handle(a.handle).claimed == left
            && bus.DeviceOf(a.handle).drivers
               == m.bus.DeviceOf(a.handle).drivers + GivenBack(left, a.detachedKernelDrivers, env.reattach)
  {
    DetachForm(m, d, s, env);
  }

  lemma NothingStillClaimed(claims: seq<byte>)
    ensures StillClaimed(Elements(claims), claims, map[]) == {}
  {
    forall i | i in Elements(claims) ensures i !in StillClaimed(Elements(claims), claims, map[]) {
      var k: nat :| k < |claims| && claims[k] == i;
    }
  }

  lemma AllGivenBack(detached: seq<byte>)
    ensures GivenBack({}, detached, map[]) == Elements(detached)
  {
    forall i | i in detached ensures i in GivenBack({}, detached, map[]) {
      var k: nat :| k < |detached| && detached[k] == i;
      assert detached[k] in GivenBack({}, detached, map[]);
    }
  }

  /** When no release fails, nothing is claimed any more once the reattach loop starts, repeated
      claims included, so no reattach is refused as busy. */
  lemma ReleasedBeforeReattach(m: Manager, d: DeviceId)
    requires Sound(m) && d in m.attachments
    ensures var a := m.attachments[d];
            ReleaseAll(m.bus, a.handle, a.claimedInterfaces, map[]).Handle(a.handle).claimed == {}
  {
    var a := m.attachments[d];
    ReleaseAllForm(m.bus, a.handle, a.claimedInterfaces, map[]);
    NothingStillClaimed(a.claimedInterfaces);
  }

  /**
   Attach a device, let any operations follow that neither detach nor reconfigure it (claims and
   releases in any number and order, other devices coming and going), then detach it with no
   call failing: nothing stays claimed, and its kernel drivers are those it had before.
   */
  lemma LifeOfAnAttachment(m: Manager, d: DeviceId, addr: Address, env: AttachEnv, ops: seq<Op>, s: u64)
    requires Sound(m) && m.Attach(d, addr, env).1.Ok?
    requires AllLegal(m.Attach(d, addr, env).0, ops)
    requires forall op :: op in ops ==> !Disturbs(op, d)
    ensures var end := ApplyAll(m.Attach(d, addr, env).0, ops).Detach(d, s, NO_FAULTS);
            && end.1 == Ok(())
            && end.0.bus.Handle(m.bus.nextHandle).claimed == {}
            && end.0.bus.Device(m.bus.present[d]).drivers == m.bus.Device(m.bus.present[d]).drivers
  {
    var h, p := m.bus.nextHandle, m.bus.present[d];
    var m1 := m.Attach(d, addr, env).0;
    AttachKeepsSound(m, d, addr, env);
    AttachBorrows(m, d, addr, env);
    BorrowedThroughout(m1, ops, d, h, p, m.bus.devices[p].drivers);
    var m2 := ApplyAll(m1, ops);
    DetachForm(m2, d, s, NO_FAULTS);
    NothingStillClaimed(m2.attachments[d].claimedInterfaces);
    AllGivenBack(m2.attachments[d].detachedKernelDrivers);
  }
}
