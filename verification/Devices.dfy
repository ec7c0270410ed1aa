/**
 The device manager shared by all connections: which devices are attached, which session
 each belongs to, and the next session id.  `Manager` is its state as a value, with one
 function per locked operation; the class holds the same state and updates it in place.
 */
module Devices {
  import opened Bytes
  import opened Messages
  import Usb

  type Address = nat
  type Faults = map<nat, Usb.UsbCode>

  datatype Attachment = Attachment(
    handle: nat,
    vendorId: u16,
    productId: u16,
    detachedKernelDrivers: seq<byte>,
    claimedInterfaces: seq<byte>,
    clientAddr: Address)

  datatype Failure =
    | AlreadyAttached
    | NotAttached
    | NoSuchDevice(device: DeviceId)
    | BadSession(session: u64)
    | UsbFailure(code: Usb.UsbCode)

  /** `u64` addition, as a release build performs it. */
  function Successor(n: u64): u64 {
    (n + 1) % U64_LIMIT
  }

  // ----- What the outside world decides about an operation -----

  /** Errors of enumeration and of open, whether the active configuration can be read, and
      which of the driver-detach calls (by position) fail. */
  datatype AttachEnv = AttachEnv(
    listError: Option<Usb.UsbCode>,
    openError: Option<Usb.UsbCode>,
    configReadable: bool,
    faults: Faults)

  /** Which release and reattach calls of a detach (by position) fail. */
  datatype DetachEnv = DetachEnv(release: Faults, reattach: Faults)

  const NO_FAULTS := DetachEnv(map[], map[])

  /** The outcome of a set-configuration: a fault, or the new interfaces and their drivers. */
  datatype ConfigureEnv = ConfigureEnv(fault: Option<Usb.UsbCode>, interfaces: seq<byte>, drivers: set<byte>)

  /** One session of a cleanup, with the outcome of the USB calls made for it. */
  datatype Visit = Visit(session: u64, env: DetachEnv)

  function FaultAt(faults: Faults, k: nat): Option<Usb.UsbCode> {
    if k in faults then Some(faults[k]) else None
  }

  // ----- The loops over interfaces -----

  /** Detaches the drivers of `interfaces` in order; the second part lists those it detached. */
  function DetachDrivers(b: Usb.Bus, h: nat, interfaces: seq<byte>, faults: Faults): (Usb.Bus, seq<byte>) {
    if |interfaces| == 0 then (b, [])
    else
      var n := |interfaces| - 1;
      var (before, detached) := DetachDrivers(b, h, interfaces[..n], faults);
      var (after, error) := Usb.DetachKernelDriver(before, h, interfaces[n], FaultAt(faults, n));
      (after, if error.None? then detached + [interfaces[n]] else detached)
  }

  function ReleaseAll(b: Usb.Bus, h: nat, interfaces: seq<byte>, faults: Faults): Usb.Bus {
    if |interfaces| == 0 then b
    else
      var n := |interfaces| - 1;
      Usb.ReleaseInterface(ReleaseAll(b, h, interfaces[..n], faults), h, interfaces[n], FaultAt(faults, n)).0
  }

  function ReattachAll(b: Usb.Bus, h: nat, interfaces: seq<byte>, faults: Faults): Usb.Bus {
    if |interfaces| == 0 then b
    else
      var n := |interfaces| - 1;
      Usb.AttachKernelDriver(ReattachAll(b, h, interfaces[..n], faults), h, interfaces[n], FaultAt(faults, n)).0
  }

  function Without(s: seq<byte>, i: byte): seq<byte> {
    if |s| == 0 then []
    else Without(s[..|s| - 1], i) + if s[|s| - 1] == i then [] else [s[|s| - 1]]
  }

  // ----- The locked operations -----

  datatype Manager = Manager(
    attachments: map<DeviceId, Attachment>,
    sessionToDevice: map<u64, DeviceId>,
    nextSessionId: u64,
    bus: Usb.Bus) {

    function Attach(d: DeviceId, addr: Address, env: AttachEnv): (Manager, Result<u64, Failure>) {
      if d in attachments then (this, Err(AlreadyAttached))
      else if env.listError.Some? then (this, Err(UsbFailure(env.listError.value)))
      else if d !in bus.present then (this, Err(NoSuchDevice(d)))
      else if env.openError.Some? then (this, Err(UsbFailure(env.openError.value)))
      else
        var device := bus.Device(bus.present[d]);
        var (withHandle, h) := bus.Open(bus.present[d]);
        var interfaces := if env.configReadable then device.interfaces else [];
        var (bus', detached) := DetachDrivers(withHandle, h, interfaces, env.faults);
        var a := Attachment(h, device.vendorId, device.productId, detached, [], addr);
        (Manager(attachments[d := a], sessionToDevice[nextSessionId := d], Successor(nextSessionId), bus'),
         Ok(nextSessionId))
    }

    /** The device and the session id are removed without comparing one with the other. */
    function Detach(d: DeviceId, s: u64, env: DetachEnv): (Manager, Result<(), Failure>) {
      if d !in attachments then (this, Err(NotAttached))
      else
        var a := attachments[d];
        var released := ReleaseAll(bus, a.handle, a.claimedInterfaces, env.release);
        var bus' := ReattachAll(released, a.handle, a.detachedKernelDrivers, env.reattach);
        (Manager(attachments - {d}, sessionToDevice - {s}, nextSessionId, bus'), Ok(()))
    }

    function DetachSession(v: Visit): Manager {
      if v.session in sessionToDevice then Detach(sessionToDevice[v.session], v.session, v.env).0 else this
    }

    function DetachAllForSessions(visits: seq<Visit>): Manager {
      if |visits| == 0 then this
      else DetachAllForSessions(visits[..|visits| - 1]).DetachSession(visits[|visits| - 1])
    }

    function Claim(d: DeviceId, i: byte, fault: Option<Usb.UsbCode>): (Manager, Result<(), Failure>) {
      if d !in attachments then (this, Err(NotAttached))
      else
        var a := attachments[d];
        var (bus', error) := Usb.ClaimInterface(bus, a.handle, i, fault);
        if error.Some? then (this.(bus := bus'), Err(UsbFailure(error.value)))
        else
          var a' := a.(claimedInterfaces := a.claimedInterfaces + [i]);
          (this.(bus := bus', attachments := attachments[d := a']), Ok(()))
    }

    function Release(d: DeviceId, i: byte, fault: Option<Usb.UsbCode>): (Manager, Result<(), Failure>) {
      if d !in attachments then (this, Err(NotAttached))
      else
        var a := attachments[d];
        var (bus', error) := Usb.ReleaseInterface(bus, a.handle, i, fault);
        if error.Some? then (this.(bus := bus'), Err(UsbFailure(error.value)))
        else
          var a' := a.(claimedInterfaces := Without(a.claimedInterfaces, i));
          (this.(bus := bus', attachments := attachments[d := a']), Ok(()))
    }

    function Configure(d: DeviceId, env: ConfigureEnv): (Manager, Result<(), Failure>) {
      if d !in attachments then (this, Err(NotAttached))
      else
        var h := attachments[d].handle;
        var (bus', error) := Usb.SetActiveConfiguration(bus, h, env.interfaces, env.drivers, env.fault);
        (this.(bus := bus'), if error.Some? then Err(UsbFailure(error.value)) else Ok(()))
    }

    /** The device at the address now is not the one that was attached. */
    predicate Replugged(d: DeviceId)
      requires d in attachments
    {
      d in bus.present
      && var now := bus.Device(bus.present[d]);
         now.vendorId != attachments[d].vendorId || now.productId != attachments[d].productId
    }

    /** `listed` says whether enumeration finds the device and its descriptor can be read. */
    function GetHandle(d: DeviceId, listed: bool): Result<nat, Failure> {
      if d !in attachments then Err(NotAttached)
      else if listed && Replugged(d) then Err(NoSuchDevice(d))
      else Ok(attachments[d].handle)
    }

    function ValidateSession(s: u64, d: DeviceId): Result<(), Failure> {
      if s in sessionToDevice && sessionToDevice[s] == d then Ok(()) else Err(BadSession(s))
    }
  }

  // ----- The manager as an object -----

  class DeviceManager {
    var context: Usb.Bus
    var attachments: map<DeviceId, Attachment>
    var nextSessionId: u64
    var sessionToDevice: map<u64, DeviceId>

    ghost function Value(): Manager
      reads this
    {
      Manager(attachments, sessionToDevice, nextSessionId, context)
    }

    constructor (bus: Usb.Bus)
      ensures Value() == Manager(map[], map[], 1, bus)
    {
      context, attachments, nextSessionId, sessionToDevice := bus, map[], 1, map[];
    }

    method Attach(d: DeviceId, addr: Address, env: AttachEnv) returns (r: Result<u64, Failure>)
      modifies this
      ensures (Value(), r) == old(Value()).Attach(d, addr, env)
    {
      if d in attachments {
        return Err(AlreadyAttached);
      }
      if env.listError.Some? {
        return Err(UsbFailure(env.listError.value));
      }
      if d !in context.present {
        return Err(NoSuchDevice(d));
      }
      if env.openError.Some? {
        return Err(UsbFailure(env.openError.value));
      }
      var device := context.Device(context.present[d]);
      var (withHandle, h) := context.Open(context.present[d]);
      context := withHandle;

      var detached := [];
      if env.configReadable {
        var interfaces := device.interfaces;
        for k := 0 to |interfaces|
          invariant (context, detached) == DetachDrivers(withHandle, h, interfaces[..k], env.faults)
          invariant Value() == old(Value()).(bus := context)
        {
          var (bus, error) := Usb.DetachKernelDriver(context, h, interfaces[k], FaultAt(env.faults, k));
          assert interfaces[..k + 1][..k] == interfaces[..k];
          context := bus;
          if error.None? {
            detached := detached + [interfaces[k]];
          }
        }
        assert interfaces[..|interfaces|] == interfaces;
      }

      var s := nextSessionId;
      nextSessionId := Successor(nextSessionId);
      sessionToDevice := sessionToDevice[s := d];
      attachments := attachments[d := Attachment(h, device.vendorId, device.productId, detached, [], addr)];
      r := Ok(s);
    }

    /** The first loop of a detach: every recorded claim, errors ignored. */
    method ReleaseInterfaces(a: Attachment, faults: Faults)
      modifies this`context
      ensures context == ReleaseAll(old(context), a.handle, a.claimedInterfaces, faults)
    {
      for k := 0 to |a.claimedInterfaces|
        invariant context == ReleaseAll(old(context), a.handle, a.claimedInterfaces[..k], faults)
      {
        assert a.claimedInterfaces[..k + 1][..k] == a.claimedInterfaces[..k];
        context := Usb.ReleaseInterface(context, a.handle, a.claimedInterfaces[k], FaultAt(faults, k)).0;
      }
      assert a.claimedInterfaces[..|a.claimedInterfaces|] == a.claimedInterfaces;
    }

    /** The second loop: every driver that was detached, errors ignored. */
    method ReattachDrivers(a: Attachment, faults: Faults)
      modifies this`context
      ensures context == ReattachAll(old(context), a.handle, a.detachedKernelDrivers, faults)
    {
      for k := 0 to |a.detachedKernelDrivers|
        invariant context == ReattachAll(old(context), a.handle, a.detachedKernelDrivers[..k], faults)
      {
        assert a.detachedKernelDrivers[..k + 1][..k] == a.detachedKernelDrivers[..k];
        context := Usb.AttachKernelDriver(context, a.handle, a.detachedKernelDrivers[k], FaultAt(faults, k)).0;
      }
      assert a.detachedKernelDrivers[..|a.detachedKernelDrivers|] == a.detachedKernelDrivers;
    }

    method Detach(d: DeviceId, s: u64, env: DetachEnv) returns (r: Result<(), Failure>)
      modifies this
      ensures (Value(), r) == old(Value()).Detach(d, s, env)
    {
      if d !in attachments {
        return Err(NotAttached);
      }
      var a := attachments[d];
      attachments := attachments - {d};
      ReleaseInterfaces(a, env.release);
      ReattachDrivers(a, env.reattach);
      sessionToDevice := sessionToDevice - {s};
      r := Ok(());
    }

    method DetachAllForSessions(visits: seq<Visit>)
      modifies this
      ensures Value() == old(Value()).DetachAllForSessions(visits)
    {
      for k := 0 to |visits|
        invariant Value() == old(Value()).DetachAllForSessions(visits[..k])
      {
        assert visits[..k + 1][..k] == visits[..k];
        var v := visits[k];
        if v.session in sessionToDevice {
          var _ := Detach(sessionToDevice[v.session], v.session, v.env);
        }
      }
      assert visits[..|visits|] == visits;
    }

    method ClaimInterface(d: DeviceId, i: byte, fault: Option<Usb.UsbCode>) returns (r: Result<(), Failure>)
      modifies this
      ensures (Value(), r) == old(Value()).Claim(d, i, fault)
    {
      if d !in attachments {
        return Err(NotAttached);
      }
      var a := attachments[d];
      var (bus, error) := Usb.ClaimInterface(context, a.handle, i, fault);
      context := bus;
      if error.Some? {
        return Err(UsbFailure(error.value));
      }
      attachments := attachments[d := a.(claimedInterfaces := a.claimedInterfaces + [i])];
      r := Ok(());
    }

    method ReleaseInterface(d: DeviceId, i: byte, fault: Option<Usb.UsbCode>) returns (r: Result<(), Failure>)
      modifies this
      ensures (Value(), r) == old(Value()).Release(d, i, fault)
    {
      if d !in attachments {
        return Err(NotAttached);
      }
      var a := attachments[d];
      var (bus, error) := Usb.ReleaseInterface(context, a.handle, i, fault);
      context := bus;
      if error.Some? {
        return Err(UsbFailure(error.value));
      }
      attachments := attachments[d := a.(claimedInterfaces := Without(a.claimedInterfaces, i))];
      r := Ok(());
    }

    method SetConfiguration(d: DeviceId, env: ConfigureEnv) returns (r: Result<(), Failure>)
      modifies this
      ensures (Value(), r) == old(Value()).Configure(d, env)
    {
      if d !in attachments {
        return Err(NotAttached);
      }
      var h := attachments[d].handle;
      var (bus, error) := Usb.SetActiveConfiguration(context, h, env.interfaces, env.drivers, env.fault);
      context := bus;
      r := if error.Some? then Err(UsbFailure(error.value)) else Ok(());
    }

    method GetHandle(d: DeviceId, listed: bool) returns (r: Result<nat, Failure>)
      ensures r == Value().GetHandle(d, listed)
    {
      if d !in attachments {
        return Err(NotAttached);
      }
      var a := attachments[d];
      if listed && d in context.present {
        var now := context.Device(context.present[d]);
        if now.vendorId != a.vendorId || now.productId != a.productId {
          return Err(NoSuchDevice(d));
        }
      }
      r := Ok(a.handle);
    }

    method ValidateSession(s: u64, d: DeviceId) returns (r: Result<(), Failure>)
      ensures r == Value().ValidateSession(s, d)
    {
      if s in sessionToDevice && sessionToDevice[s] == d {
        return Ok(());
      }
      r := Err(BadSession(s));
    }
  }
}
