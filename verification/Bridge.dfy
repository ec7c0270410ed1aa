/**
 The server's bridge session and the usbip-host driver behind it.  The kernel is abstract: a
 write to sysfs sets off any reaction, now and over the following clock ticks of 50 ms; what the
 session needs from it is stated where it is needed.  Other than the normal driver, nothing
 exposes the device attributes.
 */
module Bridge {
  import opened Bytes
  import opened Import
  import opened RawStreams

  // ----- The device in sysfs -----

  datatype Driver = Bare | Usb | UsbipHost

  /** The kernel's answer to one write: the driver at once, and at each following tick. */
  datatype Reaction = Reaction(now: Driver, later: seq<Driver>)

  datatype Device = Device(driver: Driver, future: seq<Driver>, allowed: bool) {
    function Tick(): Device {
      if future == [] then this else Device(future[0], future[1..], allowed)
    }

    function React(r: Reaction): Device {
      Device(r.now, r.later, allowed)
    }

    predicate Bound() {
      driver.UsbipHost?
    }

    predicate Exposed() {
      driver.Usb?
    }
  }

  function Sleep(d: Device, ticks: nat): Device
    decreases ticks
  {
    if ticks == 0 then d else Sleep(d.Tick(), ticks - 1)
  }

  // ----- bind and unbind -----

  datatype Release = Release(unbindOpens: bool, unbound: Reaction, delOpens: bool, probeOpens: bool, probed: Reaction)

  datatype Binding = Binding(moduleLoads: bool, addOpens: bool, freeOpens: bool, freed: Reaction,
                             bindOpens: bool, taken: Reaction)

  datatype BindError = NoModule | NotFreed | NotBound | NeverBound

  const POLLS: nat := 20

  function Unbind(d: Device, r: Release): Device {
    var unbound := if d.Bound() && r.unbindOpens then d.React(r.unbound) else d;
    var delisted := if r.delOpens then unbound.(allowed := false) else unbound;
    if r.probeOpens then delisted.React(r.probed) else delisted
  }

  /** Polls every tick until the device is bound; whether it was seen bound. */
  function AwaitBound(d: Device, polls: nat): (Device, bool)
    decreases polls
  {
    if polls == 0 then (d, false)
    else if d.Bound() then (d, true)
    else AwaitBound(d.Tick(), polls - 1)
  }

  function Bind(d: Device, b: Binding): (Device, Result<(), BindError>) {
    if d.Bound() then (d, Ok(()))
    else if !b.moduleLoads then (d, Err(NoModule))
    else
      var listed := if b.addOpens then d.(allowed := true) else d;
      if listed.driver.Usb? && !b.freeOpens then (listed, Err(NotFreed))
      else
        var freed := if listed.driver.Usb? then listed.React(b.freed) else listed;
        if !b.bindOpens then (freed, Err(NotBound))
        else
          var (end, seen) := AwaitBound(freed.React(b.taken), POLLS);
          (end, if seen then Ok(()) else Err(NeverBound))
  }

  /** Polls every second tick until the normal driver is back; does not look after the last sleep. */
  function AwaitReleased(d: Device, polls: nat): Device
    decreases polls
  {
    if polls == 0 || (!d.Bound() && d.Exposed()) then d
    else AwaitReleased(Sleep(d, 2), polls - 1)
  }

  // ----- One session -----

  datatype Exit =
    | NoDevice
    | NoAttributes
    | BindFailed(error: BindError)
    | RequestLost
    | WrongCode(code: u16)
    | ReplyLost
    | NotConverted
    | SocketRefused
    | Completed
  {
    /** The socket was offered to the kernel. */
    predicate ReachedHandOff() {
      SocketRefused? || Completed?
    }

    /** The session stopped after binding and before offering the socket. */
    predicate StoppedBetween() {
      RequestLost? || WrongCode? || ReplyLost? || NotConverted?
    }
  }

  /** What one session meets: the kernel's reactions, what sysfs holds for the device, how long the
      client takes, the bytes it sends and takes, and how long the kernel keeps the socket. */
  datatype Circumstances = Circumstances(
    listed: bool,
    first: Release,
    attributes: Option<DeviceRecord>,
    binding: Binding,
    wait: nat,
    incoming: seq<byte>,
    budget: nat,
    converts: bool,
    socketTaken: bool,
    busyPolls: nat,
    last: Release)

  datatype Outcome = Outcome(device: Device, exit: Exit, readOn: Option<Driver>) {
    function ReadsOn(): seq<Driver> {
      if readOn.Some? then [readOn.value] else []
    }
  }

  /** The state in which the attributes are read. */
  function Cleared(d: Device, c: Circumstances): Device {
    if d.Bound() then AwaitReleased(Unbind(d, c.first), POLLS) else d
  }

  /** How the import exchange stops the session, if it does. */
  function Exchanged(c: Circumstances): Option<Exit> {
    if |c.incoming| < REQUEST_SIZE then Some(RequestLost)
    else if Code(c.incoming[..REQUEST_SIZE]) != OP_REQ_IMPORT then Some(WrongCode(Code(c.incoming[..REQUEST_SIZE])))
    else if c.budget < REPLY_SIZE then Some(ReplyLost)
    else if !c.converts then Some(NotConverted)
    else None
  }

  function HandOff(d: Device, c: Circumstances): (Device, Exit) {
    if c.socketTaken then (Unbind(Sleep(d, 10 * c.busyPolls), c.last), Completed)
    else (Unbind(d, c.last), SocketRefused)
  }

  /** From the bind on. */
  function Served(d: Device, c: Circumstances): (Device, Exit) {
    var (taken, result) := Bind(d, c.binding);
    if result.Err? then (taken, BindFailed(result.error))
    else
      var waited := Sleep(taken, c.wait);
      match Exchanged(c)
      case Some(exit) => (waited, exit)
      case None => HandOff(waited, c)
  }

  function Session(d: Device, c: Circumstances): Outcome {
    if !c.listed then Outcome(d, NoDevice, None)
    else
      var cleared := Cleared(d, c);
      if !cleared.Exposed() || c.attributes.None? then Outcome(cleared, NoAttributes, Some(cleared.driver))
      else
        var (end, exit) := Served(cleared, c);
        Outcome(end, exit, Some(cleared.driver))
  }

  // ----- The code -----

  class Sysfs {
    var device: Device
    ghost var readsOn: seq<Driver>

    constructor (d: Device)
      ensures device == d && readsOn == []
    {
      device, readsOn := d, [];
    }

    predicate IsBound()
      reads this
    {
      device.Bound()
    }

    method Pass(ticks: nat)
      modifies this`device
      ensures device == Sleep(old(device), ticks)
    {
      var left := ticks;
      while left > 0
        invariant 0 <= left <= ticks && Sleep(device, left) == Sleep(old(device), ticks)
      {
        device := device.Tick();
        left := left - 1;
      }
    }

    method ReleaseDriver(r: Release)
      modifies this`device
      ensures device == Unbind(old(device), r)
    {
      if IsBound() {
        if r.unbindOpens {
          device := device.React(r.unbound);
        }
      }
      if r.delOpens {
        device := device.(allowed := false);
      }
      if r.probeOpens {
        device := device.React(r.probed);
      }
    }

    method TakeDriver(b: Binding) returns (r: Result<(), BindError>)
      modifies this`device
      ensures (device, r) == Bind(old(device), b)
    {
      if IsBound() {
        return Ok(());
      }
      if !b.moduleLoads {
        return Err(NoModule);
      }
      if b.addOpens {
        device := device.(allowed := true);
      }
      if device.driver.Usb? {
        if !b.freeOpens {
          return Err(NotFreed);
        }
        device := device.React(b.freed);
      }
      if !b.bindOpens {
        return Err(NotBound);
      }
      device := device.React(b.taken);
      var seen := AwaitUsbipHost();
      r := if seen then Ok(()) else Err(NeverBound);
    }

    method AwaitUsbipHost() returns (seen: bool)
      modifies this`device
      ensures (device, seen) == AwaitBound(old(device), POLLS)
    {
      var poll := 0;
      while poll < POLLS
        invariant poll <= POLLS
        invariant AwaitBound(device, POLLS - poll) == AwaitBound(old(device), POLLS)
      {
        if IsBound() {
          return true;
        }
        device := device.Tick();
        poll := poll + 1;
      }
      seen := false;
    }

    /** The loop after the first unbind. */
    method AwaitNormalDriver()
      modifies this`device
      ensures device == AwaitReleased(old(device), POLLS)
    {
      var poll := 0;
      while poll < POLLS
        invariant poll <= POLLS
        invariant AwaitReleased(device, POLLS - poll) == AwaitReleased(old(device), POLLS)
      {
        if !IsBound() && device.Exposed() {
          break;
        }
        Pass(2);
        poll := poll + 1;
      }
    }

    method ReadAttributes(attributes: Option<DeviceRecord>) returns (r: Option<DeviceRecord>)
      modifies this`readsOn
      ensures readsOn == old(readsOn) + [device.driver]
      ensures r == if device.Exposed() then attributes else None
    {
      readsOn := readsOn + [device.driver];
      r := if device.Exposed() then attributes else None;
    }

    /** Polls `usbip_status` until it is no longer "in use". */
    method WaitUntilDetached(busyPolls: nat)
      modifies this`device
      ensures device == Sleep(old(device), 10 * busyPolls)
    {
      var left := busyPolls;
      while left > 0
        invariant 0 <= left <= busyPolls && Sleep(device, 10 * left) == Sleep(old(device), 10 * busyPolls)
      {
        SleepAdds(device, 10, 10 * (left - 1));
        Pass(10);
        left := left - 1;
      }
    }
  }

  lemma {:induction false} SleepAdds(d: Device, m: nat, n: nat)
    ensures Sleep(Sleep(d, m), n) == Sleep(d, m + n)
    decreases m
  {
    if m > 0 {
      SleepAdds(d.Tick(), m - 1, n);
    }
  }

  /** The server's half of the import exchange. */
  method ServeImport(stream: RawStream, info: DeviceRecord, c: Circumstances) returns (stop: Option<Exit>)
    requires stream.incoming == c.incoming && stream.budget == c.budget && stream.written == []
    modifies stream
    ensures stop == Exchanged(c)
    ensures stop != Some(RequestLost) ==> stream.incoming == c.incoming[REQUEST_SIZE..]
    ensures stream.written ==
              if stop.None? || stop.value.NotConverted? then ImportReply(info)
              else if stop.value.ReplyLost? then ImportReply(info)[..c.budget]
              else []
  {
    var request := stream.ReadExact(REQUEST_SIZE);
    if request.None? {
      return Some(RequestLost);
    }
    if Code(request.value) != OP_REQ_IMPORT {
      return Some(WrongCode(Code(request.value)));
    }
    var record := ToWireBytes(info);
    var reply := BigEndian(USBIP_VERSION, 2);
    reply := reply + BigEndian(OP_REP_IMPORT, 2);
    reply := reply + BigEndian(0, 4);
    reply := reply + record;
    assert reply == ImportReply(info);
    var sent := stream.WriteAll(reply);
    if !sent {
      return Some(ReplyLost);
    }
    stop := if c.converts then None else Some(NotConverted);
  }

  /** Offers the socket to the kernel; releases the device when the kernel refuses or is done. */
  method HandSocket(s: Sysfs, c: Circumstances) returns (exit: Exit)
    modifies s`device
    ensures (s.device, exit) == HandOff(old(s.device), c)
  {
    if !c.socketTaken {
      s.ReleaseDriver(c.last);
      return SocketRefused;
    }
    s.WaitUntilDetached(c.busyPolls);
    s.ReleaseDriver(c.last);
    exit := Completed;
  }

  method ServeBridge(s: Sysfs, stream: RawStream, info: DeviceRecord, c: Circumstances) returns (exit: Exit)
    requires stream.incoming == c.incoming && stream.budget == c.budget && stream.written == []
    modifies s`device, stream
    ensures (s.device, exit) == Served(old(s.device), c)
    ensures exit.ReachedHandOff() ==>
              stream.written == ImportReply(info) && stream.incoming == c.incoming[REQUEST_SIZE..]
    ensures exit.BindFailed? ==> stream.incoming == c.incoming && stream.written == []
  {
    var bound := s.TakeDriver(c.binding);
    if bound.Err? {
      return BindFailed(bound.error);
    }
    s.Pass(c.wait);
    var stop := ServeImport(stream, info, c);
    if stop.Some? {
      return stop.value;
    }
    exit := HandSocket(s, c);
  }

  /** One session: release a device left bound, read its attributes, then bind and serve. */
  method RunBridge(s: Sysfs, stream: RawStream, c: Circumstances) returns (exit: Exit)
    requires stream.incoming == c.incoming && stream.budget == c.budget && stream.written == []
    modifies s, stream
    ensures s.device == Session(old(s.device), c).device
    ensures exit == Session(old(s.device), c).exit
    ensures s.readsOn == old(s.readsOn) + Session(old(s.device), c).ReadsOn()
    ensures exit.ReachedHandOff() ==>
              c.attributes.Some? && stream.written == ImportReply(c.attributes.value)
              && stream.incoming == c.incoming[REQUEST_SIZE..]
    ensures exit.NoDevice? || exit.NoAttributes? || exit.BindFailed? ==>
              stream.incoming == c.incoming && stream.written == []
  {
    if !c.listed {
      return NoDevice;
    }
    if s.IsBound() {
      s.ReleaseDriver(c.first);
      s.AwaitNormalDriver();
    }
    var info := s.ReadAttributes(c.attributes);
    if info.None? {
      return NoAttributes;
    }
    exit := ServeBridge(s, stream, info.value, c);
  }
}
