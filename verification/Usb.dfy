/**
 The USB side as the device manager sees it: devices with kernel drivers on some of their
 interfaces, and open handles that have claimed some.  Each call either meets a fault and
 changes nothing, or does what libusb promises for it.
 */
module Usb {
  import opened Bytes
  import opened Messages

  datatype UsbCode =
    | Io | InvalidParam | Access | NoDevice | NotFound | Busy | Timeout | Overflow
    | Pipe | Interrupted | NoMem | NotSupported | Other

  datatype UsbDevice = UsbDevice(vendorId: u16, productId: u16, interfaces: seq<byte>, drivers: set<byte>)

  datatype OpenHandle = OpenHandle(device: nat, claimed: set<byte>)

  /** `present` is what enumeration finds at each address; a device that was unplugged stays known to its handles. */
  datatype Bus = Bus(
    present: map<DeviceId, nat>,
    devices: map<nat, UsbDevice>,
    handles: map<nat, OpenHandle>,
    nextHandle: nat) {

    function Device(p: nat): UsbDevice {
      if p in devices then devices[p] else UsbDevice(0, 0, [], {})
    }

    function Handle(h: nat): OpenHandle {
      if h in handles then handles[h] else OpenHandle(0, {})
    }

    function DeviceOf(h: nat): UsbDevice {
      Device(Handle(h).device)
    }

    function Open(p: nat): (Bus, nat) {
      (this.(handles := handles[nextHandle := OpenHandle(p, {})], nextHandle := nextHandle + 1), nextHandle)
    }

    function WithDrivers(h: nat, drivers: set<byte>): Bus {
      this.(devices := devices[Handle(h).device := DeviceOf(h).(drivers := drivers)])
    }

    function WithClaimed(h: nat, claimed: set<byte>): Bus {
      this.(handles := handles[h := Handle(h).(claimed := claimed)])
    }
  }

  /** The result of one call: the bus after it and the error, if any. */
  type Call = (Bus, Option<UsbCode>)

  function DetachKernelDriver(b: Bus, h: nat, i: byte, fault: Option<UsbCode>): Call {
    if fault.Some? then (b, fault)
    else if i !in b.DeviceOf(h).drivers then (b, Some(NotFound))
    else (b.WithDrivers(h, b.DeviceOf(h).drivers - {i}), None)
  }

  function AttachKernelDriver(b: Bus, h: nat, i: byte, fault: Option<UsbCode>): Call {
    if fault.Some? then (b, fault)
    else if i in b.Handle(h).claimed then (b, Some(Busy))
    else (b.WithDrivers(h, b.DeviceOf(h).drivers + {i}), None)
  }

  function ClaimInterface(b: Bus, h: nat, i: byte, fault: Option<UsbCode>): Call {
    if fault.Some? then (b, fault)
    else if i in b.DeviceOf(h).drivers then (b, Some(Busy))
    else (b.WithClaimed(h, b.Handle(h).claimed + {i}), None)
  }

  function ReleaseInterface(b: Bus, h: nat, i: byte, fault: Option<UsbCode>): Call {
    if fault.Some? then (b, fault)
    else if i !in b.Handle(h).claimed then (b, Some(NotFound))
    else (b.WithClaimed(h, b.Handle(h).claimed - {i}), None)
  }

  /** A new configuration replaces the interfaces and lets the kernel bind drivers of its choice. */
  function SetActiveConfiguration(b: Bus, h: nat, interfaces: seq<byte>, drivers: set<byte>,
                                  fault: Option<UsbCode>): Call {
    if fault.Some? then (b, fault)
    else if b.Handle(h).claimed != {} then (b, Some(Busy))
    else
      var d := b.DeviceOf(h).(interfaces := interfaces, drivers := drivers);
      (b.(devices := b.devices[b.Handle(h).device := d]), None)
  }
}
