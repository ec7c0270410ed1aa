/**
 The USB/IP import exchange (Linux kernel, Documentation/usb/usbip_protocol.rst, sections
 OP_REQ_IMPORT and OP_REP_IMPORT): the 40-byte request, the 320-byte reply with its 312-byte
 device record, and what the client reads back from it.
 */
module Import {
  import opened Bytes
  import opened Bincode
  import opened Texts

  const USBIP_VERSION: u16 := 0x0111
  const OP_REQ_IMPORT: u16 := 0x8003
  const OP_REP_IMPORT: u16 := 0x0003

  const REQUEST_SIZE: nat := 40
  const HEADER_SIZE: nat := 8
  const RECORD_SIZE: nat := 312
  const REPLY_SIZE: nat := HEADER_SIZE + RECORD_SIZE

  /** The first `n` bytes of `b`, filled up with zeros. */
  function Pad(b: seq<byte>, n: nat): (p: seq<byte>)
    ensures |p| == n
    ensures forall k :: 0 <= k < n && k < |b| ==> p[k] == b[k]
  {
    if |b| >= n then b[..n] else b + seq(n - |b|, _ => 0)
  }

  /** A zeroed fixed-size buffer with the bytes copied in as far as they fit. */
  method Padded(b: seq<byte>, n: nat) returns (p: seq<byte>)
    ensures p == Pad(b, n)
  {
    var buf := new byte[n](_ => 0);
    var m := if |b| < n then |b| else n;
    for k := 0 to m
      invariant forall j :: 0 <= j < n ==> buf[j] == if j < k then b[j] else 0
    {
      buf[k] := b[k];
    }
    p := buf[..];
  }

  // ----- Request -----

  function Header(code: u16): (h: seq<byte>)
    ensures |h| == HEADER_SIZE
  {
    BigEndian(USBIP_VERSION, 2) + BigEndian(code, 2) + BigEndian(0, 4)
  }

  function ImportRequest(busid: Text): (r: seq<byte>)
    ensures |r| == REQUEST_SIZE
  {
    Header(OP_REQ_IMPORT) + Pad(busid, 32)
  }

  /** Builds the request, or refuses a busid that leaves no room for its terminator. */
  method BuildRequest(busid: Text) returns (r: Result<seq<byte>, ()>)
    ensures r == if |busid| >= 32 then Err(()) else Ok(ImportRequest(busid))
  {
    var req := BigEndian(USBIP_VERSION, 2);
    req := req + BigEndian(OP_REQ_IMPORT, 2);
    req := req + BigEndian(0, 4);
    if |busid| >= 32 {
      return Err(());
    }
    var field := Padded(busid, 32);
    req := req + field;
    r := Ok(req);
  }

  function Code(message: seq<byte>): (c: u16)
    requires |message| >= 4
  {
    Pow256Values();
    FromBigEndian(message[2..4])
  }

  function Status(message: seq<byte>): (s: u32)
    requires |message| >= 8
  {
    Pow256Values();
    FromBigEndian(message[4..8])
  }

  lemma HeaderFields(code: u16, tail: seq<byte>)
    ensures Code(Header(code) + tail) == code && Status(Header(code) + tail) == 0
  {
    Pow256Values();
    BigEndianRoundTrip(code, 2);
    BigEndianRoundTrip(0, 4);
    assert (Header(code) + tail)[2..4] == BigEndian(code, 2);
    assert (Header(code) + tail)[4..8] == BigEndian(0, 4);
  }

  // ----- Device record -----

  datatype DeviceRecord = DeviceRecord(
    busid: Text,
    busNum: u32,
    devNum: u32,
    speed: u32,
    vendorId: u16,
    productId: u16,
    bcdDevice: u16,
    deviceClass: byte,
    deviceSubclass: byte,
    deviceProtocol: byte,
    configurationValue: byte,
    numConfigurations: byte,
    numInterfaces: byte)

  function SysfsPath(r: DeviceRecord): seq<byte> {
    Ascii("/sys/devices/pci0000:00/usb" + Decimal(r.busNum) + "/") + r.busid
  }

  function Numbers(r: DeviceRecord): (b: seq<byte>)
    ensures |b| == 24
  {
    BigEndian(r.busNum, 4) + BigEndian(r.devNum, 4) + BigEndian(r.speed, 4)
    + BigEndian(r.vendorId, 2) + BigEndian(r.productId, 2) + BigEndian(r.bcdDevice, 2)
    + [r.deviceClass, r.deviceSubclass, r.deviceProtocol, r.configurationValue, r.numConfigurations, r.numInterfaces]
  }

  /** Always 312 bytes, however long the path or the busid. */
  function WireBytes(r: DeviceRecord): (b: seq<byte>)
    ensures |b| == RECORD_SIZE
  {
    Pad(SysfsPath(r), 256) + Pad(r.busid, 32) + Numbers(r)
  }

  method ToWireBytes(r: DeviceRecord) returns (out: seq<byte>)
    ensures out == WireBytes(r)
  {
    hide BigEndian, Pad, SysfsPath;
    var path := Padded(SysfsPath(r), 256);
    var busid := Padded(r.busid, 32);
    out := path + busid;
    ghost var front := out;
    out := out + BigEndian(r.busNum, 4);
    out := out + BigEndian(r.devNum, 4);
    out := out + BigEndian(r.speed, 4);
    ghost var places := out;
    assert places == front + (BigEndian(r.busNum, 4) + BigEndian(r.devNum, 4) + BigEndian(r.speed, 4));
    out := out + BigEndian(r.vendorId, 2);
    out := out + BigEndian(r.productId, 2);
    out := out + BigEndian(r.bcdDevice, 2);
    assert out == places + (BigEndian(r.vendorId, 2) + BigEndian(r.productId, 2) + BigEndian(r.bcdDevice, 2));
    out := out + [r.deviceClass, r.deviceSubclass, r.deviceProtocol,
                  r.configurationValue, r.numConfigurations, r.numInterfaces];
    assert out == front + Numbers(r);
  }

  function ImportReply(r: DeviceRecord): (b: seq<byte>)
    ensures |b| == REPLY_SIZE
  {
    Header(OP_REP_IMPORT) + WireBytes(r)
  }

  // ----- What the client makes of the record -----

  datatype Imported = Imported(devid: u32, speed: byte, vendorId: u16, productId: u16)

  /** `(bus << 16) | (dev & 0xFFFF)` on 32-bit numbers. */
  function Devid(busNum: u32, devNum: u32): u32 {
    ShiftedHalf(busNum);
    (busNum * 0x1_0000) % 0x1_0000_0000 + devNum % 0x1_0000
  }

  function U32At(b: seq<byte>, k: nat): u32
    requires k + 4 <= |b|
  {
    Pow256Values();
    FromBigEndian(b[k..k + 4])
  }

  function U16At(b: seq<byte>, k: nat): u16
    requires k + 2 <= |b|
  {
    Pow256Values();
    FromBigEndian(b[k..k + 2])
  }

  function ReadRecord(dev: seq<byte>): Imported
    requires |dev| == RECORD_SIZE
  {
    Imported(Devid(U32At(dev, 288), U32At(dev, 292)), U32At(dev, 296) % 0x100, U16At(dev, 300), U16At(dev, 302))
  }

  lemma FieldAt(b: seq<byte>, k: nat, n: nat, size: nat)
    requires size == 2 || size == 4
    requires n < Pow256(size) && k + size <= |b| && b[k..k + size] == BigEndian(n, size)
    ensures size == 2 ==> U16At(b, k) == n
    ensures size == 4 ==> U32At(b, k) == n
  {
    BigEndianRoundTrip(n, size);
  }

  lemma NumbersAt(r: DeviceRecord)
    ensures var n := Numbers(r);
            && n[0..4] == BigEndian(r.busNum, 4) && n[4..8] == BigEndian(r.devNum, 4)
            && n[8..12] == BigEndian(r.speed, 4)
            && n[12..14] == BigEndian(r.vendorId, 2) && n[14..16] == BigEndian(r.productId, 2)
  {
    hide BigEndian;
  }

  /** Behind the 288 bytes of path and busid come the numbers. */
  lemma NumbersInRecord(r: DeviceRecord, k: nat, size: nat)
    requires k + size <= 24
    ensures WireBytes(r)[288 + k..288 + k + size] == Numbers(r)[k..k + size]
  {
    hide Pad, Numbers, SysfsPath;
    assert WireBytes(r)[288..] == Numbers(r);
  }

  lemma NumberAt(r: DeviceRecord, k: nat, n: nat, size: nat)
    requires size == 2 || size == 4
    requires n < Pow256(size) && k + size <= 24 && Numbers(r)[k..k + size] == BigEndian(n, size)
    ensures size == 2 ==> U16At(WireBytes(r), 288 + k) == n
    ensures size == 4 ==> U32At(WireBytes(r), 288 + k) == n
  {
    hide Numbers, WireBytes, BigEndian;
    NumbersInRecord(r, k, size);
    FieldAt(WireBytes(r), 288 + k, n, size);
  }

  /** The client's fixed offsets recover what the server put there, whatever the path and busid. */
  lemma RecordRoundTrip(r: DeviceRecord)
    ensures ReadRecord(WireBytes(r)) == Imported(Devid(r.busNum, r.devNum), r.speed % 0x100, r.vendorId, r.productId)
  {
    hide Numbers, WireBytes, BigEndian, U16At, U32At, Devid, Pow256;
    Pow256Values();
    NumbersAt(r);
    NumberAt(r, 0, r.busNum, 4);
    NumberAt(r, 4, r.devNum, 4);
    NumberAt(r, 8, r.speed, 4);
    NumberAt(r, 12, r.vendorId, 2);
    NumberAt(r, 14, r.productId, 2);
  }

  /** Packed ids coincide exactly when both numbers agree in their low 16 bits; so the packing is
      injective on 16-bit numbers. */
  lemma DevidCoincidesIff(bus: u32, dev: u32, bus': u32, dev': u32)
    ensures Devid(bus, dev) == Devid(bus', dev')
            <==> bus % 0x1_0000 == bus' % 0x1_0000 && dev % 0x1_0000 == dev' % 0x1_0000
  {
    ShiftedHalf(bus);
    ShiftedHalf(bus');
  }

  lemma ShiftedHalf(n: u32)
    ensures (n * 0x1_0000) % 0x1_0000_0000 == (n % 0x1_0000) * 0x1_0000
  {
    assert n == (n / 0x1_0000) * 0x1_0000 + n % 0x1_0000;
    assert n * 0x1_0000 == (n / 0x1_0000) * 0x1_0000_0000 + (n % 0x1_0000) * 0x1_0000;
  }

  // ----- Speeds -----

  /** The server's reading of the sysfs `speed` attribute. */
  function SysfsSpeed(attribute: string): u32 {
    if attribute == "1.5" then 1
    else if attribute == "12" then 2
    else if attribute == "480" then 3
    else if attribute == "5000" then 5
    else if attribute == "10000" then 6
    else 0
  }

  datatype VhciSpeed = Low | Full | High | Wireless | Super | SuperPlus {
    function Code(): byte {
      match this
      case Low => 1
      case Full => 2
      case High => 3
      case Wireless => 4
      case Super => 5
      case SuperPlus => 6
    }
  }

  /** The client's choice of port speed. */
  function MountSpeed(speed: byte): VhciSpeed {
    if speed == 1 then Low
    else if speed == 2 then Full
    else if speed == 3 then High
    else if speed == 5 then Super
    else if speed == 6 then SuperPlus
    else High
  }

  /** Each speed the server knows reaches vhci as the same code; an unknown one arrives as high
      speed. */
  lemma SpeedSurvives(r: DeviceRecord, attribute: string)
    requires r.speed == SysfsSpeed(attribute)
    ensures MountSpeed(ReadRecord(WireBytes(r)).speed).Code() == if r.speed == 0 then 3 else r.speed
  {
    RecordRoundTrip(r);
  }
}
