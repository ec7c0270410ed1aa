/**
 The wire messages and their coders, field by field in declaration order.  A coder is
 lawful by construction, so `PayloadRoundTrip` covers every nested type.
 */
module Messages {
  import opened Bytes
  import opened Bincode

  const PROTOCOL_VERSION: u32 := 1

  // ----- Types -----

  datatype UsbSpeed = Unknown | Low | Full | High | Super | SuperPlus

  datatype UsbTransferType = Control | Isochronous | Bulk | Interrupt

  datatype UsbDirection = In | Out

  datatype DeviceId = DeviceId(busNumber: byte, address: byte)

  datatype Triple = Triple(major: byte, minor: byte, subMinor: byte)

  datatype DeviceInfo = DeviceInfo(
    deviceId: DeviceId,
    vendorId: u16,
    productId: u16,
    classCode: byte,
    subClassCode: byte,
    protocolCode: byte,
    maxPacketSizeEp0: byte,
    numConfigurations: byte,
    usbVersion: Triple,
    deviceVersion: Triple,
    speed: UsbSpeed,
    portNumber: byte,
    manufacturer: Option<Text>,
    product: Option<Text>,
    serialNumber: Option<Text>)

  datatype EndpointInfo = EndpointInfo(
    address: byte,
    number: byte,
    direction: UsbDirection,
    transferType: UsbTransferType,
    maxPacketSize: u16,
    interval: byte)

  datatype InterfaceInfo = InterfaceInfo(
    interfaceNumber: byte,
    settingNumber: byte,
    classCode: byte,
    subClassCode: byte,
    protocolCode: byte,
    numEndpoints: byte,
    description: Option<Text>,
    endpoints: Vec<EndpointInfo>)

  datatype ConfigurationInfo = ConfigurationInfo(
    number: byte,
    numInterfaces: byte,
    maxPowerMa: u16,
    selfPowered: bool,
    remoteWakeup: bool,
    description: Option<Text>,
    interfaces: Vec<InterfaceInfo>)

  datatype DeviceDescriptorTree = DeviceDescriptorTree(device: DeviceInfo, configurations: Vec<ConfigurationInfo>)

  datatype ErrorCode =
    | ProtocolVersionMismatch
    | AuthenticationFailed
    | DeviceNotFound
    | DeviceAlreadyAttached
    | DeviceNotAttached
    | InvalidSession
    | TransferFailed
    | UsbError
    | InternalError

  datatype HelloRequest = HelloRequest(
    protocolVersion: u32, clientName: Text, authNonce: Nonce, authProof: Vec<byte>)

  datatype HelloReply = HelloReply(
    protocolVersion: u32, serverName: Text, authAccepted: bool,
    authChallengeResponse: Vec<byte>, errorMessage: Option<Text>)

  datatype DescriptorReply = DescriptorReply(deviceId: DeviceId, descriptors: DeviceDescriptorTree)

  datatype AttachReply = AttachReply(
    deviceId: DeviceId, success: bool, errorMessage: Option<Text>, sessionId: Option<u64>)

  datatype DetachRequest = DetachRequest(deviceId: DeviceId, sessionId: u64)

  datatype DetachReply = DetachReply(deviceId: DeviceId, success: bool, errorMessage: Option<Text>)

  datatype ControlRequest = ControlRequest(
    sessionId: u64, deviceId: DeviceId, requestType: byte, request: byte, value: u16, index: u16,
    data: Vec<byte>, length: u16, timeoutMs: u64)

  /** Bulk and interrupt transfers carry the same fields. */
  datatype EndpointRequest = EndpointRequest(
    sessionId: u64, deviceId: DeviceId, endpoint: byte, data: Vec<byte>, length: u32, timeoutMs: u64)

  datatype TransferReply = TransferReply(
    sessionId: u64, deviceId: DeviceId, success: bool, data: Vec<byte>, bytesTransferred: u32,
    errorMessage: Option<Text>)

  /** Claim, release and set-configuration name a session, a device and one number. */
  datatype SettingRequest = SettingRequest(sessionId: u64, deviceId: DeviceId, number: byte)

  datatype SettingReply = SettingReply(success: bool, errorMessage: Option<Text>)

  datatype BridgeAcceptance = BridgeAcceptance(
    deviceId: DeviceId, busid: Text, devid: u32, speed: byte, vendorId: u16, productId: u16,
    bcdDevice: u16, deviceClass: byte, deviceSubclass: byte, deviceProtocol: byte,
    numConfigurations: byte, numInterfaces: byte, configValue: byte)

  datatype ErrorReply = ErrorReply(code: ErrorCode, message: Text)

  datatype Message =
    | Hello(hello: HelloRequest)
    | HelloResponse(helloReply: HelloReply)
    | ListDevices
    | DeviceList(devices: Vec<DeviceInfo>)
    | GetDescriptors(deviceId: DeviceId)
    | DescriptorData(descriptorReply: DescriptorReply)
    | Attach(deviceId: DeviceId)
    | AttachResult(attachReply: AttachReply)
    | Detach(detach: DetachRequest)
    | DetachResult(detachReply: DetachReply)
    | ControlTransfer(control: ControlRequest)
    | BulkTransfer(transfer: EndpointRequest)
    | InterruptTransfer(transfer: EndpointRequest)
    | TransferResult(transferReply: TransferReply)
    | ClaimInterface(setting: SettingRequest)
    | ClaimInterfaceResult(settingReply: SettingReply)
    | ReleaseInterface(setting: SettingRequest)
    | ReleaseInterfaceResult(settingReply: SettingReply)
    | SetConfiguration(setting: SettingRequest)
    | SetConfigurationResult(settingReply: SettingReply)
    | Bridge(deviceId: DeviceId)
    | BridgeAccepted(acceptance: BridgeAcceptance)
    | BridgeRejected(reason: Text)
    | Error(error: ErrorReply)
    | Ping
    | Pong

  // ----- Coders of the nested types -----

  /** A field-less enum: the variant index, as a `u32`. */
  function Variant<E(!new)>(variants: seq<E>, index: E -> u32): (c: Coder<E>)
    requires forall e: E :: index(e) < |variants| && variants[index(e)] == e
    ensures Lawful(c)
  {
    Map(U32(), (n: u32) => if n < |variants| then Some(variants[n]) else None, index)
  }

  function SpeedCoder(): (c: Coder<UsbSpeed>)
    ensures Lawful(c)
  {
    Variant([Unknown, Low, Full, High, Super, SuperPlus],
            (s: UsbSpeed) => match s
                             case Unknown => 0 case Low => 1 case Full => 2
                             case High => 3 case Super => 4 case SuperPlus => 5)
  }

  function TransferTypeCoder(): (c: Coder<UsbTransferType>)
    ensures Lawful(c)
  {
    Variant([Control, Isochronous, Bulk, Interrupt],
            (t: UsbTransferType) => match t
                                    case Control => 0 case Isochronous => 1 case Bulk => 2 case Interrupt => 3)
  }

  function DirectionCoder(): (c: Coder<UsbDirection>)
    ensures Lawful(c)
  {
    Variant([In, Out], (d: UsbDirection) => match d case In => 0 case Out => 1)
  }

  function ErrorCodeCoder(): (c: Coder<ErrorCode>)
    ensures Lawful(c)
  {
    Variant([ProtocolVersionMismatch, AuthenticationFailed, DeviceNotFound, DeviceAlreadyAttached,
             DeviceNotAttached, InvalidSession, TransferFailed, UsbError, InternalError],
            (e: ErrorCode) => match e
                              case ProtocolVersionMismatch => 0 case AuthenticationFailed => 1
                              case DeviceNotFound => 2 case DeviceAlreadyAttached => 3
                              case DeviceNotAttached => 4 case InvalidSession => 5
                              case TransferFailed => 6 case UsbError => 7 case InternalError => 8)
  }

  function DeviceIdCoder(): (c: Coder<DeviceId>)
    ensures Lawful(c)
  {
    Map(Pair(U8(), U8()), (t: (byte, byte)) => Some(DeviceId(t.0, t.1)),
        (d: DeviceId) => (d.busNumber, d.address))
  }

  function TripleCoder(): (c: Coder<Triple>)
    ensures Lawful(c)
  {
    Map(Pair(U8(), Pair(U8(), U8())), (t: (byte, (byte, byte))) => Some(Triple(t.0, t.1.0, t.1.1)),
        (v: Triple) => (v.major, (v.minor, v.subMinor)))
  }

  function OptText(): (c: Coder<Option<Text>>)
    ensures Lawful(c)
  {
    OptionOf(Str())
  }

  function DeviceInfoCoder(): (c: Coder<DeviceInfo>)
    ensures Lawful(c)
  {
    var ids := Pair(DeviceIdCoder(), Pair(U16(), U16()));
    var codes := Pair(U8(), Pair(U8(), Pair(U8(), Pair(U8(), U8()))));
    var versions := Pair(TripleCoder(), Pair(TripleCoder(), Pair(SpeedCoder(), U8())));
    var texts := Pair(OptText(), Pair(OptText(), OptText()));
    Map(Pair(ids, Pair(codes, Pair(versions, texts))),
        (t: ((DeviceId, (u16, u16)), ((byte, (byte, (byte, (byte, byte)))),
             ((Triple, (Triple, (UsbSpeed, byte))), (Option<Text>, (Option<Text>, Option<Text>)))))) =>
          var i, k, v, s := t.0, t.1.0, t.1.1.0, t.1.1.1;
          Some(DeviceInfo(i.0, i.1.0, i.1.1, k.0, k.1.0, k.1.1.0, k.1.1.1.0, k.1.1.1.1,
                          v.0, v.1.0, v.1.1.0, v.1.1.1, s.0, s.1.0, s.1.1)),
        (d: DeviceInfo) =>
          ((d.deviceId, (d.vendorId, d.productId)),
           ((d.classCode, (d.subClassCode, (d.protocolCode, (d.maxPacketSizeEp0, d.numConfigurations)))),
            ((d.usbVersion, (d.deviceVersion, (d.speed, d.portNumber))),
             (d.manufacturer, (d.product, d.serialNumber))))))
  }

  function EndpointInfoCoder(): (c: Coder<EndpointInfo>)
    ensures Lawful(c)
  {
    Map(Pair(U8(), Pair(U8(), Pair(DirectionCoder(), Pair(TransferTypeCoder(), Pair(U16(), U8()))))),
        (t: (byte, (byte, (UsbDirection, (UsbTransferType, (u16, byte)))))) =>
          Some(EndpointInfo(t.0, t.1.0, t.1.1.0, t.1.1.1.0, t.1.1.1.1.0, t.1.1.1.1.1)),
        (e: EndpointInfo) =>
          (e.address, (e.number, (e.direction, (e.transferType, (e.maxPacketSize, e.interval))))))
  }

  function InterfaceInfoCoder(): (c: Coder<InterfaceInfo>)
    ensures Lawful(c)
  {
    var codes := Pair(U8(), Pair(U8(), Pair(U8(), Pair(U8(), Pair(U8(), U8())))));
    Map(Pair(codes, Pair(OptText(), VecOf(EndpointInfoCoder()))),
        (t: ((byte, (byte, (byte, (byte, (byte, byte))))), (Option<Text>, Vec<EndpointInfo>))) =>
          var k := t.0;
          Some(InterfaceInfo(k.0, k.1.0, k.1.1.0, k.1.1.1.0, k.1.1.1.1.0, k.1.1.1.1.1, t.1.0, t.1.1)),
        (i: InterfaceInfo) =>
          ((i.interfaceNumber, (i.settingNumber, (i.classCode, (i.subClassCode, (i.protocolCode, i.numEndpoints))))),
           (i.description, i.endpoints)))
  }

  function ConfigurationInfoCoder(): (c: Coder<ConfigurationInfo>)
    ensures Lawful(c)
  {
    Map(Pair(Pair(U8(), Pair(U8(), U16())), Pair(Pair(Bool(), Bool()), Pair(OptText(), VecOf(InterfaceInfoCoder())))),
        (t: ((byte, (byte, u16)), ((bool, bool), (Option<Text>, Vec<InterfaceInfo>)))) =>
          Some(ConfigurationInfo(t.0.0, t.0.1.0, t.0.1.1, t.1.0.0, t.1.0.1, t.1.1.0, t.1.1.1)),
        (c: ConfigurationInfo) =>
          ((c.number, (c.numInterfaces, c.maxPowerMa)),
           ((c.selfPowered, c.remoteWakeup), (c.description, c.interfaces))))
  }

  function TreeCoder(): (c: Coder<DeviceDescriptorTree>)
    ensures Lawful(c)
  {
    Map(Pair(DeviceInfoCoder(), VecOf(ConfigurationInfoCoder())),
        (t: (DeviceInfo, Vec<ConfigurationInfo>)) => Some(DeviceDescriptorTree(t.0, t.1)),
        (d: DeviceDescriptorTree) => (d.device, d.configurations))
  }

  // ----- Coders of the payloads -----

  function HelloRequestCoder(): (c: Coder<HelloRequest>)
    ensures Lawful(c)
  {
    Map(Pair(U32(), Pair(Str(), Pair(Array32(), ByteVec()))),
        (t: (u32, (Text, (Nonce, Vec<byte>)))) => Some(HelloRequest(t.0, t.1.0, t.1.1.0, t.1.1.1)),
        (h: HelloRequest) => (h.protocolVersion, (h.clientName, (h.authNonce, h.authProof))))
  }

  function HelloReplyCoder(): (c: Coder<HelloReply>)
    ensures Lawful(c)
  {
    Map(Pair(U32(), Pair(Str(), Pair(Bool(), Pair(ByteVec(), OptText())))),
        (t: (u32, (Text, (bool, (Vec<byte>, Option<Text>))))) =>
          Some(HelloReply(t.0, t.1.0, t.1.1.0, t.1.1.1.0, t.1.1.1.1)),
        (h: HelloReply) =>
          (h.protocolVersion, (h.serverName, (h.authAccepted, (h.authChallengeResponse, h.errorMessage)))))
  }

  function DescriptorReplyCoder(): (c: Coder<DescriptorReply>)
    ensures Lawful(c)
  {
    Map(Pair(DeviceIdCoder(), TreeCoder()),
        (t: (DeviceId, DeviceDescriptorTree)) => Some(DescriptorReply(t.0, t.1)),
        (d: DescriptorReply) => (d.deviceId, d.descriptors))
  }

  function AttachReplyCoder(): (c: Coder<AttachReply>)
    ensures Lawful(c)
  {
    Map(Pair(DeviceIdCoder(), Pair(Bool(), Pair(OptText(), OptionOf(U64())))),
        (t: (DeviceId, (bool, (Option<Text>, Option<u64>)))) => Some(AttachReply(t.0, t.1.0, t.1.1.0, t.1.1.1)),
        (a: AttachReply) => (a.deviceId, (a.success, (a.errorMessage, a.sessionId))))
  }

  function DetachRequestCoder(): (c: Coder<DetachRequest>)
    ensures Lawful(c)
  {
    Map(Pair(DeviceIdCoder(), U64()), (t: (DeviceId, u64)) => Some(DetachRequest(t.0, t.1)),
        (d: DetachRequest) => (d.deviceId, d.sessionId))
  }

  function DetachReplyCoder(): (c: Coder<DetachReply>)
    ensures Lawful(c)
  {
    Map(Pair(DeviceIdCoder(), Pair(Bool(), OptText())),
        (t: (DeviceId, (bool, Option<Text>))) => Some(DetachReply(t.0, t.1.0, t.1.1)),
        (d: DetachReply) => (d.deviceId, (d.success, d.errorMessage)))
  }

  function ControlRequestCoder(): (c: Coder<ControlRequest>)
    ensures Lawful(c)
  {
    Map(Pair(Pair(U64(), DeviceIdCoder()),
             Pair(Pair(U8(), Pair(U8(), Pair(U16(), U16()))), Pair(ByteVec(), Pair(U16(), U64())))),
        (t: ((u64, DeviceId), ((byte, (byte, (u16, u16))), (Vec<byte>, (u16, u64))))) =>
          var k, d := t.1.0, t.1.1;
          Some(ControlRequest(t.0.0, t.0.1, k.0, k.1.0, k.1.1.0, k.1.1.1, d.0, d.1.0, d.1.1)),
        (r: ControlRequest) =>
          ((r.sessionId, r.deviceId),
           ((r.requestType, (r.request, (r.value, r.index))), (r.data, (r.length, r.timeoutMs)))))
  }

  function EndpointRequestCoder(): (c: Coder<EndpointRequest>)
    ensures Lawful(c)
  {
    Map(Pair(Pair(U64(), DeviceIdCoder()), Pair(U8(), Pair(ByteVec(), Pair(U32(), U64())))),
        (t: ((u64, DeviceId), (byte, (Vec<byte>, (u32, u64))))) =>
          Some(EndpointRequest(t.0.0, t.0.1, t.1.0, t.1.1.0, t.1.1.1.0, t.1.1.1.1)),
        (r: EndpointRequest) =>
          ((r.sessionId, r.deviceId), (r.endpoint, (r.data, (r.length, r.timeoutMs)))))
  }

  function TransferReplyCoder(): (c: Coder<TransferReply>)
    ensures Lawful(c)
  {
    Map(Pair(Pair(U64(), DeviceIdCoder()), Pair(Bool(), Pair(ByteVec(), Pair(U32(), OptText())))),
        (t: ((u64, DeviceId), (bool, (Vec<byte>, (u32, Option<Text>))))) =>
          Some(TransferReply(t.0.0, t.0.1, t.1.0, t.1.1.0, t.1.1.1.0, t.1.1.1.1)),
        (r: TransferReply) =>
          ((r.sessionId, r.deviceId), (r.success, (r.data, (r.bytesTransferred, r.errorMessage)))))
  }

  function SettingRequestCoder(): (c: Coder<SettingRequest>)
    ensures Lawful(c)
  {
    Map(Pair(U64(), Pair(DeviceIdCoder(), U8())),
        (t: (u64, (DeviceId, byte))) => Some(SettingRequest(t.0, t.1.0, t.1.1)),
        (r: SettingRequest) => (r.sessionId, (r.deviceId, r.number)))
  }

  function SettingReplyCoder(): (c: Coder<SettingReply>)
    ensures Lawful(c)
  {
    Map(Pair(Bool(), OptText()), (t: (bool, Option<Text>)) => Some(SettingReply(t.0, t.1)),
        (r: SettingReply) => (r.success, r.errorMessage))
  }

  function BridgeAcceptanceCoder(): (c: Coder<BridgeAcceptance>)
    ensures Lawful(c)
  {
    Map(Pair(Pair(DeviceIdCoder(), Pair(Str(), Pair(U32(), U8()))),
             Pair(Pair(U16(), Pair(U16(), U16())), Pair(U8(), Pair(U8(), Pair(U8(), Pair(U8(), Pair(U8(), U8()))))))),
        (t: ((DeviceId, (Text, (u32, byte))), ((u16, (u16, u16)), (byte, (byte, (byte, (byte, (byte, byte)))))))) =>
          var i, v, k := t.0, t.1.0, t.1.1;
          Some(BridgeAcceptance(i.0, i.1.0, i.1.1.0, i.1.1.1, v.0, v.1.0, v.1.1,
                                k.0, k.1.0, k.1.1.0, k.1.1.1.0, k.1.1.1.1.0, k.1.1.1.1.1)),
        (b: BridgeAcceptance) =>
          ((b.deviceId, (b.busid, (b.devid, b.speed))),
           ((b.vendorId, (b.productId, b.bcdDevice)),
            (b.deviceClass, (b.deviceSubclass, (b.deviceProtocol,
             (b.numConfigurations, (b.numInterfaces, b.configValue))))))))
  }

  function ErrorReplyCoder(): (c: Coder<ErrorReply>)
    ensures Lawful(c)
  {
    Map(Pair(ErrorCodeCoder(), Str()), (t: (ErrorCode, Text)) => Some(ErrorReply(t.0, t.1)),
        (e: ErrorReply) => (e.code, e.message))
  }

  // ----- The message enum -----

  datatype HandshakeCoders = HandshakeCoders(
    hello: Coder<HelloRequest>,
    helloReply: Coder<HelloReply>,
    devices: Coder<Vec<DeviceInfo>>,
    descriptorReply: Coder<DescriptorReply>) {
    ghost predicate AllLawful() {
      Lawful(hello) && Lawful(helloReply) && Lawful(devices) && Lawful(descriptorReply)
    }
  }

  function WireHandshakeCoders(): (p: HandshakeCoders)
    ensures p.AllLawful()
  {
    HandshakeCoders(HelloRequestCoder(), HelloReplyCoder(), VecOf(DeviceInfoCoder()), DescriptorReplyCoder())
  }

  datatype AttachmentCoders = AttachmentCoders(
    deviceId: Coder<DeviceId>,
    attachReply: Coder<AttachReply>,
    detach: Coder<DetachRequest>,
    detachReply: Coder<DetachReply>) {
    ghost predicate AllLawful() {
      Lawful(deviceId) && Lawful(attachReply) && Lawful(detach) && Lawful(detachReply)
    }
  }

  function WireAttachmentCoders(): (p: AttachmentCoders)
    ensures p.AllLawful()
  {
    AttachmentCoders(DeviceIdCoder(), AttachReplyCoder(), DetachRequestCoder(), DetachReplyCoder())
  }

  datatype TransferCoders = TransferCoders(
    control: Coder<ControlRequest>,
    transfer: Coder<EndpointRequest>,
    transferReply: Coder<TransferReply>,
    setting: Coder<SettingRequest>) {
    ghost predicate AllLawful() {
      Lawful(control) && Lawful(transfer) && Lawful(transferReply) && Lawful(setting)
    }
  }

  function WireTransferCoders(): (p: TransferCoders)
    ensures p.AllLawful()
  {
    TransferCoders(ControlRequestCoder(), EndpointRequestCoder(), TransferReplyCoder(), SettingRequestCoder())
  }

  datatype OutcomeCoders = OutcomeCoders(
    settingReply: Coder<SettingReply>,
    acceptance: Coder<BridgeAcceptance>,
    text: Coder<Text>,
    error: Coder<ErrorReply>) {
    ghost predicate AllLawful() {
      Lawful(settingReply) && Lawful(acceptance) && Lawful(text) && Lawful(error)
    }
  }

  function WireOutcomeCoders(): (p: OutcomeCoders)
    ensures p.AllLawful()
  {
    OutcomeCoders(SettingReplyCoder(), BridgeAcceptanceCoder(), Str(), ErrorReplyCoder())
  }

  datatype Payloads = Payloads(
    handshake: HandshakeCoders,
    attachment: AttachmentCoders,
    transfers: TransferCoders,
    outcomes: OutcomeCoders) {
    ghost predicate AllLawful() {
      handshake.AllLawful() && attachment.AllLawful() && transfers.AllLawful() && outcomes.AllLawful()
    }
  }

  function WirePayloads(): (p: Payloads)
    ensures p.AllLawful()
  {
    hide WireHandshakeCoders, WireAttachmentCoders, WireTransferCoders, WireOutcomeCoders;
    Payloads(WireHandshakeCoders(), WireAttachmentCoders(), WireTransferCoders(), WireOutcomeCoders())
  }

  function As<A, B>(r: Decoded<A>, f: A -> B): Decoded<B> {
    match r
    case None => None
    case Some((x, rest)) => Some((f(x), rest))
  }

  function Tag(m: Message): u32 {
    match m
    case Hello(_) => 0
    case HelloResponse(_) => 1
    case ListDevices => 2
    case DeviceList(_) => 3
    case GetDescriptors(_) => 4
    case DescriptorData(_) => 5
    case Attach(_) => 6
    case AttachResult(_) => 7
    case Detach(_) => 8
    case DetachResult(_) => 9
    case ControlTransfer(_) => 10
    case BulkTransfer(_) => 11
    case InterruptTransfer(_) => 12
    case TransferResult(_) => 13
    case ClaimInterface(_) => 14
    case ClaimInterfaceResult(_) => 15
    case ReleaseInterface(_) => 16
    case ReleaseInterfaceResult(_) => 17
    case SetConfiguration(_) => 18
    case SetConfigurationResult(_) => 19
    case Bridge(_) => 20
    case BridgeAccepted(_) => 21
    case BridgeRejected(_) => 22
    case Error(_) => 23
    case Ping => 24
    case Pong => 25
  }

  function EncodeBody(p: Payloads, m: Message): seq<byte> {
    match m
    case Hello(x) => p.handshake.hello.enc(x)
    case HelloResponse(x) => p.handshake.helloReply.enc(x)
    case ListDevices => []
    case DeviceList(x) => p.handshake.devices.enc(x)
    case GetDescriptors(x) => p.attachment.deviceId.enc(x)
    case DescriptorData(x) => p.handshake.descriptorReply.enc(x)
    case Attach(x) => p.attachment.deviceId.enc(x)
    case AttachResult(x) => p.attachment.attachReply.enc(x)
    case Detach(x) => p.attachment.detach.enc(x)
    case DetachResult(x) => p.attachment.detachReply.enc(x)
    case ControlTransfer(x) => p.transfers.control.enc(x)
    case BulkTransfer(x) => p.transfers.transfer.enc(x)
    case InterruptTransfer(x) => p.transfers.transfer.enc(x)
    case TransferResult(x) => p.transfers.transferReply.enc(x)
    case ClaimInterface(x) => p.transfers.setting.enc(x)
    case ClaimInterfaceResult(x) => p.outcomes.settingReply.enc(x)
    case ReleaseInterface(x) => p.transfers.setting.enc(x)
    case ReleaseInterfaceResult(x) => p.outcomes.settingReply.enc(x)
    case SetConfiguration(x) => p.transfers.setting.enc(x)
    case SetConfigurationResult(x) => p.outcomes.settingReply.enc(x)
    case Bridge(x) => p.attachment.deviceId.enc(x)
    case BridgeAccepted(x) => p.outcomes.acceptance.enc(x)
    case BridgeRejected(x) => p.outcomes.text.enc(x)
    case Error(x) => p.outcomes.error.enc(x)
    case Ping => []
    case Pong => []
  }

  function DecodeBody(p: Payloads, tag: u32, b: seq<byte>): Decoded<Message> {
    if tag == 0 then As(p.handshake.hello.dec(b), x => Hello(x))
    else if tag == 1 then As(p.handshake.helloReply.dec(b), x => HelloResponse(x))
    else if tag == 2 then Some((ListDevices, b))
    else if tag == 3 then As(p.handshake.devices.dec(b), x => DeviceList(x))
    else if tag == 4 then As(p.attachment.deviceId.dec(b), x => GetDescriptors(x))
    else if tag == 5 then As(p.handshake.descriptorReply.dec(b), x => DescriptorData(x))
    else if tag == 6 then As(p.attachment.deviceId.dec(b), x => Attach(x))
    else if tag == 7 then As(p.attachment.attachReply.dec(b), x => AttachResult(x))
    else if tag == 8 then As(p.attachment.detach.dec(b), x => Detach(x))
    else if tag == 9 then As(p.attachment.detachReply.dec(b), x => DetachResult(x))
    else if tag == 10 then As(p.transfers.control.dec(b), x => ControlTransfer(x))
    else if tag == 11 then As(p.transfers.transfer.dec(b), x => BulkTransfer(x))
    else if tag == 12 then As(p.transfers.transfer.dec(b), x => InterruptTransfer(x))
    else if tag == 13 then As(p.transfers.transferReply.dec(b), x => TransferResult(x))
    else if tag == 14 then As(p.transfers.setting.dec(b), x => ClaimInterface(x))
    else if tag == 15 then As(p.outcomes.settingReply.dec(b), x => ClaimInterfaceResult(x))
    else if tag == 16 then As(p.transfers.setting.dec(b), x => ReleaseInterface(x))
    else if tag == 17 then As(p.outcomes.settingReply.dec(b), x => ReleaseInterfaceResult(x))
    else if tag == 18 then As(p.transfers.setting.dec(b), x => SetConfiguration(x))
    else if tag == 19 then As(p.outcomes.settingReply.dec(b), x => SetConfigurationResult(x))
    else if tag == 20 then As(p.attachment.deviceId.dec(b), x => Bridge(x))
    else if tag == 21 then As(p.outcomes.acceptance.dec(b), x => BridgeAccepted(x))
    else if tag == 22 then As(p.outcomes.text.dec(b), x => BridgeRejected(x))
    else if tag == 23 then As(p.outcomes.error.dec(b), x => Error(x))
    else if tag == 24 then Some((Ping, b))
    else if tag == 25 then Some((Pong, b))
    else None
  }

  predicate SessionMessage(m: Message) {
    m.Hello? || m.HelloResponse? || m.ListDevices? || m.DeviceList? || m.GetDescriptors? || m.DescriptorData?
    || m.Ping? || m.Pong?
  }

  lemma SessionRoundTrips(p: Payloads, m: Message, rest: seq<byte>)
    requires p.AllLawful() && SessionMessage(m)
    ensures DecodeBody(p, Tag(m), EncodeBody(p, m) + rest) == Some((m, rest))
  {
    if m.Hello? {
      assert RoundTrips(p.handshake.hello, m.hello, rest);
    } else if m.HelloResponse? {
      assert RoundTrips(p.handshake.helloReply, m.helloReply, rest);
    } else if m.ListDevices? {
      assert [] + rest == rest;
    } else if m.DeviceList? {
      assert RoundTrips(p.handshake.devices, m.devices, rest);
    } else if m.GetDescriptors? {
      assert RoundTrips(p.attachment.deviceId, m.deviceId, rest);
    } else if m.DescriptorData? {
      assert RoundTrips(p.handshake.descriptorReply, m.descriptorReply, rest);
    } else if m.Ping? {
      assert [] + rest == rest;
    } else if m.Pong? {
      assert [] + rest == rest;
    }
  }

  predicate AttachmentMessage(m: Message) {
    m.Attach? || m.AttachResult? || m.Detach? || m.DetachResult?
    || m.Bridge? || m.BridgeAccepted? || m.BridgeRejected? || m.Error?
  }

  lemma AttachmentRoundTrips(p: Payloads, m: Message, rest: seq<byte>)
    requires p.AllLawful() && AttachmentMessage(m)
    ensures DecodeBody(p, Tag(m), EncodeBody(p, m) + rest) == Some((m, rest))
  {
    if m.Attach? {
      assert RoundTrips(p.attachment.deviceId, m.deviceId, rest);
    } else if m.AttachResult? {
      assert RoundTrips(p.attachment.attachReply, m.attachReply, rest);
    } else if m.Detach? {
      assert RoundTrips(p.attachment.detach, m.detach, rest);
    } else if m.DetachResult? {
      assert RoundTrips(p.attachment.detachReply, m.detachReply, rest);
    } else if m.Bridge? {
      assert RoundTrips(p.attachment.deviceId, m.deviceId, rest);
    } else if m.BridgeAccepted? {
      assert RoundTrips(p.outcomes.acceptance, m.acceptance, rest);
    } else if m.BridgeRejected? {
      assert RoundTrips(p.outcomes.text, m.reason, rest);
    } else if m.Error? {
      assert RoundTrips(p.outcomes.error, m.error, rest);
    }
  }

  predicate TransferMessage(m: Message) {
    m.ControlTransfer? || m.BulkTransfer? || m.InterruptTransfer?
    || m.TransferResult? || m.ClaimInterface? || m.ReleaseInterface? || m.SetConfiguration?
  }

  lemma TransferRoundTrips(p: Payloads, m: Message, rest: seq<byte>)
    requires p.AllLawful() && TransferMessage(m)
    ensures DecodeBody(p, Tag(m), EncodeBody(p, m) + rest) == Some((m, rest))
  {
    if m.ControlTransfer? {
      assert RoundTrips(p.transfers.control, m.control, rest);
    } else if m.BulkTransfer? {
      assert RoundTrips(p.transfers.transfer, m.transfer, rest);
    } else if m.InterruptTransfer? {
      assert RoundTrips(p.transfers.transfer, m.transfer, rest);
    } else if m.TransferResult? {
      assert RoundTrips(p.transfers.transferReply, m.transferReply, rest);
    } else if m.ClaimInterface? {
      assert RoundTrips(p.transfers.setting, m.setting, rest);
    } else if m.ReleaseInterface? {
      assert RoundTrips(p.transfers.setting, m.setting, rest);
    } else if m.SetConfiguration? {
      assert RoundTrips(p.transfers.setting, m.setting, rest);
    }
  }

  predicate OutcomeMessage(m: Message) {
    m.ClaimInterfaceResult? || m.ReleaseInterfaceResult? || m.SetConfigurationResult?
  }

  lemma OutcomeRoundTrips(p: Payloads, m: Message, rest: seq<byte>)
    requires p.AllLawful() && OutcomeMessage(m)
    ensures DecodeBody(p, Tag(m), EncodeBody(p, m) + rest) == Some((m, rest))
  {
    if m.ClaimInterfaceResult? {
      assert RoundTrips(p.outcomes.settingReply, m.settingReply, rest);
    } else if m.ReleaseInterfaceResult? {
      assert RoundTrips(p.outcomes.settingReply, m.settingReply, rest);
    } else if m.SetConfigurationResult? {
      assert RoundTrips(p.outcomes.settingReply, m.settingReply, rest);
    }
  }

  lemma BodyRoundTrips(p: Payloads, m: Message, rest: seq<byte>)
    requires p.AllLawful()
    ensures DecodeBody(p, Tag(m), EncodeBody(p, m) + rest) == Some((m, rest))
  {
    hide DecodeBody, EncodeBody, Tag;
    if SessionMessage(m) {
      SessionRoundTrips(p, m, rest);
    } else if AttachmentMessage(m) {
      AttachmentRoundTrips(p, m, rest);
    } else if TransferMessage(m) {
      TransferRoundTrips(p, m, rest);
    } else {
      OutcomeRoundTrips(p, m, rest);
    }
  }

  lemma BodyExtends(p: Payloads, tag: u32, b: seq<byte>, more: seq<byte>)
    requires p.AllLawful()
    requires DecodeBody(p, tag, b).Some?
    ensures DecodeBody(p, tag, b + more)
         == Some((DecodeBody(p, tag, b).value.0, DecodeBody(p, tag, b).value.1 + more))
  {
    if tag == 0 {
      assert Extends(p.handshake.hello, b, more);
    } else if tag == 1 {
      assert Extends(p.handshake.helloReply, b, more);
    } else if tag == 3 {
      assert Extends(p.handshake.devices, b, more);
    } else if tag == 4 {
      assert Extends(p.attachment.deviceId, b, more);
    } else if tag == 5 {
      assert Extends(p.handshake.descriptorReply, b, more);
    } else if tag == 6 {
      assert Extends(p.attachment.deviceId, b, more);
    } else if tag == 7 {
      assert Extends(p.attachment.attachReply, b, more);
    } else if tag == 8 {
      assert Extends(p.attachment.detach, b, more);
    } else if tag == 9 {
      assert Extends(p.attachment.detachReply, b, more);
    } else if tag == 10 {
      assert Extends(p.transfers.control, b, more);
    } else if tag == 11 {
      assert Extends(p.transfers.transfer, b, more);
    } else if tag == 12 {
      assert Extends(p.transfers.transfer, b, more);
    } else if tag == 13 {
      assert Extends(p.transfers.transferReply, b, more);
    } else if tag == 14 {
      assert Extends(p.transfers.setting, b, more);
    } else if tag == 15 {
      assert Extends(p.outcomes.settingReply, b, more);
    } else if tag == 16 {
      assert Extends(p.transfers.setting, b, more);
    } else if tag == 17 {
      assert Extends(p.outcomes.settingReply, b, more);
    } else if tag == 18 {
      assert Extends(p.transfers.setting, b, more);
    } else if tag == 19 {
      assert Extends(p.outcomes.settingReply, b, more);
    } else if tag == 20 {
      assert Extends(p.attachment.deviceId, b, more);
    } else if tag == 21 {
      assert Extends(p.outcomes.acceptance, b, more);
    } else if tag == 22 {
      assert Extends(p.outcomes.text, b, more);
    } else if tag == 23 {
      assert Extends(p.outcomes.error, b, more);
    }
  }

  /** The enum coder: the variant index as a `u32`, then the variant's payload. */
  function Enum(p: Payloads): (c: Coder<Message>)
    requires p.AllLawful()
    ensures Lawful(c)
  {
    var c := Coder((m: Message) => EncodeVarint(Tag(m)) + EncodeBody(p, m),
                   (b: seq<byte>) => match DecodeVarint(W32, b)
                                     case None => None
                                     case Some((tag, r)) => DecodeBody(p, tag, r));
    assert Lawful(c) by {
      forall m: Message, rest: seq<byte> ensures RoundTrips(c, m, rest) {
        assert c.enc(m) + rest == EncodeVarint(Tag(m)) + (EncodeBody(p, m) + rest);
        VarintRoundTrip(W32, Tag(m), EncodeBody(p, m) + rest);
        BodyRoundTrips(p, m, rest);
      }
      forall b: seq<byte>, more: seq<byte> ensures Extends(c, b, more) {
        if c.dec(b).Some? {
          VarintExtends(W32, b, more);
          BodyExtends(p, DecodeVarint(W32, b).value.0, DecodeVarint(W32, b).value.1, more);
        }
      }
    }
    c
  }

  /** The coder of the wire messages. */
  function MessageCoder(): (c: Coder<Message>)
    ensures Lawful(c)
  {
    hide WireHandshakeCoders, WireAttachmentCoders, WireTransferCoders, WireOutcomeCoders, Enum;
    Enum(WirePayloads())
  }

  /** Decoding an encoded message gives the message back and leaves the following bytes alone. */
  lemma PayloadRoundTrip(m: Message, rest: seq<byte>)
    ensures MessageCoder().dec(MessageCoder().enc(m) + rest) == Some((m, rest))
  {
    hide MessageCoder;
    assert RoundTrips(MessageCoder(), m, rest);
  }

  /** No proper prefix of an encoded message decodes: the decoder always reports it as an error. */
  lemma TruncatedPayload(m: Message, n: nat)
    requires n < |MessageCoder().enc(m)|
    ensures MessageCoder().dec(MessageCoder().enc(m)[..n]).None?
  {
    hide MessageCoder;
    TruncatedEncoding(MessageCoder(), m, n);
  }

  // ----- The layout of a transfer reply, written out -----

  function OptTextBytes(t: Option<Text>): seq<byte> {
    match t
    case None => [0]
    case Some(s) => [1] + (EncodeVarint(|s|) + s)
  }

  function ReplyBytes(r: TransferReply): seq<byte> {
    (EncodeVarint(r.sessionId) + ([r.deviceId.busNumber] + [r.deviceId.address]))
    + ([if r.success then 1 else 0]
       + ((EncodeVarint(|r.data|) + r.data) + (EncodeVarint(r.bytesTransferred) + OptTextBytes(r.errorMessage))))
  }

  lemma OptTextLayout(t: Option<Text>)
    ensures OptText().enc(t) == OptTextBytes(t)
  {
  }

  lemma ReplyLayout(r: TransferReply)
    ensures TransferReplyCoder().enc(r) == ReplyBytes(r)
  {
    OptTextLayout(r.errorMessage);
  }

  ghost predicate LaysOutReplies(c: Coder<TransferReply>) {
    forall r: TransferReply :: c.enc(r) == ReplyBytes(r)
  }

  ghost predicate CarriesReplies(c: Coder<Message>) {
    forall r: TransferReply :: c.enc(TransferResult(r)) == EncodeVarint(13) + ReplyBytes(r)
  }

  lemma EnumOfReply(p: Payloads, r: TransferReply)
    requires p.AllLawful()
    ensures Enum(p).enc(TransferResult(r)) == EncodeVarint(13) + p.transfers.transferReply.enc(r)
  {
    var m := TransferResult(r);
    assert Tag(m) == 13;
    assert EncodeBody(p, m) == p.transfers.transferReply.enc(r);
  }

  lemma EnumCarriesReplies(p: Payloads)
    requires p.AllLawful() && LaysOutReplies(p.transfers.transferReply)
    ensures CarriesReplies(Enum(p))
  {
    forall r: TransferReply ensures Enum(p).enc(TransferResult(r)) == EncodeVarint(13) + ReplyBytes(r) {
      EnumOfReply(p, r);
    }
  }

  lemma WireLaysOutReplies()
    ensures LaysOutReplies(WireTransferCoders().transferReply)
  {
    hide TransferReplyCoder;
    forall r: TransferReply ensures TransferReplyCoder().enc(r) == ReplyBytes(r) {
      ReplyLayout(r);
    }
  }

  /** On the wire a transfer reply is variant 13 followed by its fields in order. */
  lemma WireCarriesReplies()
    ensures CarriesReplies(MessageCoder())
  {
    hide CarriesReplies, LaysOutReplies, WireTransferCoders, WireHandshakeCoders, WireAttachmentCoders,
         WireOutcomeCoders, Enum;
    WireLaysOutReplies();
    EnumCarriesReplies(WirePayloads());
  }
}
