# Verification of wolfusb

wolfusb shares USB devices over the network.  A server owns the devices; clients list them,
attach them, run transfers, or ask for a *bridge*, after which the stream carries raw USB/IP
between two kernels.  This project models the parts of the program in which state, protocols and
byte layouts interact, and proves what they keep.

`dafny verify dfyconfig.toml` checks everything.

## How the model is laid out

| part | files |
|---|---|
| Bytes, bincode's standard serialization, the 26 messages and their coders | `Bytes`, `Bincode`, `Messages`, `Layout` |
| The frame codec over mutable buffers | `Codec` |
| The USB bus, the device manager, what it owes the machine, what its operations undo | `Usb`, `Devices`, `Conservation`, `Undo` |
| Transfers and error texts | `Transfer`, `Texts` |
| The HMAC handshake | `Handshake` |
| One connection: its handlers, its message loop, its cleanup | `Connections`, `Sweeps`, `Cleanup` |
| The server: one manager, any number of interleaved connections | `Requests`, `Server`, `Settings`, `Ledgers`, `Safety`, `AnyClient`, `Lifetimes`, `Sharing` |
| The client library and the mount client | `Clients`, `Import`, `Mount`, `RawStreams` |
| Client and server together over two byte channels | `Exchange` |
| The bridge session and the usbip-host driver over many sessions | `Bridge`, `Lifecycle` |
| vhci status readers, the port watch, hex printing and parsing | `Vhci`, `HexDump` |

Objects that the program updates in place are classes whose methods are proved equal to a function
on values (`DeviceManager`, `Connection`, `WolfUsbCodec`, `BytesMut`, `Session`, `Sysfs`,
`RawStream`); the properties over runs are proved about those functions.

The server is a step system.  A step is one region under the manager's lock, or what one
connection does on its own afterwards (its session table, its flag, its reply); between the two
any other connection may take any steps.  Everything outside the program is a parameter: which USB
calls fail, what enumeration finds, in which order a hash map gives its keys, how many bytes a read
returns, what the kernel does after a write to sysfs.

### What is assumed

* Handling of 64-bit session ids stops one short of exhaustion (`Unexhausted`); `Successor` itself wraps.
* HMAC-SHA256 is a function of key and message with 32-byte results, nothing more.
* A device that is plugged in is new to the bus even at an address used before (`Conservation.Legal`).
* Only the normal device driver exposes the sysfs attributes, as the comments of
  `src/server/bridge.rs:51-54` say; what else the kernel does is arbitrary unless a lemma names it
  (`Lifecycle.Releases`, `Lifecycle.Takes`; `Lifecycle.PromptReleaseSuffices` and
  `Lifecycle.TakesIff` say which kernels meet them).
* In `Exchange` an encoded reply is shorter than 4 GiB: the encoder takes the length `as u32`
  before it compares it with the limit (`src/protocol/codec.rs:61-63`).

### Where the code does not do what one would expect

* A Detach removes the device and the session id without comparing them.  `Safety.DetachBoundary`
  proves that the book-keeping survives exactly when they belong together.
* The final state of a cleanup depends on the order of the ids exactly when two of the sessions are
  recorded for one attached device (`Sweeps.OrderMattersIff`).  No well-behaved run gets there; a client
  that names a wrong device once does, in four requests (`Sharing.SharingIsReachable`).
* Claim, release and set-configuration test that the session is the connection's own, not that it is for
  the device named (`src/server/connection.rs:524-609`).  A connection with any session can therefore undo
  another one's claim (`Settings.ClaimOfAnotherReleased`); `Settings.OthersTouchedIff` says exactly which
  requests touch the attachments of others.
* A bridged connection is never cleaned up: the devices it had attached stay attached under its sessions
  for good (`Safety.BridgedDevicesNeverFreed`).
* A client with a key and a server without one end the handshake with different verdicts: the server
  lets the client in, and the client refuses the server (`Handshake.OneSidedKeys`).  A client without a
  key and a server with one agree that it failed.  `Handshake.EndsAgreeIff` says exactly when the two
  verdicts are the same.
* A client that asks for a bridge before it said hello to a keyed server gets an error where its method
  expects a verdict on the bridge.  `Exchange.SurprisingIff` proves that no other reply of any run is
  unexpected; both clients say hello first and never get there.
* Some reads the server permits can have a reply that fits no frame.  `Transfer.ReadAlwaysSendableIff`
  gives the lengths and session ids for which that cannot happen; a read of 16 MiB is one for which
  it does (`Transfer.FullReadUnsendable`).
* A bind that fails can leave the device without a driver, and then no later bridge session repairs
  that (`Lifecycle.StrandedForGood`).  `Lifecycle.FailedBindStrandsIff` says when, in terms of the writes
  that arrived and the kernel's last answer; `Lifecycle.FailedBindStrands` shows both ways it happens.
* The documentation of `bind` speaks of four steps with a re-probe at the end
  (`src/server/kernel_usbip.rs:123-128`); the code does three and binds directly.  The model follows
  the code.
* The documentation of `from_sysfs` speaks of a bound device (`src/server/kernel_usbip.rs:234`); the
  session reads the attributes before it binds, and the model follows it.
* `parse_hex_data` takes a plus sign for the first digit of a pair (`HexDump.ParsesIff`), and panics
  exactly when a pair it reaches cuts a character (`HexDump.ParsePanicsIff`, `HexDump.AccentPanics`).

## Model

| member | source | states |
|---|---|---|
| `Bincode.VarintRoundTrip` | src/protocol/codec.rs:11 | every integer survives its tagged little-endian form at every width that can hold it, whatever bytes follow |
| `Bincode.TruncatedEncoding` | src/protocol/codec.rs:50 | no proper prefix of an encoding decodes, for every lawful coder |
| `Layout.VarintBoundaries` | src/protocol/codec.rs:11 | the exact bytes of the last value of each varint width and of the first of the next |
| `Layout.WireCarriesRequests` | src/protocol/messages.rs:10-56 | the exact payload bytes of attach, detach, bridge, ping and pong for every device and session |
| `Layout.AttachFrame` | src/protocol/codec.rs:59-75 | an attach frame is the four length bytes, most significant first, and the three payload bytes |
| `Messages.PayloadRoundTrip` | src/protocol/messages.rs:10-266 | every message, with descriptor trees of any width, decodes to itself and leaves the following bytes alone |
| `Messages.TruncatedPayload` | src/protocol/messages.rs:10-266 | a payload that was cut short never decodes |
| `Messages.BodyRoundTrips` | src/protocol/messages.rs:10-56 | for each of the 26 variants, the index selects the decoder of its own payload |
| `Messages.WireCarriesReplies` | src/protocol/messages.rs:159-167 | a transfer reply on the wire is variant 13 and its fields in declaration order |
| `Codec.WolfUsbCodec.Decode` | src/protocol/codec.rs:19-53 | the buffer method is `DecodeStep`: a partial frame leaves the buffer unchanged, a frame consumes exactly its bytes, each error consumes what the code consumes |
| `Codec.WolfUsbCodec.Encode` | src/protocol/codec.rs:59-75 | appends the frame to any buffer, or leaves it unchanged when the frame is too large |
| `Codec.DecodeStep` | src/protocol/codec.rs:19-53 | a success consumes at least four bytes and at most what is there |
| `Codec.FrameRoundTrip` | src/protocol/codec.rs:19-75 | a frame followed by anything decodes to its message and leaves the rest |
| `Codec.EncodedFrameDecodesIff` | src/protocol/codec.rs:59-68 | whatever the encoder emits decodes back exactly if the payload is within the limit |
| `Codec.PartialFrameWaits` | src/protocol/codec.rs:26-41 | every proper part of a frame makes the decoder wait |
| `Codec.StepExtends` | src/protocol/codec.rs:19-53 | a decision once made does not change when more bytes arrive |
| `Codec.ChunkInvariance` | src/protocol/codec.rs:19-53 | any way of splitting a stream into reads gives the same messages, the same first error and the same rest |
| `Codec.BatchRoundTrip` | src/protocol/codec.rs:19-75 | any list of messages encoded one after the other decodes to that list, with the unread suffix intact |
| `Codec.BatchInChunks` | src/protocol/codec.rs:19-75 | the same for every split into reads |
| `Devices.DeviceManager.constructor` | src/server/device_manager.rs:30-38 | starts with empty tables and session id 1 |
| `Devices.DeviceManager.Attach` | src/server/device_manager.rs:203-254 | fields after the loop over interfaces equal the attach function, error by error |
| `Devices.DeviceManager.Detach` | src/server/device_manager.rs:256-282 | the two loops of USB calls and the two table updates equal the detach function |
| `Devices.DeviceManager.DetachAllForSessions` | src/server/device_manager.rs:284-292 | detaches the recorded device of each id, skipping unknown ids |
| `Devices.DeviceManager.ClaimInterface` | src/server/device_manager.rs:294-304 | records a claim only when the USB call succeeds |
| `Devices.DeviceManager.ReleaseInterface` | src/server/device_manager.rs:306-318 | drops every record of the interface only when the USB call succeeds |
| `Devices.DeviceManager.SetConfiguration` | src/server/device_manager.rs:320-329 | changes the device, not the records |
| `Devices.DeviceManager.GetHandle` | src/server/device_manager.rs:331-360 | refuses a device whose ids changed at its address |
| `Devices.DeviceManager.ValidateSession` | src/server/device_manager.rs:362-368 | accepts exactly the pairs in the session table |
| `Conservation.SoundKept` | src/server/device_manager.rs:203-329 | every operation keeps: recorded claims are the claims of the handle, each attachment has its own handle on its own device |
| `Conservation.ReleaseAllForm` | src/server/device_manager.rs:262-267 | the release loop leaves exactly the claims whose every release met a fault |
| `Conservation.ReattachAllForm` | src/server/device_manager.rs:268-274 | the reattach loop gives back exactly the drivers whose call met no fault and whose interface is not claimed |
| `Conservation.DetachExactly` | src/server/device_manager.rs:256-282 | claims and kernel drivers after a detach, for every pattern of failing USB calls |
| `Conservation.ReleasedBeforeReattach` | src/server/device_manager.rs:262-274 | when the releases succeed, every reattach is issued with its interface already released |
| `Conservation.LifeOfAnAttachment` | src/server/device_manager.rs:203-318 | attach, any operations of all clients without a new configuration of this device, detach: nothing stays claimed and every kernel driver is back |
| `Conservation.BorrowedThroughout` | src/server/device_manager.rs:203-318 | over any history, the drivers present and the drivers recorded as detached together are those before the attach |
| `Undo.FailureChangesNothing` | src/server/device_manager.rs:203-329 | an operation that reports an error has changed neither tables nor bus |
| `Undo.ReleaseUndoesClaim` | src/server/device_manager.rs:294-318 | releasing an interface right after claiming it succeeds, and restores the manager if and only if it was not claimed before |
| `Undo.DetachUndoesAttach` | src/server/device_manager.rs:203-282 | detaching with the id just given restores both tables and spends the id |
| `Undo.AttachOpensGate` | src/server/device_manager.rs:236-368 | after an attach exactly the new session passes the gate of a transfer, on a handle of the device that enumeration found |
| `Undo.ReplugClosesGateIff` | src/server/device_manager.rs:331-360 | a new device at the address closes the gate exactly if its vendor or product differs |
| `Transfer.ExecuteControlTransfer` | src/server/transfer.rs:40-104 | for every device: the reply, filled and truncated in place, is made from the device's answer to exactly the call of the request |
| `Transfer.ExecuteEndpointTransfer` | src/server/transfer.rs:106-216 | the same for bulk and interrupt transfers in both directions, a read above the cap refused |
| `Transfer.SafeTimeout` | src/server/transfer.rs:15-17 | never zero, and the requested timeout whenever that is not zero |
| `Transfer.RepliesWellFormed` | src/server/transfer.rs:40-216 | an IN success carries as many bytes as it reports and at most those asked for; a failure carries none |
| `Transfer.ReplyFitsIff` | src/protocol/codec.rs:59-68 | when a successful reply fits a frame, in terms of its data length and varint widths; always up to 16 MiB minus 24 |
| `Transfer.ReadAlwaysSendableIff` | src/server/transfer.rs:19-38 | for a read request: every successful reply fits a frame, whatever the device does, if and only if the length is refused or the reply of a full buffer fits |
| `Transfer.FullReadUnsendable` | src/server/transfer.rs:19-38 | a read of the whole permitted length gives a reply the encoder refuses |
| `Handshake.BothAuthenticatedIff` | src/server/connection.rs:262-337 | both ends finish authenticated if and only if neither has a key or both have keys whose MACs agree |
| `Handshake.ClientsAgree` | src/client/mount.rs:155-215 | the two client implementations accept the same responses of this server, though one checks the version |
| `Handshake.EndsAgreeIff` | src/server/connection.rs:262-337 | both ends come to the same verdict if and only if the client has no key, or both have one and the server's tag agrees whenever the client's does |
| `Handshake.OneSidedKeys` | src/client/session.rs:57-128 | a keyed client refuses a keyless server that let it in; a keyless client is refused by a keyed server |
| `Connections.Connection.constructor` | src/server/connection.rs:85-99 | a new connection holds no session and is not authenticated |
| `Connections.Connection.Run` | src/server/connection.rs:101-158 | replies, manager, sessions and hand-off of the loop equal `Serve`; cleanup runs exactly when there is no hand-off |
| `Connections.Connection.HandleMessage` | src/server/connection.rs:160-195 | dispatch behind the authentication gate equals `Handle` |
| `Connections.Connection.HandleHello` | src/server/connection.rs:262-337 | the flag is set exactly by an acceptable hello and never cleared |
| `Connections.Connection.HandleAttach` | src/server/connection.rs:373-400 | the session enters the local table only after the manager granted it |
| `Connections.Connection.HandleDetach` | src/server/connection.rs:402-439 | the local session goes even when the manager reports an error |
| `Connections.Connection.PassGate` | src/server/connection.rs:441-457 | the gate of a transfer: own session, right device, same device still there |
| `Connections.Connection.HandleControlTransfer` | src/server/connection.rs:441-466 | a transfer behind its gate changes neither the manager nor the connection |
| `Connections.Connection.HandleEndpointTransfer` | src/server/connection.rs:468-522 | the same for bulk and interrupt transfers |
| `Connections.Connection.HandleClaimInterface` | src/server/connection.rs:524-551 | checks the session id only, not its device |
| `Connections.Connection.HandleReleaseInterface` | src/server/connection.rs:553-580 | checks the session id only, not its device |
| `Connections.Connection.HandleSetConfiguration` | src/server/connection.rs:582-609 | checks the session id only, not its device |
| `Connections.Connection.Cleanup` | src/server/connection.rs:611-624 | detaches each own session once, in any order, and empties the local table |
| `Connections.Busid` | src/server/connection.rs:208-213 | the busid of an accepted bridge is shorter than 32 bytes |
| `Sweeps.SweepExactly` | src/server/device_manager.rs:284-292 | a sweep removes exactly the devices of the swept sessions |
| `Sweeps.OrderMattersIff` | src/server/connection.rs:611-624 | the tables come out the same for every order of the ids if and only if no two sessions share an attached device |
| `Settings.OthersTouchedIff` | src/server/connection.rs:524-609 | a claim, release or set-configuration changes an attachment of a device the connection holds no session for if and only if it is past the gate, names any session of its own, that device is the target, and the call succeeds with an effect |
| `Settings.ClaimOfAnotherReleased` | src/server/connection.rs:553-580 | with a session for one device a connection releases the claim another one made on its device, and is told that it succeeded |
| `Sharing.SharingIsReachable` | src/server/connection.rs:402-432 | on every bus with two devices, a run of one client that names a wrong device once ends with two sessions for one attached device, where the order of the ids matters |
| `Cleanup.SweepSettlesBus` | src/server/device_manager.rs:256-292 | claims and drivers of each swept device end as its own detach leaves them; every other handle and device is untouched |
| `Cleanup.OrderIrrelevant` | src/server/connection.rs:611-624 | without shared devices the whole final state, bus included, is the same for every order |
| `Server.OnlyAttachAndDetachChangeTables` | src/server/connection.rs:160-195 | for every request: only a successful attach and a detach of an own session change the tables; what every other request leaves pending |
| `Safety.AlwaysInv` | src/server/listener.rs:20-57 | in every reachable state of well-behaved clients, live sessions and attached devices correspond one to one, ids are below the next id, each session is held by exactly one connection for its device |
| `Safety.StepKeepsInv` | src/server/connection.rs:101-158 | every interleaved step keeps that invariant |
| `Safety.TransferProtected` | src/server/connection.rs:441-465 | while a transfer runs outside the lock, its device stays attached under its session and handle, whatever the other connections do |
| `Safety.CleanupTakesExactly` | src/server/connection.rs:611-624 | closing a connection removes exactly its devices and ids and touches no other connection |
| `Safety.NoSessionsNothingAttached` | src/server/connection.rs:611-624 | in a run of well-behaved clients, once no connection holds a session, nothing is attached and no session id is on record |
| `Safety.BridgedDevicesNeverFreed` | src/server/connection.rs:138-155 | in every later state of a well-behaved run the devices of a bridged connection are attached under its sessions, and every attach of them fails |
| `Safety.DetachBoundary` | src/server/connection.rs:402-432 | a detach of a held session keeps the book-keeping if and only if it names the device recorded for it |
| `AnyClient.AlwaysOrderly` | src/server/device_manager.rs:236-250 | for arbitrary clients, in every reachable state no session is held twice, every id in either map is below the next id, and an id in both maps has the same device in both |
| `AnyClient.IdsForGood` | src/server/device_manager.rs:236-276 | for arbitrary clients, an id once granted is never granted again, never recorded for another device, never held by another connection |
| `AnyClient.UnadmittedDidNothing` | src/server/connection.rs:160-195 | with a key configured, a connection not admitted by the end of a run never changed the manager, holds no session and was not bridged |
| `AnyClient.FlagExactly` | src/server/connection.rs:262-337 | over a whole message sequence the flag ends set if and only if it began so or an acceptable hello was handled |
| `AnyClient.NothingWithoutHello` | src/server/connection.rs:160-195 | without an acceptable hello the loop changes nothing and answers only with pongs and refusals |
| `AnyClient.AlwaysSound` | src/server/device_manager.rs:203-329 | in every reachable state, whatever the clients send, the claims on record are those the handles hold |
| `Requests.BeginPerforms` | src/server/connection.rs:160-195 | every request performs at most one operation of the manager, and which one |
| `Lifetimes.LifeInARun` | src/server/device_manager.rs:203-318 | in any run, from the step that attaches a device to the Detach or cleanup that ends it: without a new configuration and with succeeding USB calls at the end, nothing stays claimed and the kernel drivers are those before the attach |
| `AnyClient.CleanupSameForEveryOrder` | src/server/connection.rs:611-624 | in every run of well-behaved clients the state after a cleanup does not depend on the order of the hash map |
| `Clients.Session.Connect` | src/client/session.rs:27-136 | sends one hello, takes one reply and finishes as its checks say, in their order |
| `Clients.SendAndRecv` | src/client/session.rs:138-144 | one request out, one reply in, each failure named |
| `Clients.Session.ListDevices` | src/client/session.rs:146-156 | the listing, the server's error, or "unexpected"; exactly one request out and one reply off the stream |
| `Clients.Session.GetDescriptors` | src/client/session.rs:158-170 | the tree, the server's error, or "unexpected"; exactly one request out and one reply off the stream |
| `Clients.Session.Attach` | src/client/session.rs:172-192 | the session id of a successful reply; exactly one request out and one reply off the stream |
| `Clients.Session.Detach` | src/client/session.rs:194-213 | success, the server's text, or "unexpected"; exactly one request out and one reply off the stream |
| `Clients.Session.RequestTransfer` | src/client/session.rs:215-255 | the transfer reply as it came; exactly one request out and one reply off the stream |
| `Clients.Session.ClaimInterface` | src/client/session.rs:257-282 | success, the server's text, or "unexpected"; exactly one request out and one reply off the stream |
| `Clients.Session.ReleaseInterface` | src/client/session.rs:284-309 | success, the server's text, or "unexpected"; exactly one request out and one reply off the stream |
| `Clients.Session.SetConfiguration` | src/client/session.rs:311-336 | success, the server's text, or "unexpected"; exactly one request out and one reply off the stream |
| `Clients.DoHello` | src/client/mount.rs:155-215 | the mount client's hello and its judgement of the reply |
| `Clients.SendBridge` | src/client/mount.rs:218-241 | the busid of an accepted bridge, the server's reason, or "unexpected"; exactly one request out and one reply off the stream |
| `Clients.EveryRequestAnswered` | src/server/connection.rs:160-195 | each reply is of the kind its request expects and names its device; exactly an accepted bridge hands the stream over |
| `Clients.UnexpectedIff` | src/client/mount.rs:218-241 | one turn: a reply is unexpected if and only if the request is a bridge behind the gate |
| `Clients.FlagFollowsReplies` | src/server/connection.rs:262-337 | a connection is authenticated exactly since a reply of its own let the client in |
| `Clients.Mount` | src/client/mount.rs:49-52 | the two framed turns, chained: what is sent, what is left of the stream, and the busid or the first failure |
| `Clients.MountSucceedsIff` | src/client/mount.rs:49-52 | a mount against this server gets the busid if and only if the keys agree and the device is found |
| `Clients.AttachReturnsNewId` | src/server/connection.rs:373-400 | the id a client gets is the one the manager just allocated for its device |
| `Clients.AdmittedMeansUnlocked` | src/client/mount.rs:155-215 | a client that considers itself admitted is not behind the gate |
| `Exchange.ExchangeIsExact` | src/server/connection.rs:124-144 | in every run over FIFO channels with reads of any size: no byte is lost with a read buffer, the k-th reply answers the k-th request, a client leaves only over the reply it just took, a reply is unexpected only as `SurprisingIff` says and never if the client says hello first, the import request and reply arrive whole and nothing beyond them is taken |
| `Exchange.SurprisingIff` | src/client/session.rs:138-336 | in every reachable state, a reply is unexpected if and only if its request asked for a bridge, the server has a key, and no earlier reply let the client in |
| `Exchange.HelloFirstNeverSurprised` | src/client/mount.rs:49-52 | a client whose first request is a hello never meets an unexpected reply |
| `Exchange.MoveKeepsTalk` | src/server/connection.rs:160-195 | every move keeps the server's flag equal to what its replies said, and a client whose hello failed silent |
| `Exchange.MoveKeepsInv` | src/client/mount.rs:49-61 | every move of client, server, kernels and other connections keeps the state of both channels accounted for |
| `Exchange.NeverStuckInFrames` | src/client/session.rs:138-144 | a waiting client always has something to read or take, or the server has |
| `Exchange.NeverStuckInRawBytes` | src/client/mount.rs:257-302 | nobody waits for import bytes that will not come |
| `Import.BuildRequest` | src/client/mount.rs:257-268 | forty bytes, or a refusal of a busid of 32 bytes or more |
| `Import.ToWireBytes` | src/server/kernel_usbip.rs:282-310 | the record built piece by piece in zeroed buffers |
| `Import.WireBytes` | src/server/kernel_usbip.rs:282-310 | 312 bytes for every path and busid length |
| `Import.RecordRoundTrip` | src/client/mount.rs:298-316 | the client's fixed offsets recover bus, device, speed, vendor and product |
| `Import.DevidCoincidesIff` | src/client/mount.rs:310 | packed ids coincide exactly when both numbers agree in their low 16 bits |
| `Import.SpeedSurvives` | src/server/kernel_usbip.rs:246-255 | each speed the server knows reaches vhci as the same code, an unknown one as high speed |
| `Mount.OpReqImport` | src/client/mount.rs:257-317 | writes the request, takes exactly 8 and then 312 bytes, each failure with what it consumed |
| `Mount.ReplyAccepted` | src/server/bridge.rs:102-112 | the server's reply, followed by anything, is accepted for the device described, in exactly 320 bytes |
| `Mount.CutReplyRefused` | src/client/mount.rs:276-302 | no proper part of the reply passes for a device |
| `Bridge.Sysfs.TakeDriver` | src/server/kernel_usbip.rs:133-191 | bind, step by step with its polling loop, equals the function `Bind` |
| `Bridge.Sysfs.ReleaseDriver` | src/server/kernel_usbip.rs:195-213 | unbind with its three writes equals the function `Unbind` |
| `Bridge.Sysfs.WaitUntilDetached` | src/server/kernel_usbip.rs:328-337 | half a second passes for each poll that finds the device in use |
| `Bridge.Sysfs.AwaitNormalDriver` | src/server/bridge.rs:60-73 | the loop after the first unbind equals `AwaitReleased` |
| `Bridge.ServeImport` | src/server/bridge.rs:85-128 | reads exactly 40 bytes, writes exactly the reply, each exit with what was read and written |
| `Bridge.RunBridge` | src/server/bridge.rs:38-159 | the whole session equals `Session`: exit, device state, driver at the time of the attribute read |
| `Lifecycle.PromptReleaseSuffices` | src/server/bridge.rs:60-73 | a kernel whose re-probe ends at the normal driver within two seconds honours an unbind |
| `Lifecycle.TakesIff` | src/server/kernel_usbip.rs:133-191 | a kernel takes a bind if and only if the module loads, the writes arrive and its reaction, through whatever drivers, puts usbip-host in place by one of the twenty polls and leaves it there |
| `Lifecycle.BindSeenIff` | src/server/kernel_usbip.rs:183-190 | bind succeeds exactly if usbip-host has the device at one of the twenty polls |
| `Lifecycle.ReleaseSeenIff` | src/server/bridge.rs:60-73 | the release loop finds the normal driver exactly if it is there at a poll or after the last sleep |
| `Lifecycle.ReadOnUsbipHostIff` | src/server/bridge.rs:55-79 | exactly when a session reads the attributes on usbip-host |
| `Lifecycle.AlwaysReadOffUsbipHost` | src/server/bridge.rs:51-79 | over any sequence of sessions, with a kernel that honours the first unbind, never |
| `Lifecycle.HandOffReleases` | src/server/bridge.rs:130-157 | a session that offered the socket, taken or refused, leaves the device off the allow-list and with the normal driver within two seconds |
| `Lifecycle.StoppingLeavesBound` | src/server/bridge.rs:86-129 | a session that stopped between bind and hand-off leaves the device bound and listed |
| `Lifecycle.NextRepairs` | src/server/bridge.rs:55-83 | the next session reads the attributes with the normal driver and the device off the list, and gets past its bind |
| `Lifecycle.SessionLeavesIff` | src/server/bridge.rs:38-159 | with a cooperating kernel a session leaves the device bound exactly if it stopped between bind and hand-off or did nothing to a bound device |
| `Lifecycle.AlwaysOrderly` | src/server/bridge.rs:38-159 | so over any sequence of sessions and pauses |
| `Lifecycle.FailedBindStrandsIff` | src/server/kernel_usbip.rs:133-191 | a failed bind strands the device if and only if the normal driver was asked to let go and the kernel's last answer ends without a driver |
| `Lifecycle.FailedSessionStrandsIff` | src/server/bridge.rs:81-83 | the same for a whole session that ends in a failed bind |
| `Lifecycle.FailedBindStrands` | src/server/kernel_usbip.rs:152-190 | both ways it happens: the bind file cannot be opened, or the kernel takes the write and binds nothing |
| `Lifecycle.StrandedForGood` | src/server/bridge.rs:76-79 | a stranded device stays so over any later sessions, none of which reads an attribute with a driver in place |
| `Vhci.FindFreePort` | src/bridge/vhci.rs:100-129 | the port of the first free row, none exactly if no row is free |
| `Vhci.PortStatus` | src/bridge/vhci.rs:169-185 | the status of the first row that describes the port |
| `Vhci.ReadersAgreeIff` | src/bridge/vhci.rs:100-185 | a port found free is reported free exactly if no earlier row describes it |
| `Vhci.WaitForPortLoss` | src/client/mount.rs:117-132 | ends exactly at the first two consecutive free polls |
| `HexDump.HexDump` | src/client/display.rs:139-174 | the nested loops print the lines of `Dump` |
| `HexDump.Area` | src/client/display.rs:145-160 | the hex area of every line is 49 columns wide |
| `HexDump.AreaParses` | src/client/display.rs:139-221 | parsing the 49 columns of a line gives the bytes of that line |
| `HexDump.DumpReadsBack` | src/client/display.rs:139-221 | the text of a dump, read line by line, gives back the whole input |
| `HexDump.ParsesIff` | src/client/display.rs:203-221 | parsing yields bytes exactly if what remains of the text spells them pair by pair |
| `HexDump.RenderingParses` | src/client/display.rs:203-221 | bytes written with any separators, prefixes and digit cases parse to those bytes |
| `HexDump.ParsePanicsIff` | src/client/display.rs:203-221 | parsing panics if and only if an even number of bytes is left and some pair, all before it being well formed, starts or ends inside a character |
| `HexDump.PanicsOnlyOffAscii` | src/client/display.rs:203-221 | only text with a byte that is not ASCII panics |
| `HexDump.AccentPanics` | src/client/display.rs:214-220 | a text of four bytes that does |

## Left out

- TLS, sockets, timers, task scheduling and logging: byte channels, parameters and free interleaving stand for them; a bridge over TLS only ends the connection.
- libusb and the Linux kernel: `Usb` and `Bridge` state what the program relies on.
- HMAC and SHA-256 internals, nonce randomness: functions and parameters only; no cryptographic claim.
- Enumeration, string descriptors and the contents of device listings: parameters of the requests that return them.
- Blocking tasks that panic (`JoinError`): assumed not to.
- Closing of USB handles when an attachment is dropped: handles stay in the model's bus, where nothing refers to them.
- Concurrent bridges to one device: sessions of `Lifecycle` do not overlap.
- Agreement of the busid in `BridgeAccepted` with the sysfs busid: the two formats differ and the server does not compare them.
- Encode after decode: trailing payload bytes and long varints make it false as an identity.
- bincode's error values: `Bincode` decoders fail without saying why.
- Capacity and `reserve` of the codec's buffers: they do not change contents.
- Splitting a vhci status file into lines and fields, the writes of vhci attach and detach, finding the controller.
- `port_path_for_address`, `ensure_module_loaded` and the parsing of sysfs numbers: parameters of a bridge session.
- Command line, tables, class names, error display and the shell scripts.
- Exchange.ExchangeIsExact: the client of this statement takes turns, as both clients of the repository do; it says nothing about a client that sends ahead.
- HexDump.DumpReadsBack: inputs of up to 4 GiB, beyond which the offset column grows wider.
