/**
 The device's driver over any sequence of non-overlapping bridge sessions: what is read when, how
 a session leaves the device, and what the next one finds.
 */
module Lifecycle {
  import opened Bytes
  import opened Bridge

  /** 40 ticks of 50 ms: the two seconds the first loop gives the kernel. */
  const SETTLE: nat := 2 * POLLS

  /** From `SETTLE` ticks on, the normal driver has the device for good. */
  ghost predicate Settled(d: Device) {
    forall t: nat :: t >= SETTLE ==> Sleep(d, t).driver.Usb?
  }

  /** usbip-host has the device for good. */
  ghost predicate Held(d: Device) {
    forall t: nat :: Sleep(d, t).driver.UsbipHost?
  }

  ghost predicate Tidy(d: Device) {
    !d.allowed && Settled(d)
  }

  ghost predicate Left(d: Device) {
    d.allowed && Held(d)
  }

  /** The kernel honours an unbind: the allow-list entry goes, the re-probe arrives, and from then on
      the normal driver is back in time. */
  ghost predicate Releases(r: Release) {
    r.delOpens && r.probeOpens && Settled(Device(r.probed.now, r.probed.later, false))
  }

  /** The kernel takes a bind: all writes arrive, usbip-host has the device by the last of the
      twenty polls, and does not let go of it. */
  ghost predicate Takes(b: Binding) {
    && b.moduleLoads && b.addOpens && b.freeOpens && b.bindOpens
    && var asked := Device(b.taken.now, b.taken.later, true);
       && Sleep(asked, POLLS - 1).driver.UsbipHost?
       && forall t: nat, n: nat :: t <= n && Sleep(asked, t).driver.UsbipHost? ==> Sleep(asked, n).driver.UsbipHost?
  }

  // ----- Time -----

  /** A reaction that ends in `target` has settled once it is over. */
  lemma {:induction false} SettlesWhenOver(d: Device, t: nat)
    requires t >= |d.future|
    ensures Sleep(d, t).driver == if d.future == [] then d.driver else d.future[|d.future| - 1]
    decreases t
  {
    if t > 0 {
      SettlesWhenOver(d.Tick(), t - 1);
    }
  }

  /** A kernel whose re-probe is over within two seconds and ends at the normal driver is enough. */
  lemma PromptReleaseSuffices(r: Release)
    requires r.delOpens && r.probeOpens && |r.probed.later| <= SETTLE
    requires if r.probed.later == [] then r.probed.now.Usb? else r.probed.later[|r.probed.later| - 1].Usb?
    ensures Releases(r)
  {
    var d := Device(r.probed.now, r.probed.later, false);
    forall t: nat | t >= SETTLE ensures Sleep(d, t).driver.Usb? {
      SettlesWhenOver(d, t);
    }
  }

  /** The drivers a reaction runs through, tick by tick. */
  function Path(r: Reaction): seq<Driver> {
    [r.now] + r.later
  }

  lemma {:induction false} DriverAt(d: Device, t: nat)
    ensures Sleep(d, t).driver == ([d.driver] + d.future)[if t < |d.future| then t else |d.future|]
    decreases t
  {
    if t > 0 && d.future != [] {
      DriverAt(d.Tick(), t - 1);
    } else if t > 0 {
      SettlesWhenOver(d, t);
    }
  }

  /** usbip-host is there from tick `n` of the reaction on, and not before. */
  predicate Arrives(r: Reaction, n: nat) {
    && n < |Path(r)|
    && (forall t :: 0 <= t < n ==> !Path(r)[t].UsbipHost?)
    && (forall t :: n <= t < |Path(r)| ==> Path(r)[t].UsbipHost?)
  }

  lemma TakenArrives(b: Binding)
    requires Takes(b)
    ensures exists n: nat :: n < POLLS && Arrives(b.taken, n)
  {
    var asked := Device(b.taken.now, b.taken.later, true);
    var last := |asked.future|;
    var k := AwaitBoundStops(asked, POLLS);
    assert Sleep(asked, POLLS - 1).driver.UsbipHost?;
    assert k < POLLS;
    forall t: nat ensures Sleep(asked, t).driver == Path(b.taken)[if t < last then t else last] {
      DriverAt(asked, t);
    }
    var held := if k < last then k else last;
    assert Sleep(asked, held).driver == Sleep(asked, k).driver;
    assert held == k;
    forall t | k <= t < |Path(b.taken)| ensures Path(b.taken)[t].UsbipHost? {
      assert Sleep(asked, t).driver.UsbipHost?;
    }
    forall t | 0 <= t < k ensures !Path(b.taken)[t].UsbipHost? {
      assert !Sleep(asked, t).driver.UsbipHost?;
    }
    assert Arrives(b.taken, k);
  }

  /** A kernel takes a bind if and only if the writes arrive and its reaction, whatever drivers it
      runs through, puts usbip-host in place by one of the twenty polls and leaves it there. */
  lemma TakesIff(b: Binding)
    ensures Takes(b) <==> b.moduleLoads && b.addOpens && b.freeOpens && b.bindOpens
                          && exists n: nat :: n < POLLS && Arrives(b.taken, n)
  {
    var asked := Device(b.taken.now, b.taken.later, true);
    var last := |asked.future|;
    forall t: nat ensures Sleep(asked, t).driver == Path(b.taken)[if t < last then t else last] {
      DriverAt(asked, t);
    }
    if Takes(b) {
      TakenArrives(b);
    }
    if n: nat :| n < POLLS && Arrives(b.taken, n) {
      assert forall t: nat :: Sleep(asked, t).driver.UsbipHost? <==> t >= n;
    }
  }

  lemma {:induction false} SleepKeepsAllowed(d: Device, t: nat)
    ensures Sleep(d, t).allowed == d.allowed
    decreases t
  {
    if t > 0 {
      SleepKeepsAllowed(d.Tick(), t - 1);
    }
  }

  lemma SettledLater(d: Device, t: nat)
    requires Settled(d)
    ensures Settled(Sleep(d, t))
  {
    forall n: nat | n >= SETTLE ensures Sleep(Sleep(d, t), n).driver.Usb? {
      SleepAdds(d, t, n);
    }
  }

  lemma HeldLater(d: Device, t: nat)
    requires Held(d)
    ensures Held(Sleep(d, t))
  {
    forall n: nat ensures Sleep(Sleep(d, t), n).driver.UsbipHost? {
      SleepAdds(d, t, n);
    }
  }

  // ----- The two polling loops -----

  /** The release loop stops at a poll that sees the normal driver, or after its last sleep. */
  lemma {:induction false} AwaitReleasedStops(d: Device, polls: nat) returns (k: nat)
    ensures k <= polls && AwaitReleased(d, polls) == Sleep(d, 2 * k)
    ensures k < polls ==> Sleep(d, 2 * k).driver.Usb?
    ensures forall i: nat :: i < k ==> !Sleep(d, 2 * i).driver.Usb?
    decreases polls
  {
    if polls == 0 || d.driver.Usb? {
      k := 0;
    } else {
      var j := AwaitReleasedStops(Sleep(d, 2), polls - 1);
      k := j + 1;
      SleepAdds(d, 2, 2 * j);
      forall i: nat | i < k ensures !Sleep(d, 2 * i).driver.Usb? {
        if i > 0 {
          SleepAdds(d, 2, 2 * (i - 1));
        }
      }
    }
  }

  /** So it finds the normal driver exactly if that is there at one of its twenty polls or when it
      wakes from the last sleep. */
  lemma ReleaseSeenIff(d: Device, polls: nat)
    ensures AwaitReleased(d, polls).driver.Usb? <==> exists k: nat :: k <= polls && Sleep(d, 2 * k).driver.Usb?
  {
    var k := AwaitReleasedStops(d, polls);
    if i: nat :| i <= polls && Sleep(d, 2 * i).driver.Usb? {
      assert i >= k;
    }
  }

  /** The bind loop stops at the first poll that sees usbip-host, or after its last sleep. */
  lemma {:induction false} AwaitBoundStops(d: Device, polls: nat) returns (k: nat)
    ensures k <= polls && AwaitBound(d, polls) == (Sleep(d, k), k < polls)
    ensures k < polls ==> Sleep(d, k).driver.UsbipHost?
    ensures forall i: nat :: i < k ==> !Sleep(d, i).driver.UsbipHost?
    decreases polls
  {
    if polls == 0 || d.Bound() {
      k := 0;
    } else {
      var j := AwaitBoundStops(d.Tick(), polls - 1);
      k := j + 1;
      forall i: nat | i < k ensures !Sleep(d, i).driver.UsbipHost? {
        if i > 0 {
          assert !Sleep(d.Tick(), i - 1).driver.UsbipHost?;
        }
      }
    }
  }

  /** So it succeeds exactly if usbip-host has the device at one of the twenty polls. */
  lemma BindSeenIff(d: Device, polls: nat)
    ensures AwaitBound(d, polls).1 <==> exists k: nat :: k < polls && Sleep(d, k).driver.UsbipHost?
  {
    var k := AwaitBoundStops(d, polls);
    if i: nat :| i < polls && Sleep(d, i).driver.UsbipHost? {
      assert i >= k;
    }
  }

  // ----- When the attributes are read -----

  lemma ReleaseUnseenIff(d: Device, polls: nat)
    ensures AwaitReleased(d, polls).driver.UsbipHost? <==>
              Sleep(d, 2 * polls).driver.UsbipHost? && forall k: nat :: k < polls ==> !Sleep(d, 2 * k).driver.Usb?
  {
    var k := AwaitReleasedStops(d, polls);
    if k < polls {
      assert Sleep(d, 2 * k).driver.Usb?;
    }
  }

  /** A device read on usbip-host was bound at the start, was not back with the normal driver at any
      of the twenty polls, and is on usbip-host two seconds later. */
  lemma ReadOnUsbipHostIff(d: Device, c: Circumstances)
    ensures Session(d, c).readOn == Some(UsbipHost) <==>
              var asked := Unbind(d, c.first);
              c.listed && d.Bound() && Sleep(asked, SETTLE).driver.UsbipHost?
              && forall k: nat :: k < POLLS ==> !Sleep(asked, 2 * k).driver.Usb?
  {
    ReleaseUnseenIff(Unbind(d, c.first), POLLS);
    assert c.listed ==> Session(d, c).readOn == Some(Cleared(d, c).driver);
  }

  lemma UnbindSettles(d: Device, r: Release)
    requires Releases(r)
    ensures Tidy(Unbind(d, r))
  {
  }

  /** With a kernel that honours the first unbind, no session reads a device on usbip-host. */
  lemma ReadOffUsbipHost(d: Device, c: Circumstances)
    requires Releases(c.first)
    ensures Session(d, c).readOn != Some(UsbipHost)
  {
    ReadOnUsbipHostIff(d, c);
    UnbindSettles(d, c.first);
    assert Sleep(Unbind(d, c.first), SETTLE).driver.Usb?;
  }

  // ----- How a session leaves the device -----

  /** A session that offered the socket, taken or refused, leaves the device off the allow-list and
      on its way back to the normal driver. */
  lemma HandOffReleases(d: Device, c: Circumstances)
    requires Session(d, c).exit.ReachedHandOff() && Releases(c.last)
    ensures Tidy(Session(d, c).device)
  {
    var waited := Sleep(Bind(Cleared(d, c), c.binding).0, c.wait);
    UnbindSettles(waited, c.last);
    UnbindSettles(Sleep(waited, 10 * c.busyPolls), c.last);
  }

  lemma TakenStays(b: Binding)
    requires Takes(b)
    ensures var (d, seen) := AwaitBound(Device(b.taken.now, b.taken.later, true), POLLS); seen && Left(d)
  {
    var asked := Device(b.taken.now, b.taken.later, true);
    var k := AwaitBoundStops(asked, POLLS);
    assert k <= POLLS - 1 by {
      assert Sleep(asked, POLLS - 1).driver.UsbipHost?;
    }
    forall t: nat ensures Sleep(Sleep(asked, k), t).driver.UsbipHost? {
      SleepAdds(asked, k, t);
      assert Sleep(asked, k + t).driver.UsbipHost?;
    }
    SleepKeepsAllowed(asked, k);
  }

  lemma BindHolds(d: Device, b: Binding)
    requires Takes(b) && d.Exposed()
    ensures Bind(d, b).1 == Ok(()) && Left(Bind(d, b).0)
  {
    TakenStays(b);
    assert d.(allowed := true).React(b.freed).React(b.taken) == Device(b.taken.now, b.taken.later, true);
  }

  /** A session that stopped between bind and hand-off leaves the device on usbip-host and on the
      allow-list. */
  lemma StoppingLeavesBound(d: Device, c: Circumstances)
    requires Session(d, c).exit.StoppedBetween() && Takes(c.binding)
    ensures Left(Session(d, c).device)
  {
    var bound := Bind(Cleared(d, c), c.binding).0;
    BindHolds(Cleared(d, c), c.binding);
    HeldLater(bound, c.wait);
    SleepKeepsAllowed(bound, c.wait);
  }

  lemma ClearedIsTidy(d: Device, c: Circumstances)
    requires Releases(c.first) && (d.Bound() || Tidy(d))
    ensures Tidy(Cleared(d, c)) && (d.Bound() ==> Cleared(d, c).Exposed())
  {
    if d.Bound() {
      var asked := Unbind(d, c.first);
      UnbindSettles(d, c.first);
      var k := AwaitReleasedStops(asked, POLLS);
      assert Sleep(asked, SETTLE).driver.Usb?;
      SettledLater(asked, 2 * k);
      SleepKeepsAllowed(asked, 2 * k);
    }
  }

  /** What a session leaves behind, the next one repairs: it reads the attributes with the normal
      driver in place and the device off the allow-list, and binds it anew. */
  lemma NextRepairs(d: Device, c: Circumstances)
    requires Left(d) && c.listed && c.attributes.Some? && Releases(c.first) && Takes(c.binding)
    ensures Tidy(Cleared(d, c)) && Session(d, c).readOn == Some(Usb)
    ensures Session(d, c).exit.StoppedBetween() || Session(d, c).exit.ReachedHandOff()
  {
    assert Sleep(d, 0).driver.UsbipHost?;
    ClearedIsTidy(d, c);
    BindHolds(Cleared(d, c), c.binding);
  }

  // ----- Any sequence of sessions -----

  datatype Visit = Visit(gap: nat, circumstances: Circumstances)

  function Visited(d: Device, v: Visit): Outcome {
    Session(Sleep(d, v.gap), v.circumstances)
  }

  function After(d: Device, visits: seq<Visit>): Device
    decreases visits
  {
    if visits == [] then d else After(Visited(d, visits[0]).device, visits[1..])
  }

  function Reads(d: Device, visits: seq<Visit>): seq<Driver>
    decreases visits
  {
    if visits == [] then [] else Visited(d, visits[0]).ReadsOn() + Reads(Visited(d, visits[0]).device, visits[1..])
  }

  /** However the sessions end and whatever else the kernel does: as long as it honours the first
      unbind, attributes are never read on usbip-host. */
  lemma {:induction false} AlwaysReadOffUsbipHost(d: Device, visits: seq<Visit>)
    requires forall v :: v in visits ==> Releases(v.circumstances.first)
    ensures UsbipHost !in Reads(d, visits)
    decreases visits
  {
    if visits != [] {
      ReadOffUsbipHost(Sleep(d, visits[0].gap), visits[0].circumstances);
      AlwaysReadOffUsbipHost(Visited(d, visits[0]).device, visits[1..]);
    }
  }

  ghost predicate Cooperates(c: Circumstances) {
    Releases(c.first) && Takes(c.binding) && Releases(c.last)
  }

  lemma OrderlyLater(d: Device, t: nat)
    requires Tidy(d) || Left(d)
    ensures if Tidy(d) then Tidy(Sleep(d, t)) else Left(Sleep(d, t))
  {
    SleepKeepsAllowed(d, t);
    if Tidy(d) {
      SettledLater(d, t);
    } else {
      HeldLater(d, t);
    }
  }

  /** With a cooperating kernel a session leaves the device either released or bound: bound exactly
      if it stopped between bind and hand-off, or found the device bound and did nothing. */
  lemma SessionLeavesIff(d: Device, c: Circumstances)
    requires Cooperates(c) && (Tidy(d) || Left(d))
    ensures Tidy(Session(d, c).device) || Left(Session(d, c).device)
    ensures var o := Session(d, c);
            Left(o.device) <==> o.exit.StoppedBetween() || (o.exit.NoDevice? && Left(d))
    ensures !Session(d, c).exit.BindFailed?
  {
    var o := Session(d, c);
    if o.exit.StoppedBetween() {
      StoppingLeavesBound(d, c);
    } else if o.exit.ReachedHandOff() {
      HandOffReleases(d, c);
    } else if c.listed {
      if Left(d) { assert Sleep(d, 0).driver.UsbipHost?; }
      ClearedIsTidy(d, c);
      if Cleared(d, c).Exposed() {
        BindHolds(Cleared(d, c), c.binding);
      }
    }
  }

  /** So over any sequence of sessions, with any pauses, the device is released or bound, never
      stranded; and it is released after every session that reached the hand-off. */
  lemma {:induction false} AlwaysOrderly(d: Device, visits: seq<Visit>)
    requires Tidy(d) || Left(d)
    requires forall v :: v in visits ==> Cooperates(v.circumstances)
    ensures Tidy(After(d, visits)) || Left(After(d, visits))
    decreases visits
  {
    if visits != [] {
      OrderlyLater(d, visits[0].gap);
      SessionLeavesIff(Sleep(d, visits[0].gap), visits[0].circumstances);
      AlwaysOrderly(Visited(d, visits[0]).device, visits[1..]);
    }
  }

  // ----- A bind that fails half way -----

  /** No driver has the device, now or later. */
  ghost predicate Stranded(d: Device) {
    forall t: nat :: Sleep(d, t).driver.Bare?
  }

  /** The device as the kernel's answer to the last write of a bind leaves it, when nobody looks. */
  function LastAnswer(d: Device, b: Binding): Device {
    var listed := d.allowed || b.addOpens;
    if b.bindOpens then Sleep(Device(b.taken.now, b.taken.later, listed), POLLS)
    else Device(b.freed.now, b.freed.later, listed)
  }

  /**
   Without a cooperating kernel the claim fails.  A bind that reports an error strands the device
   if and only if the normal driver was asked to let go and the kernel's last answer ends without a
   driver: its answer to that request when the bind file could not be written, and otherwise
   its answer to the bind, after the twenty polls.
   */
  lemma FailedBindStrandsIff(d: Device, b: Binding)
    requires d.Exposed() && Bind(d, b).1.Err?
    ensures Stranded(Bind(d, b).0) <==> b.moduleLoads && b.freeOpens && Stranded(LastAnswer(d, b))
  {
    var end := Bind(d, b).0;
    if !b.moduleLoads || !b.freeOpens {
      assert Sleep(end, 0).driver.Usb?;
    } else if b.bindOpens {
      var asked := Device(b.taken.now, b.taken.later, d.allowed || b.addOpens);
      var k := AwaitBoundStops(asked, POLLS);
      assert end == LastAnswer(d, b);
    }
  }

  /** A whole session that ends in such a bind leaves the device as the bind does. */
  lemma FailedSessionStrandsIff(d: Device, c: Circumstances)
    requires Session(d, c).exit.BindFailed?
    ensures Stranded(Session(d, c).device) <==>
              c.binding.moduleLoads && c.binding.freeOpens && Stranded(LastAnswer(Cleared(d, c), c.binding))
  {
    FailedBindStrandsIff(Cleared(d, c), c.binding);
  }

  /** It does happen, both ways: the bind file cannot be opened, or the kernel takes the write and
      binds nothing. */
  lemma FailedBindStrands(d: Device, b: Binding)
    requires d.Exposed() && b.moduleLoads && b.freeOpens
    requires if b.bindOpens then b.taken == Reaction(Bare, []) else b.freed == Reaction(Bare, [])
    ensures Bind(d, b).1 == Err(if b.bindOpens then NeverBound else NotBound)
    ensures Stranded(Bind(d, b).0)
  {
    var answer := Device(Bare, [], d.allowed || b.addOpens);
    forall t: nat ensures Sleep(answer, t) == answer {
      BareStays(answer, t);
    }
    if b.bindOpens {
      var k := AwaitBoundStops(answer, POLLS);
    }
  }

  /** And no later session helps, whatever the kernel does: each finds no attributes and leaves. */
  lemma {:induction false} StrandedForGood(d: Device, visits: seq<Visit>)
    requires Stranded(d)
    ensures Stranded(After(d, visits))
    ensures After(d, visits).allowed == d.allowed
    ensures UsbipHost !in Reads(d, visits) && Usb !in Reads(d, visits)
    decreases visits
  {
    if visits != [] {
      StrandedSession(d, visits[0]);
      StrandedForGood(Visited(d, visits[0]).device, visits[1..]);
    }
  }

  /** One such session: it ends before its bind. */
  lemma StrandedSession(d: Device, v: Visit)
    requires Stranded(d)
    ensures Visited(d, v).exit.NoDevice? || Visited(d, v).exit.NoAttributes?
    ensures Stranded(Visited(d, v).device) && Visited(d, v).device.allowed == d.allowed
    ensures forall r :: r in Visited(d, v).ReadsOn() ==> r.Bare?
  {
    var found := Sleep(d, v.gap);
    forall t: nat ensures Sleep(found, t).driver.Bare? {
      SleepAdds(d, v.gap, t);
      assert Sleep(d, v.gap + t).driver.Bare?;
    }
    assert Sleep(found, 0).driver.Bare?;
    SleepKeepsAllowed(d, v.gap);
  }

  lemma {:induction false} BareStays(d: Device, t: nat)
    requires d.driver.Bare? && d.future == []
    ensures Sleep(d, t) == d
    decreases t
  {
    if t > 0 {
      BareStays(d, t - 1);
    }
  }
}
