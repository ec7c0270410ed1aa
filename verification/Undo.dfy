/** What one locked operation undoes of another, and what a failed one leaves alone. */
module Undo {
  import opened Bytes
  import opened Messages
  import opened Devices
  import opened Conservation
  import Usb

  predicate Failed(m: Manager, op: Op) {
    match op
    case AttachOp(d, addr, env) => m.Attach(d, addr, env).1.Err?
    case DetachOp(d, s, env) => m.Detach(d, s, env).1.Err?
    case ClaimOp(d, i, fault) => m.Claim(d, i, fault).1.Err?
    case ReleaseOp(d, i, fault) => m.Release(d, i, fault).1.Err?
    case ConfigureOp(d, env) => m.Configure(d, env).1.Err?
    case _ => false
  }

  /** An operation that reports an error has changed nothing, neither tables nor bus. */
  lemma FailureChangesNothing(m: Manager, op: Op)
    requires Failed(m, op)
    ensures Apply(m, op) == m
  {
    match op
    case AttachOp(_, _, _) =>
    case DetachOp(_, _, _) =>
    case ClaimOp(d, i, fault) =>
    case ReleaseOp(d, i, fault) =>
    case ConfigureOp(d, env) =>
  }

  lemma {:induction false} WithoutAbsent(s: seq<byte>, i: byte)
    requires i !in s
    ensures Without(s, i) == s
  {
    if |s| > 0 {
      WithoutAbsent(s[..|s| - 1], i);
      assert s == s[..|s| - 1] + [s[|s| - 1]];
    }
  }

  lemma ClaimsReplacedTwice(m: Manager, d: DeviceId, record: seq<byte>, claimed: set<byte>)
    requires d in m.attachments && m.attachments[d].handle in m.bus.handles
    ensures var a := m.attachments[d];
            WithClaims(WithClaims(m, d, record, claimed), d, a.claimedInterfaces, m.bus.handles[a.handle].claimed) == m
  {
    var a := m.attachments[d];
    ClaimedAndBack(m.bus, a.handle, claimed);
    var back := WithClaims(WithClaims(m, d, record, claimed), d, a.claimedInterfaces, m.bus.handles[a.handle].claimed);
    assert back.attachments == m.attachments;
  }

  lemma AppendedAndGone(record: seq<byte>, claimed: set<byte>, i: byte)
    requires i !in record && claimed == Elements(record)
    ensures Without(record + [i], i) == record && claimed + {i} - {i} == claimed
  {
    var more := record + [i];
    assert more[..|more| - 1] == record;
    WithoutAbsent(record, i);
    assert record + [] == record;
    assert i !in Elements(record);
  }

  /** Releasing an interface right after claiming it succeeds, and restores the manager if and only
      if the interface was not claimed before: a release drops every record of it. */
  lemma ReleaseUndoesClaim(m: Manager, d: DeviceId, i: byte)
    requires Sound(m) && m.Claim(d, i, None).1.Ok?
    ensures var (m', r) := m.Claim(d, i, None).0.Release(d, i, None);
            r.Ok? && (m' == m <==> i !in m.attachments[d].claimedInterfaces)
  {
    hide Manager.Release, Without;
    var a := m.attachments[d];
    var before := m.bus.Handle(a.handle).claimed;
    ClaimForm(m, d, i);
    ReleaseForm(m.Claim(d, i, None).0, d, i);
    if i !in a.claimedInterfaces {
      AppendedAndGone(a.claimedInterfaces, before, i);
      ClaimsReplacedTwice(m, d, a.claimedInterfaces + [i], before + {i});
    } else {
      ElementsWithout(a.claimedInterfaces + [i], i);
      assert i in Elements(a.claimedInterfaces);
    }
  }

  lemma ClaimedAndBack(b: Usb.Bus, h: nat, claimed: set<byte>)
    requires h in b.handles
    ensures b.WithClaimed(h, claimed).WithClaimed(h, b.handles[h].claimed) == b
  {
    assert b.WithClaimed(h, claimed).WithClaimed(h, b.handles[h].claimed).handles == b.handles;
  }

  /** A detach with the device and the id an attach just gave takes both out again; the id itself
      is spent. */
  lemma DetachUndoesAttach(m: Manager, d: DeviceId, addr: Address, env: AttachEnv, detach: DetachEnv)
    requires m.Attach(d, addr, env).1.Ok? && m.nextSessionId !in m.sessionToDevice
    ensures var (attached, r) := m.Attach(d, addr, env);
            var (m', done) := attached.Detach(d, r.value, detach);
            && done.Ok? && r.value == m.nextSessionId
            && m'.attachments == m.attachments && m'.sessionToDevice == m.sessionToDevice
            && m'.nextSessionId == Successor(m.nextSessionId)
  {
    hide DetachDrivers, ReleaseAll, ReattachAll;
    var (attached, r) := m.Attach(d, addr, env);
    assert attached.attachments - {d} == m.attachments;
    assert attached.sessionToDevice - {r.value} == m.sessionToDevice;
  }

  /** Right after an attach the gate of a transfer opens for exactly the new session, on a handle of
      the device that enumeration found. */
  lemma AttachOpensGate(m: Manager, d: DeviceId, addr: Address, env: AttachEnv, s: u64, listed: bool)
    requires Sound(m) && m.Attach(d, addr, env).1.Ok?
    requires forall t :: t in m.sessionToDevice ==> m.sessionToDevice[t] in m.attachments
    ensures var (m', r) := m.Attach(d, addr, env);
            && (m'.ValidateSession(s, d).Ok? <==> s == r.value)
            && m'.GetHandle(d, listed) == Ok(m.bus.nextHandle)
            && m'.bus.Handle(m.bus.nextHandle).device == m.bus.present[d]
  {
    AttachForm(m, d, addr, env);
  }

  /** A device of another kind at the address closes the gate; a device of the same kind does not. */
  lemma ReplugClosesGateIff(m: Manager, d: DeviceId, addr: Address, env: AttachEnv, p: nat, device: Usb.UsbDevice)
    requires Sound(m) && m.Attach(d, addr, env).1.Ok? && p !in m.bus.devices
    ensures var plugged := Apply(m.Attach(d, addr, env).0, PlugOp(d, p, device));
            var original := m.bus.devices[m.bus.present[d]];
            plugged.GetHandle(d, true).Ok? <==>
              device.vendorId == original.vendorId && device.productId == original.productId
  {
    AttachForm(m, d, addr, env);
  }
}
