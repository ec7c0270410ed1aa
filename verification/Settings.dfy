/**
 Claim, release and set-configuration check that the session is the connection's own and not that
 it belongs to the device.  What that lets a connection do to another one's attachment.
 */
module Settings {
  import opened Bytes
  import opened Messages
  import opened Devices
  import opened Connections
  import opened Conservation
  import Requests

  predicate IsSetting(msg: Message) {
    msg.ClaimInterface? || msg.ReleaseInterface? || msg.SetConfiguration?
  }

  /** The operation the request comes to. */
  function SettingOp(msg: Message, env: Env): Op
    requires IsSetting(msg)
  {
    if msg.ClaimInterface? then ClaimOp(msg.setting.deviceId, msg.setting.number, env.fault)
    else if msg.ReleaseInterface? then ReleaseOp(msg.setting.deviceId, msg.setting.number, env.fault)
    else ConfigureOp(msg.setting.deviceId, env.configure)
  }

  /** Record, handle and device of the attachment are as they were. */
  predicate LeftAlone(m: Manager, m': Manager, e: DeviceId)
    requires e in m.attachments
  {
    && e in m'.attachments && m'.attachments[e] == m.attachments[e]
    && m'.bus.Handle(m.attachments[e].handle) == m.bus.Handle(m.attachments[e].handle)
    && m'.bus.DeviceOf(m.attachments[e].handle) == m.bus.DeviceOf(m.attachments[e].handle)
  }

  /** The call meets no fault and finds what it needs: no kernel driver on an interface to be claimed,
      a claim on one to be released, no claim at all for a new configuration. */
  predicate Succeeds(m: Manager, op: Op)
    requires op.ClaimOp? || op.ReleaseOp? || op.ConfigureOp?
  {
    op.d in m.attachments
    && var h := m.attachments[op.d].handle;
       match op
       case ClaimOp(_, i, fault) => fault.None? && i !in m.bus.DeviceOf(h).drivers
       case ReleaseOp(_, i, fault) => fault.None? && i in m.bus.Handle(h).claimed
       case ConfigureOp(_, env) => env.fault.None? && m.bus.Handle(h).claimed == {}
  }

  /** A set-configuration that ends with the interfaces and drivers the device has anyway. */
  predicate SameConfiguration(m: Manager, op: Op) {
    op.ConfigureOp? && op.d in m.attachments
    && var device := m.bus.DeviceOf(m.attachments[op.d].handle);
       device.interfaces == op.configureEnv.interfaces && device.drivers == op.configureEnv.drivers
  }

  lemma OnlyTheTarget(m: Manager, op: Op, e: DeviceId)
    requires Sound(m) && (op.ClaimOp? || op.ReleaseOp? || op.ConfigureOp?)
    requires e in m.attachments && e != op.d
    ensures LeftAlone(m, Conservation.Apply(m, op), e)
  {
    hide Manager.Attach, Manager.Detach;
    assert op.d in m.attachments ==> DeviceFor(m, op.d) != DeviceFor(m, e);
  }

  lemma TargetLeftAloneIff(m: Manager, op: Op)
    requires Sound(m) && (op.ClaimOp? || op.ReleaseOp? || op.ConfigureOp?) && op.d in m.attachments
    ensures LeftAlone(m, Conservation.Apply(m, op), op.d) <==> !Succeeds(m, op) || SameConfiguration(m, op)
  {
    hide Manager.Attach, Manager.Detach;
    var a := m.attachments[op.d];
    assert Elements(a.claimedInterfaces) == m.bus.Handle(a.handle).claimed;
    if op.ReleaseOp? {
      ElementsWithout(a.claimedInterfaces, op.i);
    }
  }

  /**
   A setting touches an attachment of a device the connection holds no session for, in the record,
   the claims or the drivers, if and only if the connection is past the gate, names a session of its
   own, whichever, the request names that device, the call succeeds, and it is not a
   set-configuration to what is there.
   */
  lemma OthersTouchedIff(m: Manager, c: Conn, msg: Message, env: Env)
    requires Sound(m) && IsSetting(msg)
    ensures var m', op := Begin(m, c, msg, env).0, SettingOp(msg, env);
            (exists e :: e in m.attachments && e !in c.sessions.Values && !LeftAlone(m, m', e))
            <==> !Locked(c) && msg.setting.sessionId in c.sessions
                 && op.d in m.attachments && op.d !in c.sessions.Values
                 && Succeeds(m, op) && !SameConfiguration(m, op)
  {
    hide Begin, LeftAlone, Locked, Succeeds, SameConfiguration, Sound, Conservation.Apply;
    var op := SettingOp(msg, env);
    Requests.BeginPerforms(m, c, msg, env);
    forall e | e in m.attachments && e != op.d ensures LeftAlone(m, Conservation.Apply(m, op), e) {
      OnlyTheTarget(m, op, e);
    }
    forall e | e in m.attachments ensures LeftAlone(m, m, e) {
      Untouched(m, e);
    }
    if op.d in m.attachments {
      TargetLeftAloneIff(m, op);
    }
  }

  lemma Untouched(m: Manager, e: DeviceId)
    requires e in m.attachments
    ensures LeftAlone(m, m, e)
  {
  }

  /** So with any session at all a connection can undo the claim another one made on its device, and is
      told that it succeeded. */
  lemma ClaimOfAnotherReleased(m: Manager, c: Conn, s: u64, b: DeviceId, i: byte, env: Env)
    requires Sound(m) && !Locked(c) && s in c.sessions && b !in c.sessions.Values
    requires b in m.attachments && i in m.attachments[b].claimedInterfaces && env.fault.None?
    ensures var (m', p) := Begin(m, c, ReleaseInterface(SettingRequest(s, b, i)), env);
            && p == Answered(Reply(ReleaseInterfaceResult(SettingReply(true, None))))
            && b in m'.attachments && i !in m'.attachments[b].claimedInterfaces
            && i !in m'.bus.Handle(m.attachments[b].handle).claimed
  {
    hide Sound, Manager.Release, Begin;
    var req := SettingRequest(s, b, i);
    ClaimGoes(m, b, i);
    ReleaseAnswers(m, c, req, env);
  }

  lemma ClaimGoes(m: Manager, b: DeviceId, i: byte)
    requires Sound(m) && b in m.attachments && i in m.attachments[b].claimedInterfaces
    ensures var (m', r) := m.Release(b, i, None);
            && r == Ok(()) && b in m'.attachments && i !in m'.attachments[b].claimedInterfaces
            && i !in m'.bus.Handle(m.attachments[b].handle).claimed
  {
    hide Manager.Release, Without;
    var a := m.attachments[b];
    assert i in Elements(a.claimedInterfaces);
    ElementsWithout(a.claimedInterfaces, i);
    assert i !in Elements(Without(a.claimedInterfaces, i));
    ReleaseForm(m, b, i);
    ClaimsReplacedTouch(m, b, Without(a.claimedInterfaces, i), m.bus.Handle(a.handle).claimed - {i});
  }

  lemma ReleaseAnswers(m: Manager, c: Conn, req: SettingRequest, env: Env)
    requires !Locked(c) && req.sessionId in c.sessions
    ensures var (m', r) := m.Release(req.deviceId, req.number, env.fault);
            Begin(m, c, ReleaseInterface(req), env) == (m', Answered(Reply(ReleaseInterfaceResult(SettingOutcome(r)))))
  {
    hide Manager.Release, SettingOutcome, Begin, BeginOpen, Locked;
    Requests.PassedOn(m, c, ReleaseInterface(req), env);
    Requests.ReleaseOpens(m, c, req, env);
  }
}
