/** Requests as operations of the manager: each performs at most one, under the lock. */
module Requests {
  import opened Bytes
  import opened Messages
  import opened Devices
  import opened Connections
  import opened Conservation

  /** The one operation a request performs under the lock, if any. */
  function RequestOp(c: Conn, msg: Message, env: Env): Option<Op> {
    if Locked(c) then None else OpenOp(c, msg, env)
  }

  function OpenOp(c: Conn, msg: Message, env: Env): Option<Op> {
    if msg.Attach? then Some(AttachOp(msg.deviceId, c.peer, env.attach))
    else if msg.Detach? && msg.detach.sessionId in c.sessions then
      Some(DetachOp(msg.detach.deviceId, msg.detach.sessionId, env.detach))
    else if msg.ClaimInterface? && msg.setting.sessionId in c.sessions then
      Some(ClaimOp(msg.setting.deviceId, msg.setting.number, env.fault))
    else if msg.ReleaseInterface? && msg.setting.sessionId in c.sessions then
      Some(ReleaseOp(msg.setting.deviceId, msg.setting.number, env.fault))
    else if msg.SetConfiguration? && msg.setting.sessionId in c.sessions then
      Some(ConfigureOp(msg.setting.deviceId, env.configure))
    else None
  }

  // ----- Dispatch -----

  lemma PassedOn(m: Manager, c: Conn, msg: Message, env: Env)
    requires !Locked(c) && !msg.Hello? && !msg.Ping?
    ensures Begin(m, c, msg, env) == BeginOpen(m, c, msg, env)
  {
    hide BeginOpen, Locked, Unauthenticated;
  }

  lemma AttachOpens(m: Manager, c: Conn, d: DeviceId, env: Env)
    ensures BeginOpen(m, c, Attach(d), env) == BeginAttach(m, c, d, env.attach)
  {
    hide BeginAttach, BeginDetach, BeginTransfer, BeginClaim, BeginRelease, BeginConfigure, ListReply,
         DescriptorsReply, BridgeAction, Unexpected;
  }

  lemma ReleaseOpens(m: Manager, c: Conn, req: SettingRequest, env: Env)
    ensures var (m', r) := BeginRelease(m, c, req, env.fault);
            BeginOpen(m, c, ReleaseInterface(req), env) == (m', Answered(Reply(ReleaseInterfaceResult(r))))
  {
    hide BeginAttach, BeginDetach, BeginTransfer, BeginClaim, BeginRelease, BeginConfigure, ListReply,
         DescriptorsReply, BridgeAction, Unexpected;
  }

  lemma BridgeOpens(m: Manager, c: Conn, d: DeviceId, env: Env)
    ensures BeginOpen(m, c, Message.Bridge(d), env) == (m, Answered(BridgeAction(d, env.port)))
  {
    hide BeginAttach, BeginDetach, BeginTransfer, BeginClaim, BeginRelease, BeginConfigure, ListReply,
         DescriptorsReply, BridgeAction, Unexpected;
  }

  // ----- The operation behind a request -----

  lemma SessionsPerform(m: Manager, c: Conn, d: DeviceId, req: DetachRequest, env: Env)
    ensures BeginAttach(m, c, d, env.attach).0 == Conservation.Apply(m, AttachOp(d, c.peer, env.attach))
    ensures BeginDetach(m, c, req, env.detach).0 ==
            if req.sessionId !in c.sessions then m
            else Conservation.Apply(m, DetachOp(req.deviceId, req.sessionId, env.detach))
  {
    hide Manager.Attach, Manager.Detach;
  }

  lemma ClaimPerforms(m: Manager, c: Conn, req: SettingRequest, env: Env)
    ensures BeginClaim(m, c, req, env.fault).0 ==
            if req.sessionId !in c.sessions then m
            else Conservation.Apply(m, ClaimOp(req.deviceId, req.number, env.fault))
  {
    hide Manager.Claim;
  }

  lemma ReleasePerforms(m: Manager, c: Conn, req: SettingRequest, env: Env)
    ensures BeginRelease(m, c, req, env.fault).0 ==
            if req.sessionId !in c.sessions then m
            else Conservation.Apply(m, ReleaseOp(req.deviceId, req.number, env.fault))
  {
    hide Manager.Release;
  }

  lemma ConfigurePerforms(m: Manager, c: Conn, req: SettingRequest, env: Env)
    ensures BeginConfigure(m, c, req, env.configure).0 ==
            if req.sessionId in c.sessions then Conservation.Apply(m, ConfigureOp(req.deviceId, env.configure)) else m
  {
    hide Manager.Configure;
  }

  lemma OpenPerforms(m: Manager, c: Conn, msg: Message, env: Env)
    ensures BeginOpen(m, c, msg, env).0 ==
            match OpenOp(c, msg, env) case None => m case Some(op) => Conservation.Apply(m, op)
  {
    hide Conservation.Apply, BeginAttach, BeginDetach, BeginTransfer, BeginClaim, BeginRelease, BeginConfigure,
         ListReply, DescriptorsReply, BridgeAction, Unexpected;
    if msg.Attach? {
      SessionsPerform(m, c, msg.deviceId, DetachRequest(msg.deviceId, 0), env);
    } else if msg.Detach? {
      SessionsPerform(m, c, msg.detach.deviceId, msg.detach, env);
    } else if msg.ClaimInterface? {
      ClaimPerforms(m, c, msg.setting, env);
    } else if msg.ReleaseInterface? {
      ReleasePerforms(m, c, msg.setting, env);
    } else if msg.SetConfiguration? {
      ConfigurePerforms(m, c, msg.setting, env);
    }
  }

  lemma GreetingPerformsNothing(c: Conn, msg: Message, env: Env)
    ensures msg.Hello? || msg.Ping? ==> OpenOp(c, msg, env).None?
  {
  }

  /** Every request performs at most one operation of the manager, and that one. */
  lemma BeginPerforms(m: Manager, c: Conn, msg: Message, env: Env)
    ensures Begin(m, c, msg, env).0 ==
            match RequestOp(c, msg, env) case None => m case Some(op) => Conservation.Apply(m, op)
  {
    hide BeginOpen, OpenOp, Conservation.Apply, Locked, Unauthenticated;
    OpenPerforms(m, c, msg, env);
    GreetingPerformsNothing(c, msg, env);
  }
}
