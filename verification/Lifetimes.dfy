/** One attachment in a run of the server: from the step that grants it to the step that ends it. */
module Lifetimes {
  import opened Bytes
  import opened Messages
  import opened Devices
  import opened Connections
  import opened Requests
  import opened Server
  import opened Safety
  import opened Conservation
  import opened Cleanup
  import AnyClient

  // ----- While the attachment lasts -----

  lemma RequestKeepsBorrowed(m: Manager, c: Conn, msg: Message, env: Env, d: DeviceId, h: nat, p: nat,
                             original: set<byte>)
    requires Sound(m) && Borrowed(m, d, h, p, original)
    requires RequestOp(c, msg, env).Some? ==> !Disturbs(RequestOp(c, msg, env).value, d)
    ensures Borrowed(Begin(m, c, msg, env).0, d, h, p, original)
  {
    hide Begin, Sound, Borrowed, Conservation.Apply;
    BeginPerforms(m, c, msg, env);
    if RequestOp(c, msg, env).Some? {
      BorrowedKept(m, RequestOp(c, msg, env).value, d, h, p, original);
    }
  }

  lemma {:induction false} SweepKeepsBorrowed(m: Manager, order: seq<Visit>, d: DeviceId, h: nat, p: nat,
                                              original: set<byte>)
    requires Sound(m) && Borrowed(m, d, h, p, original) && d in m.DetachAllForSessions(order).attachments
    ensures Borrowed(m.DetachAllForSessions(order), d, h, p, original)
  {
    hide Sound, Borrowed, Manager.Detach;
    if |order| > 0 {
      var n := |order| - 1;
      var before, v := m.DetachAllForSessions(order[..n]), order[n];
      VisitOnlyRemoves(before, v);
      SweepKeepsBorrowed(m, order[..n], d, h, p, original);
      Cleanup.SweepKeepsSound(m, order[..n]);
      if v.session in before.sessionToDevice {
        var e := before.sessionToDevice[v.session];
        DetachRemoves(before, e, v.session, v.env);
        BorrowedKept(before, DetachOp(e, v.session, v.env), d, h, p, original);
      }
    }
  }

  lemma VisitOnlyRemoves(m: Manager, v: Visit)
    ensures m.DetachSession(v).attachments.Keys <= m.attachments.Keys
  {
  }

  lemma DetachRemoves(m: Manager, d: DeviceId, s: u64, env: DetachEnv)
    ensures d !in m.Detach(d, s, env).0.attachments
    ensures m.Detach(d, s, env).0.attachments == m.attachments - {d}
  {
  }

  /** A set-configuration of the device by a connection that may send one. */
  predicate Reconfigures(sys: System, step: Step, d: DeviceId) {
    step.Receive? && step.id in sys.peers
    && var op := RequestOp(sys.peers[step.id].conn, step.msg, step.env);
       op.Some? && op.value.ConfigureOp? && op.value.d == d
  }

  lemma StepKeepsBorrowed(sys: System, step: Step, d: DeviceId, h: nat, p: nat, original: set<byte>)
    requires Sound(sys.manager) && Enabled(sys, step) && Borrowed(sys.manager, d, h, p, original)
    requires d in Server.Apply(sys, step).manager.attachments && !Reconfigures(sys, step, d)
    ensures Borrowed(Server.Apply(sys, step).manager, d, h, p, original)
  {
    hide Sound, Borrowed, Begin, Finish, Manager.Detach, Manager.DetachAllForSessions, Conservation.Apply, Enumerates;
    match step
    case Receive(id, msg, env) =>
      var c := sys.peers[id].conn;
      BeginPerforms(sys.manager, c, msg, env);
      DetachOpRemoves(sys.manager, RequestOp(c, msg, env));
      RequestKeepsBorrowed(sys.manager, c, msg, env, d, h, p, original);
    case Sweep(_, order) => SweepKeepsBorrowed(sys.manager, order, d, h, p, original);
    case Plug(e, q, device) => BorrowedKept(sys.manager, PlugOp(e, q, device), d, h, p, original);
    case Unplug(e) => BorrowedKept(sys.manager, UnplugOp(e), d, h, p, original);
    case _ =>
  }

  lemma DetachOpRemoves(m: Manager, op: Option<Op>)
    ensures op.Some? && op.value.DetachOp? ==> op.value.d !in Conservation.Apply(m, op.value).attachments
  {
  }

  lemma {:induction false} BorrowedAlong(states: seq<System>, steps: seq<Step>, i: nat, k: nat,
                                         d: DeviceId, h: nat, p: nat, original: set<byte>)
    requires Run(states, steps) && BusSound(states[0].manager.bus)
    requires i <= k < |states| && Borrowed(states[i].manager, d, h, p, original)
    requires forall n: nat :: i <= n <= k ==> d in states[n].manager.attachments
    requires forall n: nat :: i <= n < k ==> !Reconfigures(states[n], steps[n], d)
    ensures Borrowed(states[k].manager, d, h, p, original)
  {
    hide Server.Apply, Enabled, Borrowed, Sound, BusSound, Reconfigures;
    if i < k {
      BorrowedAlong(states, steps, i, k - 1, d, h, p, original);
      AnyClient.AlwaysSound(states, steps, k - 1);
      assert d in states[k].manager.attachments && states[k] == Server.Apply(states[k - 1], steps[k - 1]);
      StepKeepsBorrowed(states[k - 1], steps[k - 1], d, h, p, original);
    }
  }

  // ----- When it ends -----

  /** Handle `h` has nothing claimed, device `p` has its drivers, and no attachment uses either. */
  ghost predicate Returned(m: Manager, h: nat, p: nat, original: set<byte>) {
    && m.bus.Handle(h).claimed == {} && m.bus.Device(p).drivers == original
    && h in m.bus.handles && p in m.bus.devices
    && forall e :: e in m.attachments ==> m.attachments[e].handle != h && DeviceFor(m, e) != p
  }

  lemma DetachReturns(m: Manager, d: DeviceId, s: u64, h: nat, p: nat, original: set<byte>)
    requires Sound(m) && Borrowed(m, d, h, p, original)
    ensures Returned(m.Detach(d, s, NO_FAULTS).0, h, p, original)
  {
    DetachForm(m, d, s, NO_FAULTS);
    NothingStillClaimed(m.attachments[d].claimedInterfaces);
  }

  lemma ReturnedStays(m: Manager, v: Visit, h: nat, p: nat, original: set<byte>)
    requires Sound(m) && Returned(m, h, p, original)
    ensures Returned(m.DetachSession(v), h, p, original)
  {
    if v.session in m.sessionToDevice && m.sessionToDevice[v.session] in m.attachments {
      DetachForm(m, m.sessionToDevice[v.session], v.session, v.env);
    }
  }

  lemma {:induction false} SweepReturns(m: Manager, order: seq<Visit>, d: DeviceId, h: nat, p: nat, original: set<byte>)
    requires Sound(m) && Borrowed(m, d, h, p, original)
    requires d !in m.DetachAllForSessions(order).attachments
    requires forall v :: v in order ==> v.env == NO_FAULTS
    ensures Returned(m.DetachAllForSessions(order), h, p, original)
  {
    hide Sound, Borrowed, Returned, Manager.Detach;
    if |order| == 0 {
      BorrowedIsAttached(m, d, h, p, original);
    } else {
      var n := |order| - 1;
      var before, v := m.DetachAllForSessions(order[..n]), order[n];
      Cleanup.SweepKeepsSound(m, order[..n]);
      if d !in before.attachments {
        SweepReturns(m, order[..n], d, h, p, original);
        ReturnedStays(before, v, h, p, original);
      } else {
        SweepKeepsBorrowed(m, order[..n], d, h, p, original);
        assert v in order && v.session in before.sessionToDevice;
        DetachRemoves(before, before.sessionToDevice[v.session], v.session, v.env);
        DetachReturns(before, d, v.session, h, p, original);
      }
    }
  }

  lemma BorrowedIsAttached(m: Manager, d: DeviceId, h: nat, p: nat, original: set<byte>)
    requires Borrowed(m, d, h, p, original)
    ensures d in m.attachments
  {
  }

  /** No USB call of a detach in this step meets a fault. */
  predicate Faultless(step: Step) {
    match step
    case Receive(_, _, env) => env.detach == NO_FAULTS
    case Sweep(_, order) => forall v :: v in order ==> v.env == NO_FAULTS
    case _ => true
  }

  lemma OnlyDetachOpRemoves(m: Manager, op: Op, d: DeviceId)
    requires d in m.attachments && d !in Conservation.Apply(m, op).attachments
    ensures op.DetachOp? && op.d == d
  {
    hide DetachDrivers, ReleaseAll, ReattachAll;
  }

  /** A device leaves the table in a Detach request or in a sweep, and in no other step. */
  lemma EndingReturns(sys: System, step: Step, d: DeviceId, h: nat, p: nat, original: set<byte>)
    requires Sound(sys.manager) && Enabled(sys, step) && Borrowed(sys.manager, d, h, p, original)
    requires d in sys.manager.attachments && d !in Server.Apply(sys, step).manager.attachments && Faultless(step)
    ensures step.Receive? || step.Sweep?
    ensures Returned(Server.Apply(sys, step).manager, h, p, original)
  {
    hide Sound, Borrowed, Returned, Begin, Finish, Manager.Detach, Manager.DetachAllForSessions, Enumerates;
    match step
    case Receive(id, msg, env) =>
      var op := RequestOp(sys.peers[id].conn, msg, env);
      BeginPerforms(sys.manager, sys.peers[id].conn, msg, env);
      OnlyDetachOpRemoves(sys.manager, op.value, d);
      DetachReturns(sys.manager, d, op.value.s, h, p, original);
    case Sweep(_, order) => SweepReturns(sys.manager, order, d, h, p, original);
    case _ =>
  }

  lemma GrantBorrows(sys: System, step: Step)
    requires Sound(sys.manager) && Enabled(sys, step) && AnyClient.Grants(sys, step)
    ensures var m, d := sys.manager, step.msg.deviceId;
            && d in m.bus.present && d in Server.Apply(sys, step).manager.attachments
            && Borrowed(Server.Apply(sys, step).manager, d, m.bus.nextHandle, m.bus.present[d],
                        m.bus.Device(m.bus.present[d]).drivers)
  {
    hide DetachDrivers, Enumerates;
    var m, c := sys.manager, sys.peers[step.id].conn;
    BeginPerforms(m, c, step.msg, step.env);
    AttachBorrows(m, step.msg.deviceId, c.peer, step.env.attach);
  }

  /**
   In any run, whatever the clients send: a device attached in step `i`, attached in every state up
   to `j`, and gone after step `j`, by a Detach or by the cleanup of a closing connection.  If nobody
   gave it another configuration in between and the USB calls of its end succeed, nothing stays
   claimed on its handle and its kernel drivers are those it had before step `i`.
   */
  lemma LifeInARun(states: seq<System>, steps: seq<Step>, i: nat, j: nat)
    requires Run(states, steps) && BusSound(states[0].manager.bus)
    requires i < j < |steps| && AnyClient.Grants(states[i], steps[i])
    requires var d := steps[i].msg.deviceId;
             && (forall n: nat :: i < n <= j ==> d in states[n].manager.attachments)
             && (forall n: nat :: i < n < j ==> !Reconfigures(states[n], steps[n], d))
             && d !in states[j + 1].manager.attachments && Faultless(steps[j])
    ensures steps[j].Receive? || steps[j].Sweep?
    ensures var d, bus := steps[i].msg.deviceId, states[i].manager.bus;
            && d in bus.present
            && Returned(states[j + 1].manager, bus.nextHandle, bus.present[d], bus.Device(bus.present[d]).drivers)
  {
    hide Server.Apply, Enabled, Borrowed, Sound, BusSound, Reconfigures, Faultless, Returned;
    var d, bus := steps[i].msg.deviceId, states[i].manager.bus;
    AnyClient.AlwaysSound(states, steps, i);
    AnyClient.AlwaysSound(states, steps, j);
    assert states[i + 1] == Server.Apply(states[i], steps[i]) && Enabled(states[i], steps[i]);
    assert states[j + 1] == Server.Apply(states[j], steps[j]) && Enabled(states[j], steps[j]);
    GrantBorrows(states[i], steps[i]);
    var h, p, original := bus.nextHandle, bus.present[d], bus.Device(bus.present[d]).drivers;
    BorrowedAlong(states, steps, i + 1, j, d, h, p, original);
    EndingReturns(states[j], steps[j], d, h, p, original);
  }
}
