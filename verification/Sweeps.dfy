/** Cleaning up after a connection: what it removes, and when the order of the ids matters. */
module Sweeps {
  import opened Bytes
  import opened Devices
  import opened Ledgers
  import opened Connections

  function Visited(order: seq<Visit>): set<u64> {
    set v | v in order :: v.session
  }

  ghost predicate Distinct(order: seq<Visit>) {
    forall j, k :: 0 <= j < k < |order| ==> order[j].session != order[k].session
  }

  /** No two of the sessions are recorded for the same attached device. */
  ghost predicate NoSharing(m: Manager, sessions: set<u64>) {
    forall s: u64, t: u64 :: s in sessions && t in sessions && s != t
      && s in m.sessionToDevice && t in m.sessionToDevice
      && m.sessionToDevice[s] == m.sessionToDevice[t]
      ==> m.sessionToDevice[s] !in m.attachments
  }

  /** The ids a sweep of `sessions` takes out of the table. */
  function Swept(m: Manager, sessions: set<u64>): set<u64> {
    set s | s in sessions && s in m.sessionToDevice && m.sessionToDevice[s] in m.attachments
  }

  /** `m'` is `m` after the sessions in `done` were swept. */
  predicate SweptTo(m: Manager, done: set<u64>, m': Manager) {
    && m'.attachments == m.attachments - Image(m.sessionToDevice, done)
    && m'.sessionToDevice == m.sessionToDevice - Swept(m, done)
    && m'.nextSessionId == m.nextSessionId
  }

  lemma SweepOne(m: Manager, done: set<u64>, m': Manager, v: Visit)
    requires SweptTo(m, done, m') && v.session !in done
    requires NoSharing(m, done + {v.session})
    ensures SweptTo(m, done + {v.session}, m'.DetachSession(v))
  {
    var s, more := v.session, done + {v.session};
    if s in m.sessionToDevice {
      var d := m.sessionToDevice[s];
      assert Image(m.sessionToDevice, more) == Image(m.sessionToDevice, done) + {d};
      assert Swept(m, more) == Swept(m, done) + (if d in m.attachments then {s} else {});
      if d in Image(m.sessionToDevice, done) {
        var t :| t in done && t in m.sessionToDevice && m.sessionToDevice[t] == d;
        assert t in more && s in more;
        assert d !in m.attachments;
      }
    } else {
      assert Image(m.sessionToDevice, more) == Image(m.sessionToDevice, done);
      assert Swept(m, more) == Swept(m, done);
    }
  }

  /** Exactly the devices of the swept sessions are gone, and nothing else has changed. */
  lemma {:induction false} SweepExactly(m: Manager, order: seq<Visit>)
    requires Distinct(order) && NoSharing(m, Visited(order))
    ensures SweptTo(m, Visited(order), m.DetachAllForSessions(order))
  {
    if |order| == 0 {
      assert Image(m.sessionToDevice, Visited(order)) == {} && Swept(m, Visited(order)) == {};
      assert m.attachments - {} == m.attachments && m.sessionToDevice - {} == m.sessionToDevice;
    } else {
      var n := |order| - 1;
      var front, s := order[..n], order[n].session;
      assert order == front + [order[n]];
      assert Visited(order) == Visited(front) + {s};
      assert s !in Visited(front) by {
        forall v | v in front ensures v.session != s {
          var k :| 0 <= k < n && front[k] == v;
          assert order[k].session != order[n].session;
        }
      }
      SweepExactly(m, front);
      SweepOne(m, Visited(front), m.DetachAllForSessions(front), order[n]);
    }
  }

  // ----- The order of the ids -----

  predicate SameTables(a: Manager, b: Manager) {
    a.attachments == b.attachments && a.sessionToDevice == b.sessionToDevice && a.nextSessionId == b.nextSessionId
  }

  ghost predicate OrderIndependent(m: Manager, sessions: set<u64>) {
    forall a: seq<Visit>, b: seq<Visit> :: Enumerates(a, sessions) && Enumerates(b, sessions) ==>
      SameTables(m.DetachAllForSessions(a), m.DetachAllForSessions(b))
  }

  lemma EnumerationVisits(order: seq<Visit>, sessions: set<u64>)
    requires Enumerates(order, sessions)
    ensures Visited(order) == sessions && Distinct(order)
  {
    forall s | s in sessions ensures s in Visited(order) {
      var k :| 0 <= k < |order| && order[k].session == s;
      assert order[k] in order;
    }
  }

  lemma {:induction false} SomeEnumeration(sessions: set<u64>) returns (order: seq<Visit>)
    ensures Enumerates(order, sessions)
  {
    if sessions == {} {
      order := [];
    } else {
      var s :| s in sessions;
      var rest := SomeEnumeration(sessions - {s});
      order := [Visit(s, NO_FAULTS)] + rest;
      forall t | t in sessions ensures exists k :: 0 <= k < |order| && order[k].session == t {
        if t == s {
          assert order[0].session == s;
        } else {
          assert t in sessions - {s};
          var k :| 0 <= k < |rest| && rest[k].session == t;
          assert order[k + 1].session == t;
        }
      }
      forall j, k | 0 <= j < k < |order| ensures order[j].session != order[k].session {
        assert rest[k - 1] == order[k];
        if j > 0 {
          assert rest[j - 1] == order[j];
        }
      }
    }
  }

  /** A sweep never takes out the id of a session whose device is no longer attached. */
  lemma {:induction false} OrphanStays(m: Manager, order: seq<Visit>, t: u64)
    requires t in m.sessionToDevice && m.sessionToDevice[t] !in m.attachments
    ensures t in m.DetachAllForSessions(order).sessionToDevice
    ensures m.DetachAllForSessions(order).sessionToDevice[t] == m.sessionToDevice[t]
    ensures m.DetachAllForSessions(order).attachments.Keys <= m.attachments.Keys
  {
    if |order| > 0 {
      OrphanStays(m, order[..|order| - 1], t);
    }
  }

  lemma {:induction false} SweptIdGone(m: Manager, order: seq<Visit>, s: u64)
    requires s !in m.sessionToDevice
    ensures s !in m.DetachAllForSessions(order).sessionToDevice
  {
    if |order| > 0 {
      SweptIdGone(m, order[..|order| - 1], s);
    }
  }

  lemma {:induction false} SweepInTwo(m: Manager, a: seq<Visit>, b: seq<Visit>)
    ensures m.DetachAllForSessions(a + b) == m.DetachAllForSessions(a).DetachAllForSessions(b)
  {
    if |b| == 0 {
      assert a + b == a;
    } else {
      var n := |b| - 1;
      SweepInTwo(m, a, b[..n]);
      assert (a + b)[..|a + b| - 1] == a + b[..n];
    }
  }

  /** Of two sessions recorded for one attached device, the one swept second stays in the table. */
  lemma SecondOfTwoStays(m: Manager, s: u64, t: u64, rest: seq<Visit>)
    requires s != t && s in m.sessionToDevice && t in m.sessionToDevice
    requires m.sessionToDevice[s] == m.sessionToDevice[t] && m.sessionToDevice[s] in m.attachments
    ensures var m' := m.DetachAllForSessions([Visit(s, NO_FAULTS), Visit(t, NO_FAULTS)] + rest);
            s !in m'.sessionToDevice && t in m'.sessionToDevice
  {
    var one, two := [Visit(s, NO_FAULTS)], [Visit(s, NO_FAULTS), Visit(t, NO_FAULTS)];
    assert two[..1] == one && one[..0] == [];
    var m1 := m.DetachAllForSessions(one);
    assert m.DetachAllForSessions(one[..0]) == m;
    assert m1 == m.Detach(m.sessionToDevice[s], s, NO_FAULTS).0;
    assert m.DetachAllForSessions(two) == m1;
    SweepInTwo(m, two, rest);
    OrphanStays(m1, rest, t);
    SweptIdGone(m1, rest, s);
  }

  lemma PairInFront(s: u64, t: u64, rest: seq<Visit>, sessions: set<u64>)
    requires s != t && s in sessions && t in sessions
    requires Enumerates(rest, sessions - {s, t})
    ensures Enumerates([Visit(s, NO_FAULTS), Visit(t, NO_FAULTS)] + rest, sessions)
  {
    var order := [Visit(s, NO_FAULTS), Visit(t, NO_FAULTS)] + rest;
    assert order[0].session == s && order[1].session == t;
    forall u | u in sessions ensures exists k :: 0 <= k < |order| && order[k].session == u {
      if u != s && u != t {
        assert u in sessions - {s, t};
        var k :| 0 <= k < |rest| && rest[k].session == u;
        assert order[k + 2].session == u;
      }
    }
  }

  lemma UnsharedIsIndependent(m: Manager, sessions: set<u64>, a: seq<Visit>, b: seq<Visit>)
    requires NoSharing(m, sessions) && Enumerates(a, sessions) && Enumerates(b, sessions)
    ensures SameTables(m.DetachAllForSessions(a), m.DetachAllForSessions(b))
  {
    EnumerationVisits(a, sessions);
    EnumerationVisits(b, sessions);
    SweepExactly(m, a);
    SweepExactly(m, b);
  }

  lemma SharedDependsOnOrder(m: Manager, sessions: set<u64>, s: u64, t: u64) returns (a: seq<Visit>, b: seq<Visit>)
    requires s in sessions && t in sessions && s != t && s in m.sessionToDevice && t in m.sessionToDevice
    requires m.sessionToDevice[s] == m.sessionToDevice[t] && m.sessionToDevice[s] in m.attachments
    ensures Enumerates(a, sessions) && Enumerates(b, sessions)
    ensures !SameTables(m.DetachAllForSessions(a), m.DetachAllForSessions(b))
  {
    var rest := SomeEnumeration(sessions - {s, t});
    assert sessions - {t, s} == sessions - {s, t};
    PairInFront(s, t, rest, sessions);
    PairInFront(t, s, rest, sessions);
    SecondOfTwoStays(m, s, t, rest);
    SecondOfTwoStays(m, t, s, rest);
    a := [Visit(s, NO_FAULTS), Visit(t, NO_FAULTS)] + rest;
    b := [Visit(t, NO_FAULTS), Visit(s, NO_FAULTS)] + rest;
  }

  /**
   The hash map gives the ids in any order.  The tables come out the same for every order if and
   only if no two of the sessions are recorded for the same attached device.
   */
  lemma OrderMattersIff(m: Manager, sessions: set<u64>)
    ensures OrderIndependent(m, sessions) <==> NoSharing(m, sessions)
  {
    if NoSharing(m, sessions) {
      forall a: seq<Visit>, b: seq<Visit> | Enumerates(a, sessions) && Enumerates(b, sessions)
        ensures SameTables(m.DetachAllForSessions(a), m.DetachAllForSessions(b))
      {
        UnsharedIsIndependent(m, sessions, a, b);
      }
    } else {
      var s: u64, t: u64 :| s in sessions && t in sessions && s != t
        && s in m.sessionToDevice && t in m.sessionToDevice
        && m.sessionToDevice[s] == m.sessionToDevice[t] && m.sessionToDevice[s] in m.attachments;
      var a, b := SharedDependsOnOrder(m, sessions, s, t);
    }
  }
}
