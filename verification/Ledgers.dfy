/**
 The session book-keeping in the abstract: which device each live session is for, which devices
 are attached, the next id, and which sessions each connection holds.  Granting, revoking and
 enrolling are the only moves of well-behaved connections.
 */
module Ledgers {
  import opened Bytes
  import opened Messages

  type Sessions = map<u64, DeviceId>

  datatype Ledger = Ledger(devices: Sessions, attached: set<DeviceId>, next: u64, held: map<nat, Sessions>)

  ghost predicate Injective(m: Sessions) {
    forall s: u64, t: u64 :: s in m && t in m && m[s] == m[t] ==> s == t
  }

  predicate Holds(l: Ledger, id: nat, s: u64) {
    id in l.held && s in l.held[id]
  }

  /** Every live session is held by exactly one connection, for the same device, and live
      sessions and attached devices correspond one to one. */
  ghost predicate Good(l: Ledger) {
    && 1 <= l.next
    && Injective(l.devices)
    && l.devices.Values == l.attached
    && (forall s: u64 :: s in l.devices ==> 1 <= s < l.next)
    && (forall id: nat, s: u64 :: Holds(l, id, s) ==> s in l.devices && l.devices[s] == l.held[id][s])
    && (forall s: u64 :: s in l.devices ==> exists id :: Holds(l, id, s))
    && (forall id: nat, jd: nat, s: u64 :: Holds(l, id, s) && Holds(l, jd, s) ==> id == jd)
  }

  function Enroll(l: Ledger, id: nat): Ledger {
    l.(held := l.held[id := map[]])
  }

  function Grant(l: Ledger, id: nat, d: DeviceId): Ledger
    requires id in l.held && l.next + 1 < U64_LIMIT
  {
    var mine: Sessions := l.held[id][l.next := d];
    Ledger(l.devices[l.next := d], l.attached + {d}, l.next + 1, l.held[id := mine])
  }

  function Revoke(l: Ledger, id: nat, s: u64): Ledger
    requires id in l.held && s in l.devices
  {
    Ledger(l.devices - {s}, l.attached - {l.devices[s]}, l.next, l.held[id := l.held[id] - {s}])
  }

  function Image(m: Sessions, sessions: set<u64>): set<DeviceId> {
    set s | s in sessions && s in m :: m[s]
  }

  function RevokeAll(l: Ledger, id: nat): Ledger
    requires id in l.held
  {
    Ledger(l.devices - l.held[id].Keys, l.attached - Image(l.devices, l.held[id].Keys), l.next, l.held[id := map[]])
  }

  lemma EnrollKeepsGood(l: Ledger, id: nat)
    requires Good(l) && id !in l.held
    ensures Good(Enroll(l, id))
  {
    var l' := Enroll(l, id);
    forall s | s in l'.devices ensures exists jd :: Holds(l', jd, s) {
      var jd :| Holds(l, jd, s);
      assert Holds(l', jd, s);
    }
    forall jd: nat, s: u64 | Holds(l', jd, s) ensures Holds(l, jd, s) && l'.held[jd][s] == l.held[jd][s] {
    }
    forall jd: nat, kd: nat, s: u64 | Holds(l', jd, s) && Holds(l', kd, s) ensures jd == kd {
      assert Holds(l, jd, s) && Holds(l, kd, s);
    }
  }

  lemma GrantKeepsGood(l: Ledger, id: nat, d: DeviceId)
    requires Good(l) && id in l.held && d !in l.attached && l.next + 1 < U64_LIMIT
    ensures Good(Grant(l, id, d))
  {
    var l' := Grant(l, id, d);
    assert l.next !in l.devices;
    forall s | s in l'.devices ensures exists jd :: Holds(l', jd, s) {
      if s == l.next {
        assert Holds(l', id, s);
      } else {
        var jd :| Holds(l, jd, s);
        assert Holds(l', jd, s);
      }
    }
    forall e ensures e in l'.devices.Values <==> e in l'.attached {
      if e == d {
        assert l'.devices[l.next] == d;
      } else if e in l.attached {
        var s :| s in l.devices && l.devices[s] == e;
        assert l'.devices[s] == e;
      }
    }
    forall s, t | s in l'.devices && t in l'.devices && l'.devices[s] == l'.devices[t] ensures s == t {
      assert s in l.devices ==> l.devices[s] in l.attached;
      assert t in l.devices ==> l.devices[t] in l.attached;
    }
    forall jd: nat, kd: nat, s: u64 | Holds(l', jd, s) && Holds(l', kd, s) ensures jd == kd {
      assert s != l.next ==> Holds(l, jd, s) && Holds(l, kd, s);
      assert s == l.next ==> !Holds(l, jd, s) && !Holds(l, kd, s);
    }
    forall jd: nat, s: u64 | Holds(l', jd, s) ensures s in l'.devices && l'.devices[s] == l'.held[jd][s] {
      assert s != l.next ==> Holds(l, jd, s);
      assert s == l.next ==> !Holds(l, jd, s);
    }
  }

  lemma RevokeAllKeepsGood(l: Ledger, id: nat)
    requires Good(l) && id in l.held
    ensures Good(RevokeAll(l, id))
  {
    var l' := RevokeAll(l, id);
    forall s | s in l'.devices ensures exists jd :: Holds(l', jd, s) {
      var jd :| Holds(l, jd, s);
      assert Holds(l', jd, s);
    }
    forall jd: nat, s: u64 | Holds(l', jd, s) ensures s in l'.devices && l'.devices[s] == l'.held[jd][s] {
      assert Holds(l, jd, s);
      assert s in l.held[id] ==> Holds(l, id, s);
    }
    forall jd: nat, kd: nat, s: u64 | Holds(l', jd, s) && Holds(l', kd, s) ensures jd == kd {
      assert Holds(l, jd, s) && Holds(l, kd, s);
    }
    forall e ensures e in l'.devices.Values <==> e in l'.attached {
      if e in l.attached {
        var s :| s in l.devices && l.devices[s] == e;
        if s in l.held[id] {
          assert e in Image(l.devices, l.held[id].Keys);
        } else {
          assert l'.devices[s] == e;
        }
      }
    }
  }

  lemma RevokeKeepsGood(l: Ledger, id: nat, s: u64)
    requires Good(l) && Holds(l, id, s)
    ensures Good(Revoke(l, id, s))
  {
    var l' := Revoke(l, id, s);
    forall t | t in l'.devices ensures exists jd :: Holds(l', jd, t) {
      var jd :| Holds(l, jd, t);
      assert Holds(l', jd, t);
    }
    forall jd: nat, t: u64 | Holds(l', jd, t) ensures t in l'.devices && l'.devices[t] == l'.held[jd][t] {
      assert Holds(l, jd, t);
    }
    forall jd: nat, kd: nat, t: u64 | Holds(l', jd, t) && Holds(l', kd, t) ensures jd == kd {
      assert Holds(l, jd, t) && Holds(l, kd, t);
    }
    forall e ensures e in l'.devices.Values <==> e in l'.attached {
      if e in l.attached {
        var t :| t in l.devices && l.devices[t] == e;
        if t != s {
          assert l'.devices[t] == e;
        }
      }
    }
  }

  // ----- What holds whatever connections do -----

  /** Held sessions are disjoint, ids were issued, and a session known in both places is for one device. */
  ghost predicate Orderly(l: Ledger) {
    && 1 <= l.next
    && (forall s: u64 :: s in l.devices ==> 1 <= s < l.next)
    && (forall id: nat, s: u64 :: Holds(l, id, s) ==> 1 <= s < l.next)
    && (forall id: nat, s: u64 :: Holds(l, id, s) && s in l.devices ==> l.devices[s] == l.held[id][s])
    && (forall id: nat, jd: nat, s: u64 :: Holds(l, id, s) && Holds(l, jd, s) ==> id == jd)
  }

  /** From `l` to `l'` no id that was already issued appears anew, changes its device or its holder. */
  ghost predicate Ages(l: Ledger, l': Ledger) {
    && l.next <= l'.next
    && (forall s: u64 :: s in l'.devices && s < l.next ==> s in l.devices && l.devices[s] == l'.devices[s])
    && (forall id: nat, s: u64 :: Holds(l', id, s) && s < l.next ==> Holds(l, id, s) && l.held[id][s] == l'.held[id][s])
  }

  lemma AgesReflexive(l: Ledger)
    ensures Ages(l, l)
  {
  }

  lemma AgesTransitive(a: Ledger, b: Ledger, c: Ledger)
    requires Ages(a, b) && Ages(b, c)
    ensures Ages(a, c)
  {
    forall id: nat, s: u64 | Holds(c, id, s) && s < a.next ensures Holds(a, id, s) && a.held[id][s] == c.held[id][s] {
      assert Holds(b, id, s);
    }
  }

  /** Entries only disappear. */
  ghost predicate Shrinks(l: Ledger, l': Ledger) {
    && l'.next == l.next
    && (forall s: u64 :: s in l'.devices ==> s in l.devices && l.devices[s] == l'.devices[s])
    && (forall id: nat, s: u64 :: Holds(l', id, s) ==> Holds(l, id, s) && l.held[id][s] == l'.held[id][s])
  }

  lemma ShrinkingIsOrderly(l: Ledger, l': Ledger)
    requires Orderly(l) && Shrinks(l, l')
    ensures Orderly(l') && Ages(l, l')
  {
  }

  lemma GrantIsOrderly(l: Ledger, id: nat, d: DeviceId)
    requires Orderly(l) && id in l.held && l.next + 1 < U64_LIMIT
    ensures Orderly(Grant(l, id, d)) && Ages(l, Grant(l, id, d))
  {
    var l' := Grant(l, id, d);
    forall jd: nat, s: u64 | Holds(l', jd, s) ensures Holds(l, jd, s) || (jd == id && s == l.next) {
    }
    forall jd: nat, kd: nat, s: u64 | Holds(l', jd, s) && Holds(l', kd, s) ensures jd == kd {
      assert s == l.next ==> !Holds(l, jd, s) && !Holds(l, kd, s);
    }
  }
}
