/**
 The two independent readers of the vhci_hcd status file, and the loop that watches a port.  A
 file is its rows of whitespace-separated fields.
 */
module Vhci {
  import opened Bytes

  const VDEV_ST_NULL: u32 := 4
  const CONSECUTIVE_FREE_TO_EXIT: nat := 2

  type Row = seq<string>

  predicate Digits(s: string) {
    |s| > 0 && forall k :: 0 <= k < |s| ==> '0' <= s[k] <= '9'
  }

  function DigitsValue(s: string): nat
    requires s == "" || Digits(s)
  {
    if s == "" then 0 else 10 * DigitsValue(s[..|s| - 1]) + (s[|s| - 1] as int - '0' as int)
  }

  /** Decimal digits after an optional plus sign, within 32 bits. */
  function ParseU32(s: string): Option<u32> {
    var digits := if s != "" && s[0] == '+' then s[1..] else s;
    if Digits(digits) && DigitsValue(digits) < 0x1_0000_0000 then Some(DigitsValue(digits)) else None
  }

  /** A row that describes a port; the header row does not. */
  predicate Describes(row: Row, port: u32) {
    |row| >= 3 && row[0] != "hub" && ParseU32(row[1]) == Some(port)
  }

  predicate Free(row: Row, port: u32) {
    Describes(row, port) && ParseU32(row[2]) == Some(VDEV_ST_NULL)
  }

  /** Row `i` is the first that describes the port. */
  predicate FirstOf(rows: seq<Row>, i: nat, port: u32) {
    i < |rows| && Describes(rows[i], port) && forall j :: 0 <= j < i ==> !Describes(rows[j], port)
  }

  ghost predicate FirstFree(rows: seq<Row>, i: nat, port: u32) {
    i < |rows| && Free(rows[i], port) && forall j, p :: 0 <= j < i ==> !Free(rows[j], p)
  }

  /** The port of the first free row. */
  method FindFreePort(rows: seq<Row>) returns (port: Option<u32>)
    ensures port.Some? ==> exists i: nat :: FirstFree(rows, i, port.value)
    ensures port.None? ==> forall i, p :: 0 <= i < |rows| ==> !Free(rows[i], p)
  {
    for i := 0 to |rows|
      invariant forall j, p :: 0 <= j < i ==> !Free(rows[j], p)
    {
      var fields := rows[i];
      if |fields| < 3 {
        continue;
      }
      if fields[0] == "hub" {
        continue;
      }
      var p := ParseU32(fields[1]);
      if p.None? {
        continue;
      }
      var status := ParseU32(fields[2]);
      if status.None? {
        continue;
      }
      if status.value == VDEV_ST_NULL {
        assert FirstFree(rows, i, p.value);
        return p;
      }
    }
    port := None;
  }

  /** The status of the first row that describes the port, if that is a number. */
  method PortStatus(rows: seq<Row>, port: u32) returns (status: Option<u32>)
    ensures forall i: nat :: FirstOf(rows, i, port) ==> status == ParseU32(rows[i][2])
    ensures (forall i :: 0 <= i < |rows| ==> !Describes(rows[i], port)) ==> status == None
  {
    for i := 0 to |rows|
      invariant forall j :: 0 <= j < i ==> !Describes(rows[j], port)
    {
      var fields := rows[i];
      if |fields| < 3 || fields[0] == "hub" {
        continue;
      }
      var p := ParseU32(fields[1]);
      if p.None? {
        continue;
      }
      if p.value != port {
        continue;
      }
      assert FirstOf(rows, i, port);
      return ParseU32(fields[2]);
    }
    status := None;
  }

  /** The port just found free is also reported free exactly if no earlier row describes it; with
      every port on one row only, the two readers agree. */
  lemma ReadersAgreeIff(rows: seq<Row>, i: nat, port: u32) returns (k: nat)
    requires FirstFree(rows, i, port)
    ensures k <= i && FirstOf(rows, k, port)
    ensures ParseU32(rows[k][2]) == Some(VDEV_ST_NULL) <==> forall j :: 0 <= j < i ==> !Describes(rows[j], port)
  {
    FirstExists(rows, i, port);
    k :| k <= i && FirstOf(rows, k, port);
    if k < i {
      assert !Free(rows[k], port);
    }
  }

  lemma {:induction false} FirstExists(rows: seq<Row>, i: nat, port: u32)
    requires i < |rows| && Describes(rows[i], port)
    ensures exists k: nat :: k <= i && FirstOf(rows, k, port)
  {
    if !FirstOf(rows, i, port) {
      var j :| 0 <= j < i && Describes(rows[j], port);
      FirstExists(rows, j, port);
    }
  }

  /** Watches the port, one poll after another, until it was free twice in a row.  Nothing when the
      polls end first. */
  method WaitForPortLoss(inUse: seq<bool>) returns (lost: Option<nat>)
    ensures lost.Some? ==> 1 <= lost.value < |inUse| && !inUse[lost.value - 1] && !inUse[lost.value]
    ensures var end := if lost.Some? then lost.value else |inUse|;
            forall k :: 1 <= k < end ==> inUse[k - 1] || inUse[k]
  {
    var consecutiveFree: byte := 0;
    for poll := 0 to |inUse|
      invariant consecutiveFree < CONSECUTIVE_FREE_TO_EXIT
      invariant consecutiveFree == 0 <==> poll == 0 || inUse[poll - 1]
      invariant forall k :: 1 <= k < poll ==> inUse[k - 1] || inUse[k]
    {
      if inUse[poll] {
        consecutiveFree := 0;
      } else {
        consecutiveFree := consecutiveFree + 1;
        if consecutiveFree >= CONSECUTIVE_FREE_TO_EXIT {
          return Some(poll);
        }
      }
    }
    lost := None;
  }
}
