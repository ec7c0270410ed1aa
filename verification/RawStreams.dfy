/** The raw TCP stream after the switch from frames: what the peer will still send, and how many
    bytes it will still take before the connection fails. */
module RawStreams {
  import opened Bytes

  class RawStream {
    var incoming: seq<byte>
    var written: seq<byte>
    var budget: nat

    constructor (incoming: seq<byte>, budget: nat)
      ensures this.incoming == incoming && this.budget == budget && written == []
    {
      this.incoming, this.budget, written := incoming, budget, [];
    }

    /** All of `n` bytes, or the end of the stream. */
    method ReadExact(n: nat) returns (r: Option<seq<byte>>)
      modifies this`incoming
      ensures |old(incoming)| >= n ==> r == Some(old(incoming)[..n]) && incoming == old(incoming)[n..]
      ensures |old(incoming)| < n ==> r == None && incoming == []
    {
      if |incoming| < n {
        incoming := [];
        return None;
      }
      r := Some(incoming[..n]);
      incoming := incoming[n..];
    }

    method WriteAll(b: seq<byte>) returns (ok: bool)
      modifies this`written, this`budget
      ensures ok <==> |b| <= old(budget)
      ensures written == old(written) + if ok then b else b[..old(budget)]
      ensures budget == if ok then old(budget) - |b| else 0
    {
      ok := |b| <= budget;
      var n := if ok then |b| else budget;
      assert b[..|b|] == b;
      written := written + b[..n];
      budget := budget - n;
    }
  }
}
