/**
 The serialization of bincode's "standard" configuration: raw bytes for `u8`, tagged
 little-endian variable-length integers, `u64` length prefixes, `u32` variant indices,
 no length in front of fixed arrays.

 A `Coder` plays the part of a derived Encode/Decode pair.  `Lawful` is what every coder
 of this module keeps: decoding undoes encoding whatever bytes follow, and what a decoder
 accepts it accepts unchanged when more bytes arrive.
 */
module Bincode {
  import opened Bytes

  /** A vector: its length is a 64-bit number. */
  type Vec<T> = s: seq<T> | |s| < U64_LIMIT witness []

  type Decoded<T> = Option<(T, seq<byte>)>

  datatype Coder<!T> = Coder(enc: T -> seq<byte>, dec: seq<byte> -> Decoded<T>)

  ghost predicate RoundTrips<T>(c: Coder<T>, x: T, rest: seq<byte>) {
    c.dec(c.enc(x) + rest) == Some((x, rest))
  }

  ghost predicate Extends<T>(c: Coder<T>, b: seq<byte>, more: seq<byte>) {
    c.dec(b).Some? ==> c.dec(b + more) == Some((c.dec(b).value.0, c.dec(b).value.1 + more))
  }

  ghost predicate Lawful<T(!new)>(c: Coder<T>) {
    && (forall x: T, rest: seq<byte> :: RoundTrips(c, x, rest))
    && (forall b: seq<byte>, more: seq<byte> :: Extends(c, b, more))
  }

  /** A lawful coder is prefix-free: no proper prefix of an encoding decodes. */
  lemma TruncatedEncoding<T(!new)>(c: Coder<T>, x: T, n: nat)
    requires Lawful(c)
    requires n < |c.enc(x)|
    ensures c.dec(c.enc(x)[..n]).None?
  {
    var e := c.enc(x);
    assert e[..n] + e[n..] == e && e + [] == e;
    assert Extends(c, e[..n], e[n..]) && RoundTrips(c, x, []);
  }

  // ----- Raw bytes -----

  lemma TakeExtends(b: seq<byte>, n: nat, more: seq<byte>)
    requires n <= |b|
    ensures (b + more)[..n] == b[..n] && (b + more)[n..] == b[n..] + more
  {
  }

  function U8(): (c: Coder<byte>)
    ensures Lawful(c)
  {
    var c := Coder((x: byte) => [x],
                   (b: seq<byte>) => if |b| == 0 then None else Some((b[0], b[1..])));
    assert Lawful(c) by {
      forall b: seq<byte>, more: seq<byte> ensures Extends(c, b, more) {
        if |b| > 0 { TakeExtends(b, 1, more); }
      }
      forall x: byte, rest: seq<byte> ensures RoundTrips(c, x, rest) {
        TakeExtends([x], 1, rest);
      }
    }
    c
  }

  type Nonce = s: seq<byte> | |s| == 32 witness seq(32, _ => 0)

  /** `[u8; 32]`: the bytes themselves, no length. */
  function Array32(): (c: Coder<Nonce>)
    ensures Lawful(c)
  {
    var c := Coder((x: Nonce) => var b: seq<byte> := x; b,
                   (b: seq<byte>) => if |b| < 32 then None else var n: Nonce := b[..32]; Some((n, b[32..])));
    assert Lawful(c) by {
      forall b: seq<byte>, more: seq<byte> ensures Extends(c, b, more) {
        if |b| >= 32 { TakeExtends(b, 32, more); }
      }
      forall x: Nonce, rest: seq<byte> ensures RoundTrips(c, x, rest) {
        TakeExtends(x, 32, rest);
      }
    }
    c
  }

  // ----- Variable-length integers -----

  datatype Width = W16 | W32 | W64 {
    function Limit(): nat {
      match this
      case W16 => 0x1_0000
      case W32 => 0x1_0000_0000
      case W64 => U64_LIMIT
    }

    /** How many little-endian bytes follow the tag, if a reader of this width accepts it. */
    function Following(tag: byte): Option<nat> {
      if tag < 251 then Some(0)
      else if tag == 251 then Some(2)
      else if tag == 252 && this != W16 then Some(4)
      else if tag == 253 && this == W64 then Some(8)
      else None
    }
  }

  function EncodeVarint(n: u64): (b: seq<byte>)
    ensures |b| == VarintSize(n)
  {
    if n < 251 then [n]
    else if n < 0x1_0000 then [251] + LittleEndian(n, 2)
    else if n < 0x1_0000_0000 then [252] + LittleEndian(n, 4)
    else [253] + LittleEndian(n, 8)
  }

  function VarintSize(n: u64): nat {
    if n < 251 then 1 else if n < 0x1_0000 then 3 else if n < 0x1_0000_0000 then 5 else 9
  }

  function DecodeVarint(w: Width, b: seq<byte>): (r: Decoded<u64>)
    ensures r.Some? ==> r.value.0 < w.Limit()
  {
    if |b| == 0 || w.Following(b[0]).None? then None
    else
      var k := w.Following(b[0]).value;
      if |b| < 1 + k then None
      else
        Pow256Values();
        var n: u64 := if k == 0 then b[0] else FromLittleEndian(b[1..1 + k]);
        Some((n, b[1 + k..]))
  }

  lemma VarintRoundTrip(w: Width, n: u64, rest: seq<byte>)
    requires n < w.Limit()
    ensures DecodeVarint(w, EncodeVarint(n) + rest) == Some((n, rest))
  {
    Pow256Values();
    var e := EncodeVarint(n);
    var k := |e| - 1;
    TakeExtends(e, |e|, rest);
    assert (e + rest)[0] == e[0];
    if n >= 251 {
      LittleEndianRoundTrip(n, k);
      assert (e + rest)[1..1 + k] == LittleEndian(n, k);
    }
  }

  lemma VarintExtends(w: Width, b: seq<byte>, more: seq<byte>)
    requires DecodeVarint(w, b).Some?
    ensures DecodeVarint(w, b + more)
         == Some((DecodeVarint(w, b).value.0, DecodeVarint(w, b).value.1 + more))
  {
    var k := w.Following(b[0]).value;
    TakeExtends(b, 1 + k, more);
    assert (b + more)[1..1 + k] == b[1..1 + k];
  }

  function U16(): (c: Coder<u16>)
    ensures Lawful(c)
  {
    var c := Coder((x: u16) => EncodeVarint(x),
                   (b: seq<byte>) => match DecodeVarint(W16, b)
                                     case None => None
                                     case Some((n, r)) => Some((n as u16, r)));
    assert Lawful(c) by {
      forall x: u16, rest: seq<byte> ensures RoundTrips(c, x, rest) { VarintRoundTrip(W16, x, rest); }
      forall b: seq<byte>, more: seq<byte> ensures Extends(c, b, more) {
        if c.dec(b).Some? { VarintExtends(W16, b, more); }
      }
    }
    c
  }

  function U32(): (c: Coder<u32>)
    ensures Lawful(c)
  {
    var c := Coder((x: u32) => EncodeVarint(x),
                   (b: seq<byte>) => match DecodeVarint(W32, b)
                                     case None => None
                                     case Some((n, r)) => Some((n as u32, r)));
    assert Lawful(c) by {
      forall x: u32, rest: seq<byte> ensures RoundTrips(c, x, rest) { VarintRoundTrip(W32, x, rest); }
      forall b: seq<byte>, more: seq<byte> ensures Extends(c, b, more) {
        if c.dec(b).Some? { VarintExtends(W32, b, more); }
      }
    }
    c
  }

  function U64(): (c: Coder<u64>)
    ensures Lawful(c)
  {
    var c := Coder((x: u64) => EncodeVarint(x), (b: seq<byte>) => DecodeVarint(W64, b));
    assert Lawful(c) by {
      forall x: u64, rest: seq<byte> ensures RoundTrips(c, x, rest) { VarintRoundTrip(W64, x, rest); }
      forall b: seq<byte>, more: seq<byte> ensures Extends(c, b, more) {
        if c.dec(b).Some? { VarintExtends(W64, b, more); }
      }
    }
    c
  }

  // ----- Structs: one field after the other -----

  function Pair<A(!new), B(!new)>(a: Coder<A>, b: Coder<B>): (c: Coder<(A, B)>)
    requires Lawful(a) && Lawful(b)
    ensures Lawful(c)
  {
    var c := Coder((p: (A, B)) => a.enc(p.0) + b.enc(p.1),
                   (s: seq<byte>) => match a.dec(s)
                                     case None => None
                                     case Some((x, r)) =>
                                       match b.dec(r)
                                       case None => None
                                       case Some((y, r')) => Some(((x, y), r')));
    assert Lawful(c) by {
      forall p: (A, B), rest: seq<byte> ensures RoundTrips(c, p, rest) {
        assert a.enc(p.0) + b.enc(p.1) + rest == a.enc(p.0) + (b.enc(p.1) + rest);
        assert RoundTrips(a, p.0, b.enc(p.1) + rest) && RoundTrips(b, p.1, rest);
      }
      forall s: seq<byte>, more: seq<byte> ensures Extends(c, s, more) {
        if c.dec(s).Some? {
          assert Extends(a, s, more) && Extends(b, a.dec(s).value.1, more);
        }
      }
    }
    c
  }

  /** A type stored as another one; decoding fails where `to` is undefined. */
  function Map<A(!new), B(!new)>(a: Coder<A>, to: A -> Option<B>, from: B -> A): (c: Coder<B>)
    requires Lawful(a)
    requires forall x: B :: to(from(x)) == Some(x)
    ensures Lawful(c)
  {
    var c := Coder((x: B) => a.enc(from(x)),
                   (s: seq<byte>) => match a.dec(s)
                                     case None => None
                                     case Some((y, r)) =>
                                       match to(y)
                                       case None => None
                                       case Some(x) => Some((x, r)));
    assert Lawful(c) by {
      forall x: B, rest: seq<byte> ensures RoundTrips(c, x, rest) {
        assert RoundTrips(a, from(x), rest);
      }
      forall s: seq<byte>, more: seq<byte> ensures Extends(c, s, more) {
        assert Extends(a, s, more);
      }
    }
    c
  }

  function Bool(): (c: Coder<bool>)
    ensures Lawful(c)
  {
    Map(U8(), (b: byte) => if b == 0 then Some(false) else if b == 1 then Some(true) else None,
        (x: bool) => if x then 1 else 0)
  }

  // ----- Options and vectors -----

  function OptionOf<T(!new)>(a: Coder<T>): (c: Coder<Option<T>>)
    requires Lawful(a)
    ensures Lawful(c)
  {
    var c := Coder((x: Option<T>) => match x case None => [0] case Some(y) => [1] + a.enc(y),
                   (s: seq<byte>) => if |s| == 0 || s[0] > 1 then None
                                     else if s[0] == 0 then Some((None, s[1..]))
                                     else match a.dec(s[1..])
                                          case None => None
                                          case Some((y, r)) => Some((Some(y), r)));
    assert Lawful(c) by {
      forall x: Option<T>, rest: seq<byte> ensures RoundTrips(c, x, rest) {
        if x.None? {
          assert ([0] + rest)[1..] == rest;
        } else {
          assert ([1] + a.enc(x.value) + rest)[1..] == a.enc(x.value) + rest;
          assert RoundTrips(a, x.value, rest);
        }
      }
      forall s: seq<byte>, more: seq<byte> ensures Extends(c, s, more) {
        if c.dec(s).Some? {
          TakeExtends(s, 1, more);
          assert Extends(a, s[1..], more);
        }
      }
    }
    c
  }

  function EncodeAll<T>(a: Coder<T>, xs: seq<T>): seq<byte> {
    if |xs| == 0 then [] else a.enc(xs[0]) + EncodeAll(a, xs[1..])
  }

  function DecodeMany<T>(a: Coder<T>, n: nat, b: seq<byte>): (r: Option<(seq<T>, seq<byte>)>)
    ensures r.Some? ==> |r.value.0| == n
  {
    if n == 0 then Some(([], b))
    else match a.dec(b)
         case None => None
         case Some((x, r)) =>
           match DecodeMany(a, n - 1, r)
           case None => None
           case Some((xs, r')) => Some(([x] + xs, r'))
  }

  lemma {:induction false} ManyRoundTrip<T(!new)>(a: Coder<T>, xs: seq<T>, rest: seq<byte>)
    requires Lawful(a)
    ensures DecodeMany(a, |xs|, EncodeAll(a, xs) + rest) == Some((xs, rest))
  {
    if |xs| == 0 {
      assert EncodeAll(a, xs) + rest == rest;
    } else {
      var tail := EncodeAll(a, xs[1..]) + rest;
      assert EncodeAll(a, xs) + rest == a.enc(xs[0]) + tail;
      assert RoundTrips(a, xs[0], tail);
      ManyRoundTrip(a, xs[1..], rest);
      assert [xs[0]] + xs[1..] == xs;
    }
  }

  lemma {:induction false} ManyExtends<T(!new)>(a: Coder<T>, n: nat, b: seq<byte>, more: seq<byte>)
    requires Lawful(a)
    requires DecodeMany(a, n, b).Some?
    ensures DecodeMany(a, n, b + more)
         == Some((DecodeMany(a, n, b).value.0, DecodeMany(a, n, b).value.1 + more))
  {
    if n > 0 {
      assert Extends(a, b, more);
      ManyExtends(a, n - 1, a.dec(b).value.1, more);
    }
  }

  function VecOf<T(!new)>(a: Coder<T>): (c: Coder<Vec<T>>)
    requires Lawful(a)
    ensures Lawful(c)
  {
    var c := Coder((xs: Vec<T>) => EncodeVarint(|xs|) + EncodeAll(a, xs),
                   (s: seq<byte>) => match DecodeVarint(W64, s)
                                     case None => None
                                     case Some((n, r)) =>
                                       match DecodeMany(a, n, r)
                                       case None => None
                                       case Some((xs, r')) => var v: Vec<T> := xs; Some((v, r')));
    assert Lawful(c) by {
      forall xs: Vec<T>, rest: seq<byte> ensures RoundTrips(c, xs, rest) {
        assert c.enc(xs) + rest == EncodeVarint(|xs|) + (EncodeAll(a, xs) + rest);
        VarintRoundTrip(W64, |xs|, EncodeAll(a, xs) + rest);
        ManyRoundTrip(a, xs, rest);
      }
      forall s: seq<byte>, more: seq<byte> ensures Extends(c, s, more) {
        if c.dec(s).Some? {
          VarintExtends(W64, s, more);
          var n, r := DecodeVarint(W64, s).value.0, DecodeVarint(W64, s).value.1;
          ManyExtends(a, n, r, more);
        }
      }
    }
    c
  }

  /** `Vec<u8>`: the length, then the bytes in one block. */
  function ByteVec(): (c: Coder<Vec<byte>>)
    ensures Lawful(c)
  {
    var c := Coder((xs: Vec<byte>) => EncodeVarint(|xs|) + xs,
                   (s: seq<byte>) => match DecodeVarint(W64, s)
                                     case None => None
                                     case Some((n, r)) =>
                                       if n <= |r| then var v: Vec<byte> := r[..n]; Some((v, r[n..])) else None);
    assert Lawful(c) by {
      forall xs: Vec<byte>, rest: seq<byte> ensures RoundTrips(c, xs, rest) {
        assert EncodeVarint(|xs|) + xs + rest == EncodeVarint(|xs|) + (xs + rest);
        VarintRoundTrip(W64, |xs|, xs + rest);
        TakeExtends(xs, |xs|, rest);
      }
      forall s: seq<byte>, more: seq<byte> ensures Extends(c, s, more) {
        if c.dec(s).Some? {
          VarintExtends(W64, s, more);
          var n, r := DecodeVarint(W64, s).value.0, DecodeVarint(W64, s).value.1;
          TakeExtends(r, n, more);
        }
      }
    }
    c
  }

  // ----- Strings -----

  predicate Continuation(b: byte) {
    0x80 <= b < 0xC0
  }

  /** Length of the well-formed sequence that `s` starts with, 0 if there is none
      (RFC 3629, section 4). */
  function Utf8Unit(s: seq<byte>): (n: nat)
    ensures n <= |s|
  {
    if |s| >= 1 && s[0] < 0x80 then 1
    else if |s| >= 2 && 0xC2 <= s[0] < 0xE0 && Continuation(s[1]) then 2
    else if |s| >= 3 && 0xE0 <= s[0] < 0xF0 && Continuation(s[1]) && Continuation(s[2])
            && (s[0] == 0xE0 ==> s[1] >= 0xA0) && (s[0] == 0xED ==> s[1] < 0xA0) then 3
    else if |s| >= 4 && 0xF0 <= s[0] < 0xF5 && Continuation(s[1]) && Continuation(s[2]) && Continuation(s[3])
            && (s[0] == 0xF0 ==> s[1] >= 0x90) && (s[0] == 0xF4 ==> s[1] < 0x90) then 4
    else 0
  }

  predicate ValidUtf8(s: seq<byte>) {
    |s| == 0 || (Utf8Unit(s) > 0 && ValidUtf8(s[Utf8Unit(s)..]))
  }

  type Text = s: seq<byte> | |s| < U64_LIMIT && ValidUtf8(s) witness []

  function Str(): (c: Coder<Text>)
    ensures Lawful(c)
  {
    Map(ByteVec(), (b: Vec<byte>) => if ValidUtf8(b) then var t: Text := b; Some(t) else None,
        (t: Text) => var b: Vec<byte> := t; b)
  }

  lemma {:induction false} AsciiIsUtf8(s: seq<byte>)
    requires forall k :: 0 <= k < |s| ==> s[k] < 0x80
    ensures ValidUtf8(s)
  {
    if |s| > 0 {
      assert Utf8Unit(s) == 1;
      AsciiIsUtf8(s[1..]);
    }
  }

  function AsciiByte(c: char): (b: byte)
    ensures b < 0x80
  {
    if c < 128 as char then c as int else '?' as int
  }

  /** The bytes of a string of ASCII characters; any other character becomes `?`. */
  function Ascii(s: string): (t: seq<byte>)
    ensures |t| == |s| && ValidUtf8(t)
  {
    var t := seq(|s|, k requires 0 <= k < |s| => AsciiByte(s[k]));
    AsciiIsUtf8(t);
    t
  }
}
