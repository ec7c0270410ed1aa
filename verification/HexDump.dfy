/**
 Printing bytes as hex and reading hex back.  Texts are their UTF-8 bytes, so that lengths and
 slices are the program's.
 */
module HexDump {
  import opened Bytes

  const TAB: byte := 9
  const NEWLINE: byte := 10
  const SPACE: byte := 32
  const PLUS: byte := 43
  const DOT: byte := 46
  const ZERO: byte := 48
  const COLON: byte := 58
  const UPPER_X: byte := 88
  const LOWER_X: byte := 120
  const BAR: byte := 124

  const EIGHT_DIGITS: nat := 0x1_0000_0000

  // ----- Hex digits -----

  function LowerDigit(n: nat): byte
    requires n < 16
  {
    if n < 10 then 48 + n else 87 + n
  }

  function DigitValue(c: byte): Option<nat> {
    if 48 <= c <= 57 then Some(c - 48)
    else if 65 <= c <= 70 then Some(c - 55)
    else if 97 <= c <= 102 then Some(c - 87)
    else None
  }

  function HexByte(b: byte): seq<byte> {
    [LowerDigit(b / 16), LowerDigit(b % 16)]
  }

  /** At least eight lower-case digits. */
  function PaddedHex(n: nat): (h: seq<byte>) {
    Digits(n, 8)
  }

  function Digits(n: nat, width: nat): (h: seq<byte>)
    ensures |h| >= width
    ensures forall k :: 0 <= k < |h| ==> h[k] != NEWLINE
    decreases n, width
  {
    if n < 16 && width <= 1 then (if n == 0 && width == 0 then [] else [LowerDigit(n)])
    else Digits(n / 16, if width == 0 then 0 else width - 1) + [LowerDigit(n % 16)]
  }

  lemma {:induction false} DigitsExact(n: nat, width: nat)
    requires n < Power16(width)
    ensures |Digits(n, width)| == width
    decreases width
  {
    if width > 1 {
      assert Power16(width) == 16 * Power16(width - 1);
      DigitsExact(n / 16, width - 1);
    }
  }

  function Power16(k: nat): (p: nat)
    ensures p > 0
  {
    if k == 0 then 1 else 16 * Power16(k - 1)
  }

  lemma EightDigits(n: nat)
    requires n < EIGHT_DIGITS
    ensures |PaddedHex(n)| == 8
  {
    assert Power16(4) == 0x1_0000;
    assert Power16(8) == EIGHT_DIGITS;
    DigitsExact(n, 8);
  }

  // ----- hex_dump -----

  const COLUMNS: nat := 16
  const AREA_WIDTH: nat := 49

  /** The first `j` of the sixteen columns; a gap after the eighth. */
  function AreaUpTo(chunk: seq<byte>, j: nat): (a: seq<byte>)
    ensures |a| == 3 * j + if j > 8 then 1 else 0
  {
    if j == 0 then []
    else
      AreaUpTo(chunk, j - 1)
      + (if j - 1 == 8 then [SPACE] else [])
      + (if j - 1 < |chunk| then HexByte(chunk[j - 1]) + [SPACE] else [SPACE, SPACE, SPACE])
  }

  /** Always 49 columns wide. */
  function Area(chunk: seq<byte>): (a: seq<byte>)
    ensures |a| == AREA_WIDTH
  {
    AreaUpTo(chunk, COLUMNS)
  }

  function Shown(b: byte): byte {
    if 33 <= b <= 126 || b == SPACE then b else DOT
  }

  function Panel(chunk: seq<byte>): seq<byte> {
    seq(|chunk|, k requires 0 <= k < |chunk| => Shown(chunk[k]))
  }

  function Line(offset: nat, chunk: seq<byte>): seq<byte> {
    PaddedHex(offset) + [SPACE, SPACE] + Area(chunk) + [SPACE, BAR] + Panel(chunk) + [BAR]
  }

  function Chunk(data: seq<byte>, start: nat): seq<byte>
    requires start <= |data|
  {
    if start + COLUMNS <= |data| then data[start..start + COLUMNS] else data[start..]
  }

  /** The lines from `start` on. */
  function Dump(data: seq<byte>, start: nat): seq<byte>
    requires start <= |data|
    decreases |data| - start
  {
    if start == |data| then []
    else Line(start, Chunk(data, start)) + [NEWLINE] + Dump(data, start + |Chunk(data, start)|)
  }

  method PrintArea(chunk: seq<byte>) returns (result: seq<byte>)
    requires |chunk| <= COLUMNS
    ensures result == Area(chunk)
  {
    result := [];
    for j := 0 to |chunk|
      invariant result == AreaUpTo(chunk, j)
    {
      if j == 8 {
        result := result + [SPACE];
      }
      result := result + (HexByte(chunk[j]) + [SPACE]);
    }
    var remaining := COLUMNS - |chunk|;
    for j := 0 to remaining
      invariant result == AreaUpTo(chunk, |chunk| + j)
    {
      if |chunk| + j == 8 {
        result := result + [SPACE];
      }
      result := result + [SPACE, SPACE, SPACE];
    }
  }

  method PrintPanel(chunk: seq<byte>) returns (result: seq<byte>)
    ensures result == Panel(chunk)
  {
    result := [];
    for k := 0 to |chunk|
      invariant |result| == k && forall j :: 0 <= j < k ==> result[j] == Shown(chunk[j])
    {
      if 33 <= chunk[k] <= 126 || chunk[k] == SPACE {
        result := result + [chunk[k]];
      } else {
        result := result + [DOT];
      }
    }
  }

  method PrintLine(offset: nat, chunk: seq<byte>) returns (result: seq<byte>)
    requires |chunk| <= COLUMNS
    ensures result == Line(offset, chunk) + [NEWLINE]
  {
    var area := PrintArea(chunk);
    var panel := PrintPanel(chunk);
    result := PaddedHex(offset) + [SPACE, SPACE];
    result := result + area;
    result := result + [SPACE, BAR];
    result := result + panel;
    result := result + [BAR];
    result := result + [NEWLINE];
  }

  method HexDump(data: seq<byte>) returns (result: seq<byte>)
    ensures result == Dump(data, 0)
  {
    result := [];
    var offset := 0;
    while offset < |data|
      invariant offset <= |data|
      invariant result + Dump(data, offset) == Dump(data, 0)
    {
      var chunk := Chunk(data, offset);
      var line := PrintLine(offset, chunk);
      Joined(result, line, Dump(data, offset + |chunk|));
      result := result + line;
      offset := offset + |chunk|;
    }
  }

  lemma Joined(a: seq<byte>, b: seq<byte>, c: seq<byte>)
    ensures a + (b + c) == (a + b) + c
  {
  }

  // ----- parse_hex_data -----

  predicate Separator(c: byte) {
    c == SPACE || c == COLON || c == TAB
  }

  function Strip(s: seq<byte>): seq<byte> {
    if s == [] then [] else (if Separator(s[0]) then [] else [s[0]]) + Strip(s[1..])
  }

  /** Drops every `0x`, left to right, for one spelling of the x. */
  function DropPrefixes(s: seq<byte>, x: byte): seq<byte> {
    if s == [] then []
    else if |s| >= 2 && s[0] == ZERO && s[1] == x then DropPrefixes(s[2..], x)
    else [s[0]] + DropPrefixes(s[1..], x)
  }

  datatype Parsed =
    | Data(bytes: seq<byte>)
    | OddLength
    | BadPair(position: nat)
    | Panics(position: nat)

  /** A slice may not start or end inside a character. */
  predicate Boundary(s: seq<byte>, i: nat) {
    i >= |s| || !(0x80 <= s[i] < 0xC0)
  }

  /** An 8-bit number in base 16; a plus sign may take the place of the first digit. */
  function PairValue(hi: byte, lo: byte): Option<byte> {
    match (DigitValue(hi), DigitValue(lo))
    case (Some(h), Some(l)) => Some(16 * h + l)
    case (None, Some(l)) => if hi == PLUS then Some(l) else None
    case (_, None) => None
  }

  /** The pairs from position `i` on; the first that fails ends it. */
  function ParsePairs(s: seq<byte>, i: nat): Parsed
    requires i <= |s| && (|s| - i) % 2 == 0
    decreases |s| - i
  {
    if i == |s| then Data([])
    else if !Boundary(s, i) || !Boundary(s, i + 2) then Panics(i)
    else if PairValue(s[i], s[i + 1]).None? then BadPair(i)
    else
      match ParsePairs(s, i + 2)
      case Data(bytes) => Data([PairValue(s[i], s[i + 1]).value] + bytes)
      case other => other
  }

  function Bare(text: seq<byte>): seq<byte> {
    DropPrefixes(DropPrefixes(Strip(text), LOWER_X), UPPER_X)
  }

  function ParseHexData(text: seq<byte>): Parsed {
    var s := Bare(text);
    if |s| % 2 != 0 then OddLength else ParsePairs(s, 0)
  }

  // ----- What parsing means -----

  predicate Spells(s: seq<byte>, bytes: seq<byte>) {
    && |s| == 2 * |bytes|
    && forall k :: 0 <= k < |bytes| ==> PairValue(s[2 * k], s[2 * k + 1]) == Some(bytes[k])
  }

  lemma {:induction false} PairsSpell(s: seq<byte>, i: nat, bytes: seq<byte>)
    requires i <= |s| && |s| % 2 == 0 && i % 2 == 0
    ensures ParsePairs(s, i) == Data(bytes) <==> Spells(s[i..], bytes)
    decreases |s| - i
  {
    if i < |s| {
      var tail := s[i..];
      assert tail[2..] == s[i + 2..] && tail[0] == s[i] && tail[1] == s[i + 1];
      if bytes != [] {
        PairsSpell(s, i + 2, bytes[1..]);
        SpellsFirst(tail, bytes);
        if PairValue(s[i], s[i + 1]).Some? && i + 2 < |s| && Spells(tail, bytes) {
          assert PairValue(tail[2 * 1], tail[2 * 1 + 1]) == Some(bytes[1]);
        }
      }
    }
  }

  lemma SpellsFirst(s: seq<byte>, bytes: seq<byte>)
    requires |s| >= 2 && bytes != []
    ensures Spells(s, bytes) <==> PairValue(s[0], s[1]) == Some(bytes[0]) && Spells(s[2..], bytes[1..])
  {
    var s', bytes' := s[2..], bytes[1..];
    if Spells(s, bytes) {
      forall k | 0 <= k < |bytes'| ensures PairValue(s'[2 * k], s'[2 * k + 1]) == Some(bytes'[k]) {
        assert PairValue(s[2 * (k + 1)], s[2 * (k + 1) + 1]) == Some(bytes[k + 1]);
      }
      assert PairValue(s[2 * 0], s[2 * 0 + 1]) == Some(bytes[0]);
    }
    if PairValue(s[0], s[1]) == Some(bytes[0]) && Spells(s', bytes') {
      forall k | 0 <= k < |bytes| ensures PairValue(s[2 * k], s[2 * k + 1]) == Some(bytes[k]) {
        if k > 0 {
          assert PairValue(s'[2 * (k - 1)], s'[2 * (k - 1) + 1]) == Some(bytes'[k - 1]);
        }
      }
    }
  }

  /** Parsing yields bytes exactly if what is left of the text, without separators and prefixes,
      spells them pair by pair. */
  lemma ParsesIff(text: seq<byte>, bytes: seq<byte>)
    ensures ParseHexData(text) == Data(bytes) <==> Spells(Bare(text), bytes)
  {
    var s := Bare(text);
    if |s| % 2 == 0 {
      PairsSpell(s, 0, bytes);
      assert s[0..] == s;
    }
  }

  // ----- Any rendering parses back -----

  datatype Prefix = NoPrefix | LowerPrefix | UpperPrefix {
    function Text(): seq<byte> {
      match this
      case NoPrefix => []
      case LowerPrefix => [ZERO, LOWER_X]
      case UpperPrefix => [ZERO, UPPER_X]
    }
  }

  /** One byte as a person may type it: separators, a prefix or none, two digits of either case. */
  datatype Rendered = Rendered(lead: seq<byte>, prefix: Prefix, hi: byte, lo: byte) {
    predicate Valid() {
      && (forall c :: c in lead ==> Separator(c))
      && DigitValue(hi).Some? && DigitValue(lo).Some?
    }

    function Value(): byte
      requires Valid()
    {
      16 * DigitValue(hi).value + DigitValue(lo).value
    }
  }

  ghost predicate AllValid(rs: seq<Rendered>) {
    forall r :: r in rs ==> r.Valid()
  }

  function Text(rs: seq<Rendered>, tail: seq<byte>): seq<byte> {
    if rs == [] then tail
    else rs[0].lead + (rs[0].prefix.Text() + ([rs[0].hi, rs[0].lo] + Text(rs[1..], tail)))
  }

  function Values(rs: seq<Rendered>): (v: seq<byte>)
    requires AllValid(rs)
    ensures |v| == |rs|
  {
    seq(|rs|, k requires 0 <= k < |rs| => rs[k].Value())
  }

  /** The digits behind the prefixes that are still there: all, only the upper-case ones, none. */
  function Kept(rs: seq<Rendered>, lower: bool, upper: bool): seq<byte> {
    if rs == [] then []
    else
      (if (lower && rs[0].prefix.LowerPrefix?) || (upper && rs[0].prefix.UpperPrefix?) then rs[0].prefix.Text() else [])
      + ([rs[0].hi, rs[0].lo] + Kept(rs[1..], lower, upper))
  }

  lemma {:induction false} StripJoins(a: seq<byte>, b: seq<byte>)
    ensures Strip(a + b) == Strip(a) + Strip(b)
  {
    if a == [] {
      assert a + b == b;
    } else {
      StripJoins(a[1..], b);
      var first: seq<byte> := if Separator(a[0]) then [] else [a[0]];
      assert (a + b)[1..] == a[1..] + b;
      assert Strip(a + b) == first + (Strip(a[1..]) + Strip(b));
      Joined(first, Strip(a[1..]), Strip(b));
    }
  }

  lemma {:induction false} StripSeparators(a: seq<byte>)
    requires forall c :: c in a ==> Separator(c)
    ensures Strip(a) == []
  {
    if a != [] {
      StripSeparators(a[1..]);
    }
  }

  lemma {:induction false} StripNone(a: seq<byte>)
    requires forall c :: c in a ==> !Separator(c)
    ensures Strip(a) == a
  {
    if a != [] {
      StripNone(a[1..]);
    }
  }

  lemma {:induction false} StripText(rs: seq<Rendered>, tail: seq<byte>)
    requires AllValid(rs) && forall c :: c in tail ==> Separator(c)
    ensures Strip(Text(rs, tail)) == Kept(rs, true, true)
  {
    if rs == [] {
      StripSeparators(tail);
    } else {
      var r, rest := rs[0], Text(rs[1..], tail);
      assert r in rs && r.Valid();
      assert !Separator(r.hi) && !Separator(r.lo);
      StripText(rs[1..], tail);
      StripSeparators(r.lead);
      StripNone(r.prefix.Text());
      StripNone([r.hi, r.lo]);
      StripJoins([r.hi, r.lo], rest);
      StripJoins(r.prefix.Text(), [r.hi, r.lo] + rest);
      StripJoins(r.lead, r.prefix.Text() + ([r.hi, r.lo] + rest));
    }
  }

  /** Digits are never taken for a prefix, whatever comes next. */
  lemma DropDigits(hi: byte, lo: byte, rest: seq<byte>, x: byte)
    requires DigitValue(hi).Some? && DigitValue(lo).Some? && (x == LOWER_X || x == UPPER_X)
    requires rest == [] || rest[0] != x
    ensures DropPrefixes([hi, lo] + rest, x) == [hi, lo] + DropPrefixes(rest, x)
  {
    var s := [hi, lo] + rest;
    assert s[1..] == [lo] + rest && ([lo] + rest)[1..] == rest;
    assert DropPrefixes([lo] + rest, x) == [lo] + DropPrefixes(rest, x);
    assert DropPrefixes(s, x) == [hi] + DropPrefixes([lo] + rest, x);
  }

  lemma DropPrefix(p: Prefix, rest: seq<byte>, x: byte)
    requires !p.NoPrefix? && (x == LOWER_X || x == UPPER_X)
    requires rest != [] && rest[0] != x
    ensures DropPrefixes(p.Text() + rest, x) == (if p.Text()[1] == x then [] else p.Text()) + DropPrefixes(rest, x)
  {
    var s := p.Text() + rest;
    assert s[2..] == rest && s[1..] == [p.Text()[1]] + rest && ([p.Text()[1]] + rest)[1..] == rest;
    if p.Text()[1] != x {
      assert DropPrefixes(s[1..], x) == [p.Text()[1]] + DropPrefixes(rest, x);
    }
  }

  lemma KeptStarts(rs: seq<Rendered>, lower: bool, upper: bool)
    requires AllValid(rs)
    ensures Kept(rs, lower, upper) == [] || DigitValue(Kept(rs, lower, upper)[0]).Some?
  {
    assert rs != [] ==> rs[0] in rs && rs[0].Valid();
  }

  lemma {:induction false} DropLower(rs: seq<Rendered>)
    requires AllValid(rs)
    ensures DropPrefixes(Kept(rs, true, true), LOWER_X) == Kept(rs, false, true)
  {
    if rs != [] {
      var r, rest := rs[0], Kept(rs[1..], true, true);
      assert r in rs && r.Valid();
      DropLower(rs[1..]);
      KeptStarts(rs[1..], true, true);
      DropDigits(r.hi, r.lo, rest, LOWER_X);
      if !r.prefix.NoPrefix? {
        DropPrefix(r.prefix, [r.hi, r.lo] + rest, LOWER_X);
      } else {
        assert Kept(rs, true, true) == [r.hi, r.lo] + rest;
      }
    }
  }

  lemma {:induction false} DropUpper(rs: seq<Rendered>)
    requires AllValid(rs)
    ensures DropPrefixes(Kept(rs, false, true), UPPER_X) == Kept(rs, false, false)
  {
    if rs != [] {
      var r, rest := rs[0], Kept(rs[1..], false, true);
      assert r in rs && r.Valid();
      DropUpper(rs[1..]);
      KeptStarts(rs[1..], false, true);
      DropDigits(r.hi, r.lo, rest, UPPER_X);
      if r.prefix.UpperPrefix? {
        DropPrefix(r.prefix, [r.hi, r.lo] + rest, UPPER_X);
      } else {
        assert Kept(rs, false, true) == [r.hi, r.lo] + rest;
      }
    }
  }

  lemma {:induction false} DigitsSpell(rs: seq<Rendered>)
    requires AllValid(rs)
    ensures Spells(Kept(rs, false, false), Values(rs))
  {
    if rs != [] {
      var r, rest := rs[0], Kept(rs[1..], false, false);
      DigitsSpell(rs[1..]);
      assert r in rs && r.Valid();
      assert Values(rs) == [r.Value()] + Values(rs[1..]);
      assert Kept(rs, false, false) == [r.hi, r.lo] + rest;
      SpellsMore(r, rest, Values(rs[1..]));
    }
  }

  lemma SpellsMore(r: Rendered, rest: seq<byte>, bytes: seq<byte>)
    requires r.Valid() && Spells(rest, bytes)
    ensures Spells([r.hi, r.lo] + rest, [r.Value()] + bytes)
  {
    var s, all := [r.hi, r.lo] + rest, [r.Value()] + bytes;
    assert s[2..] == rest && all[1..] == bytes;
    SpellsFirst(s, all);
  }

  /** Whatever separators stand between the bytes and whichever prefixes stand before them, parsing
      gives the bytes. */
  lemma RenderingParses(rs: seq<Rendered>, tail: seq<byte>)
    requires AllValid(rs) && forall c :: c in tail ==> Separator(c)
    ensures ParseHexData(Text(rs, tail)) == Data(Values(rs))
  {
    StripText(rs, tail);
    DropLower(rs);
    DropUpper(rs);
    DigitsSpell(rs);
    ParsesIff(Text(rs, tail), Values(rs));
  }

  predicate GoodPair(s: seq<byte>, j: nat) {
    j + 1 < |s| && PairValue(s[j], s[j + 1]).Some?
  }

  /** Position `k` starts a pair that is reached, all pairs before it being well formed, and that
      cannot be cut out of the text: it starts or ends inside a character. */
  predicate CutsCharacter(s: seq<byte>, i: nat, k: nat) {
    && i <= k < |s| && (k - i) % 2 == 0
    && (!Boundary(s, k) || !Boundary(s, k + 2))
    && forall j: nat :: i <= j < k && (j - i) % 2 == 0 ==> GoodPair(s, j)
  }

  lemma {:induction false} PairsPanicIff(s: seq<byte>, i: nat)
    requires i <= |s| && (|s| - i) % 2 == 0
    ensures ParsePairs(s, i).Panics? <==> exists k: nat :: CutsCharacter(s, i, k)
    decreases |s| - i
  {
    if i < |s| {
      if !Boundary(s, i) || !Boundary(s, i + 2) {
        assert CutsCharacter(s, i, i);
      } else if !GoodPair(s, i) {
        assert forall k: nat :: CutsCharacter(s, i, k) ==> k > i;
      } else {
        PairsPanicIff(s, i + 2);
        CutsLater(s, i, i + 2);
      }
    }
  }

  /** Behind a pair that is fine, the same positions cut a character. */
  lemma CutsLater(s: seq<byte>, i: nat, next: nat)
    requires next == i + 2 && GoodPair(s, i) && Boundary(s, i) && Boundary(s, next)
    ensures (exists k: nat :: CutsCharacter(s, i, k)) <==> (exists k: nat :: CutsCharacter(s, next, k))
  {
    hide Boundary, GoodPair;
    if k: nat :| CutsCharacter(s, i, k) {
      assert k != i;
      assert CutsCharacter(s, next, k);
    }
    if k: nat :| CutsCharacter(s, next, k) {
      assert CutsCharacter(s, i, k);
    }
  }

  /** Parsing panics if and only if, without separators and prefixes, an even number of bytes is left
      and some pair that is reached cuts a character. */
  lemma ParsePanicsIff(text: seq<byte>)
    ensures ParseHexData(text).Panics? <==>
              |Bare(text)| % 2 == 0 && exists k: nat :: CutsCharacter(Bare(text), 0, k)
  {
    if |Bare(text)| % 2 == 0 {
      PairsPanicIff(Bare(text), 0);
    }
  }

  /** So only text that is not all ASCII panics. */
  lemma PanicsOnlyOffAscii(text: seq<byte>)
    requires ParseHexData(text).Panics?
    ensures exists c :: c in text && c >= 0x80
  {
    var s := Bare(text);
    BareOfText(text);
    ParsePanicsIff(text);
    var k: nat :| CutsCharacter(s, 0, k);
    var inside := if !Boundary(s, k) then k else k + 2;
    assert s[inside] in text && s[inside] >= 0x80;
  }

  lemma {:induction false} StripKeepsOnly(s: seq<byte>)
    ensures forall c :: c in Strip(s) ==> c in s
  {
    if s != [] {
      StripKeepsOnly(s[1..]);
    }
  }

  lemma {:induction false} DropKeepsOnly(s: seq<byte>, x: byte)
    ensures forall c :: c in DropPrefixes(s, x) ==> c in s
  {
    if |s| >= 2 && s[0] == ZERO && s[1] == x {
      DropKeepsOnly(s[2..], x);
    } else if s != [] {
      DropKeepsOnly(s[1..], x);
    }
  }

  lemma BareOfText(text: seq<byte>)
    ensures forall c :: c in Bare(text) ==> c in text
  {
    StripKeepsOnly(text);
    DropKeepsOnly(Strip(text), LOWER_X);
    DropKeepsOnly(DropPrefixes(Strip(text), LOWER_X), UPPER_X);
  }

  lemma BarePlain(text: seq<byte>)
    requires forall c :: c in text ==> !Separator(c)
    requires LOWER_X !in text && UPPER_X !in text
    ensures Bare(text) == text
  {
    StripNone(text);
    DropNone(text, LOWER_X);
    DropNone(text, UPPER_X);
  }

  /** The digit 1, an e with an acute accent, the digit 1: the first pair ends inside the accent. */
  lemma AccentPanics()
    ensures ParseHexData([0x31, 0xC3, 0xA9, 0x31]) == Panics(0)
  {
    hide Bare;
    BarePlain([0x31, 0xC3, 0xA9, 0x31]);
  }

  lemma {:induction false} DropNone(s: seq<byte>, x: byte)
    requires x !in s
    ensures DropPrefixes(s, x) == s
  {
    if s != [] {
      DropNone(s[1..], x);
    }
  }

  // ----- A dump reads back -----

  /** One byte of a dump line as a rendering. */
  function Column(b: byte): Rendered {
    Rendered([], NoPrefix, LowerDigit(b / 16), LowerDigit(b % 16))
  }

  lemma {:induction false} StripArea(chunk: seq<byte>, j: nat)
    requires j <= COLUMNS
    ensures Strip(AreaUpTo(chunk, j)) == Pairs(if j < |chunk| then chunk[..j] else chunk)
  {
    if j > 0 {
      StripArea(chunk, j - 1);
      StripStep(chunk, j - 1);
      if j - 1 < |chunk| {
        PairsGrow(chunk[..j - 1], chunk[j - 1]);
        assert chunk[..j] == chunk[..j - 1] + [chunk[j - 1]];
        assert j == |chunk| ==> chunk[..j] == chunk;
      } else {
        assert j - 1 == |chunk| ==> chunk[..j - 1] == chunk;
      }
    }
  }

  function Gap(j: nat): seq<byte> {
    if j == 8 then [SPACE] else []
  }

  function Cell(chunk: seq<byte>, j: nat): seq<byte> {
    if j < |chunk| then HexByte(chunk[j]) + [SPACE] else [SPACE, SPACE, SPACE]
  }

  lemma AreaStep(chunk: seq<byte>, j: nat)
    ensures AreaUpTo(chunk, j + 1) == (AreaUpTo(chunk, j) + Gap(j)) + Cell(chunk, j)
  {
  }

  lemma StripGap(before: seq<byte>, j: nat)
    ensures Strip(before + Gap(j)) == Strip(before)
  {
    StripJoins(before, Gap(j));
    StripSeparators(Gap(j));
    assert Strip(before) + [] == Strip(before);
  }

  lemma StripCell(chunk: seq<byte>, j: nat)
    ensures Strip(Cell(chunk, j)) == if j < |chunk| then HexByte(chunk[j]) else []
  {
    if j < |chunk| {
      StripColumn(chunk[j]);
    } else {
      StripSeparators(Cell(chunk, j));
    }
  }

  lemma StripStep(chunk: seq<byte>, j: nat)
    ensures Strip(AreaUpTo(chunk, j + 1)) == Strip(AreaUpTo(chunk, j)) + if j < |chunk| then HexByte(chunk[j]) else []
  {
    hide Strip, AreaUpTo, Gap, Cell;
    var before := AreaUpTo(chunk, j);
    AreaStep(chunk, j);
    StripJoins(before + Gap(j), Cell(chunk, j));
    StripGap(before, j);
    StripCell(chunk, j);
  }

  lemma StripColumn(b: byte)
    ensures Strip(HexByte(b) + [SPACE]) == HexByte(b)
  {
    StripJoins(HexByte(b), [SPACE]);
    StripNone(HexByte(b));
    StripSeparators([SPACE]);
  }

  /** Two digits for each byte, nothing between. */
  function Pairs(bytes: seq<byte>): seq<byte> {
    if bytes == [] then [] else HexByte(bytes[0]) + Pairs(bytes[1..])
  }

  lemma {:induction false} PairsGrow(bytes: seq<byte>, b: byte)
    ensures Pairs(bytes + [b]) == Pairs(bytes) + HexByte(b)
  {
    if bytes == [] {
      assert Pairs([b]) == HexByte(b) + Pairs([]);
    } else {
      PairsGrow(bytes[1..], b);
      assert (bytes + [b])[1..] == bytes[1..] + [b];
    }
  }

  function Columns(bytes: seq<byte>): seq<Rendered> {
    seq(|bytes|, k requires 0 <= k < |bytes| => Column(bytes[k]))
  }

  lemma {:induction false} PairsAreText(bytes: seq<byte>)
    ensures Pairs(bytes) == Text(Columns(bytes), [])
  {
    if bytes != [] {
      PairsAreText(bytes[1..]);
      assert Columns(bytes)[1..] == Columns(bytes[1..]);
    }
  }

  lemma ColumnsSpell(bytes: seq<byte>)
    ensures AllValid(Columns(bytes)) && Values(Columns(bytes)) == bytes
  {
  }

  /** Parsing the 49 columns of one line gives the bytes of that line. */
  lemma AreaParses(chunk: seq<byte>)
    requires |chunk| <= COLUMNS
    ensures ParseHexData(Area(chunk)) == Data(chunk)
  {
    StripArea(chunk, COLUMNS);
    assert |chunk| == COLUMNS ==> chunk[..COLUMNS] == chunk;
    PairsAreText(chunk);
    ColumnsSpell(chunk);
    StripText(Columns(chunk), []);
    RenderingParses(Columns(chunk), []);
    assert Strip(Text(Columns(chunk), [])) == Pairs(chunk) by {
      PairsHaveNoSeparators(chunk);
      StripNone(Pairs(chunk));
    }
    assert Bare(Area(chunk)) == Bare(Text(Columns(chunk), []));
  }

  lemma {:induction false} PairsHaveNoSeparators(bytes: seq<byte>)
    ensures forall c :: c in Pairs(bytes) ==> !Separator(c)
  {
    if bytes != [] {
      PairsHaveNoSeparators(bytes[1..]);
    }
  }

  /** Reads a dump: the 49 columns behind the offset of each line, parsed and put together. */
  function ReadBack(text: seq<byte>): Parsed
    decreases |text|
  {
    if text == [] then Data([])
    else
      var end := LineEnd(text);
      if end < 10 + AREA_WIDTH then OddLength
      else
        match (ParseHexData(text[10..10 + AREA_WIDTH]), ReadBack(text[if end < |text| then end + 1 else end..]))
        case (Data(line), Data(rest)) => Data(line + rest)
        case (Data(_), failed) => failed
        case (failed, _) => failed
  }

  function LineEnd(text: seq<byte>): (n: nat)
    ensures n <= |text|
    ensures n < |text| ==> text[n] == NEWLINE
    ensures forall k :: 0 <= k < n ==> text[k] != NEWLINE
  {
    if text == [] || text[0] == NEWLINE then 0 else 1 + LineEnd(text[1..])
  }

  lemma {:induction false} AreaOnOneLine(chunk: seq<byte>, j: nat)
    ensures forall c :: c in AreaUpTo(chunk, j) ==> c != NEWLINE
  {
    if j > 0 {
      AreaOnOneLine(chunk, j - 1);
    }
  }

  lemma LineShape(offset: nat, chunk: seq<byte>, rest: seq<byte>)
    requires offset < EIGHT_DIGITS && |chunk| <= COLUMNS
    ensures var text := Line(offset, chunk) + [NEWLINE] + rest;
            var end := |Line(offset, chunk)|;
            LineEnd(text) == end && end >= 10 + AREA_WIDTH && text[10..10 + AREA_WIDTH] == Area(chunk)
            && text[end + 1..] == rest
  {
    var line := Line(offset, chunk);
    var text := line + [NEWLINE] + rest;
    EightDigits(offset);
    AreaOnOneLine(chunk, COLUMNS);
    assert line == (PaddedHex(offset) + [SPACE, SPACE]) + Area(chunk) + ([SPACE, BAR] + Panel(chunk) + [BAR]);
    assert forall k :: 0 <= k < |line| ==> text[k] == line[k];
    assert NEWLINE !in Area(chunk) && NEWLINE !in PaddedHex(offset) && NEWLINE !in Panel(chunk);
    assert NEWLINE !in line;
    assert text[|line|] == NEWLINE;
  }

  lemma ReadBackLine(offset: nat, chunk: seq<byte>, rest: seq<byte>, tail: seq<byte>)
    requires offset < EIGHT_DIGITS && |chunk| <= COLUMNS && ReadBack(rest) == Data(tail)
    ensures ReadBack(Line(offset, chunk) + [NEWLINE] + rest) == Data(chunk + tail)
  {
    hide Line, ParseHexData, LineEnd, Area;
    LineShape(offset, chunk, rest);
    AreaParses(chunk);
  }

  lemma DumpStep(data: seq<byte>, start: nat, chunk: seq<byte>)
    requires start < |data| && chunk == Chunk(data, start)
    ensures 0 < |chunk| <= COLUMNS && start + |chunk| <= |data|
    ensures Dump(data, start) == Line(start, chunk) + [NEWLINE] + Dump(data, start + |chunk|)
    ensures data[start..] == chunk + data[start + |chunk|..]
  {
  }

  /** The dump of up to 4 GiB reads back to the data, line by line. */
  lemma {:induction false} DumpReadsBack(data: seq<byte>, start: nat)
    requires start <= |data| <= EIGHT_DIGITS
    ensures ReadBack(Dump(data, start)) == Data(data[start..])
    decreases |data| - start
  {
    hide Line, ParseHexData, LineEnd, Chunk;
    if start < |data| {
      var chunk := Chunk(data, start);
      DumpStep(data, start, chunk);
      DumpReadsBack(data, start + |chunk|);
      ReadBackLine(start, chunk, Dump(data, start + |chunk|), data[start + |chunk|..]);
    }
  }
}
