/**
 The nonce text encoding: base64 with the URL-safe alphabet (section 5 of RFC 4648),
 written without padding and read back with the padding of section 3.2 restored.
 */
module Base64Url {
  import opened Wrappers

  type sextet = v: int | 0 <= v < 64

  function Symbol(v: sextet): char {
    if v < 26 then (v + 65) as char
    else if v < 52 then (v + 71) as char
    else if v < 62 then (v - 4) as char
    else if v == 62 then '-'
    else '_'
  }

  /** The decoder translates `-_` to `+/` first, so it reads both alphabets. */
  function Value(c: char): Option<sextet> {
    if 'A' <= c <= 'Z' then Some(c as int - 65)
    else if 'a' <= c <= 'z' then Some(c as int - 71)
    else if '0' <= c <= '9' then Some(c as int + 4)
    else if c == '-' || c == '+' then Some(62)
    else if c == '_' || c == '/' then Some(63)
    else None
  }

  function Head(x: byte): sextet { x / 4 }

  function Second(x: byte, y: byte): sextet { x % 4 * 16 + y / 16 }

  function Third(y: byte, z: byte): sextet { y % 16 * 4 + z / 64 }

  function Last(z: byte): sextet { z % 64 }

  /** The four symbols of one three-byte group. */
  function Group(x: byte, y: byte, z: byte): (s: string)
    ensures |s| == 4
  {
    [Symbol(Head(x)), Symbol(Second(x, y)), Symbol(Third(y, z)), Symbol(Last(z))]
  }

  function EncodePadded(b: seq<byte>): string {
    if |b| == 0 then ""
    else if |b| == 1 then Group(b[0], 0, 0)[..2] + "=="
    else if |b| == 2 then Group(b[0], b[1], 0)[..3] + "="
    else
      var rest := EncodePadded(b[3..]);
      Group(b[0], b[1], b[2]) + rest
  }

  function StripPadding(s: string): string {
    if s != "" && s[|s| - 1] == '=' then StripPadding(s[..|s| - 1]) else s
  }

  function Encode(b: seq<byte>): string {
    StripPadding(EncodePadded(b))
  }

  function Padding(length: nat): string {
    match length % 4
    case 0 => ""
    case 1 => "==="
    case 2 => "=="
    case _ => "="
  }

  function FirstByte(v0: sextet, v1: sextet): byte { v0 * 4 + v1 / 16 }

  function MiddleByte(v1: sextet, v2: sextet): byte { v1 % 16 * 16 + v2 / 4 }

  function FinalByte(v2: sextet, v3: sextet): byte { v2 % 4 * 64 + v3 }

  /** The bytes of a group that ends in two, one or no padding characters. */
  function OneByte(c0: char, c1: char): Option<seq<byte>> {
    var v0, v1 := Value(c0), Value(c1);
    if v0.None? || v1.None? then None else Some([FirstByte(v0.value, v1.value)])
  }

  function TwoBytes(c0: char, c1: char, c2: char): Option<seq<byte>> {
    var first, v1, v2 := OneByte(c0, c1), Value(c1), Value(c2);
    if first.None? || v2.None? then None else Some(first.value + [MiddleByte(v1.value, v2.value)])
  }

  function ThreeBytes(c0: char, c1: char, c2: char, c3: char): Option<seq<byte>> {
    var two, v2, v3 := TwoBytes(c0, c1, c2), Value(c2), Value(c3);
    if two.None? || v3.None? then None else Some(two.value + [FinalByte(v2.value, v3.value)])
  }

  function DecodeGroups(s: string): Option<seq<byte>> {
    if s == "" then Some([])
    else if |s| < 4 then None
    else if |s| == 4 && s[2] == '=' && s[3] == '=' then OneByte(s[0], s[1])
    else if |s| == 4 && s[3] == '=' then TwoBytes(s[0], s[1], s[2])
    else
      var group, rest := ThreeBytes(s[0], s[1], s[2], s[3]), DecodeGroups(s[4..]);
      if group.None? || rest.None? then None else Some(group.value + rest.value)
  }

  function Decode(s: string): Option<seq<byte>> {
    DecodeGroups(s + Padding(|s|))
  }

  lemma SymbolHasItsValue(v: sextet)
    ensures Value(Symbol(v)) == Some(v)
    ensures Symbol(v) != '='
  {
  }

  /** The alphabet: capitals, small letters, digits, dash, underscore. */
  lemma AlphabetIs(v: sextet)
    ensures v < 26 ==> Symbol(v) as int == 'A' as int + v
    ensures 26 <= v < 52 ==> Symbol(v) as int == 'a' as int + v - 26
    ensures 52 <= v < 62 ==> Symbol(v) as int == '0' as int + v - 52
    ensures v == 62 ==> Symbol(v) == '-'
    ensures v == 63 ==> Symbol(v) == '_'
  {
  }

  /** The decoder reads this alphabet and, for dash and underscore, plus and slash; nothing else. */
  lemma ValuesAre(c: char)
    ensures Value(c).Some? <==> (exists v: sextet :: Symbol(v) == c) || c == '+' || c == '/'
    ensures forall v: sextet :: Symbol(v) == c ==> Value(c) == Some(v)
    ensures Value('+') == Value('-') && Value('/') == Value('_')
  {
    if Value(c).Some? && c != '+' && c != '/' {
      AlphabetIs(Value(c).value);
      assert Symbol(Value(c).value) == c;
    }
    forall v: sextet | Symbol(v) == c ensures Value(c) == Some(v) {
      SymbolHasItsValue(v);
    }
  }

  /** Three bytes and their four symbols are one number of 24 bits, the most significant digits first. */
  lemma GroupIsOneNumber(x: byte, y: byte, z: byte)
    ensures Head(x) as int * 262_144 + Second(x, y) as int * 4_096 + Third(y, z) as int * 64 + Last(z) as int ==
            x as int * 65_536 + y as int * 256 + z as int
  {
  }

  lemma BytesAreOneNumber(v0: sextet, v1: sextet, v2: sextet, v3: sextet)
    ensures FirstByte(v0, v1) as int * 65_536 + MiddleByte(v1, v2) as int * 256 + FinalByte(v2, v3) as int ==
            v0 as int * 262_144 + v1 as int * 4_096 + v2 as int * 64 + v3 as int
  {
  }

  lemma {:induction false} StripAfterGroup(group: string, rest: string)
    requires |group| > 0 && group[|group| - 1] != '='
    ensures StripPadding(group + rest) == group + StripPadding(rest)
    decreases |rest|
  {
    var s := group + rest;
    if rest == "" {
      assert s == group;
    } else {
      assert s[|s| - 1] == rest[|rest| - 1];
      if rest[|rest| - 1] == '=' {
        assert s[..|s| - 1] == group + rest[..|rest| - 1];
        StripAfterGroup(group, rest[..|rest| - 1]);
      }
    }
  }

  lemma {:induction false} StripOnlyPadding(s: string)
    requires forall i :: 0 <= i < |s| ==> s[i] == '='
    ensures StripPadding(s) == ""
  {
    if s != "" {
      StripOnlyPadding(s[..|s| - 1]);
    }
  }

  lemma BitsRecombine(x: byte, y: byte, z: byte)
    ensures FirstByte(Head(x), Second(x, y)) == x
    ensures MiddleByte(Second(x, y), Third(y, z)) == y
    ensures FinalByte(Third(y, z), Last(z)) == z
  {
  }

  lemma PaddingLengths(n: nat)
    ensures Padding(2) == "==" && Padding(3) == "=" && Padding(n + 4) == Padding(n)
  {
  }

  lemma StripGroup(data: string, pads: string)
    requires |data| > 0 && data[|data| - 1] != '='
    requires forall i :: 0 <= i < |pads| ==> pads[i] == '='
    ensures StripPadding(data + pads) == data
  {
    StripAfterGroup(data, pads);
    StripOnlyPadding(pads);
  }

  lemma PaddingOfFullGroup(g: string, rest: string)
    requires |g| == 4 && g[3] != '='
    requires StripPadding(rest) + Padding(|StripPadding(rest)|) == rest
    ensures StripPadding(g + rest) + Padding(|StripPadding(g + rest)|) == g + rest
  {
    StripAfterGroup(g, rest);
    var kept := StripPadding(rest);
    PaddingLengths(|kept|);
    assert |g + kept| == |kept| + 4;
    assert g + kept + Padding(|kept|) == g + (kept + Padding(|kept|));
  }

  /** Dropping the padding loses nothing: the length alone restores it. */
  lemma {:induction false} PaddingIsRestored(b: seq<byte>)
    ensures Encode(b) + Padding(|Encode(b)|) == EncodePadded(b)
  {
    if |b| == 0 {
    } else if |b| == 1 {
      SymbolHasItsValue(Second(b[0], 0));
      var data := Group(b[0], 0, 0)[..2];
      assert data[1] == Symbol(Second(b[0], 0));
      StripGroup(data, "==");
      PaddingLengths(0);
      assert Encode(b) == data;
    } else if |b| == 2 {
      SymbolHasItsValue(Third(b[1], 0));
      var data := Group(b[0], b[1], 0)[..3];
      assert data[2] == Symbol(Third(b[1], 0));
      StripGroup(data, "=");
      PaddingLengths(0);
      assert Encode(b) == data;
    } else {
      SymbolHasItsValue(Last(b[2]));
      PaddingIsRestored(b[3..]);
      PaddingOfFullGroup(Group(b[0], b[1], b[2]), EncodePadded(b[3..]));
    }
  }

  lemma Snoc(b: seq<byte>, x: byte)
    ensures |b| == 1 ==> b + [x] == [b[0], x]
    ensures |b| == 2 ==> b + [x] == [b[0], b[1], x]
  {
  }

  lemma OneByteDecodes(x: byte, y: byte)
    ensures OneByte(Symbol(Head(x)), Symbol(Second(x, y))) == Some([x])
  {
    BitsRecombine(x, y, 0);
    SymbolHasItsValue(Head(x));
    SymbolHasItsValue(Second(x, y));
  }

  lemma TwoBytesDecode(x: byte, y: byte, z: byte)
    ensures TwoBytes(Symbol(Head(x)), Symbol(Second(x, y)), Symbol(Third(y, z))) == Some([x, y])
  {
    BitsRecombine(x, y, z);
    OneByteDecodes(x, y);
    SymbolHasItsValue(Second(x, y));
    SymbolHasItsValue(Third(y, z));
    Snoc([x], y);
  }

  lemma ThreeBytesDecode(x: byte, y: byte, z: byte)
    ensures ThreeBytes(Symbol(Head(x)), Symbol(Second(x, y)), Symbol(Third(y, z)), Symbol(Last(z))) == Some([x, y, z])
  {
    BitsRecombine(x, y, z);
    TwoBytesDecode(x, y, z);
    Snoc([x, y], z);
    SymbolHasItsValue(Third(y, z));
    SymbolHasItsValue(Last(z));
  }

  /** A group without padding decodes in front of whatever the rest decodes to. */
  lemma GroupThenRest(g: string, group: seq<byte>, rest: string, tail: seq<byte>)
    requires |g| == 4 && g[3] != '='
    requires ThreeBytes(g[0], g[1], g[2], g[3]) == Some(group) && DecodeGroups(rest) == Some(tail)
    ensures DecodeGroups(g + rest) == Some(group + tail)
  {
    var s := g + rest;
    assert s[0] == g[0] && s[1] == g[1] && s[2] == g[2] && s[3] == g[3] && s[4..] == rest;
  }

  lemma DecodeOneByte(x: byte, y: byte)
    ensures DecodeGroups(Group(x, y, 0)[..2] + "==") == Some([x])
  {
    OneByteDecodes(x, y);
    var s := Group(x, y, 0)[..2] + "==";
    assert s[0] == Symbol(Head(x)) && s[1] == Symbol(Second(x, y)) && s[2] == '=' && s[3] == '=';
  }

  lemma DecodeTwoBytes(x: byte, y: byte)
    ensures DecodeGroups(Group(x, y, 0)[..3] + "=") == Some([x, y])
  {
    TwoBytesDecode(x, y, 0);
    SymbolHasItsValue(Third(y, 0));
    var s := Group(x, y, 0)[..3] + "=";
    assert s[0] == Symbol(Head(x)) && s[1] == Symbol(Second(x, y)) && s[2] == Symbol(Third(y, 0)) && s[3] == '=';
  }

  lemma EncodeOneByte(x: byte)
    ensures EncodePadded([x]) == Group(x, 0, 0)[..2] + "=="
  {
  }

  lemma EncodeTwoBytes(x: byte, y: byte)
    ensures EncodePadded([x, y]) == Group(x, y, 0)[..3] + "="
  {
  }

  lemma EncodeFullGroup(b: seq<byte>)
    requires |b| >= 3
    ensures EncodePadded(b) == Group(b[0], b[1], b[2]) + EncodePadded(b[3..])
  {
  }

  lemma ShortDecodes(b: seq<byte>)
    requires |b| <= 2
    ensures DecodeGroups(EncodePadded(b)) == Some(b)
  {
    if |b| == 1 {
      assert b == [b[0]];
      EncodeOneByte(b[0]);
      DecodeOneByte(b[0], 0);
    } else if |b| == 2 {
      assert b == [b[0], b[1]];
      EncodeTwoBytes(b[0], b[1]);
      DecodeTwoBytes(b[0], b[1]);
    }
  }

  lemma FirstThree(b: seq<byte>)
    requires |b| >= 3
    ensures [b[0], b[1], b[2]] + b[3..] == b
  {
  }

  lemma LongDecodes(x: byte, y: byte, z: byte, code: string, tail: seq<byte>)
    requires DecodeGroups(code) == Some(tail)
    ensures DecodeGroups(Group(x, y, z) + code) == Some([x, y, z] + tail)
  {
    ThreeBytesDecode(x, y, z);
    SymbolHasItsValue(Last(z));
    GroupThenRest(Group(x, y, z), [x, y, z], code, tail);
  }

  lemma {:induction false} DecodeInvertsPadded(b: seq<byte>)
    ensures DecodeGroups(EncodePadded(b)) == Some(b)
  {
    if |b| <= 2 {
      ShortDecodes(b);
    } else {
      DecodeInvertsPadded(b[3..]);
      EncodeFullGroup(b);
      LongDecodes(b[0], b[1], b[2], EncodePadded(b[3..]), b[3..]);
      FirstThree(b);
    }
  }

  /** Decoding inverts encoding for every byte string, of any length. */
  lemma DecodeInvertsEncode(b: seq<byte>)
    ensures Decode(Encode(b)) == Some(b)
  {
    PaddingIsRestored(b);
    DecodeInvertsPadded(b);
  }

  lemma EncodeIsInjective(a: seq<byte>, b: seq<byte>)
    requires Encode(a) == Encode(b)
    ensures a == b
  {
    DecodeInvertsEncode(a);
    DecodeInvertsEncode(b);
  }
}
