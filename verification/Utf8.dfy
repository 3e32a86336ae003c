// UTF-8 as Go decodes it: section 3 of RFC 3629 for encoding, section 4 for
// what is well-formed. An ill-formed byte decodes to U+FFFD and has width 1.
module Utf8 {

  type Byte = x: int | 0 <= x < 256

  const REPLACEMENT: char := '\U{FFFD}'

  function EncodeRune(c: char): (r: seq<Byte>)
    ensures 1 <= |r| <= 4
  {
    var n := c as int;
    if n < 0x80 then [n]
    else if n < 0x800 then [0xC0 + n / 64, 0x80 + n % 64]
    else if n < 0x10000 then [0xE0 + n / 4096, 0x80 + n / 64 % 64, 0x80 + n % 64]
    else [0xF0 + n / 262144, 0x80 + n / 4096 % 64, 0x80 + n / 64 % 64, 0x80 + n % 64]
  }

  function Encode(rs: string): seq<Byte> {
    if rs == [] then [] else EncodeRune(rs[0]) + Encode(rs[1..])
  }

  // len(s) of a Go string that holds these characters.
  function ByteLength(rs: string): (n: nat)
    ensures n == |Encode(rs)|
  {
    if rs == [] then 0 else |EncodeRune(rs[0])| + ByteLength(rs[1..])
  }

  predicate Tail(b: Byte) { 0x80 <= b <= 0xBF }

  predicate TwoBytes(s: seq<Byte>) {
    |s| >= 2 && 0xC2 <= s[0] <= 0xDF && Tail(s[1])
  }

  predicate ThreeBytes(s: seq<Byte>) {
    && |s| >= 3 && 0xE0 <= s[0] <= 0xEF && Tail(s[1]) && Tail(s[2])
    && (s[0] == 0xE0 ==> s[1] >= 0xA0)
    && (s[0] == 0xED ==> s[1] <= 0x9F)
  }

  predicate FourBytes(s: seq<Byte>) {
    && |s| >= 4 && 0xF0 <= s[0] <= 0xF4 && Tail(s[1]) && Tail(s[2]) && Tail(s[3])
    && (s[0] == 0xF0 ==> s[1] >= 0x90)
    && (s[0] == 0xF4 ==> s[1] <= 0x8F)
  }

  // utf8.DecodeRuneInString: the width of the first rune.
  function Width(s: seq<Byte>): (w: nat)
    requires s != []
    ensures 1 <= w <= |s|
  {
    if TwoBytes(s) then 2 else if ThreeBytes(s) then 3 else if FourBytes(s) then 4 else 1
  }

  function FirstRune(s: seq<Byte>): char
    requires s != []
  {
    if TwoBytes(s) then Join2(s[0] - 0xC0, s[1] - 0x80)
    else if ThreeBytes(s) then Join3(s[0] - 0xE0, s[1] - 0x80, s[2] - 0x80)
    else if FourBytes(s) then Join4(s[0] - 0xF0, s[1] - 0x80, s[2] - 0x80, s[3] - 0x80)
    else if s[0] < 0x80 then s[0] as char
    else REPLACEMENT
  }

  function Join2(a: int, b: int): char
    requires 2 <= a < 32 && 0 <= b < 64
  {
    (a * 64 + b) as char
  }

  function Join3(a: int, b: int, c: int): char
    requires 0 <= a < 16 && 0 <= b < 64 && 0 <= c < 64 && (a == 13 ==> b < 32)
  {
    (a * 4096 + b * 64 + c) as char
  }

  function Join4(a: int, b: int, c: int, d: int): char
    requires 0 <= a <= 4 && 0 <= b < 64 && 0 <= c < 64 && 0 <= d < 64 && (a == 0 ==> b >= 16) && (a == 4 ==> b < 16)
  {
    (a * 262144 + b * 4096 + c * 64 + d) as char
  }

  // The runes a Go range loop over s visits.
  function Decode(s: seq<Byte>): (rs: string)
    ensures |rs| <= |s|
  {
    if s == [] then [] else [FirstRune(s)] + Decode(s[Width(s)..])
  }

  // k is where some rune of s starts, or the end of s.
  predicate Boundary(s: seq<Byte>, k: nat)
    requires k <= |s|
    decreases |s|
  {
    k == 0 || (s != [] && Width(s) <= k && Boundary(s[Width(s)..], k - Width(s)))
  }

  // Cutting a string after its first rune or later does not change that rune.
  lemma FirstRuneOfPrefix(s: seq<Byte>, k: nat)
    requires s != [] && Width(s) <= k <= |s|
    ensures Width(s[..k]) == Width(s) && FirstRune(s[..k]) == FirstRune(s)
  {
  }

  lemma EncodedTwoDecodes(c: char, rest: seq<Byte>)
    requires 0x80 <= c as int < 0x800
    ensures Width(EncodeRune(c) + rest) == 2 && FirstRune(EncodeRune(c) + rest) == c
  {
    var n, s := c as int, EncodeRune(c) + rest;
    assert s[0] == 0xC0 + n / 64 && s[1] == 0x80 + n % 64;
    assert Join2(n / 64, n % 64) == c;
  }

  lemma EncodedThreeDecodes(c: char, rest: seq<Byte>)
    requires 0x800 <= c as int < 0x10000
    ensures Width(EncodeRune(c) + rest) == 3 && FirstRune(EncodeRune(c) + rest) == c
  {
    var n, s := c as int, EncodeRune(c) + rest;
    var x, y, z := n / 4096, n / 64 % 64, n % 64;
    assert n == x * 4096 + y * 64 + z;
    assert s[0] == 0xE0 + x && s[1] == 0x80 + y && s[2] == 0x80 + z;
    assert ThreeBytes(s) && !TwoBytes(s);
    assert Join3(x, y, z) == c;
  }

  lemma FourDigits(n: nat)
    requires n < 64 * 262144
    ensures n == n / 262144 * 262144 + n / 4096 % 64 * 4096 + n / 64 % 64 * 64 + n % 64
  {
  }

  lemma EncodedFourDecodes(c: char, rest: seq<Byte>)
    requires 0x10000 <= c as int
    ensures Width(EncodeRune(c) + rest) == 4 && FirstRune(EncodeRune(c) + rest) == c
  {
    var n, s := c as int, EncodeRune(c) + rest;
    var w, x, y, z := n / 262144, n / 4096 % 64, n / 64 % 64, n % 64;
    FourDigits(n);
    assert s[0] == 0xF0 + w && s[1] == 0x80 + x && s[2] == 0x80 + y && s[3] == 0x80 + z;
    assert FourBytes(s) && !TwoBytes(s) && !ThreeBytes(s);
    assert Join4(w, x, y, z) == c;
  }

  lemma EncodedRuneDecodes(c: char, rest: seq<Byte>)
    ensures Width(EncodeRune(c) + rest) == |EncodeRune(c)|
    ensures FirstRune(EncodeRune(c) + rest) == c
  {
    var n := c as int;
    if 0x80 <= n < 0x800 {
      EncodedTwoDecodes(c, rest);
    } else if 0x800 <= n < 0x10000 {
      EncodedThreeDecodes(c, rest);
    } else if 0x10000 <= n {
      EncodedFourDecodes(c, rest);
    }
  }

  // Decoding undoes encoding.
  lemma {:induction false} DecodeEncode(rs: string)
    ensures Decode(Encode(rs)) == rs
    decreases |rs|
  {
    if rs != [] {
      EncodedRuneDecodes(rs[0], Encode(rs[1..]));
      assert (EncodeRune(rs[0]) + Encode(rs[1..]))[|EncodeRune(rs[0])|..] == Encode(rs[1..]);
      DecodeEncode(rs[1..]);
    }
  }

  // s is well-formed UTF-8: the encoding of some sequence of scalar values.
  ghost predicate WellFormed(s: seq<Byte>) { exists rs: string :: Encode(rs) == s }

  // ---- What decoding does to arbitrary bytes ------------------------------------------

  lemma TwoBytesEncode(s: seq<Byte>)
    requires TwoBytes(s)
    ensures EncodeRune(FirstRune(s)) == s[..2]
  {
    var a: int, b: int := s[0] - 0xC0, s[1] - 0x80;
    assert (a * 64 + b) / 64 == a && (a * 64 + b) % 64 == b;
  }

  lemma ThreeBytesEncode(s: seq<Byte>)
    requires ThreeBytes(s) && !TwoBytes(s)
    ensures EncodeRune(FirstRune(s)) == s[..3]
  {
    var a: int, b: int, c: int := s[0] - 0xE0, s[1] - 0x80, s[2] - 0x80;
    var n := a * 4096 + b * 64 + c;
    assert n / 4096 == a && n / 64 % 64 == b && n % 64 == c;
  }

  lemma FourBytesEncode(s: seq<Byte>)
    requires FourBytes(s) && !TwoBytes(s) && !ThreeBytes(s)
    ensures EncodeRune(FirstRune(s)) == s[..4]
  {
    var a: int, b: int, c: int, d: int := s[0] - 0xF0, s[1] - 0x80, s[2] - 0x80, s[3] - 0x80;
    BaseSixtyFour(a, b, c, d);
    assert FirstRune(s) as int == a * 262144 + b * 4096 + c * 64 + d;
    assert s[..4] == [0xF0 + a, 0x80 + b, 0x80 + c, 0x80 + d];
  }

  lemma BaseSixtyFour(a: nat, b: nat, c: nat, d: nat)
    requires a <= 4 && b < 64 && c < 64 && d < 64
    ensures var n := a * 262144 + b * 4096 + c * 64 + d;
      n / 262144 == a && n / 4096 % 64 == b && n / 64 % 64 == c && n % 64 == d
  {
    var y := a * 64 + b;
    var x := y * 64 + c;
    var n := x * 64 + d;
    assert n / 64 == x && x / 64 == y && y / 64 == a;
    assert n / 4096 == y && n / 262144 == a;
  }

  // A string that begins with the encoding of a character decodes to that character;
  // any other first byte decodes to U+FFFD alone.
  lemma FirstRuneIsExact(s: seq<Byte>)
    requires s != []
    ensures (forall c: char :: EncodeRune(c) <= s ==> FirstRune(s) == c && Width(s) == |EncodeRune(c)|)
    ensures (forall c: char :: !(EncodeRune(c) <= s)) ==> FirstRune(s) == '\U{FFFD}' && Width(s) == 1
  {
    forall c: char | EncodeRune(c) <= s ensures FirstRune(s) == c && Width(s) == |EncodeRune(c)| {
      var w := |EncodeRune(c)|;
      EncodedRuneDecodes(c, s[w..]);
      assert s == EncodeRune(c) + s[w..];
    }
    if TwoBytes(s) {
      TwoBytesEncode(s);
    } else if ThreeBytes(s) {
      ThreeBytesEncode(s);
    } else if FourBytes(s) {
      FourBytesEncode(s);
    } else if s[0] < 0x80 {
      assert EncodeRune(s[0] as char) == [s[0]];
    }
  }
}
