/**
 UTF-8 as section 3 of RFC 3629 defines it, and strings as Go has them: sequences of bytes that may
 or may not be valid, which are decoded rune by rune, with U+FFFD for a byte that fits nowhere.
 */
module Utf8 {

  import opened Octets

  const REPLACEMENT := 0xFFFD

  // ---------------------------------------------------------------------------
  // One rune
  // ---------------------------------------------------------------------------

  predicate IsScalar(c: int) {
    0 <= c < 0xD800 || 0xE000 <= c < 0x110000
  }

  /** `utf8.RuneLen`, for scalars. */
  function RuneLen(c: int): nat {
    if c < 0x80 then 1 else if c < 0x800 then 2 else if c < 0x10000 then 3 else 4
  }

  function EncodeRune(c: int): (r: Bytes)
    requires IsScalar(c)
    ensures |r| == RuneLen(c)
  {
    if c < 0x80 then [c]
    else if c < 0x800 then [0xC0 + c / 64, 0x80 + c % 64]
    else if c < 0x10000 then [0xE0 + c / 4096, 0x80 + c / 64 % 64, 0x80 + c % 64]
    else [0xF0 + c / 262144, 0x80 + c / 4096 % 64, 0x80 + c / 64 % 64, 0x80 + c % 64]
  }

  datatype Rune = Rune(code: int, size: nat)

  const INVALID := Rune(REPLACEMENT, 1)

  predicate IsTail(b: int) {
    0x80 <= b < 0xC0
  }

  /** What may follow the first byte of three or four: overlong forms, surrogates and more than U+10FFFF are out. */
  predicate IsSecond(first: int, b: int) {
    && IsTail(b)
    && (first == 0xE0 ==> 0xA0 <= b)
    && (first == 0xED ==> b < 0xA0)
    && (first == 0xF0 ==> 0x90 <= b)
    && (first == 0xF4 ==> b < 0x90)
  }

  function Code2(a: int, b: int): int {
    (a - 0xC0) * 64 + (b - 0x80)
  }

  function Code3(a: int, b: int, c: int): int {
    (a - 0xE0) * 4096 + (b - 0x80) * 64 + (c - 0x80)
  }

  function Code4(a: int, b: int, c: int, d: int): int {
    (a - 0xF0) * 262144 + (b - 0x80) * 4096 + (c - 0x80) * 64 + (d - 0x80)
  }

  predicate Starts2(s: Bytes) {
    |s| >= 2 && 0xC2 <= s[0] < 0xE0 && IsTail(s[1])
  }

  predicate Starts3(s: Bytes) {
    |s| >= 3 && 0xE0 <= s[0] < 0xF0 && IsSecond(s[0], s[1]) && IsTail(s[2])
  }

  predicate Starts4(s: Bytes) {
    |s| >= 4 && 0xF0 <= s[0] < 0xF5 && IsSecond(s[0], s[1]) && IsTail(s[2]) && IsTail(s[3])
  }

  /** `utf8.DecodeRuneInString` */
  function DecodeRune(s: Bytes): (r: Rune)
    requires s != []
    ensures 1 <= r.size <= |s|
  {
    if s[0] < 0x80 then Rune(s[0], 1)
    else if Starts2(s) then Rune(Code2(s[0], s[1]), 2)
    else if Starts3(s) then Rune(Code3(s[0], s[1], s[2]), 3)
    else if Starts4(s) then Rune(Code4(s[0], s[1], s[2], s[3]), 4)
    else INVALID
  }

  lemma Parts2(c: int)
    requires 0x80 <= c < 0x800
    ensures var a, b := 0xC0 + c / 64, 0x80 + c % 64; 0xC2 <= a < 0xE0 && IsTail(b) && Code2(a, b) == c
  {
  }

  lemma Parts3(c: int)
    requires 0x800 <= c < 0x10000 && IsScalar(c)
    ensures var a, b, d := 0xE0 + c / 4096, 0x80 + c / 64 % 64, 0x80 + c % 64;
            0xE0 <= a < 0xF0 && IsSecond(a, b) && IsTail(d) && Code3(a, b, d) == c
  {
    assert c / 64 / 64 == c / 4096;
    assert c == c / 64 * 64 + c % 64 && c / 64 == c / 4096 * 64 + c / 64 % 64;
  }

  lemma Parts4(c: int)
    requires 0x10000 <= c < 0x110000
    ensures var a, b, d, e := 0xF0 + c / 262144, 0x80 + c / 4096 % 64, 0x80 + c / 64 % 64, 0x80 + c % 64;
            0xF0 <= a < 0xF5 && IsSecond(a, b) && IsTail(d) && IsTail(e) && Code4(a, b, d, e) == c
  {
    assert c / 64 / 64 == c / 4096 && c / 4096 / 64 == c / 262144;
    assert c == c / 64 * 64 + c % 64 && c / 64 == c / 4096 * 64 + c / 64 % 64;
    assert c / 4096 == c / 262144 * 64 + c / 4096 % 64;
  }

  lemma DecodesEncoded(c: int, rest: Bytes)
    requires IsScalar(c)
    ensures DecodeRune(EncodeRune(c) + rest) == Rune(c, RuneLen(c))
  {
    if 0x80 <= c < 0x800 { Parts2(c); }
    else if 0x800 <= c < 0x10000 { Parts3(c); }
    else if 0x10000 <= c { Parts4(c); }
  }

  lemma Encodes2(a: Byte, b: Byte)
    requires 0xC2 <= a < 0xE0 && IsTail(b)
    ensures IsScalar(Code2(a, b)) && EncodeRune(Code2(a, b)) == [a, b]
  {
    var c := Code2(a, b);
    Parts2(c);
  }

  lemma Encodes3(a: Byte, b: Byte, d: Byte)
    requires 0xE0 <= a < 0xF0 && IsSecond(a, b) && IsTail(d)
    ensures IsScalar(Code3(a, b, d)) && EncodeRune(Code3(a, b, d)) == [a, b, d]
  {
    var c := Code3(a, b, d);
    assert 0x800 <= c < 0x10000 && IsScalar(c);
    Parts3(c);
    SameDigits3(c / 4096, c / 64 % 64, c % 64, a - 0xE0, b - 0x80, d - 0x80);
  }

  lemma SameDigits3(x: int, y: int, z: int, x': int, y': int, z': int)
    requires 0 <= y < 64 && 0 <= z < 64 && 0 <= y' < 64 && 0 <= z' < 64
    requires x * 4096 + y * 64 + z == x' * 4096 + y' * 64 + z'
    ensures x == x' && y == y' && z == z'
  {
  }

  lemma Encodes4(a: Byte, b: Byte, d: Byte, e: Byte)
    requires 0xF0 <= a < 0xF5 && IsSecond(a, b) && IsTail(d) && IsTail(e)
    ensures IsScalar(Code4(a, b, d, e)) && EncodeRune(Code4(a, b, d, e)) == [a, b, d, e]
  {
    var c := Code4(a, b, d, e);
    assert 0x10000 <= c < 0x110000;
    Parts4(c);
    SameDigits4(c / 262144, c / 4096 % 64, c / 64 % 64, c % 64, a - 0xF0, b - 0x80, d - 0x80, e - 0x80);
  }

  lemma SameDigits4(w: int, x: int, y: int, z: int, w': int, x': int, y': int, z': int)
    requires 0 <= x < 64 && 0 <= y < 64 && 0 <= z < 64 && 0 <= x' < 64 && 0 <= y' < 64 && 0 <= z' < 64
    requires w * 262144 + x * 4096 + y * 64 + z == w' * 262144 + x' * 4096 + y' * 64 + z'
    ensures w == w' && x == x' && y == y' && z == z'
  {
    SameDigits3(w * 64 + x, y, z, w' * 64 + x', y', z');
  }

  lemma EncodesDecoded(s: Bytes)
    requires s != [] && DecodeRune(s) != INVALID
    ensures var r := DecodeRune(s); IsScalar(r.code) && s[..r.size] == EncodeRune(r.code)
  {
    if s[0] < 0x80 {
    } else if Starts2(s) {
      Encodes2(s[0], s[1]);
    } else if Starts3(s) {
      Encodes3(s[0], s[1], s[2]);
    } else {
      Encodes4(s[0], s[1], s[2], s[3]);
    }
  }

  lemma DecodesPrefix(s: Bytes, rest: Bytes)
    requires s != [] && DecodeRune(s) != INVALID
    ensures DecodeRune(s + rest) == DecodeRune(s)
  {
  }

  // ---------------------------------------------------------------------------
  // Strings
  // ---------------------------------------------------------------------------

  predicate Scalars(codes: seq<int>) {
    forall i :: 0 <= i < |codes| ==> IsScalar(codes[i])
  }

  /** `string(runes)` */
  function Encode(codes: seq<int>): Bytes
    requires Scalars(codes)
  {
    if codes == [] then [] else EncodeRune(codes[0]) + Encode(codes[1..])
  }

  /** `[]rune(s)` */
  function Codes(s: Bytes): (r: seq<int>)
    decreases |s|
  {
    if s == [] then [] else [DecodeRune(s).code] + Codes(s[DecodeRune(s).size..])
  }

  /** `utf8.ValidString` */
  predicate Valid(s: Bytes)
    decreases |s|
  {
    s == [] || (DecodeRune(s) != INVALID && Valid(s[DecodeRune(s).size..]))
  }

  lemma {:induction false} CodesAreScalars(s: Bytes)
    ensures Scalars(Codes(s))
    decreases |s|
  {
    if s != [] {
      if DecodeRune(s) != INVALID { EncodesDecoded(s); }
      CodesAreScalars(s[DecodeRune(s).size..]);
    }
  }

  lemma {:induction false} DecodesEncode(codes: seq<int>)
    requires Scalars(codes)
    ensures Valid(Encode(codes)) && Codes(Encode(codes)) == codes
  {
    if codes != [] {
      DecodesEncoded(codes[0], Encode(codes[1..]));
      DecodesEncode(codes[1..]);
      assert Encode(codes)[RuneLen(codes[0])..] == Encode(codes[1..]);
      assert DecodeRune(Encode(codes)) != INVALID;
    }
  }

  lemma EncodeCons(c: int, codes: seq<int>)
    requires IsScalar(c) && Scalars(codes)
    ensures Encode([c] + codes) == EncodeRune(c) + Encode(codes)
  {
    assert ([c] + codes)[1..] == codes;
  }

  lemma EncodesFirst(s: Bytes, rest: Bytes, codes: seq<int>)
    requires s != [] && DecodeRune(s) != INVALID && rest == s[DecodeRune(s).size..]
    requires Scalars(codes) && Encode(codes) == rest
    ensures IsScalar(DecodeRune(s).code) && Encode([DecodeRune(s).code] + codes) == s
  {
    EncodesDecoded(s);
    EncodeCons(DecodeRune(s).code, codes);
  }

  lemma {:induction false} EncodesCodes(s: Bytes)
    requires Valid(s)
    ensures Scalars(Codes(s)) && Encode(Codes(s)) == s
    decreases |s|
  {
    CodesAreScalars(s);
    if s != [] {
      var rest := s[DecodeRune(s).size..];
      EncodesCodes(rest);
      EncodesFirst(s, rest, Codes(rest));
    }
  }

  /** The decoder accepts exactly the encodings of scalar values. */
  lemma ValidExactly(s: Bytes)
    ensures Valid(s) <==> exists codes :: Scalars(codes) && Encode(codes) == s
  {
    if Valid(s) {
      EncodesCodes(s);
    } else if codes :| Scalars(codes) && Encode(codes) == s {
      DecodesEncode(codes);
    }
  }

  lemma ConcatDecodes(a: Bytes, b: Bytes)
    requires a != [] && DecodeRune(a) != INVALID
    ensures DecodeRune(a + b) == DecodeRune(a)
    ensures (a + b)[DecodeRune(a).size..] == a[DecodeRune(a).size..] + b
  {
    DecodesPrefix(a, b);
  }

  lemma {:induction false} ConcatIsValid(a: Bytes, b: Bytes)
    requires Valid(a) && Valid(b)
    ensures Valid(a + b)
    decreases |a|
  {
    if a == [] {
      assert a + b == b;
    } else {
      ConcatDecodes(a, b);
      ConcatIsValid(a[DecodeRune(a).size..], b);
    }
  }

  lemma {:induction false} ConcatCodes(a: Bytes, b: Bytes)
    requires Valid(a)
    ensures Codes(a + b) == Codes(a) + Codes(b)
    decreases |a|
  {
    if a == [] {
      assert a + b == b;
    } else {
      ConcatDecodes(a, b);
      ConcatCodes(a[DecodeRune(a).size..], b);
    }
  }

  lemma RuneIsValid(s: Bytes)
    requires s != [] && DecodeRune(s) != INVALID
    ensures var r := DecodeRune(s); Valid(s[..r.size]) && r.size == RuneLen(r.code)
  {
    EncodesDecoded(s);
    var c := DecodeRune(s).code;
    DecodesEncode([c]);
    assert Encode([c]) == EncodeRune(c) + [];
  }

  /** A rune that is not the mark of an invalid byte is as long as its encoding; that mark counts for three. */
  lemma SizeIsRuneLen(s: Bytes)
    requires s != []
    ensures var r := DecodeRune(s); r.size <= RuneLen(r.code) && (r != INVALID ==> r.size == RuneLen(r.code))
  {
    if DecodeRune(s) != INVALID { RuneIsValid(s); }
  }
}
