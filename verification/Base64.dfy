/**
 Base64 with the standard alphabet and padding, section 4 of RFC 4648. The decoder is that of Go's
 `encoding/base64`: it skips line breaks and does not look at the bits that padding leaves over.
 */
module Base64 {
  import opened Wrappers
  import opened Octets

  const PAD: Byte := 0x3D

  /** The character for six bits. */
  function Letter(v: int): (c: Byte)
    requires 0 <= v < 64
    ensures c != PAD && c != 0x0A && c != 0x0D
  {
    if v < 26 then 0x41 + v
    else if v < 52 then 0x61 + (v - 26)
    else if v < 62 then 0x30 + (v - 52)
    else if v == 62 then 0x2B
    else 0x2F
  }

  /** The six bits of a character, or -1. */
  function Value(c: Byte): (v: int)
    ensures -1 <= v < 64
  {
    if 0x41 <= c < 0x5B then c as int - 0x41
    else if 0x61 <= c < 0x7B then c as int - 0x61 + 26
    else if 0x30 <= c < 0x3A then c as int - 0x30 + 52
    else if c == 0x2B then 62
    else if c == 0x2F then 63
    else -1
  }

  lemma ValueOfLetter(v: int)
    requires 0 <= v < 64
    ensures Value(Letter(v)) == v
  {
  }

  /** Three bytes as four letters. */
  function Letters(a: Byte, b: Byte, c: Byte): Bytes {
    [Letter(a / 4), Letter(a % 4 * 16 + b / 16), Letter(b % 16 * 4 + c / 64), Letter(c % 64)]
  }

  function First(v: int, w: int): Byte
    requires 0 <= v < 64 && 0 <= w < 64
  {
    v * 4 + w / 16
  }

  function Second(w: int, x: int): Byte
    requires 0 <= w < 64 && 0 <= x < 64
  {
    w % 16 * 16 + x / 4
  }

  function Third(x: int, y: int): Byte
    requires 0 <= x < 64 && 0 <= y < 64
  {
    x % 4 * 64 + y
  }

  /** The last one or two bytes, filled up with zeros. */
  function Tail1(a: Byte): Bytes {
    Letters(a, 0, 0)[..2] + [PAD, PAD]
  }

  function Tail2(a: Byte, b: Byte): Bytes {
    Letters(a, b, 0)[..3] + [PAD]
  }

  function Encode(s: Bytes): Bytes {
    if s == [] then []
    else if |s| == 1 then Tail1(s[0])
    else if |s| == 2 then Tail2(s[0], s[1])
    else Letters(s[0], s[1], s[2]) + Encode(s[3..])
  }

  function WithoutBreaks(s: Bytes): Bytes {
    if s == [] then []
    else if s[0] == 0x0A || s[0] == 0x0D then WithoutBreaks(s[1..])
    else [s[0]] + WithoutBreaks(s[1..])
  }

  /** Groups of four characters; only the last may end with padding. */
  function Groups(s: Bytes): Option<Bytes> {
    if s == [] then Some([])
    else if |s| < 4 || Value(s[0]) < 0 || Value(s[1]) < 0 then None
    else if s[2] == PAD then
      if s[3] == PAD && |s| == 4 then Some([First(Value(s[0]), Value(s[1]))]) else None
    else if Value(s[2]) < 0 then None
    else if s[3] == PAD then
      if |s| == 4 then Some([First(Value(s[0]), Value(s[1])), Second(Value(s[1]), Value(s[2]))]) else None
    else if Value(s[3]) < 0 then None
    else match Groups(s[4..])
         case None => None
         case Some(rest) =>
           Some([First(Value(s[0]), Value(s[1])), Second(Value(s[1]), Value(s[2])),
                 Third(Value(s[2]), Value(s[3]))] + rest)
  }

  /** `base64.StdEncoding.DecodeString` */
  function Decode(s: Bytes): Option<Bytes> {
    Groups(WithoutBreaks(s))
  }

  lemma LettersDecode(a: Byte, b: Byte, c: Byte)
    ensures var l := Letters(a, b, c);
            && l[2] != PAD && l[3] != PAD
            && Value(l[0]) >= 0 && Value(l[1]) >= 0 && Value(l[2]) >= 0 && Value(l[3]) >= 0
            && First(Value(l[0]), Value(l[1])) == a
            && Second(Value(l[1]), Value(l[2])) == b
            && Third(Value(l[2]), Value(l[3])) == c
  {
    ValueOfLetter(a / 4);
    ValueOfLetter(a % 4 * 16 + b / 16);
    ValueOfLetter(b % 16 * 4 + c / 64);
    ValueOfLetter(c % 64);
  }

  lemma GroupOfOne(a: Byte, b: Byte, c: Byte)
    ensures Groups(Letters(a, b, c)[..2] + [PAD, PAD]) == Some([a])
  {
    LettersDecode(a, b, c);
  }

  lemma GroupOfTwo(a: Byte, b: Byte, c: Byte)
    ensures Groups(Letters(a, b, c)[..3] + [PAD]) == Some([a, b])
  {
    LettersDecode(a, b, c);
  }

  lemma GroupsOfTail1(a: Byte)
    ensures Groups(Tail1(a)) == Some([a])
  {
    GroupOfOne(a, 0, 0);
  }

  lemma GroupsOfTail2(a: Byte, b: Byte)
    ensures Groups(Tail2(a, b)) == Some([a, b])
  {
    GroupOfTwo(a, b, 0);
  }

  lemma GroupOfThree(a: Byte, b: Byte, c: Byte, text: Bytes, rest: Bytes)
    requires Groups(text) == Some(rest)
    ensures Groups(Letters(a, b, c) + text) == Some([a, b, c] + rest)
  {
    LettersDecode(a, b, c);
    assert (Letters(a, b, c) + text)[4..] == text;
  }

  lemma {:induction false} GroupsOfEncoded(s: Bytes)
    ensures Groups(Encode(s)) == Some(s)
  {
    if |s| == 1 {
      GroupsOfTail1(s[0]);
      assert s == [s[0]];
    } else if |s| == 2 {
      GroupsOfTail2(s[0], s[1]);
      assert s == [s[0], s[1]];
    } else if |s| > 2 {
      GroupsOfEncoded(s[3..]);
      GroupOfThree(s[0], s[1], s[2], Encode(s[3..]), s[3..]);
      assert s == [s[0], s[1], s[2]] + s[3..];
    }
  }

  ghost predicate HasNoBreak(s: Bytes) {
    forall i :: 0 <= i < |s| ==> s[i] != 0x0A && s[i] != 0x0D
  }

  lemma {:induction false} EncodedHasNoBreak(s: Bytes)
    ensures HasNoBreak(Encode(s))
  {
    if |s| > 2 { EncodedHasNoBreak(s[3..]); }
  }

  lemma {:induction false} NothingToSkip(s: Bytes)
    requires HasNoBreak(s)
    ensures WithoutBreaks(s) == s
  {
    if s != [] { NothingToSkip(s[1..]); }
  }

  lemma RoundTrip(s: Bytes)
    ensures Decode(Encode(s)) == Some(s)
  {
    EncodedHasNoBreak(s);
    NothingToSkip(Encode(s));
    GroupsOfEncoded(s);
  }
}
