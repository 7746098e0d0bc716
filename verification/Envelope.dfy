/**
 The encrypted envelope of a callback: base64 around cipher block chaining (section 6.2 of NIST SP
 800-38A) around padding as in section 6.3 of RFC 5652, to 32 bytes, around a frame of 16 bytes, the
 length of the message, the message and the receiver's ID. The block cipher itself is any pair of
 inverse functions on blocks of 16 bytes.
 */
module Envelope {
  import opened Wrappers
  import opened Octets
  import Base64

  type Block = b: Bytes | |b| == 16 witness seq(16, _ => 0)

  /** The receiving side: a cipher under the key, the first 16 bytes of the key, and the expected receiver. */
  datatype Crypto = Crypto(encrypt: Block -> Block, decrypt: Block -> Block, iv: Block, receiveId: Bytes)

  ghost predicate IsPermutation(c: Crypto) {
    forall b: Block :: c.decrypt(c.encrypt(b)) == b && c.encrypt(c.decrypt(b)) == b
  }

  // ---------------------------------------------------------------------------
  // Exclusive or
  // ---------------------------------------------------------------------------

  function Power(n: nat): nat {
    if n == 0 then 1 else 2 * Power(n - 1)
  }

  function XorBits(a: nat, b: nat, n: nat): (r: nat)
    ensures r < Power(n)
  {
    if n == 0 then 0 else (if a % 2 == b % 2 then 0 else 1) + 2 * XorBits(a / 2, b / 2, n - 1)
  }

  lemma {:induction false} XorBitsCancels(a: nat, b: nat, n: nat)
    requires a < Power(n)
    ensures XorBits(XorBits(a, b, n), b, n) == a
  {
    if n > 0 {
      XorBitsCancels(a / 2, b / 2, n - 1);
      var r := XorBits(a / 2, b / 2, n - 1);
      var x := XorBits(a, b, n);
      assert x / 2 == r && (x % 2 == 0 <==> a % 2 == b % 2);
    }
  }

  function Xor(a: Byte, b: Byte): Byte {
    assert Power(8) == 256;
    XorBits(a, b, 8)
  }

  lemma XorCancels(a: Byte, b: Byte)
    ensures Xor(Xor(a, b), b) == a
  {
    assert Power(8) == 256;
    XorBitsCancels(a, b, 8);
  }

  function XorBlocks(a: Block, b: Block): (r: Block)
    ensures forall i :: 0 <= i < 16 ==> r[i] == Xor(a[i], b[i])
  {
    seq(16, i requires 0 <= i < 16 => Xor(a[i], b[i]))
  }

  lemma XorBlocksCancels(a: Block, b: Block)
    ensures XorBlocks(XorBlocks(a, b), b) == a
  {
    forall i | 0 <= i < 16 ensures XorBlocks(XorBlocks(a, b), b)[i] == a[i] {
      XorCancels(a[i], b[i]);
    }
  }

  // ---------------------------------------------------------------------------
  // Cipher block chaining
  // ---------------------------------------------------------------------------

  function Encrypted(c: Crypto, iv: Block, plain: Bytes): (r: Bytes)
    requires |plain| % 16 == 0
    ensures |r| == |plain|
    decreases |plain|
  {
    if plain == [] then []
    else
      var block := c.encrypt(XorBlocks(plain[..16], iv));
      block + Encrypted(c, block, plain[16..])
  }

  function Decrypted(c: Crypto, iv: Block, encrypted: Bytes): (r: Bytes)
    requires |encrypted| % 16 == 0
    ensures |r| == |encrypted|
    decreases |encrypted|
  {
    if encrypted == [] then []
    else XorBlocks(c.decrypt(encrypted[..16]), iv) + Decrypted(c, encrypted[..16], encrypted[16..])
  }

  lemma {:induction false} DecryptsEncrypted(c: Crypto, iv: Block, plain: Bytes)
    requires IsPermutation(c) && |plain| % 16 == 0
    ensures Decrypted(c, iv, Encrypted(c, iv, plain)) == plain
    decreases |plain|
  {
    if plain != [] {
      var block := c.encrypt(XorBlocks(plain[..16], iv));
      XorBlocksCancels(plain[..16], iv);
      DecryptsEncrypted(c, block, plain[16..]);
      assert Encrypted(c, iv, plain)[..16] == block
             && Encrypted(c, iv, plain)[16..] == Encrypted(c, block, plain[16..]);
      assert plain[..16] + plain[16..] == plain;
    }
  }

  /** The chaining loses nothing: different ciphertexts decrypt to different bytes. */
  lemma {:induction false} EncryptsDecrypted(c: Crypto, iv: Block, encrypted: Bytes)
    requires IsPermutation(c) && |encrypted| % 16 == 0
    ensures Encrypted(c, iv, Decrypted(c, iv, encrypted)) == encrypted
    decreases |encrypted|
  {
    if encrypted != [] {
      var first: Block := encrypted[..16];
      var plain := XorBlocks(c.decrypt(first), iv);
      XorBlocksCancels(c.decrypt(first), iv);
      EncryptsDecrypted(c, first, encrypted[16..]);
      assert Decrypted(c, iv, encrypted)[..16] == plain
             && Decrypted(c, iv, encrypted)[16..] == Decrypted(c, first, encrypted[16..]);
      assert encrypted[..16] + encrypted[16..] == encrypted;
    }
  }

  // ---------------------------------------------------------------------------
  // Padding and framing
  // ---------------------------------------------------------------------------

  datatype Error = BadBase64 | BadLength | BadPadding | TooShort | BadMessageLength | WrongReceiver

  /** `n` bytes that each say `n`. */
  function Padding(n: nat): (r: Bytes)
    requires n < 256
    ensures |r| == n && forall i :: 0 <= i < n ==> r[i] == n
  {
    seq(n, _ => n)
  }

  predicate IsPadded(s: Bytes) {
    s != [] &&
    var n := s[|s| - 1];
    1 <= n <= 32 && n <= |s| && forall i :: |s| - n <= i < |s| ==> s[i] == n
  }

  function Unpadded(s: Bytes): Bytes
    requires IsPadded(s)
  {
    s[..|s| - s[|s| - 1]]
  }

  /** Four bytes, the most significant first. */
  function Be32(n: int): (r: Bytes)
    requires 0 <= n < 0x1_0000_0000
    ensures |r| == 4
  {
    [n / 0x100_0000, n / 0x1_0000 % 256, n / 256 % 256, n % 256]
  }

  function Number(a: int, b: int, c: int, d: int): int {
    a * 0x100_0000 + b * 0x1_0000 + c * 256 + d
  }

  function FromBe32(s: Bytes): (n: int)
    requires |s| == 4
    ensures 0 <= n < 0x1_0000_0000
  {
    Number(s[0], s[1], s[2], s[3])
  }

  lemma FromBe32OfBe32(n: int)
    requires 0 <= n < 0x1_0000_0000
    ensures FromBe32(Be32(n)) == n
  {
    assert n / 256 / 256 == n / 0x1_0000 && n / 0x1_0000 / 256 == n / 0x100_0000;
    assert n == n / 256 * 256 + n % 256;
    assert n / 256 == n / 0x1_0000 * 256 + n / 256 % 256;
    assert n / 0x1_0000 == n / 0x100_0000 * 256 + n / 0x1_0000 % 256;
  }

  lemma Be32OfFromBe32(s: Bytes)
    requires |s| == 4
    ensures Be32(FromBe32(s)) == s
  {
    var high: nat := (s[0] as int) * 256 + s[1];
    var upper: nat := high * 256 + s[2];
    var n: nat := upper * 256 + s[3];
    assert FromBe32(s) == n;
    LastByte(upper, s[3]);
    LastByte(high, s[2]);
    LastByte(s[0], s[1]);
    assert n / 256 / 256 == n / 0x1_0000 && n / 0x1_0000 / 256 == n / 0x100_0000;
  }

  lemma LastByte(q: nat, r: nat)
    requires r < 256
    ensures (q * 256 + r) / 256 == q && (q * 256 + r) % 256 == r
  {
  }

  /** What is encrypted: the frame. */
  function Framed(prefix: Block, message: Bytes, receiveId: Bytes): Bytes
    requires |message| < 0x1_0000_0000
  {
    prefix + Be32(|message|) + message + receiveId
  }

  function Padded(s: Bytes): Bytes {
    s + Padding(32 - |s| % 32)
  }

  /** The sender: it frames, pads, encrypts and encodes a message. */
  function Seal(c: Crypto, prefix: Block, message: Bytes, receiveId: Bytes): Bytes
    requires |message| < 0x1_0000_0000
  {
    PaddedFitsBlocks(Framed(prefix, message, receiveId));
    Base64.Encode(Encrypted(c, c.iv, Padded(Framed(prefix, message, receiveId))))
  }

  lemma PaddedFitsBlocks(s: Bytes)
    ensures |Padded(s)| % 16 == 0 && |Padded(s)| > |s|
  {
  }

  // ---------------------------------------------------------------------------
  // Decrypt
  // ---------------------------------------------------------------------------

  /** The message in an unpadded payload. */
  function Message(c: Crypto, plain: Bytes): Result<Bytes, Error> {
    if |plain| < 20 then Failure(TooShort)
    else
      var end := 20 + FromBe32(plain[16..20]);
      if end > |plain| then Failure(BadMessageLength)
      else if plain[end..] != c.receiveId then Failure(WrongReceiver)
      else Success(plain[20..end])
  }

  /** The message in the deciphered bytes. */
  function Opened(c: Crypto, plain: Bytes): Result<Bytes, Error> {
    if IsPadded(plain) then Message(c, Unpadded(plain)) else Failure(BadPadding)
  }

  function Decrypt(c: Crypto, text: Bytes): Result<Bytes, Error> {
    match Base64.Decode(text)
    case None => Failure(BadBase64)
    case Some(encrypted) =>
      if encrypted == [] || |encrypted| % 16 != 0 then Failure(BadLength)
      else Opened(c, Decrypted(c, c.iv, encrypted))
  }

  /** Some sender's frame around `message`, with padding of 1 to 32 bytes. */
  ghost predicate IsFrameOf(c: Crypto, plain: Bytes, message: Bytes) {
    |message| < 0x1_0000_0000
    && exists prefix: Block, n: nat :: 1 <= n <= 32 && plain == Framed(prefix, message, c.receiveId) + Padding(n)
  }

  lemma UnpadsPadding(s: Bytes, n: nat)
    requires 1 <= n <= 32
    ensures IsPadded(s + Padding(n)) && Unpadded(s + Padding(n)) == s
  {
    var r := s + Padding(n);
    assert r[|r| - 1] == n;
    assert r[..|r| - n] == s;
  }

  lemma PadsUnpadded(s: Bytes)
    requires IsPadded(s)
    ensures s == Unpadded(s) + Padding(s[|s| - 1])
  {
  }

  lemma MessageOfFramed(c: Crypto, prefix: Block, message: Bytes, receiveId: Bytes)
    requires |message| < 0x1_0000_0000
    ensures Message(c, Framed(prefix, message, receiveId))
         == if receiveId == c.receiveId then Success(message) else Failure(WrongReceiver)
  {
    var plain := Framed(prefix, message, receiveId);
    assert plain[16..20] == Be32(|message|);
    FromBe32OfBe32(|message|);
    assert plain[20 + |message|..] == receiveId;
    assert plain[20..20 + |message|] == message;
  }

  lemma FramedMessage(c: Crypto, plain: Bytes) returns (prefix: Block)
    requires Message(c, plain).Success?
    ensures |Message(c, plain).value| < 0x1_0000_0000
    ensures plain == Framed(prefix, Message(c, plain).value, c.receiveId)
  {
    var end := 20 + FromBe32(plain[16..20]);
    Be32OfFromBe32(plain[16..20]);
    prefix := plain[..16];
    assert plain == plain[..16] + plain[16..20] + plain[20..end] + plain[end..];
  }

  lemma OpenedExactly(c: Crypto, plain: Bytes, message: Bytes)
    ensures Opened(c, plain) == Success(message) <==> IsFrameOf(c, plain, message)
  {
    if Opened(c, plain) == Success(message) {
      var prefix := FramedMessage(c, Unpadded(plain));
      PadsUnpadded(plain);
      assert plain == Framed(prefix, message, c.receiveId) + Padding(plain[|plain| - 1]);
    }
    if IsFrameOf(c, plain, message) {
      var prefix: Block, n: nat :| 1 <= n <= 32 && plain == Framed(prefix, message, c.receiveId) + Padding(n);
      UnpadsPadding(Framed(prefix, message, c.receiveId), n);
      MessageOfFramed(c, prefix, message, c.receiveId);
    }
  }

  /**
   `Decrypt` gives a message exactly for the base64 of an encrypted, padded frame around it that names the receiver.
   */
  lemma DecryptsExactly(c: Crypto, text: Bytes, message: Bytes)
    ensures Decrypt(c, text) == Success(message)
       <==> exists encrypted :: Base64.Decode(text) == Some(encrypted) && encrypted != [] && |encrypted| % 16 == 0
                             && IsFrameOf(c, Decrypted(c, c.iv, encrypted), message)
  {
    var decoded := Base64.Decode(text);
    if decoded.Some? && |decoded.value| % 16 == 0 {
      OpenedExactly(c, Decrypted(c, c.iv, decoded.value), message);
    }
  }

  /** What a sender sealed for this receiver is read back, and what was sealed for another is refused. */
  lemma DecryptsSealed(c: Crypto, prefix: Block, message: Bytes, receiveId: Bytes)
    requires IsPermutation(c) && |message| < 0x1_0000_0000
    ensures Decrypt(c, Seal(c, prefix, message, receiveId))
         == if receiveId == c.receiveId then Success(message) else Failure(WrongReceiver)
  {
    var frame := Framed(prefix, message, receiveId);
    PaddedFitsBlocks(frame);
    Base64.RoundTrip(Encrypted(c, c.iv, Padded(frame)));
    DecryptsEncrypted(c, c.iv, Padded(frame));
    UnpadsPadding(frame, 32 - |frame| % 32);
    MessageOfFramed(c, prefix, message, receiveId);
  }

  // ---------------------------------------------------------------------------
  // The program
  // ---------------------------------------------------------------------------

  method DecryptText(c: Crypto, text: Bytes) returns (r: Result<Bytes, Error>)
    ensures r == Decrypt(c, text)
  {
    var decoded := Base64.Decode(text);
    if decoded.None? {
      return Failure(BadBase64);
    }
    var encrypted := decoded.value;
    if |encrypted| == 0 || |encrypted| % 16 != 0 {
      return Failure(BadLength);
    }
    var buffer := new Byte[|encrypted|];
    CryptBlocks(c, buffer, encrypted);
    var unpadded := Unpad(buffer[..], 32);
    if unpadded.Failure? {
      return unpadded;
    }
    var plain := unpadded.value;
    if |plain| < 20 {
      return Failure(TooShort);
    }
    var end := 20 + FromBe32(plain[16..20]);
    if end > |plain| {
      return Failure(BadMessageLength);
    }
    if plain[end..] != c.receiveId {
      return Failure(WrongReceiver);
    }
    return Success(plain[20..end]);
  }

  /** Deciphers block after block into a buffer. */
  method CryptBlocks(c: Crypto, buffer: array<Byte>, encrypted: Bytes)
    requires buffer.Length == |encrypted| && |encrypted| % 16 == 0
    modifies buffer
    ensures buffer[..] == Decrypted(c, c.iv, encrypted)
  {
    var at: nat, previous := 0, c.iv;
    ghost var done: Bytes := [];
    assert encrypted[0..] == encrypted && [] + Decrypted(c, c.iv, encrypted) == Decrypted(c, c.iv, encrypted);
    while at < |encrypted|
      invariant at <= |encrypted| && at % 16 == 0 && buffer[..at] == done
      invariant done + Decrypted(c, previous, encrypted[at..]) == Decrypted(c, c.iv, encrypted)
    {
      var block: Block := encrypted[at..at + 16];
      var plain := XorBlocks(c.decrypt(block), previous);
      DecryptedOn(c, previous, encrypted, at, done);
      CopyBlock(buffer, at, plain);
      done := done + plain;
      at, previous := at + 16, block;
    }
    assert buffer[..at] == buffer[..] && done + [] == done;
  }

  lemma DecryptedOn(c: Crypto, previous: Block, encrypted: Bytes, at: nat, done: Bytes)
    requires |encrypted| % 16 == 0 && at % 16 == 0 && at < |encrypted|
    ensures at + 16 <= |encrypted|
    ensures var block: Block := encrypted[at..at + 16];
            done + Decrypted(c, previous, encrypted[at..])
            == (done + XorBlocks(c.decrypt(block), previous)) + Decrypted(c, block, encrypted[at + 16..])
  {
    DecryptedStep(c, previous, encrypted, at);
    var block: Block := encrypted[at..at + 16];
    Associates(done, XorBlocks(c.decrypt(block), previous), Decrypted(c, block, encrypted[at + 16..]));
  }

  lemma Associates(a: Bytes, b: Bytes, c: Bytes)
    ensures a + (b + c) == (a + b) + c
  {
  }

  lemma DecryptedStep(c: Crypto, previous: Block, encrypted: Bytes, at: nat)
    requires |encrypted| % 16 == 0 && at % 16 == 0 && at < |encrypted|
    ensures at + 16 <= |encrypted|
    ensures var block: Block := encrypted[at..at + 16];
            Decrypted(c, previous, encrypted[at..])
            == XorBlocks(c.decrypt(block), previous) + Decrypted(c, block, encrypted[at + 16..])
  {
    assert encrypted[at..][..16] == encrypted[at..at + 16] && encrypted[at..][16..] == encrypted[at + 16..];
  }

  method CopyBlock(buffer: array<Byte>, at: nat, plain: Block)
    requires at + 16 <= buffer.Length
    modifies buffer
    ensures buffer[..at + 16] == old(buffer[..at]) + plain
  {
    for i := 0 to 16
      invariant buffer[..at] == old(buffer[..at])
      invariant buffer[at..at + i] == plain[..i]
    {
      buffer[at + i] := plain[i];
    }
  }

  /** `unpad` */
  method Unpad(input: Bytes, blockSize: nat) returns (r: Result<Bytes, Error>)
    requires blockSize == 32
    ensures r == if IsPadded(input) then Success(Unpadded(input)) else Failure(BadPadding)
  {
    if |input| == 0 {
      return Failure(BadPadding);
    }
    var padding := input[|input| - 1];
    if padding < 1 || padding > blockSize || padding > |input| {
      return Failure(BadPadding);
    }
    for i := |input| - padding to |input|
      invariant forall k :: |input| - padding <= k < i ==> input[k] == padding
    {
      if input[i] != padding {
        return Failure(BadPadding);
      }
    }
    return Success(input[..|input| - padding]);
  }
}
