/** UTF-8 as section 4 of RFC 3629 defines it: which byte sequences are text, by its grammar
    of octets, and that they are the encodings of Unicode scalar values. */
module Utf8 {

  newtype Byte = x: int | 0 <= x < 256

  predicate IsTail(b: Byte) {
    0x80 <= b <= 0xBF
  }

  /** The length of the character `bytes` starts with, zero if there is none. */
  function CharLength(bytes: seq<Byte>): (n: nat)
    ensures n <= |bytes| && n <= 4
  {
    if bytes == [] then 0
    else if bytes[0] <= 0x7F then 1
    else if |bytes| >= 2 && 0xC2 <= bytes[0] <= 0xDF && IsTail(bytes[1]) then 2
    else if |bytes| >= 3 && StartsThree(bytes[0], bytes[1]) && IsTail(bytes[2]) then 3
    else if |bytes| >= 4 && StartsFour(bytes[0], bytes[1]) && IsTail(bytes[2]) && IsTail(bytes[3]) then 4
    else 0
  }

  predicate StartsThree(b: Byte, c: Byte) {
    || (b == 0xE0 && 0xA0 <= c <= 0xBF)
    || (0xE1 <= b <= 0xEC && IsTail(c))
    || (b == 0xED && 0x80 <= c <= 0x9F)
    || (0xEE <= b <= 0xEF && IsTail(c))
  }

  predicate StartsFour(b: Byte, c: Byte) {
    || (b == 0xF0 && 0x90 <= c <= 0xBF)
    || (0xF1 <= b <= 0xF3 && IsTail(c))
    || (b == 0xF4 && 0x80 <= c <= 0x8F)
  }

  predicate IsText(bytes: seq<Byte>) {
    bytes == [] || (CharLength(bytes) > 0 && IsText(bytes[CharLength(bytes)..]))
  }

  // ---------------------------------------------------------------- scalar values

  /** A Unicode code point that is not a surrogate. */
  predicate IsScalar(c: nat) {
    c < 0xD800 || 0xE000 <= c <= 0x10FFFF
  }

  function EncodeChar(c: nat): seq<Byte>
    requires IsScalar(c)
  {
    if c < 0x80 then [c as Byte]
    else if c < 0x800 then [(0xC0 + c / 0x40) as Byte, Tail(c)]
    else if c < 0x10000 then [(0xE0 + c / 0x1000) as Byte, Tail(c / 0x40), Tail(c)]
    else [(0xF0 + c / 0x40000) as Byte, Tail(c / 0x1000), Tail(c / 0x40), Tail(c)]
  }

  function Tail(c: nat): Byte {
    (0x80 + c % 0x40) as Byte
  }

  predicate AreScalars(chars: seq<nat>) {
    forall i :: 0 <= i < |chars| ==> IsScalar(chars[i])
  }

  function Encode(chars: seq<nat>): seq<Byte>
    requires AreScalars(chars)
  {
    if chars == [] then [] else EncodeChar(chars[0]) + Encode(chars[1..])
  }

  lemma CharIsText(c: nat, rest: seq<Byte>)
    requires IsScalar(c)
    ensures CharLength(EncodeChar(c) + rest) == |EncodeChar(c)| > 0
  {
    hide StartsThree, StartsFour;
    if 0x800 <= c < 0x10000 {
      ThreeByteStart(c);
    } else if c >= 0x10000 {
      FourByteStart(c);
    }
  }

  lemma ThreeByteStart(c: nat)
    requires IsScalar(c) && 0x800 <= c < 0x10000
    ensures StartsThree((0xE0 + c / 0x1000) as Byte, Tail(c / 0x40))
  {
    assert c / 0x40 % 0x40 == c / 0x40 - 0x40 * (c / 0x1000);
  }

  lemma FourByteStart(c: nat)
    requires IsScalar(c) && c >= 0x10000
    ensures StartsFour((0xF0 + c / 0x40000) as Byte, Tail(c / 0x1000))
    ensures !StartsThree((0xF0 + c / 0x40000) as Byte, Tail(c / 0x1000))
  {
    assert c / 0x1000 % 0x40 == c / 0x1000 - 0x40 * (c / 0x40000);
  }

  function Payload(b: Byte): nat
    requires IsTail(b)
  {
    (b - 0x80) as nat
  }

  /** The scalar value of the first character. */
  function FirstChar(bytes: seq<Byte>): (c: nat)
    requires CharLength(bytes) > 0
    ensures IsScalar(c)
  {
    match CharLength(bytes)
    case 1 => bytes[0] as nat
    case 2 => (bytes[0] - 0xC0) as nat * 0x40 + Payload(bytes[1])
    case 3 => (bytes[0] - 0xE0) as nat * 0x1000 + Payload(bytes[1]) * 0x40 + Payload(bytes[2])
    case _ =>
      (bytes[0] - 0xF0) as nat * 0x40000 + Payload(bytes[1]) * 0x1000 + Payload(bytes[2]) * 0x40 + Payload(bytes[3])
  }

  lemma FirstCharEncodes(bytes: seq<Byte>)
    requires CharLength(bytes) > 0
    ensures EncodeChar(FirstChar(bytes)) == bytes[..CharLength(bytes)]
  {
    match CharLength(bytes)
    case 1 =>
    case 2 =>
      Digits((bytes[0] - 0xC0) as nat, Payload(bytes[1]));
    case 3 =>
      ThreeDigits((bytes[0] - 0xE0) as nat, Payload(bytes[1]), Payload(bytes[2]));
    case _ =>
      FourDigits((bytes[0] - 0xF0) as nat, Payload(bytes[1]), Payload(bytes[2]), Payload(bytes[3]));
  }

  lemma Digits(a: nat, b: nat)
    requires b < 0x40
    ensures (a * 0x40 + b) / 0x40 == a && (a * 0x40 + b) % 0x40 == b
  {
  }

  lemma ThreeDigits(a: nat, b: nat, c: nat)
    requires b < 0x40 && c < 0x40
    ensures var n := a * 0x1000 + b * 0x40 + c;
            n / 0x1000 == a && n / 0x40 == a * 0x40 + b && n / 0x40 % 0x40 == b && n % 0x40 == c
  {
    Digits(a * 0x40 + b, c);
    Digits(a, b);
  }

  lemma FourDigits(a: nat, b: nat, c: nat, d: nat)
    requires b < 0x40 && c < 0x40 && d < 0x40
    ensures var n := a * 0x40000 + b * 0x1000 + c * 0x40 + d;
            n / 0x40000 == a && n / 0x1000 % 0x40 == b && n / 0x40 % 0x40 == c && n % 0x40 == d
  {
    var n := a * 0x40000 + b * 0x1000 + c * 0x40 + d;
    ThreeDigits(a * 0x40 + b, c, d);
    Digits(a, b);
    assert n == (a * 0x40 + b) * 0x1000 + c * 0x40 + d;
    assert n / 0x40000 == a;
  }

  /** Text is exactly what encodes scalar values: the grammar admits no surrogate, nothing
      above U+10FFFF and no overlong form, and leaves nothing out. */
  lemma TextIsEncoded(bytes: seq<Byte>)
    ensures IsText(bytes) <==> exists chars :: AreScalars(chars) && Encode(chars) == bytes
  {
    if IsText(bytes) {
      var chars := Decoded(bytes);
    }
    forall chars | AreScalars(chars) && Encode(chars) == bytes ensures IsText(bytes) {
      EncodedIsText(chars);
    }
  }

  lemma {:induction false} Decoded(bytes: seq<Byte>) returns (chars: seq<nat>)
    requires IsText(bytes)
    ensures AreScalars(chars) && Encode(chars) == bytes
    decreases |bytes|
  {
    hide CharLength, FirstChar, EncodeChar;
    if bytes == [] {
      chars := [];
    } else {
      var n := CharLength(bytes);
      FirstCharEncodes(bytes);
      var rest := Decoded(bytes[n..]);
      chars := [FirstChar(bytes)] + rest;
      assert chars[1..] == rest && bytes == bytes[..n] + bytes[n..];
    }
  }

  lemma {:induction false} EncodedIsText(chars: seq<nat>)
    requires AreScalars(chars)
    ensures IsText(Encode(chars))
  {
    if chars != [] {
      var rest := Encode(chars[1..]);
      EncodedIsText(chars[1..]);
      CharIsText(chars[0], rest);
      assert (EncodeChar(chars[0]) + rest)[|EncodeChar(chars[0])|..] == rest;
    }
  }
}
