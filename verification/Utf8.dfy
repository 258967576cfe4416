/**
 UTF-8 (section 3 of RFC 3629) and a decoder that replaces each maximal subpart of an ill-formed sequence by U+FFFD
 (section 3.9 of the Unicode Standard), as Buffer.toString('utf-8') does.
 */
module Utf8 {
  type Byte = n: nat | n < 0x100

  /** A Unicode scalar value: a code point that is not a surrogate. */
  type Scalar = n: nat | n < 0xD800 || 0xE000 <= n < 0x110000

  const REPLACEMENT: Scalar := 0xFFFD

  function EncodeScalar(c: Scalar): (bytes: seq<Byte>)
    ensures 1 <= |bytes| <= 4
  {
    if c < 0x80 then [c]
    else if c < 0x800 then [0xC0 + c / 0x40, 0x80 + c % 0x40]
    else if c < 0x10000 then [0xE0 + c / 0x1000, 0x80 + c / 0x40 % 0x40, 0x80 + c % 0x40]
    else [0xF0 + c / 0x40000, 0x80 + c / 0x1000 % 0x40, 0x80 + c / 0x40 % 0x40, 0x80 + c % 0x40]
  }

  function Encode(text: seq<Scalar>): seq<Byte> {
    if text == [] then [] else EncodeScalar(text[0]) + Encode(text[1..])
  }

  /** How many bytes follow a lead byte; none follow a byte that leads nothing. */
  function Trailing(lead: Byte): nat {
    if 0xC2 <= lead < 0xE0 then 1 else if 0xE0 <= lead < 0xF0 then 2 else if 0xF0 <= lead < 0xF5 then 3 else 0
  }

  /** The second byte's range excludes overlong forms, surrogates and values past U+10FFFF. */
  predicate SecondFits(lead: Byte, second: Byte) {
    (if lead == 0xE0 then 0xA0 else if lead == 0xF0 then 0x90 else 0x80) <= second <
    (if lead == 0xED then 0xA0 else if lead == 0xF4 then 0x90 else 0xC0)
  }

  predicate Continues(b: Byte) { 0x80 <= b < 0xC0 }

  /** The length of the longest prefix that begins a well-formed sequence, at least 1. */
  function SubpartLength(bytes: seq<Byte>): (n: nat)
    requires bytes != []
    ensures 1 <= n <= |bytes| && n <= 1 + Trailing(bytes[0])
  {
    var need := Trailing(bytes[0]);
    if need == 0 || |bytes| < 2 || !SecondFits(bytes[0], bytes[1]) then 1
    else if need == 1 || |bytes| < 3 || !Continues(bytes[2]) then 2
    else if need == 2 || |bytes| < 4 || !Continues(bytes[3]) then 3
    else 4
  }

  /** The value of a well-formed sequence. */
  function Value(b: seq<Byte>): int
    requires 1 <= |b| <= 4
  {
    var at := (i: int) requires 0 <= i < |b| => b[i] as int;
    if |b| == 1 then at(0)
    else if |b| == 2 then (at(0) - 0xC0) * 0x40 + (at(1) - 0x80)
    else if |b| == 3 then (at(0) - 0xE0) * 0x1000 + (at(1) - 0x80) * 0x40 + (at(2) - 0x80)
    else (at(0) - 0xF0) * 0x40000 + (at(1) - 0x80) * 0x1000 + (at(2) - 0x80) * 0x40 + (at(3) - 0x80)
  }

  /** The scalar value at the front of `bytes`, or the replacement character. */
  function Front(bytes: seq<Byte>): Scalar
    requires bytes != []
  {
    var n := SubpartLength(bytes);
    if n == 1 then (if bytes[0] < 0x80 then bytes[0] else REPLACEMENT)
    else if n == 1 + Trailing(bytes[0]) then Value(bytes[..n])
    else REPLACEMENT
  }

  function Decode(bytes: seq<Byte>): seq<Scalar> {
    if bytes == [] then [] else [Front(bytes)] + Decode(bytes[SubpartLength(bytes)..])
  }

  lemma EncodedLead(c: Scalar)
    ensures var b := EncodeScalar(c);
      && |b| == 1 + Trailing(b[0])
      && (|b| == 1 <==> b[0] < 0x80)
      && (|b| > 1 ==> SecondFits(b[0], b[1]))
      && (|b| > 2 ==> Continues(b[2]))
      && (|b| > 3 ==> Continues(b[3]))
  {
  }

  lemma SplitBy64(c: nat)
    ensures c == c / 0x40 * 0x40 + c % 0x40
    ensures c / 0x1000 == c / 0x40 / 0x40 && c / 0x40000 == c / 0x1000 / 0x40
  {
  }

  lemma ValueOfEncoded(c: Scalar)
    ensures Value(EncodeScalar(c)) == c
  {
    SplitBy64(c);
    SplitBy64(c / 0x40);
    SplitBy64(c / 0x1000);
  }

  /** Encodings of RFC 3629, section 7, and an ill-formed surrogate. */
  lemma Samples()
    ensures Encode([0x41, 0x2262, 0x391, 0x2E]) == [0x41, 0xE2, 0x89, 0xA2, 0xCE, 0x91, 0x2E]
    ensures Encode([0x233B4]) == [0xF0, 0xA3, 0x8E, 0xB4]
    ensures Decode([0xED, 0xA0, 0x80]) == [REPLACEMENT, REPLACEMENT, REPLACEMENT]
  {
    assert [0x41, 0x2262, 0x391, 0x2E][1..] == [0x2262, 0x391, 0x2E];
    assert [0x2262, 0x391, 0x2E][1..] == [0x391, 0x2E];
    assert [0x391, 0x2E][1..] == [0x2E];
    var bytes: seq<Byte> := [0xED, 0xA0, 0x80];
    assert bytes[1..] == [0xA0, 0x80] && bytes[1..][1..] == [0x80] && bytes[1..][1..][1..] == [];
  }

  /** Decoding takes exactly one encoded scalar value off the front. */
  lemma DecodeTakesScalar(c: Scalar, rest: seq<Byte>)
    ensures Decode(EncodeScalar(c) + rest) == [c] + Decode(rest)
  {
    var b := EncodeScalar(c);
    var all := b + rest;
    EncodedLead(c);
    ValueOfEncoded(c);
    assert SubpartLength(all) == |b|;
    assert all[..|b|] == b && all[|b|..] == rest;
  }

  /** A proper prefix of an encoded scalar value decodes to one replacement character. */
  lemma {:induction false} DecodeCutScalar(c: Scalar, k: nat)
    requires 0 < k < |EncodeScalar(c)|
    ensures Decode(EncodeScalar(c)[..k]) == [REPLACEMENT]
  {
    var b := EncodeScalar(c)[..k];
    EncodedLead(c);
    assert SubpartLength(b) == k;
    assert b[k..] == [];
  }

  /** Decoding inverts encoding. */
  lemma {:induction false} DecodeInvertsEncode(text: seq<Scalar>)
    ensures Decode(Encode(text)) == text
  {
    if text != [] {
      DecodeTakesScalar(text[0], Encode(text[1..]));
      DecodeInvertsEncode(text[1..]);
    }
  }

  lemma {:induction false} EncodeConcat(a: seq<Scalar>, b: seq<Scalar>)
    ensures Encode(a + b) == Encode(a) + Encode(b)
  {
    if a == [] {
      assert a + b == b;
    } else {
      assert (a + b)[1..] == a[1..] + b;
      EncodeConcat(a[1..], b);
    }
  }
}
