/** `truncate`: tool output is cut at 64 KiB of UTF-8, in the middle of a character if need be. */
module Truncation {
  import Decimal
  import opened Utf8

  const MAX_OUTPUT_BYTES := 64 * 1024

  function Codes(s: string): seq<Scalar>
    requires forall i :: 0 <= i < |s| ==> s[i] < 128 as char
  {
    seq(|s|, i requires 0 <= i < |s| => s[i] as int)
  }

  function Marker(cap: nat): seq<Scalar> {
    Codes("\n[output truncated at ") + Codes(Decimal.Digits(cap)) + Codes(" bytes]")
  }

  function Truncate(text: seq<Scalar>, cap: nat): seq<Scalar> {
    if |Encode(text)| <= cap then text
    else Decode(Encode(text)[..cap]) + Marker(cap)
  }

  /** `k` is the length of the longest prefix whose encoding fits in `cap` bytes. */
  ghost predicate LongestFit(text: seq<Scalar>, cap: nat, k: nat) {
    && k <= |text|
    && |Encode(text[..k])| <= cap
    && forall m :: k < m <= |text| ==> |Encode(text[..m])| > cap
  }

  /** The cut at `cap` bytes falls inside a character. */
  predicate Splits(text: seq<Scalar>, cap: nat, k: nat)
    requires k <= |text|
  {
    |Encode(text[..k])| < cap
  }

  lemma {:induction false} PrefixIsShorter(text: seq<Scalar>, k: nat, m: nat)
    requires k < m <= |text|
    ensures |Encode(text[..k])| < |Encode(text[..m])|
  {
    assert text[..m] == text[..k] + text[k..m];
    EncodeConcat(text[..k], text[k..m]);
    assert |Encode(text[k..m])| >= |EncodeScalar(text[k..m][0])|;
  }

  lemma PrefixCons(text: seq<Scalar>, m: nat)
    requires m < |text|
    ensures text[..m + 1] == [text[0]] + text[1..][..m]
    ensures Encode(text[..m + 1]) == EncodeScalar(text[0]) + Encode(text[1..][..m])
  {
    assert text[..m + 1][1..] == text[1..][..m];
  }

  /** `k` characters come before a cut at `cap` bytes, and the next one, if any, is not whole. */
  predicate CutsAt(text: seq<Scalar>, cap: nat, k: nat) {
    && k <= |text| && |Encode(text[..k])| <= cap
    && (k < |text| ==> |Encode(text[..k + 1])| > cap)
  }

  /** What is left of the text after the cut. */
  function Remains(text: seq<Scalar>, cap: nat, k: nat): seq<Scalar>
    requires k <= |text|
  {
    text[..k] + if Splits(text, cap, k) then [REPLACEMENT] else []
  }

  lemma CutInFirst(text: seq<Scalar>, cap: nat)
    requires text != [] && cap < |EncodeScalar(text[0])|
    ensures CutsAt(text, cap, 0) && Decode(Encode(text)[..cap]) == Remains(text, cap, 0)
  {
    CutsFirst(text, cap);
    assert Encode(text)[..cap] == EncodeScalar(text[0])[..cap];
    assert text[..0] == [];
    if cap > 0 {
      DecodeCutScalar(text[0], cap);
    } else {
      assert Encode(text)[..0] == [];
    }
  }

  lemma CutsFirst(text: seq<Scalar>, cap: nat)
    requires text != [] && cap < |EncodeScalar(text[0])|
    ensures CutsAt(text, cap, 0) && (Splits(text, cap, 0) <==> cap > 0)
  {
    assert Encode(text[..0]) == [];
    PrefixCons(text, 0);
  }

  lemma CutsAtCons(text: seq<Scalar>, cap: nat, m: nat)
    requires text != [] && |EncodeScalar(text[0])| <= cap
    requires CutsAt(text[1..], cap - |EncodeScalar(text[0])|, m)
    ensures CutsAt(text, cap, m + 1)
  {
    PrefixCons(text, m);
    if m + 1 < |text| {
      PrefixCons(text, m + 1);
    }
  }

  lemma TakePast<T>(a: seq<T>, b: seq<T>, n: nat)
    requires |a| <= n <= |a + b|
    ensures (a + b)[..n] == a + b[..n - |a|]
  {
  }

  lemma DecodeCutCons(text: seq<Scalar>, cap: nat)
    requires text != [] && |EncodeScalar(text[0])| <= cap <= |Encode(text)|
    ensures cap - |EncodeScalar(text[0])| <= |Encode(text[1..])|
    ensures Decode(Encode(text)[..cap]) == [text[0]] + Decode(Encode(text[1..])[..cap - |EncodeScalar(text[0])|])
  {
    var first, rest := EncodeScalar(text[0]), Encode(text[1..]);
    assert Encode(text) == first + rest;
    TakePast(first, rest, cap);
    DecodeTakesScalar(text[0], rest[..cap - |first|]);
  }

  lemma RemainsCons(text: seq<Scalar>, cap: nat, m: nat)
    requires m < |text| && |EncodeScalar(text[0])| <= cap
    ensures Remains(text, cap, m + 1) == [text[0]] + Remains(text[1..], cap - |EncodeScalar(text[0])|, m)
  {
    PrefixCons(text, m);
  }

  /** Cutting the encoding at `cap` bytes and decoding leaves the whole characters, and U+FFFD if the cut splits one. */
  lemma {:induction false} DecodeCut(text: seq<Scalar>, cap: nat) returns (k: nat)
    requires cap <= |Encode(text)|
    ensures CutsAt(text, cap, k) && Decode(Encode(text)[..cap]) == Remains(text, cap, k)
  {
    if text == [] {
      k := 0;
    } else if cap < |EncodeScalar(text[0])| {
      k := 0;
      CutInFirst(text, cap);
    } else {
      var m := DecodeCut(text[1..], cap - |EncodeScalar(text[0])|);
      k := m + 1;
      DecodeCutCons(text, cap);
      CutsAtCons(text, cap, m);
      RemainsCons(text, cap, m);
    }
  }

  /**
   Text that fits is left alone. Text that does not becomes its longest prefix of whole characters that fits, one
   U+FFFD exactly when the cut splits a character, and the marker.
   */
  lemma TruncateKeepsLongestPrefix(text: seq<Scalar>, cap: nat) returns (k: nat)
    ensures LongestFit(text, cap, k)
    ensures k == |text| <==> |Encode(text)| <= cap
    ensures Truncate(text, cap) ==
      if k == |text| then text
      else text[..k] + (if Splits(text, cap, k) then [REPLACEMENT] else []) + Marker(cap)
  {
    assert text[..|text|] == text;
    if |Encode(text)| <= cap {
      k := |text|;
    } else {
      k := DecodeCut(text, cap);
      forall m | k < m <= |text| ensures |Encode(text[..m])| > cap {
        if k + 1 < m {
          PrefixIsShorter(text, k + 1, m);
        }
      }
    }
  }

  lemma {:induction false} AsciiLength(text: seq<Scalar>)
    requires forall i :: 0 <= i < |text| ==> text[i] < 0x80
    ensures |Encode(text)| == |text|
  {
    if text != [] {
      AsciiLength(text[1..]);
    }
  }

  /** The marker takes one byte a character. */
  lemma MarkerLength(cap: nat)
    ensures |Encode(Marker(cap))| == 29 + |Decimal.Digits(cap)|
  {
    AsciiLength(Marker(cap));
  }

  /** The result is at most two bytes over the cap, and the marker. */
  lemma TruncatedSize(text: seq<Scalar>, cap: nat)
    ensures |Encode(Truncate(text, cap))| <= cap + 2 + |Encode(Marker(cap))|
  {
    if |Encode(text)| > cap {
      var k := TruncateKeepsLongestPrefix(text, cap);
      var tail := if Splits(text, cap, k) then [REPLACEMENT] else [];
      EncodeConcat(text[..k] + tail, Marker(cap));
      EncodeConcat(text[..k], tail);
      assert Encode([REPLACEMENT][1..]) == [];
    }
  }

  const TOOL_OUTPUT_MARKER := "\n[output truncated at 65536 bytes]"

  lemma CapDigits()
    ensures Decimal.Digits(MAX_OUTPUT_BYTES) == "65536"
  {
    assert Decimal.Digits(6) == "6";
    Decimal.DigitsSnoc(6, 5);
    Decimal.DigitsSnoc(65, 5);
    Decimal.DigitsSnoc(655, 3);
    Decimal.DigitsSnoc(6553, 6);
  }

  /** The marker of tool output, character by character. */
  lemma MarkerOfCap()
    ensures |Marker(MAX_OUTPUT_BYTES)| == |TOOL_OUTPUT_MARKER| == 34
    ensures forall i :: 0 <= i < 34 ==> Marker(MAX_OUTPUT_BYTES)[i] == TOOL_OUTPUT_MARKER[i] as int
  {
    CapDigits();
    var a, b, c := "\n[output truncated at ", "65536", " bytes]";
    assert TOOL_OUTPUT_MARKER == a + b + c;
  }

  /** Tool output that is too long ends in the literal marker, behind its longest fitting prefix and any U+FFFD. */
  lemma LongOutputEndsInMarker(text: seq<Scalar>) returns (k: nat)
    requires |Encode(text)| > MAX_OUTPUT_BYTES
    ensures LongestFit(text, MAX_OUTPUT_BYTES, k)
    ensures var r := Truncate(text, MAX_OUTPUT_BYTES);
      var n := k + if |Encode(text[..k])| < MAX_OUTPUT_BYTES then 1 else 0;
      && |r| == n + |TOOL_OUTPUT_MARKER|
      && r[..k] == text[..k]
      && (n > k ==> r[k] == 0xFFFD)
      && forall i :: 0 <= i < |TOOL_OUTPUT_MARKER| ==> r[n + i] == TOOL_OUTPUT_MARKER[i] as int
  {
    k := TruncateKeepsLongestPrefix(text, MAX_OUTPUT_BYTES);
    MarkerOfCap();
  }

  /** For tool output: at most 65538 bytes and a marker of 34. */
  lemma ToolOutputSize(text: seq<Scalar>)
    ensures |Encode(Marker(MAX_OUTPUT_BYTES))| == 34
    ensures |Encode(Truncate(text, MAX_OUTPUT_BYTES))| <= MAX_OUTPUT_BYTES + 36
  {
    CapDigits();
    MarkerLength(MAX_OUTPUT_BYTES);
    TruncatedSize(text, MAX_OUTPUT_BYTES);
  }
}
