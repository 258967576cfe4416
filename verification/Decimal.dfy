/** Decimal numerals, as template literals print them. */
module Decimal {
  /** The number a numeral stands for, read from left to right. */
  function Read(s: string): int {
    if s == "" then 0 else 10 * Read(s[..|s| - 1]) + (s[|s| - 1] as int - '0' as int)
  }

  /** The numeral of `n`: digits that read as `n`, the first of them no zero unless it is the only one. */
  function Digits(n: nat): (s: string)
    ensures |s| >= 1 && forall i :: 0 <= i < |s| ==> '0' <= s[i] <= '9'
    ensures Read(s) == n
    ensures s[0] == '0' ==> s == "0"
  {
    var d := ['0' + (n % 10) as char];
    if n < 10 then d
    else
      var front := Digits(n / 10);
      assert (front + d)[..|front|] == front;
      front + d
  }

  lemma {:induction false} ReadIsPositive(s: string)
    requires s != "" && forall i :: 0 <= i < |s| ==> '0' <= s[i] <= '9'
    ensures Read(s) >= 0
    ensures s[0] != '0' ==> Read(s) > 0
    decreases |s|
  {
    if |s| > 1 {
      ReadIsPositive(s[..|s| - 1]);
    }
  }

  /** Numerals without leading zeros are determined by the number they stand for. */
  lemma {:induction false} NumeralIsUnique(s: string, n: nat)
    requires s != "" && forall i :: 0 <= i < |s| ==> '0' <= s[i] <= '9'
    requires s[0] == '0' ==> s == "0"
    requires Read(s) == n
    ensures s == Digits(n)
    decreases |s|
  {
    if |s| == 1 {
      assert Read(s[..0]) == 0;
      assert s[0] == '0' + (n % 10) as char;
    } else {
      var front := s[..|s| - 1];
      ReadIsPositive(front);
      assert n / 10 == Read(front) && n % 10 == s[|s| - 1] as int - '0' as int;
      NumeralIsUnique(front, n / 10);
      assert s == front + [s[|s| - 1]];
    }
  }

  /** One more digit. */
  lemma DigitsSnoc(n: nat, d: nat)
    requires n >= 1 && d < 10
    ensures Digits(10 * n + d) == Digits(n) + ['0' + d as char]
  {
    assert (10 * n + d) / 10 == n && (10 * n + d) % 10 == d;
  }
}
