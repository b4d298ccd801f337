/**
 * Decimal rendering of integers, as Rust's `Display` for integers writes it
 * (`to_string()`, `format!("{}", n)`): no leading zeros, a leading '-' for
 * negative values. `ParseNat` is its inverse and is what the round-trip lemmas
 * of the label and change-text formatters are stated with.
 */
module Decimal {

  predicate IsDigit(c: char) {
    '0' <= c <= '9'
  }

  predicate AllDigits(s: string) {
    forall k :: 0 <= k < |s| ==> IsDigit(s[k])
  }

  function DigitChar(d: nat): (c: char)
    requires d < 10
    ensures IsDigit(c)
  {
    ['0', '1', '2', '3', '4', '5', '6', '7', '8', '9'][d]
  }

  function DigitValue(c: char): (d: nat)
    requires IsDigit(c)
    ensures d < 10 && DigitChar(d) == c
  {
    (c as int - '0' as int) as nat
  }

  /** `n.to_string()` for an unsigned integer. */
  function NatToString(n: nat): (s: string)
    ensures |s| >= 1 && AllDigits(s)
    ensures |s| > 1 ==> s[0] != '0'
    ensures n < 10 <==> |s| == 1
    decreases n
  {
    if n < 10 then [DigitChar(n)] else NatToString(n / 10) + [DigitChar(n % 10)]
  }

  /** `i.to_string()` for a signed integer. */
  function IntToString(i: int): (s: string)
    ensures |s| >= 1
    ensures s[0] == '-' <==> i < 0
  {
    if i < 0 then "-" + NatToString(-i) else NatToString(i)
  }

  /** The value of a non-empty digit string. */
  function ParseNat(s: string): nat
    requires |s| >= 1 && AllDigits(s)
    decreases |s|
  {
    if |s| == 1 then DigitValue(s[0])
    else ParseNat(s[..|s| - 1]) * 10 + DigitValue(s[|s| - 1])
  }

  /** Parsing what NatToString printed gives the number back. */
  lemma {:induction false} ParseNatToString(n: nat)
    ensures ParseNat(NatToString(n)) == n
    decreases n
  {
    if n >= 10 {
      var s := NatToString(n);
      assert s[..|s| - 1] == NatToString(n / 10);
      ParseNatToString(n / 10);
    }
  }

  /** NatToString is injective: distinct numbers print differently. */
  lemma NatToStringInjective(m: nat, n: nat)
    requires NatToString(m) == NatToString(n)
    ensures m == n
  {
    ParseNatToString(m);
    ParseNatToString(n);
  }

  /** The value of a signed decimal written as "+N", "-N" or "N". */
  function ParseSigned(s: string): int
    requires |s| >= 1
    requires (s[0] == '+' || s[0] == '-') ==> |s| >= 2 && AllDigits(s[1..])
    requires s[0] != '+' && s[0] != '-' ==> AllDigits(s)
  {
    if s[0] == '+' then ParseNat(s[1..])
    else if s[0] == '-' then 0 - ParseNat(s[1..]) as int
    else ParseNat(s)
  }

  /** `n` zero-padded on the left to at least `width` characters (`{:0w}`). */
  function PadNat(n: nat, width: nat): (s: string)
    ensures |s| >= width && AllDigits(s)
    ensures |NatToString(n)| <= width ==> |s| == width
  {
    var d := NatToString(n);
    if |d| >= width then d else seq(width - |d|, _ => '0') + d
  }
}
