/**
 * Base-16 formatting as Rust prints an unsigned integer with the `x` and `X` format
 * specifiers and their zero-padded forms `03x` and `04X`, with the parser that undoes it.
 */
module Hex {

  /** The digit for 0 <= d < 16, in lower or upper case. */
  function Digit(d: nat, upper: bool): (c: char)
    requires d < 16
    ensures IsDigit(c, upper) && DigitValue(c) == d
  {
    if d < 10 then (48 + d) as char
    else if upper then (55 + d) as char
    else (87 + d) as char
  }

  /** `c` is one of 0-9 or, depending on the case, a-f or A-F. */
  predicate IsDigit(c: char, upper: bool)
  {
    ('0' <= c <= '9') || (if upper then 'A' <= c <= 'F' else 'a' <= c <= 'f')
  }

  function DigitValue(c: char): nat
  {
    if '0' <= c <= '9' then c as nat - 48
    else if 'A' <= c <= 'F' then c as nat - 55
    else if 'a' <= c <= 'f' then c as nat - 87
    else 0
  }

  predicate AllDigits(s: string, upper: bool)
  {
    forall i :: 0 <= i < |s| ==> IsDigit(s[i], upper)
  }

  /** The number a string of base-16 digits denotes, most significant first. */
  function Parse(s: string): nat
  {
    if s == [] then 0 else Parse(s[..|s| - 1]) * 16 + DigitValue(s[|s| - 1])
  }

  function Pow16(k: nat): (p: nat)
    ensures p >= 1
  {
    if k == 0 then 1 else 16 * Pow16(k - 1)
  }

  /** Format specifier `x` (or `X`): the digits of n without leading zeros; "0" for zero. */
  function Format(n: nat, upper: bool): (s: string)
    ensures 1 <= |s|
    decreases n
  {
    if n < 16 then [Digit(n, upper)] else Format(n / 16, upper) + [Digit(n % 16, upper)]
  }

  /** Zero-padded to at least `width` digits, as the specifiers `03x` and `04X` print. */
  function Padded(n: nat, width: nat, upper: bool): (s: string)
    ensures |s| >= width && |s| >= |Format(n, upper)|
    ensures forall i :: 0 <= i < |s| - |Format(n, upper)| ==> s[i] == '0'
  {
    var s := Format(n, upper);
    if |s| < width then seq(width - |s|, _ => '0') + s else s
  }

  /** Formatting prints digits only, and the first is '0' only for zero. */
  lemma {:induction false} FormatDigits(n: nat, upper: bool)
    ensures AllDigits(Format(n, upper), upper)
    ensures Format(n, upper)[0] == '0' <==> n == 0
    decreases n
  {
    if n >= 16 {
      FormatDigits(n / 16, upper);
    }
  }

  /** Parsing undoes formatting. */
  lemma {:induction false} ParseFormat(n: nat, upper: bool)
    ensures Parse(Format(n, upper)) == n
    decreases n
  {
    if n >= 16 {
      var s := Format(n, upper);
      assert s[..|s| - 1] == Format(n / 16, upper);
      ParseFormat(n / 16, upper);
    }
  }

  /** A number below 16^k takes at most k digits. */
  lemma {:induction false} FormatLength(n: nat, k: nat, upper: bool)
    requires 1 <= k && n < Pow16(k)
    ensures |Format(n, upper)| <= k
    decreases n
  {
    if n >= 16 {
      FormatLength(n / 16, k - 1, upper);
    }
  }

  /** Leading zeros do not change the parsed value. */
  lemma {:induction false} ParseLeadingZeros(z: nat, s: string)
    ensures Parse(seq(z, _ => '0') + s) == Parse(s)
    decreases |s|
  {
    var t := seq(z, _ => '0') + s;
    if s == [] {
      assert t == seq(z, _ => '0');
      ParseZeros(z);
    } else {
      assert t[..|t| - 1] == seq(z, _ => '0') + s[..|s| - 1];
      ParseLeadingZeros(z, s[..|s| - 1]);
    }
  }

  lemma {:induction false} ParseZeros(z: nat)
    ensures Parse(seq(z, _ => '0')) == 0
  {
    if z > 0 {
      assert seq(z, _ => '0')[..z - 1] == seq(z - 1, _ => '0');
      ParseZeros(z - 1);
    }
  }

  /** Zero padding keeps the digits and the value, and reaches the width. */
  lemma PaddedValue(n: nat, width: nat, upper: bool)
    ensures var s := Padded(n, width, upper);
      && |s| == (if |Format(n, upper)| < width then width else |Format(n, upper)|)
      && AllDigits(s, upper)
      && Parse(s) == n
  {
    var f := Format(n, upper);
    FormatDigits(n, upper);
    ParseFormat(n, upper);
    if |f| < width {
      ParseLeadingZeros(width - |f|, f);
    }
  }
}
