/**
 * Decimal rendering of natural numbers, as JavaScript's `n.toString()` does
 * for a non-negative integer, and `padStart(width, '0')`. The generator
 * builds node ids, labels, port names and IP suffixes with them; the parse
 * functions exist to prove that the renderings are injective.
 */
module Decimal {

  predicate IsDigit(c: char)
  {
    '0' <= c <= '9'
  }

  function DigitChar(d: nat): (c: char)
    requires d < 10
    ensures IsDigit(c)
  {
    ('0' as int + d) as char
  }

  /** The value of a decimal digit; any other character reads as 0. */
  function DigitValue(c: char): (d: nat)
    ensures d < 10
  {
    if IsDigit(c) then (c as int - '0' as int) else 0
  }

  /** `n.toString()` for a non-negative integer: no sign, no leading zero. */
  function NatToString(n: nat): (s: string)
    ensures 1 <= |s|
    ensures forall k :: 0 <= k < |s| ==> IsDigit(s[k])
    ensures (|s| == 1) == (n < 10)
  {
    if n < 10 then [DigitChar(n)] else NatToString(n / 10) + [DigitChar(n % 10)]
  }

  /** The value of a string of decimal digits, most significant first. */
  function ParseDigits(s: string): nat
  {
    if s == [] then 0 else ParseDigits(s[..|s| - 1]) * 10 + DigitValue(s[|s| - 1])
  }

  /** `s.padStart(width, fill)`: `fill` is prepended until the length is `width`. */
  function PadStart(s: string, width: nat, fill: char): string
  {
    if |s| < width then seq(width - |s|, _ => fill) + s else s
  }

  /** `n.toString().padStart(2, '0')`, the two-digit form used in ids and labels. */
  function Pad2(n: nat): string
  {
    PadStart(NatToString(n), 2, '0')
  }

  /** Parsing undoes rendering. */
  lemma {:induction false} ParseNatToString(n: nat)
    ensures ParseDigits(NatToString(n)) == n
  {
    var s := NatToString(n);
    if n < 10 {
      assert s[..0] == [];
    } else {
      ParseNatToString(n / 10);
      assert s[..|s| - 1] == NatToString(n / 10);
    }
  }

  /** A leading zero does not change the value of a digit string. */
  lemma {:induction false} ParseLeadingZero(s: string)
    ensures ParseDigits(['0'] + s) == ParseDigits(s)
    decreases |s|
  {
    var z := ['0'] + s;
    if s == [] {
      assert z[..0] == [];
    } else {
      assert z[..|z| - 1] == ['0'] + s[..|s| - 1];
      ParseLeadingZero(s[..|s| - 1]);
    }
  }

  /** Any number of leading zeros does not change the value of a digit string. */
  lemma {:induction false} ParseLeadingZeros(k: nat, s: string)
    ensures ParseDigits(seq(k, _ => '0') + s) == ParseDigits(s)
  {
    if k > 0 {
      var rest := seq(k - 1, _ => '0') + s;
      assert seq(k, _ => '0') + s == ['0'] + rest;
      ParseLeadingZero(rest);
      ParseLeadingZeros(k - 1, s);
    } else {
      assert seq(k, _ => '0') + s == s;
    }
  }

  /** Parsing undoes the zero-padded rendering too. */
  lemma ParsePad2(n: nat)
    ensures ParseDigits(Pad2(n)) == n
  {
    var s := NatToString(n);
    ParseNatToString(n);
    if |s| < 2 {
      ParseLeadingZeros(2 - |s|, s);
    }
  }

  lemma NatToStringInjective(a: nat, b: nat)
    ensures NatToString(a) == NatToString(b) <==> a == b
  {
    ParseNatToString(a);
    ParseNatToString(b);
  }

  lemma Pad2Injective(a: nat, b: nat)
    ensures Pad2(a) == Pad2(b) <==> a == b
  {
    ParsePad2(a);
    ParsePad2(b);
  }
}
