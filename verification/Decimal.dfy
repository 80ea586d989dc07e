/**
 Printing 32-bit numbers in decimal, plain or padded with zeros, and reading them
 back, as the standard library of Rust does.
 */
module Decimal {
  import opened Prelude

  predicate IsDigit(c: char) {
    '0' <= c <= '9'
  }

  function DigitOf(n: nat): (c: char)
    requires n < 10
    ensures IsDigit(c) && ValueOf(c) == n
  {
    '0' + n as char
  }

  function ValueOf(c: char): nat
    requires IsDigit(c)
  {
    c as int - '0' as int
  }

  predicate AllDigits(s: string) {
    forall i :: 0 <= i < |s| ==> IsDigit(s[i])
  }

  function Print(n: nat): (s: string)
    ensures s != [] && AllDigits(s)
  {
    if n < 10 then [DigitOf(n)] else Print(n / 10) + [DigitOf(n % 10)]
  }

  /** The number the digits denote; leading zeros do not matter. */
  function Value(s: string): nat
    requires AllDigits(s)
  {
    if s == [] then 0 else 10 * Value(s[..|s| - 1]) + ValueOf(s[|s| - 1])
  }

  /** An optional plus sign, at least one digit, nothing else, and no overflow. */
  function ParseU32(s: string): Option<u32> {
    var digits := if s != [] && s[0] == '+' then s[1..] else s;
    if digits == [] || !AllDigits(digits) || Value(digits) >= U32_LIMIT then None else Some(Value(digits))
  }

  lemma {:induction false} ValuePrint(n: nat)
    ensures Value(Print(n)) == n
  {
    var s := Print(n);
    if n >= 10 {
      ValuePrint(n / 10);
      assert s[..|s| - 1] == Print(n / 10);
    } else {
      assert s[..|s| - 1] == [];
    }
  }

  /** Printing a 32-bit number and parsing it gives the number. */
  lemma PrintParse(n: u32)
    ensures ParseU32(Print(n)) == Some(n)
  {
    ValuePrint(n);
    assert Print(n)[0] != '+';
  }

  /** An explicit plus sign is read as well; a number that does not fit is not. */
  lemma PlusAndOverflow(n: nat)
    ensures ParseU32("+" + Print(n)) == ParseU32(Print(n)) == if n < U32_LIMIT then Some(n) else None
  {
    ValuePrint(n);
    assert Print(n)[0] != '+';
    assert ("+" + Print(n))[1..] == Print(n);
  }

  /** Zero-padded to `width` characters at least. */
  function Padded(n: nat, width: nat): (s: string)
    ensures AllDigits(s)
  {
    Zeros(Missing(n, width)) + Print(n)
  }

  function Missing(n: nat, width: nat): nat {
    if |Print(n)| < width then width - |Print(n)| else 0
  }

  function Zeros(count: nat): (s: string)
    ensures AllDigits(s) && |s| == count
  {
    if count == 0 then [] else Zeros(count - 1) + ['0']
  }

  lemma {:induction false} ValueConcat(zeros: string, s: string)
    requires AllDigits(zeros) && AllDigits(s) && Value(zeros) == 0
    ensures Value(zeros + s) == Value(s)
  {
    if s == [] {
      assert zeros + s == zeros;
    } else {
      assert (zeros + s)[..|zeros + s| - 1] == zeros + s[..|s| - 1];
      ValueConcat(zeros, s[..|s| - 1]);
    }
  }

  lemma {:induction false} ValueZeros(count: nat)
    ensures Value(Zeros(count)) == 0
  {
    if count > 0 {
      ValueZeros(count - 1);
    }
  }

  /** Padding keeps numbers apart, also those that outgrow the width. */
  lemma PaddedInjective(a: nat, b: nat, width: nat)
    ensures Padded(a, width) == Padded(b, width) <==> a == b
  {
    ValuePadded(a, width);
    ValuePadded(b, width);
  }

  lemma ValuePadded(n: nat, width: nat)
    ensures Value(Padded(n, width)) == n
  {
    ValueZeros(Missing(n, width));
    ValueConcat(Zeros(Missing(n, width)), Print(n));
    ValuePrint(n);
  }
}
