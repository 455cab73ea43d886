/** Printing an integer with "%d" and scanning it back. */
module Decimals {
  import opened Text

  const MAX_INT := 0x7fff_ffff_ffff_ffff

  predicate IsDigit(c: char) {
    '0' <= c <= '9'
  }

  function Digit(d: nat): char
    requires d < 10
  {
    '0' + d as char
  }

  // Sprintf("%d") of an integer that is not negative.
  function Decimal(n: nat): (s: string)
    ensures s != "" && forall c | c in s :: IsDigit(c)
  {
    if n < 10 then [Digit(n)] else Decimal(n / 10) + [Digit(n % 10)]
  }

  function Value(digits: string): nat
    requires forall c | c in digits :: IsDigit(c)
  {
    if digits == "" then 0
    else
      assert IsDigit(digits[|digits| - 1]);
      10 * Value(digits[..|digits| - 1]) + (digits[|digits| - 1] as int - '0' as int)
  }

  function DigitPrefix(s: string): (p: string)
    ensures p <= s && forall c | c in p :: IsDigit(c)
  {
    if s != "" && IsDigit(s[0]) then [s[0]] + DigitPrefix(s[1..]) else ""
  }

  // Sscanf skips blanks, but stops at a line break.
  function SkipBlanks(s: string): string {
    if s != "" && IsSpace(s[0]) && s[0] != '\n' then SkipBlanks(s[1..]) else s
  }

  // What Sscanf("%d") stores into a variable that held 0: blanks, a sign, digits, and then anything.
  // Without digits, or when the number does not fit, nothing is stored.
  function Scan(s: string): int {
    var t := SkipBlanks(s);
    var signed := t != "" && t[0] in {'+', '-'};
    var digits := DigitPrefix(if signed then t[1..] else t);
    var value := if signed && t[0] == '-' then -(Value(digits) as int) else Value(digits);
    if digits == "" || value > MAX_INT || value < -MAX_INT - 1 then 0 else value
  }

  // Digit after digit, the last one being the units.
  lemma DecimalIsWritten(n: nat, d: nat)
    requires d < 10
    ensures Decimal(d) == ["0123456789"[d]]
    ensures n > 0 ==> Decimal(10 * n + d) == Decimal(n) + ["0123456789"[d]]
  {
  }

  lemma {:induction false} ValueDecimal(n: nat)
    ensures Value(Decimal(n)) == n
  {
    if n < 10 {
      assert Decimal(n)[..0] == "";
    } else {
      ValueDecimal(n / 10);
      assert Decimal(n)[..|Decimal(n)| - 1] == Decimal(n / 10);
    }
  }

  lemma {:induction false} AllDigits(s: string)
    requires forall c | c in s :: IsDigit(c)
    ensures DigitPrefix(s) == s
  {
    if s != "" {
      assert s[0] in s;
      AllDigits(s[1..]);
    }
  }

  lemma ScanDecimal(n: nat)
    requires n <= MAX_INT
    ensures Scan(Decimal(n)) == n
  {
    var s := Decimal(n);
    assert s[0] in s;
    assert SkipBlanks(s) == s;
    AllDigits(s);
    ValueDecimal(n);
  }

  lemma DecimalIsInjective(a: nat, b: nat)
    requires Decimal(a) == Decimal(b)
    ensures a == b
  {
    ValueDecimal(a);
    ValueDecimal(b);
  }
}
