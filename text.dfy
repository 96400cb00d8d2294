/** Character-level helpers behind the generated codes: decimal digits, zero padding,
    upper-casing of hexadecimal text and money rendering. */
module Text {

  predicate IsDigit(c: char) {
    '0' <= c <= '9'
  }

  predicate AllDigits(s: string) {
    forall i :: 0 <= i < |s| ==> IsDigit(s[i])
  }

  function DigitChar(k: nat): (c: char)
    requires k < 10
    ensures IsDigit(c)
    ensures DigitValue(c) == k
  {
    (48 + k) as char
  }

  function DigitValue(c: char): (k: nat)
    requires IsDigit(c)
    ensures k < 10
    ensures (48 + k) as char == c
  {
    c as int - 48
  }

  /** Python's str() of a natural number: its decimal digits without leading zeros. */
  function Decimal(n: nat): (s: string)
    ensures 1 <= |s|
    ensures AllDigits(s)
    ensures |s| > 1 ==> s[0] != '0'
    decreases n
  {
    if n < 10 then [DigitChar(n)] else Decimal(n / 10) + [DigitChar(n % 10)]
  }

  /** The number a string of decimal digits denotes. */
  function DecimalValue(s: string): (n: nat)
    requires AllDigits(s)
  {
    if s == [] then 0 else DecimalValue(s[..|s| - 1]) * 10 + DigitValue(s[|s| - 1])
  }

  lemma {:induction false} DecimalThenValue(n: nat)
    ensures DecimalValue(Decimal(n)) == n
  {
    if n >= 10 {
      var s := Decimal(n);
      assert s[..|s| - 1] == Decimal(n / 10);
      DecimalThenValue(n / 10);
    }
  }

  /** Decimal is also onto the canonical digit strings: rendering a parsed string gives it back. */
  lemma {:induction false} ValueThenDecimal(s: string)
    requires 1 <= |s| && AllDigits(s)
    requires |s| > 1 ==> s[0] != '0'
    ensures Decimal(DecimalValue(s)) == s
    decreases |s|
  {
    var n := DecimalValue(s);
    if |s| == 1 {
      assert s[..0] == [];
    } else {
      var p := s[..|s| - 1];
      assert p[0] == s[0];
      ValueThenDecimal(p);
      LeadingDigitBound(p);
      assert n / 10 == DecimalValue(p) && n % 10 == DigitValue(s[|s| - 1]);
      assert s == p + [s[|s| - 1]];
    }
  }

  /** A canonical string of two or more digits denotes at least 10. */
  lemma {:induction false} LeadingDigitBound(s: string)
    requires 1 <= |s| && AllDigits(s)
    requires |s| > 1 ==> s[0] != '0'
    ensures |s| > 1 ==> DecimalValue(s) >= 10
    ensures DecimalValue(s) >= DigitValue(s[0])
    decreases |s|
  {
    if |s| > 1 {
      var p := s[..|s| - 1];
      assert p[0] == s[0];
      LeadingDigitBound(p);
      if |p| == 1 {
        assert p[..0] == [];
      }
    }
  }

  /** strftime's zero-padded two-digit field (%y, %m, %d). */
  function TwoDigits(n: nat): (s: string)
    requires n < 100
    ensures |s| == 2 && AllDigits(s)
    ensures DecimalValue(s) == n
  {
    var s := [DigitChar(n / 10), DigitChar(n % 10)];
    assert s[..1][..0] == [];
    assert DecimalValue(s[..1]) == n / 10;
    s
  }

  predicate IsLowerHex(c: char) {
    '0' <= c <= '9' || 'a' <= c <= 'f'
  }

  predicate IsUpperHex(c: char) {
    '0' <= c <= '9' || 'A' <= c <= 'F'
  }

  predicate AllUpperHex(s: string) {
    forall i :: 0 <= i < |s| ==> IsUpperHex(s[i])
  }

  /** uuid4().hex: 32 lower-case hexadecimal characters. */
  predicate IsUuidHex(u: string) {
    |u| == 32 && forall i :: 0 <= i < |u| ==> IsLowerHex(u[i])
  }

  /** str.upper() on one ASCII character. */
  function UpperChar(c: char): (r: char)
    ensures IsLowerHex(c) ==> IsUpperHex(r)
    ensures !('a' <= c <= 'z') ==> r == c
  {
    if 'a' <= c <= 'z' then (c as int - 32) as char else c
  }

  /** u[:n].upper() for a hex string u of at least n characters. */
  function UpperPrefix(u: string, n: nat): (s: string)
    requires n <= |u|
    ensures |s| == n
    ensures forall i :: 0 <= i < n ==> s[i] == UpperChar(u[i])
    ensures IsUuidHex(u) ==> AllUpperHex(s)
  {
    seq(n, i requires 0 <= i < n => UpperChar(u[i]))
  }

  /** A Decimal amount with two fraction digits, as f"{amount}" prints it, from integer cents. */
  function MoneyText(cents: int): (s: string)
    ensures 4 <= |s|
    ensures s[|s| - 3] == '.'
  {
    var m := if cents < 0 then -cents else cents;
    var body := Decimal(m / 100) + "." + TwoDigits(m % 100);
    if cents < 0 then "-" + body else body
  }
}
