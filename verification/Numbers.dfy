/** Decimal numbers as printf() prints them and strtol() and its relatives parse them. */
module Numbers {
  const TWO_32: int := 0x1_0000_0000
  const TWO_63: int := 0x8000_0000_0000_0000
  const TWO_64: int := 0x1_0000_0000_0000_0000

  predicate IsDigit(c: char) {
    '0' <= c <= '9'
  }

  function DigitChar(d: nat): (c: char)
    requires d < 10
    ensures IsDigit(c) && DigitValue(c) == d
  {
    '0' + d as char
  }

  function DigitValue(c: char): nat
    requires IsDigit(c)
  {
    c as nat - '0' as nat
  }

  /** "%lu" */
  function PrintNat(n: nat): (s: string)
    ensures s != "" && forall c <- s :: IsDigit(c)
  {
    if n < 10 then [DigitChar(n)] else PrintNat(n / 10) + [DigitChar(n % 10)]
  }

  /** "%li" */
  function PrintInt(n: int): string {
    if n < 0 then "-" + PrintNat(-n) else PrintNat(n)
  }

  /** The number of digits a string begins with. */
  function DigitCount(s: string): (n: nat)
    ensures n <= |s| && (forall i :: 0 <= i < n ==> IsDigit(s[i])) && (n < |s| ==> !IsDigit(s[n]))
  {
    if s == "" || !IsDigit(s[0]) then 0 else 1 + DigitCount(s[1..])
  }

  function Value(digits: string): nat
    requires forall c <- digits :: IsDigit(c)
  {
    if digits == "" then 0 else 10 * Value(digits[..|digits| - 1]) + DigitValue(digits[|digits| - 1])
  }

  /** isspace() in the C locale. */
  predicate IsSpace(c: char) {
    c == ' ' || '\t' <= c <= '\r'
  }

  function SkipSpace(s: string): string {
    if s != "" && IsSpace(s[0]) then SkipSpace(s[1..]) else s
  }

  /** Sign and digits; what follows them is the second result, all of the string if there are no digits. */
  function ParseSigned(s: string): (int, string) {
    var t := SkipSpace(s);
    var negative := t != "" && t[0] == '-';
    var u := if negative || (t != "" && t[0] == '+') then t[1..] else t;
    var n := DigitCount(u);
    if n == 0 then (0, s) else
      assert forall c <- u[..n] :: IsDigit(c);
      var value: int := Value(u[..n]);
      (if negative then -value else value, u[n..])
  }

  /** strtol(): too large numbers saturate. */
  function ParseLong(s: string): int {
    var n := ParseSigned(s).0;
    if n < -TWO_63 then -TWO_63 else if n >= TWO_63 then TWO_63 - 1 else n
  }

  /** strtoul(): too large numbers saturate, a minus sign negates modulo 2^64. */
  function ParseULong(s: string): (int, string) {
    var (n, rest) := ParseSigned(s);
    (if n >= TWO_64 || n <= -TWO_64 then TWO_64 - 1 else n % TWO_64, rest)
  }

  /** Conversion to a 32-bit int. */
  function ToInt32(n: int): int {
    var r := n % TWO_32;
    if r < TWO_32 / 2 then r else r - TWO_32
  }

  /** Conversion to a 64-bit time_t. */
  function ToInt64(n: int): int {
    var r := n % TWO_64;
    if r < TWO_63 then r else r - TWO_64
  }

  /** atoi() */
  function ParseInt(s: string): int {
    ToInt32(ParseLong(s))
  }

  lemma {:induction false} ValueOfPrint(n: nat)
    ensures Value(PrintNat(n)) == n
  {
    if n >= 10 {
      ValueOfPrint(n / 10);
      var s := PrintNat(n);
      assert s[..|s| - 1] == PrintNat(n / 10) && s[|s| - 1] == DigitChar(n % 10);
    } else {
      assert PrintNat(n)[..0] == "";
    }
  }

  lemma {:induction false} DigitsEnd(s: string, rest: string)
    requires (forall c <- s :: IsDigit(c)) && (rest == "" || !IsDigit(rest[0]))
    ensures DigitCount(s + rest) == |s|
  {
    if s == "" {
      assert s + rest == rest;
    } else {
      assert s[0] in s;
      DigitsEnd(s[1..], rest);
      assert (s + rest)[1..] == s[1..] + rest;
    }
  }

  /** A printed number is parsed back, up to the first character that is no digit. */
  lemma ParseOfPrintNat(n: nat, rest: string)
    requires rest == "" || !IsDigit(rest[0])
    ensures ParseSigned(PrintNat(n) + rest) == (n, rest)
  {
    var s := PrintNat(n);
    var t := s + rest;
    DigitsEnd(s, rest);
    ValueOfPrint(n);
    assert t[0] == s[0] && s[0] in s;
    assert SkipSpace(t) == t;
    assert t[..|s|] == s && t[|s|..] == rest;
  }

  lemma ParseOfPrintInt(n: int)
    ensures ParseSigned(PrintInt(n)) == (n, "")
  {
    if n < 0 {
      var s := PrintNat(-n);
      DigitsEnd(s, "");
      ValueOfPrint(-n);
      assert s + "" == s && s[..|s|] == s && s[|s|..] == "";
      var t := "-" + s;
      assert t[1..] == s && SkipSpace(t) == t;
    } else {
      ParseOfPrintNat(n, "");
      assert PrintNat(n) + "" == PrintNat(n);
    }
  }
}
