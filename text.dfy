/** Characters and digit strings, as the tracker's parsers see them. */
module Text {

  predicate IsDigit(c: char) {
    '0' <= c <= '9'
  }

  function DigitValue(c: char): (n: nat)
    requires IsDigit(c)
    ensures n <= 9
  {
    c as int - '0' as int
  }

  function DigitChar(n: nat): (c: char)
    requires n <= 9
    ensures IsDigit(c) && DigitValue(c) == n
  {
    (n + '0' as int) as char
  }

  lemma DigitCharOfValue(c: char)
    requires IsDigit(c)
    ensures DigitChar(DigitValue(c)) == c
  {
  }

  predicate AllDigits(s: string) {
    forall i :: 0 <= i < |s| ==> IsDigit(s[i])
  }

  /** The number a string of decimal digits denotes (the empty string denotes 0). */
  function DigitsValue(s: string): (n: nat)
    requires AllDigits(s)
    decreases |s|
  {
    if s == [] then 0 else DigitsValue(s[..|s| - 1]) * 10 + DigitValue(s[|s| - 1])
  }

  /** x / 10^k, taken one decimal place at a time. */
  function Shift(x: real, k: nat): (r: real)
    ensures x >= 0.0 ==> 0.0 <= r <= x
  {
    if k == 0 then x else Shift(x, k - 1) / 10.0
  }

  /** The shortest decimal rendering of a natural number. */
  function NatText(n: nat): (s: string)
    ensures |s| >= 1 && AllDigits(s)
    ensures DigitsValue(s) == n
    decreases n
  {
    if n < 10 then [DigitChar(n)]
    else
      var s := NatText(n / 10) + [DigitChar(n % 10)];
      assert s[..|s| - 1] == NatText(n / 10);
      s
  }

  /** A number below 100 as exactly two digits, zero-padded. */
  function Pad2(n: nat): (s: string)
    requires n < 100
    ensures |s| == 2 && IsDigit(s[0]) && IsDigit(s[1])
    ensures DigitValue(s[0]) * 10 + DigitValue(s[1]) == n
  {
    [DigitChar(n / 10), DigitChar(n % 10)]
  }

  /** Read as a digit string, the padded text denotes the number again. */
  lemma Pad2Digits(n: nat)
    requires n < 100
    ensures AllDigits(Pad2(n)) && DigitsValue(Pad2(n)) == n
  {
    var s := Pad2(n);
    assert s[..1] == [s[0]] && s[..1][..0] == [];
    assert DigitsValue(s[..1]) == DigitValue(s[0]);
  }

  /** Python's str.upper restricted to ASCII letters. */
  function UpperChar(c: char): (u: char) {
    if 'a' <= c <= 'z' then (c as int - 32) as char else c
  }

  /** Python's str.lower restricted to ASCII letters. */
  function LowerChar(c: char): (l: char) {
    if 'A' <= c <= 'Z' then (c as int + 32) as char else c
  }

  function Upper(s: string): (u: string) {
    seq(|s|, i requires 0 <= i < |s| => UpperChar(s[i]))
  }

  function Lower(s: string): (l: string) {
    seq(|s|, i requires 0 <= i < |s| => LowerChar(s[i]))
  }

  /** Upper-casing yields a one-letter string exactly when the input is that letter in either case. */
  lemma UpperIsLetter(s: string, lower: char, upper: char)
    requires 'a' <= lower <= 'z' && upper == UpperChar(lower)
    ensures Upper(s) == [upper] <==> s == [lower] || s == [upper]
  {
    if Upper(s) == [upper] {
      assert |s| == 1 && Upper(s)[0] == UpperChar(s[0]);
      assert s == [s[0]];
    }
  }

  /** Lower-casing yields a one-letter string exactly when the input is that letter in either case. */
  lemma LowerIsLetter(s: string, lower: char)
    requires 'a' <= lower <= 'z'
    ensures Lower(s) == [lower] <==> s == [lower] || s == [UpperChar(lower)]
  {
    if Lower(s) == [lower] {
      assert |s| == 1 && Lower(s)[0] == LowerChar(s[0]);
      assert s == [s[0]];
    }
  }
}
