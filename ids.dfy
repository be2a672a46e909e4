/**
 * Bean bag identifiers (src/beanbags/Store.java:30-48, 89-94): eight
 * lower-case hexadecimal digits whose first digit is 0-7, so that the
 * number they spell fits a non-negative 32-bit integer.
 */
module Ids {

  predicate IsHexDigit(c: char) {
    '0' <= c <= '9' || 'a' <= c <= 'f'
  }

  predicate AllHex(s: string) {
    forall i :: 0 <= i < |s| ==> IsHexDigit(s[i])
  }

  /** What the digit loop of isIDValid accepts, whatever the length: a first
      character in 0-7 and every character a lower-case hexadecimal digit. */
  predicate HexShaped(id: string) {
    (|id| > 0 ==> '0' <= id[0] <= '7') && AllHex(id)
  }

  /** The check every operation taking an identifier runs before it changes anything. */
  predicate LegalId(id: string) {
    |id| == 8 && HexShaped(id)
  }

  function DigitValue(c: char): (d: nat)
    requires IsHexDigit(c)
    ensures d < 16
    ensures d < 8 <==> '0' <= c <= '7'
  {
    if c <= '9' then c as int - '0' as int else c as int - 'a' as int + 10
  }

  function Pow16(n: nat): nat {
    if n == 0 then 1 else 16 * Pow16(n - 1)
  }

  /** The number a string of hexadecimal digits spells, most significant first. */
  function HexValue(s: string): nat
    requires AllHex(s)
  {
    if s == [] then 0 else DigitValue(s[0]) * Pow16(|s| - 1) + HexValue(s[1..])
  }

  lemma {:induction false} HexValueBound(s: string)
    requires AllHex(s)
    ensures HexValue(s) < Pow16(|s|)
  {
    if s != [] {
      var p, d := Pow16(|s| - 1), DigitValue(s[0]);
      HexValueBound(s[1..]);
      MulBelow(d, 15, p);
      assert Pow16(|s|) == 16 * p;
    }
  }

  lemma MulBelow(a: nat, b: nat, c: nat)
    requires a <= b
    ensures a * c <= b * c
  {}

  /** Among strings of eight lower-case hexadecimal digits, the legal
      identifiers are exactly those spelling a non-negative 32-bit int. */
  lemma LegalIdIsNonNegativeInt32(id: string)
    requires |id| == 8 && AllHex(id)
    ensures LegalId(id) <==> HexValue(id) < 0x8000_0000
  {
    HexValueBound(id[1..]);
    assert Pow16(7) == 0x1000_0000;
  }

  /** Upper-case digits and a leading digit of 8 or more are refused. */
  lemma IllegalIdExamples()
    ensures !LegalId("0000000A") && !LegalId("80000000") && !LegalId("0000000")
    ensures LegalId("7fffffff") && LegalId("00abcdef")
  {
    assert !IsHexDigit("0000000A"[7]);
  }
}
