/** Digit strings, their values and their zero padding. */
module Digits {

  predicate IsDigit(c: char) {
    '0' <= c <= '9'
  }

  predicate AllDigits(text: string) {
    forall i | 0 <= i < |text| :: IsDigit(text[i])
  }

  function DigitValue(c: char): (d: nat)
    requires IsDigit(c)
    ensures d <= 9
  {
    (c - '0') as nat
  }

  function DigitChar(d: nat): char
    requires d <= 9
  {
    '0' + d as char
  }

  function Number(digits: string): nat
    requires AllDigits(digits)
  {
    if digits == "" then 0
    else Number(digits[..|digits| - 1]) * 10 + DigitValue(digits[|digits| - 1])
  }

  function Zeros(n: nat): (z: string)
    ensures |z| == n && forall i | 0 <= i < n :: z[i] == '0'
  {
    seq(n, _ => '0')
  }

  /** JavaScript's `padStart(width, "0")`. */
  function PadStart(text: string, width: nat): string {
    if |text| >= width then text else Zeros(width - |text|) + text
  }

  lemma {:induction false} LeadingZerosKeepTheValue(k: nat, digits: string)
    requires AllDigits(digits)
    ensures AllDigits(Zeros(k) + digits) && Number(Zeros(k) + digits) == Number(digits)
    decreases k + |digits|
  {
    var text := Zeros(k) + digits;
    if digits == "" {
      if k > 0 {
        assert text[..k - 1] == Zeros(k - 1) + digits;
        LeadingZerosKeepTheValue(k - 1, digits);
      }
    } else {
      assert text[..|text| - 1] == Zeros(k) + digits[..|digits| - 1];
      LeadingZerosKeepTheValue(k, digits[..|digits| - 1]);
    }
  }

  lemma SameLastDigit(x: nat, d: nat, y: nat, e: nat)
    requires d <= 9 && e <= 9 && x * 10 + d == y * 10 + e
    ensures x == y && d == e
  {
  }

  lemma {:induction false} SameWidthSameValue(a: string, b: string)
    requires AllDigits(a) && AllDigits(b) && |a| == |b| && Number(a) == Number(b)
    ensures a == b
  {
    if a != "" {
      var n := |a| - 1;
      var x, y := a[..n], b[..n];
      SameLastDigit(Number(x), DigitValue(a[n]), Number(y), DigitValue(b[n]));
      SameWidthSameValue(x, y);
      assert a == x + [a[n]] && b == y + [b[n]];
    }
  }

  lemma PadStartKeepsTheValue(text: string, width: nat)
    requires AllDigits(text) && |text| <= width
    ensures |PadStart(text, width)| == width && AllDigits(PadStart(text, width))
        && Number(PadStart(text, width)) == Number(text)
  {
    LeadingZerosKeepTheValue(width - |text|, text);
    assert PadStart(text, width) == Zeros(width - |text|) + text;
  }

  /** Padded to a width that holds both, two digit strings agree exactly when their values do. */
  lemma PaddedEqualIff(a: string, b: string, width: nat)
    requires AllDigits(a) && AllDigits(b) && |a| <= width && |b| <= width
    ensures PadStart(a, width) == PadStart(b, width) <==> Number(a) == Number(b)
  {
    PadStartKeepsTheValue(a, width);
    PadStartKeepsTheValue(b, width);
    var x, y := PadStart(a, width), PadStart(b, width);
    if Number(a) == Number(b) {
      SameWidthSameValue(x, y);
    }
  }
}
