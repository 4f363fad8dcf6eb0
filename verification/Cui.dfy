/** Fiscal codes (CUI): the digits of the input, checked by a weighted sum modulo eleven. */
module Cui {
  import opened Digits
  import opened Texts

  const WEIGHTS: seq<nat> := [7, 5, 3, 2, 1, 7, 5, 3, 2]

  function SanitizeCui(input: string): string {
    var normalized := Trim(Upper(input));
    var withoutPrefix := if |normalized| >= 2 && normalized[..2] == "RO" then normalized[2..] else normalized;
    Keep(withoutPrefix, IsDigit)
  }

  /** Sanitising is keeping the digits, prefix or not, and doing it again changes nothing. */
  lemma SanitizeKeepsTheDigits(input: string)
    ensures SanitizeCui(input) == Keep(input, IsDigit)
    ensures SanitizeCui(SanitizeCui(input)) == SanitizeCui(input)
  {
    SanitizeIsKeep(input);
    SanitizeIsKeep(SanitizeCui(input));
    KeepAll(SanitizeCui(input), IsDigit);
  }

  lemma TrimmedUpperKeepsDigits(input: string)
    ensures Keep(Trim(Upper(input)), IsDigit) == Keep(input, IsDigit)
  {
    KeepTrim(Upper(input), IsDigit);
    KeepDigitsOfUpper(input);
  }

  lemma SanitizeIsKeep(input: string)
    ensures SanitizeCui(input) == Keep(input, IsDigit)
  {
    TrimmedUpperKeepsDigits(input);
    var normalized := Trim(Upper(input));
    if |normalized| >= 2 && normalized[..2] == "RO" {
      PrefixHasNoDigits(normalized);
    }
  }

  lemma PrefixHasNoDigits(text: string)
    requires |text| >= 2 && text[..2] == "RO"
    ensures Keep(text[2..], IsDigit) == Keep(text, IsDigit)
  {
    assert text == "RO" + text[2..];
    KeepConcat("RO", text[2..], IsDigit);
    NoDigitsInPrefix();
  }

  lemma NoDigitsInPrefix()
    ensures Keep("RO", IsDigit) == ""
  {
    assert "RO"[1..] == "O" && "O"[1..] == "";
    assert Keep("O", IsDigit) == "";
  }

  // ---------------------------------------------------------------- the check digit

  /** The weighted sum of the first `n` payload digits. */
  function Sum(padded: string, n: nat): nat
    requires |padded| == 10 && AllDigits(padded) && n <= |WEIGHTS|
  {
    if n == 0 then 0 else Sum(padded, n - 1) + DigitValue(padded[n - 1]) * WEIGHTS[n - 1]
  }

  function Remainder(padded: string): nat
    requires |padded| == 10 && AllDigits(padded)
  {
    Sum(padded, |WEIGHTS|) * 10 % 11
  }

  /** Ten has no digit of its own: it shares the check digit zero. */
  predicate Checks(padded: string)
    requires |padded| == 10 && AllDigits(padded)
  {
    DigitValue(padded[9]) == if Remainder(padded) == 10 then 0 else Remainder(padded)
  }

  function Padded(clean: string): (p: string)
    requires AllDigits(clean) && |clean| <= 10
    ensures |p| == 10 && AllDigits(p)
  {
    PadStartKeepsTheValue(clean, 10);
    PadStart(clean, 10)
  }

  predicate ValidDigits(clean: string)
    requires AllDigits(clean)
  {
    2 <= |clean| <= 10 && Checks(Padded(clean))
  }

  method IsValidCUI(input: string) returns (valid: bool)
    ensures valid <==> ValidDigits(Keep(input, IsDigit))
  {
    var clean := SanitizeCui(input);
    SanitizeIsKeep(input);
    if |clean| < 2 || |clean| > 10 { return false; }
    var digits := Padded(clean);
    var checkDigit := DigitValue(digits[9]);
    var sum := 0;
    for i := 0 to |WEIGHTS|
      invariant sum == Sum(digits, i)
    {
      sum := sum + DigitValue(digits[i]) * WEIGHTS[i];
    }
    var remainder := sum * 10 % 11;
    var expected := if remainder == 10 then 0 else remainder;
    return checkDigit == expected;
  }

  lemma NineWeights(p: string)
    requires |p| == 10 && AllDigits(p)
    ensures Sum(p, 9)
         == 7 * (p[0] as int - 48) + 5 * (p[1] as int - 48) + 3 * (p[2] as int - 48) + 2 * (p[3] as int - 48)
            + 1 * (p[4] as int - 48) + 7 * (p[5] as int - 48) + 5 * (p[6] as int - 48)
            + 3 * (p[7] as int - 48) + 2 * (p[8] as int - 48)
  {
    OneWeightMore(p, 0, 7);
    OneWeightMore(p, 1, 5);
    OneWeightMore(p, 2, 3);
    OneWeightMore(p, 3, 2);
    OneWeightMore(p, 4, 1);
    OneWeightMore(p, 5, 7);
    OneWeightMore(p, 6, 5);
    OneWeightMore(p, 7, 3);
    OneWeightMore(p, 8, 2);
  }

  /** The check on ten digits, spelled out. */
  lemma TenDigitsAreValidIff(p: string)
    requires |p| == 10 && AllDigits(p)
    ensures ValidDigits(p) <==>
      p[9] as int - 48 == (
        7 * (p[0] as int - 48) + 5 * (p[1] as int - 48) + 3 * (p[2] as int - 48) + 2 * (p[3] as int - 48)
        + 1 * (p[4] as int - 48) + 7 * (p[5] as int - 48) + 5 * (p[6] as int - 48)
        + 3 * (p[7] as int - 48) + 2 * (p[8] as int - 48)) * 10 % 11 % 10
  {
    assert Padded(p) == p;
    NineWeights(p);
    assert ValidDigits(p) <==> p[9] as int - 48 == Sum(p, 9) * 10 % 11 % 10;
  }

  lemma OneWeightMore(p: string, n: nat, weight: nat)
    requires |p| == 10 && AllDigits(p) && n < |WEIGHTS| && WEIGHTS[n] == weight
    ensures Sum(p, n + 1) == Sum(p, n) + weight * (p[n] as int - 48)
  {
  }

  // ---------------------------------------------------------------- leading zeros

  /** Leading zeros up to ten digits never change the verdict, except on nothing or a lone zero, which
      are too short to be valid until they are padded. */
  lemma LeadingZerosKeepValidityIff(k: nat, clean: string)
    requires AllDigits(clean) && k + |clean| <= 10
    ensures ValidDigits(Zeros(k) + clean) == ValidDigits(clean)
       <==> |clean| >= 2 || k + |clean| < 2 || !(clean == "" || clean == "0")
  {
    assert Padded(Zeros(k) + clean) == Zeros(10 - k - |clean|) + (Zeros(k) + clean) by {
      assert k + |clean| == 10 ==> Zeros(0) + (Zeros(k) + clean) == Zeros(k) + clean;
    }
    assert Padded(clean) == Zeros(10 - |clean|) + clean;
    assert Padded(Zeros(k) + clean) == Padded(clean);
    if |clean| < 2 && k + |clean| >= 2 {
      ZeroPayloadSum(Padded(clean), |WEIGHTS|);
    }
  }

  lemma {:induction false} ZeroPayloadSum(padded: string, n: nat)
    requires |padded| == 10 && AllDigits(padded) && n <= |WEIGHTS|
    requires forall i | 0 <= i < 9 :: padded[i] == '0'
    ensures Sum(padded, n) == 0
  {
    if n > 0 {
      ZeroPayloadSum(padded, n - 1);
    }
  }

  // ---------------------------------------------------------------- errors the check digit catches

  /** What one payload digit turned from `a` into `b` does to the sum. */
  function Change(i: nat, a: char, b: char): int
    requires i < |WEIGHTS| && IsDigit(a) && IsDigit(b)
  {
    WEIGHTS[i] * (DigitValue(b) - DigitValue(a))
  }

  lemma {:induction false} SumOfUpdate(padded: string, i: nat, c: char, n: nat)
    requires |padded| == 10 && AllDigits(padded) && i < 9 && IsDigit(c) && n <= |WEIGHTS|
    ensures AllDigits(padded[i := c])
    ensures Sum(padded[i := c], n)
         == Sum(padded, n) + (if i < n then Change(i, padded[i], c) else 0)
  {
    if n > 0 {
      SumOfUpdate(padded, i, c, n - 1);
      if n - 1 == i {
        Distributes(WEIGHTS[i], DigitValue(c), DigitValue(padded[i]));
      }
    }
  }

  lemma Distributes(w: int, a: int, b: int)
    ensures a * w == b * w + w * (a - b)
  {
  }

  lemma SameRemainder(x: int, y: int)
    requires x * 10 % 11 == y * 10 % 11
    ensures (x - y) % 11 == 0
  {
    var a, b := x * 10 / 11, y * 10 / 11;
    assert x - y == 11 * (x - y - (a - b));
  }

  /** A change of the sum by less than eleven times a weight difference always shows in the remainder. */
  lemma RemainderMoves(sum: int, w: int, d: int)
    requires w in {-6, 1, 2, 3, 5, 7} && -9 <= d <= 9 && d != 0
    ensures (sum + w * d) * 10 % 11 != sum * 10 % 11
  {
    assert w * d % 11 != 0;
    if (sum + w * d) * 10 % 11 == sum * 10 % 11 {
      SameRemainder(sum + w * d, sum);
    }
  }

  lemma UpdateMovesRemainder(padded: string, i: nat, c: char)
    requires |padded| == 10 && AllDigits(padded) && i < 9 && IsDigit(c) && c != padded[i]
    ensures AllDigits(padded[i := c]) && Remainder(padded[i := c]) != Remainder(padded)
  {
    SumOfUpdate(padded, i, c, |WEIGHTS|);
    RemainderMoves(Sum(padded, |WEIGHTS|), WEIGHTS[i], DigitValue(c) - DigitValue(padded[i]));
  }

  /** Two different remainders pass for the same check digit only where ten and zero meet. */
  predicate TenMeetsZero(a: nat, b: nat) {
    (a == 10 && b == 0) || (a == 0 && b == 10)
  }

  lemma PayloadChangeShowsUnless(before: string, after: string)
    requires |before| == |after| == 10 && AllDigits(before) && AllDigits(after)
    requires Checks(before) && before[9] == after[9] && Remainder(before) != Remainder(after)
    ensures Checks(after) <==> TenMeetsZero(Remainder(before), Remainder(after))
  {
  }

  lemma PaddedUpdate(clean: string, i: nat, c: char)
    requires AllDigits(clean) && 2 <= |clean| <= 10 && i < |clean| && IsDigit(c)
    ensures AllDigits(clean[i := c]) && Padded(clean[i := c]) == Padded(clean)[i + 10 - |clean| := c]
    ensures Padded(clean)[i + 10 - |clean|] == clean[i]
  {
  }

  /** One wrong digit in a valid code is caught: always in the check digit, and in the payload unless the
      remainder moves between ten and zero. */
  lemma SubstitutionIsCaughtIff(clean: string, i: nat, c: char)
    requires AllDigits(clean) && ValidDigits(clean) && i < |clean| && IsDigit(c) && c != clean[i]
    ensures AllDigits(clean[i := c])
    ensures !ValidDigits(clean[i := c])
       <==> i == |clean| - 1 || !TenMeetsZero(Remainder(Padded(clean)), Remainder(Padded(clean[i := c])))
    ensures clean[|clean| - 1] != '0' ==> !ValidDigits(clean[i := c])
  {
    PaddedUpdate(clean, i, c);
    var p, j := Padded(clean), i + 10 - |clean|;
    if j == 9 {
      CheckDigitOutsideSum(p, c, |WEIGHTS|);
    } else {
      UpdateMovesRemainder(p, j, c);
      PayloadChangeShowsUnless(p, p[j := c]);
    }
  }

  lemma {:induction false} CheckDigitOutsideSum(padded: string, c: char, n: nat)
    requires |padded| == 10 && AllDigits(padded) && IsDigit(c) && n <= |WEIGHTS|
    ensures AllDigits(padded[9 := c]) && Sum(padded[9 := c], n) == Sum(padded, n)
  {
    if n > 0 {
      CheckDigitOutsideSum(padded, c, n - 1);
    }
  }

  function Swapped(clean: string, i: nat): string
    requires i + 1 < |clean|
  {
    clean[i := clean[i + 1]][i + 1 := clean[i]]
  }

  lemma SumOfSwap(padded: string, i: nat)
    requires |padded| == 10 && AllDigits(padded) && i < 8
    ensures AllDigits(Swapped(padded, i))
    ensures Sum(Swapped(padded, i), |WEIGHTS|)
         == Sum(padded, |WEIGHTS|) + Change(i, padded[i], padded[i + 1]) + Change(i + 1, padded[i + 1], padded[i])
  {
    var first := padded[i := padded[i + 1]];
    SumOfUpdate(padded, i, padded[i + 1], |WEIGHTS|);
    SumOfUpdate(first, i + 1, padded[i], |WEIGHTS|);
    assert first[i + 1] == padded[i + 1];
  }

  lemma Factors(sum: int, v: int, w: int, d: int)
    ensures sum + v * d + w * (0 - d) == sum + (v - w) * d
  {
  }

  lemma SwapMovesRemainder(padded: string, i: nat)
    requires |padded| == 10 && AllDigits(padded) && i < 8 && padded[i] != padded[i + 1]
    ensures AllDigits(Swapped(padded, i)) && Remainder(Swapped(padded, i)) != Remainder(padded)
  {
    SumOfSwap(padded, i);
    var v: int, w: int, d := WEIGHTS[i], WEIGHTS[i + 1], DigitValue(padded[i + 1]) - DigitValue(padded[i]);
    Factors(Sum(padded, |WEIGHTS|), v, w, d);
    RemainderMoves(Sum(padded, |WEIGHTS|), v - w, d);
  }

  lemma PaddedSwap(clean: string, i: nat)
    requires AllDigits(clean) && |clean| <= 10 && i + 1 < |clean|
    ensures AllDigits(Swapped(clean, i)) && Padded(Swapped(clean, i)) == Swapped(Padded(clean), i + 10 - |clean|)
    ensures Padded(clean)[i + 10 - |clean|] == clean[i] && Padded(clean)[i + 11 - |clean|] == clean[i + 1]
  {
  }

  /** Two different neighbouring payload digits swapped: caught under the same condition. */
  lemma SwapIsCaughtIff(clean: string, i: nat)
    requires AllDigits(clean) && ValidDigits(clean) && i + 2 < |clean| && clean[i] != clean[i + 1]
    ensures AllDigits(Swapped(clean, i))
    ensures !ValidDigits(Swapped(clean, i))
       <==> !TenMeetsZero(Remainder(Padded(clean)), Remainder(Padded(Swapped(clean, i))))
    ensures clean[|clean| - 1] != '0' ==> !ValidDigits(Swapped(clean, i))
  {
    PaddedSwap(clean, i);
    var p, j := Padded(clean), i + 10 - |clean|;
    SwapMovesRemainder(p, j);
    PayloadChangeShowsUnless(p, Swapped(p, j));
  }

  /** A slip that is not caught: both codes end in zero, one with remainder zero and one with ten. */
  lemma ZeroCheckDigitMissesASlip()
    ensures AllDigits("00") && AllDigits("60") && ValidDigits("00") && ValidDigits("60")
  {
    var a, b := Padded("00"), Padded("60");
    assert a == "0000000000" && b == "0000000060";
    ZeroPayloadSum(a, |WEIGHTS|);
    SumOfUpdate(a, 8, '6', |WEIGHTS|);
    assert b == a[8 := '6'];
  }
}
