/** Trade register numbers (NrRegCom): the old slashed form, the new fourteen-character form, and the way
    from one to the other. */
module NrRegCom {
  import opened Digits
  import opened Options
  import opened Texts

  function NormalizeWhitespace(input: string): string {
    Keep(Trim(Upper(input)), NotSpace)
  }

  predicate IsType(c: char) {
    c in "JFC"
  }

  /** Letter, four digits of year, six of order, two of county; then the check digit. */
  predicate IsBase(base: string) {
    |base| == 13 && IsType(base[0]) && AllDigits(base[1..])
  }

  predicate MatchesNew(raw: string) {
    |raw| == 14 && IsBase(raw[..13]) && IsDigit(raw[13])
  }

  datatype Old = Old(kind: char, county: string, order: string, year: string)

  predicate WellFormed(parts: Old) {
    && IsType(parts.kind) && AllDigits(parts.county) && AllDigits(parts.order) && AllDigits(parts.year)
    && 1 <= |parts.county| <= 2 && |parts.order| >= 1 && |parts.year| == 4
  }

  function Written(parts: Old): string {
    [parts.kind] + parts.county + "/" + parts.order + "/" + parts.year
  }

  /** The match of the old form: the county ends at the first slash, the year starts after the last. */
  function ParseOld(raw: string): Option<Old> {
    if |raw| < 9 then None
    else
      var slash := if raw[2] == '/' then 2 else 3;
      if slash + 1 > |raw| - 5 || raw[slash] != '/' || raw[|raw| - 5] != '/' then None
      else
        var found := Old(raw[0], raw[1..slash], raw[slash + 1..|raw| - 5], raw[|raw| - 4..]);
        if WellFormed(found) then Some(found) else None
  }

  lemma ParsedIsWritten(raw: string)
    requires ParseOld(raw).Some?
    ensures raw == Written(ParseOld(raw).value)
  {
    var slash := |ParseOld(raw).value.county| + 1;
    assert raw == raw[..1] + raw[1..slash] + raw[slash..slash + 1] + raw[slash + 1..|raw| - 5]
               + raw[|raw| - 5..|raw| - 4] + raw[|raw| - 4..];
  }

  lemma WrittenIsParsed(parts: Old)
    requires WellFormed(parts)
    ensures ParseOld(Written(parts)) == Some(parts)
  {
    var raw, slash := Written(parts), |parts.county| + 1;
    assert raw[1..slash] == parts.county;
    assert raw[slash] == '/' && raw[|raw| - 5] == '/';
    assert raw[slash + 1..|raw| - 5] == parts.order;
    assert raw[|raw| - 4..] == parts.year;
    assert |parts.county| == 2 ==> raw[2] == parts.county[1];
  }

  /** The parser finds the groups of the pattern exactly where the pattern matches. */
  lemma ParsesOldIff(raw: string, parts: Old)
    ensures ParseOld(raw) == Some(parts) <==> WellFormed(parts) && raw == Written(parts)
    ensures ParseOld(raw) == Some(parts) <==>
      && parts.kind in {'J', 'F', 'C'} && |parts.county| in {1, 2} && parts.order != "" && |parts.year| == 4
      && (forall i | 0 <= i < |parts.county| :: '0' <= parts.county[i] <= '9')
      && (forall i | 0 <= i < |parts.order| :: '0' <= parts.order[i] <= '9')
      && (forall i | 0 <= i < |parts.year| :: '0' <= parts.year[i] <= '9')
      && raw == [parts.kind] + parts.county + "/" + parts.order + "/" + parts.year
  {
    if ParseOld(raw) == Some(parts) {
      ParsedIsWritten(raw);
    }
    if WellFormed(parts) {
      WrittenIsParsed(parts);
    }
  }

  // ---------------------------------------------------------------- the check digit

  function DigitSum(digits: string): nat
    requires AllDigits(digits)
  {
    if digits == "" then 0 else DigitValue(digits[0]) + DigitSum(digits[1..])
  }

  function CheckDigit(base: string): (d: nat)
    requires IsBase(base)
    ensures d <= 9
  {
    (base[0] as nat + DigitSum(base[1..])) % 10
  }

  /** `computeNrRegComCheckDigit`, which throws for anything but a base. */
  function ComputeCheckDigit(base: string): (d: Option<nat>)
    ensures d.Some? ==> d.value <= 9
  {
    var normalized := NormalizeWhitespace(base);
    if IsBase(normalized) then Some(CheckDigit(normalized)) else None
  }

  // ---------------------------------------------------------------- sanitise and normalise

  datatype Normalized = Threw | Invalid | Canonical(text: string)

  /** The new form stays as it is if its check digit is right. */
  function CheckNew(raw: string): Normalized
    requires MatchesNew(raw)
  {
    match ComputeCheckDigit(raw[..13])
    case None => Threw
    case Some(expected) => if expected == DigitValue(raw[13]) then Canonical(raw) else Invalid
  }

  function BaseOf(parts: Old): string {
    [parts.kind] + PadStart(parts.year, 4) + PadStart(parts.order, 6) + PadStart(parts.county, 2)
  }

  function ConvertOld(parts: Old): Normalized {
    match ComputeCheckDigit(BaseOf(parts))
    case None => Threw
    case Some(check) => Canonical(BaseOf(parts) + [DigitChar(check)])
  }

  function NormalizeNrRegCom(input: string): Normalized {
    var raw := NormalizeWhitespace(input);
    if MatchesNew(raw) then CheckNew(raw)
    else match ParseOld(raw)
      case None => Invalid
      case Some(parts) => ConvertOld(parts)
  }

  function SanitizeNrRegCom(input: string): Normalized {
    var raw := NormalizeWhitespace(input);
    if MatchesNew(raw) then CheckNew(raw)
    else if ParseOld(raw).Some? then Canonical(raw)
    else Invalid
  }

  // ---------------------------------------------------------------- white space

  predicate IsPlain(c: char) {
    NotSpace(c) && UpperChar(c) == c
  }

  lemma PlainStays(s: string)
    requires forall i | 0 <= i < |s| :: IsPlain(s[i])
    ensures NormalizeWhitespace(s) == s
  {
    assert Upper(s) == s;
    KeepTrim(s, NotSpace);
    KeepAll(s, NotSpace);
  }

  lemma {:induction false} KeepOfUpperIsPlain(s: string)
    ensures forall i | 0 <= i < |Keep(Upper(s), NotSpace)| :: IsPlain(Keep(Upper(s), NotSpace)[i])
  {
    if s != "" {
      assert Upper(s)[1..] == Upper(s[1..]);
      KeepOfUpperIsPlain(s[1..]);
    }
  }

  lemma NormalizedIsPlain(input: string)
    ensures forall i | 0 <= i < |NormalizeWhitespace(input)| :: IsPlain(NormalizeWhitespace(input)[i])
    ensures NormalizeWhitespace(NormalizeWhitespace(input)) == NormalizeWhitespace(input)
  {
    KeepTrim(Upper(input), NotSpace);
    KeepOfUpperIsPlain(input);
    PlainStays(NormalizeWhitespace(input));
  }

  lemma BaseIsPlain(base: string)
    requires IsBase(base)
    ensures NormalizeWhitespace(base) == base
  {
    assert base == [base[0]] + base[1..];
    forall i | 0 <= i < |base| ensures IsPlain(base[i]) {
      assert i > 0 ==> IsDigit(base[1..][i - 1]);
    }
    PlainStays(base);
  }

  // ---------------------------------------------------------------- the old form converted

  lemma BaseFits(parts: Old)
    requires WellFormed(parts) && |parts.order| <= 6
    ensures IsBase(BaseOf(parts)) && BaseOf(parts)[0] == parts.kind && BaseOf(parts)[1..5] == parts.year
    ensures BaseOf(parts)[5..11] == PadStart(parts.order, 6) && BaseOf(parts)[11..] == PadStart(parts.county, 2)
  {
    PadStartKeepsTheValue(parts.county, 2);
    PadStartKeepsTheValue(parts.order, 6);
    var order, county := PadStart(parts.order, 6), PadStart(parts.county, 2);
    assert BaseOf(parts) == [parts.kind] + (parts.year + order + county);
    assert BaseOf(parts)[1..] == parts.year + order + county;
  }

  /** The converted number is itself a valid number of the new form. */
  lemma ConvertedIsCanonical(parts: Old)
    requires WellFormed(parts)
    ensures |parts.order| > 6 ==> ConvertOld(parts) == Threw
    ensures |parts.order| <= 6 ==>
      && ConvertOld(parts).Canonical? && MatchesNew(ConvertOld(parts).text)
      && ConvertOld(parts).text[..13] == BaseOf(parts)
      && NormalizeNrRegCom(ConvertOld(parts).text) == ConvertOld(parts)
  {
    var base := BaseOf(parts);
    if |parts.order| <= 6 {
      BaseFits(parts);
      BaseIsPlain(base);
      var text := ConvertOld(parts).text;
      assert text == base + [DigitChar(CheckDigit(base))] && text[..13] == base;
      NewIsPlain(text);
    } else {
      LongBaseDoesNotFit(parts);
    }
  }

  lemma NewIsPlain(raw: string)
    requires MatchesNew(raw)
    ensures NormalizeWhitespace(raw) == raw && NormalizeWhitespace(raw[..13]) == raw[..13]
  {
    BaseIsPlain(raw[..13]);
    forall i | 0 <= i < |raw| ensures IsPlain(raw[i]) {
      assert i < 13 ==> raw[i] == raw[..13][i];
      assert 0 < i < 13 ==> IsDigit(raw[..13][1..][i - 1]);
    }
    PlainStays(raw);
  }

  /** White space cannot shrink an over-long base back to size: it has none. */
  lemma LongBaseDoesNotFit(parts: Old)
    requires WellFormed(parts) && |parts.order| > 6
    ensures ComputeCheckDigit(BaseOf(parts)).None?
  {
    var base := BaseOf(parts);
    PadStartKeepsTheValue(parts.county, 2);
    assert base == [parts.kind] + (parts.year + parts.order + PadStart(parts.county, 2));
    forall i | 0 <= i < |base| ensures IsPlain(base[i]) {
    }
    PlainStays(base);
  }

  // ---------------------------------------------------------------- main results

  /** The old form under the input's white space and case, if there is one. */
  function OldForm(input: string): Option<Old> {
    if MatchesNew(NormalizeWhitespace(input)) then None else ParseOld(NormalizeWhitespace(input))
  }

  /** What the order number decides: normalising throws exactly on an old form with more than six digits. */
  lemma ThrowsIff(input: string)
    ensures NormalizeNrRegCom(input) == Threw <==> OldForm(input).Some? && |OldForm(input).value.order| > 6
  {
    var raw := NormalizeWhitespace(input);
    if MatchesNew(raw) {
      NewIsPlain(raw);
    } else if ParseOld(raw).Some? {
      ParsesOldIff(raw, ParseOld(raw).value);
      ConvertedIsCanonical(ParseOld(raw).value);
    }
  }

  /** Normalising is idempotent, and its results are in the new form. */
  lemma NormalizeIsIdempotent(input: string)
    requires NormalizeNrRegCom(input).Canonical?
    ensures MatchesNew(NormalizeNrRegCom(input).text)
    ensures NormalizeNrRegCom(NormalizeNrRegCom(input).text) == NormalizeNrRegCom(input)
  {
    var raw := NormalizeWhitespace(input);
    if MatchesNew(raw) {
      NewIsPlain(raw);
    } else {
      ParsesOldIff(raw, ParseOld(raw).value);
      ConvertedIsCanonical(ParseOld(raw).value);
    }
  }

  /** Sanitising rejects exactly what normalising rejects, and never throws; of what it accepts,
      normalising accepts all but the old forms with more than six digits of order. */
  lemma SanitizeAcceptsTheSame(input: string)
    ensures SanitizeNrRegCom(input) != Threw
    ensures SanitizeNrRegCom(input) == Invalid <==> NormalizeNrRegCom(input) == Invalid
    ensures NormalizeNrRegCom(input).Canonical?
       <==> SanitizeNrRegCom(input).Canonical? && (OldForm(input).Some? ==> |OldForm(input).value.order| <= 6)
  {
    ThrowsIff(input);
    var raw := NormalizeWhitespace(input);
    if MatchesNew(raw) {
      NewIsPlain(raw);
    }
  }

  /** Sanitising first makes no difference to normalising, and sanitising twice none to sanitising. */
  lemma NormalizeAfterSanitize(input: string)
    requires SanitizeNrRegCom(input).Canonical?
    ensures NormalizeNrRegCom(SanitizeNrRegCom(input).text) == NormalizeNrRegCom(input)
    ensures SanitizeNrRegCom(SanitizeNrRegCom(input).text) == SanitizeNrRegCom(input)
  {
    NormalizedIsPlain(input);
  }

  /** Two old numbers get the same canonical text exactly when letter, year, and the values of the order
      and county numbers agree. */
  lemma SameCanonicalIff(a: Old, b: Old)
    requires WellFormed(a) && WellFormed(b) && |a.order| <= 6 && |b.order| <= 6
    ensures ConvertOld(a) == ConvertOld(b)
       <==> && a.kind == b.kind && a.year == b.year
            && Number(a.order) == Number(b.order) && Number(a.county) == Number(b.county)
  {
    ConvertedIsCanonical(a);
    ConvertedIsCanonical(b);
    BaseFits(a);
    BaseFits(b);
    PaddedEqualIff(a.order, b.order, 6);
    PaddedEqualIff(a.county, b.county, 2);
    if ConvertOld(a) == ConvertOld(b) {
      assert BaseOf(a) == BaseOf(b);
    }
  }

  // ---------------------------------------------------------------- what the check digit catches

  lemma {:induction false} DigitSumOfUpdate(digits: string, i: nat, c: char)
    requires AllDigits(digits) && i < |digits| && IsDigit(c)
    ensures AllDigits(digits[i := c])
    ensures DigitSum(digits[i := c]) + DigitValue(digits[i]) == DigitSum(digits) + DigitValue(c)
  {
    if i > 0 {
      assert digits[i := c][1..] == digits[1..][i - 1 := c];
      DigitSumOfUpdate(digits[1..], i - 1, c);
    } else {
      assert digits[0 := c][1..] == digits[1..];
    }
  }

  lemma BaseUpdate(base: string, i: nat, c: char)
    requires IsBase(base) && 1 <= i < 13 && IsDigit(c)
    ensures IsBase(base[i := c])
    ensures base[i := c][0] == base[0]
    ensures DigitSum(base[i := c][1..]) + DigitValue(base[i]) == DigitSum(base[1..]) + DigitValue(c)
  {
    DigitSumOfUpdate(base[1..], i - 1, c);
    assert base[i := c][1..] == base[1..][i - 1 := c];
  }

  lemma OneDigitMore(digits: string, k: nat)
    requires AllDigits(digits) && k < |digits|
    ensures DigitSum(digits[k..]) == digits[k] as int - 48 + DigitSum(digits[k + 1..])
  {
    assert digits[k..][1..] == digits[k + 1..];
  }

  /** The digits of a base, added up. */
  lemma TwelveDigits(digits: string)
    requires |digits| == 12 && AllDigits(digits)
    ensures DigitSum(digits)
         == digits[0] as int + digits[1] as int + digits[2] as int + digits[3] as int + digits[4] as int
            + digits[5] as int + digits[6] as int + digits[7] as int + digits[8] as int + digits[9] as int
            + digits[10] as int + digits[11] as int - 12 * 48
  {
    forall k | 0 <= k < 12 ensures DigitSum(digits[k..]) == digits[k] as int - 48 + DigitSum(digits[k + 1..]) {
      OneDigitMore(digits, k);
    }
    assert digits[0..] == digits && digits[12..] == "";
  }

  /** A number in the new form is valid if and only if its last digit is that of the code of its letter (74 for
      J, 70 for F and 67 for C) and its other twelve digits, added up. */
  lemma NewIsValidIff(raw: string, result: Normalized)
    requires |raw| == 14 && raw[0] in "JFC" && forall i | 1 <= i < 14 :: '0' <= raw[i] <= '9'
    requires result == NormalizeNrRegCom(raw)
    ensures result == Canonical(raw) || result == Invalid
    ensures result == Canonical(raw) <==>
      raw[13] as int - 48 == ((if raw[0] == 'J' then 74 else if raw[0] == 'F' then 70 else 67) + (
        raw[1] as int + raw[2] as int + raw[3] as int + raw[4] as int + raw[5] as int + raw[6] as int
        + raw[7] as int + raw[8] as int + raw[9] as int + raw[10] as int + raw[11] as int + raw[12] as int
        - 12 * 48)) % 10
  {
    FormIsNew(raw);
    NewIsChecked(raw);
    DigitsAfterTheLetter(raw);
    LetterCode(raw[0]);
  }

  lemma DigitsAfterTheLetter(raw: string)
    requires |raw| == 14 && forall i | 1 <= i < 14 :: '0' <= raw[i] <= '9'
    ensures DigitSum(raw[1..13])
         == raw[1] as int + raw[2] as int + raw[3] as int + raw[4] as int + raw[5] as int + raw[6] as int
            + raw[7] as int + raw[8] as int + raw[9] as int + raw[10] as int + raw[11] as int + raw[12] as int - 12 * 48
  {
    TwelveDigits(raw[1..13]);
  }

  lemma FormIsNew(raw: string)
    requires |raw| == 14 && raw[0] in "JFC" && forall i | 1 <= i < 14 :: '0' <= raw[i] <= '9'
    ensures MatchesNew(raw)
  {
  }

  lemma NewIsChecked(raw: string)
    requires MatchesNew(raw) && AllDigits(raw[1..13])
    ensures NormalizeNrRegCom(raw)
         == if raw[13] as int - 48 == (raw[0] as int + DigitSum(raw[1..13])) % 10 then Canonical(raw) else Invalid
  {
    assert raw[..13][1..] == raw[1..13];
    NewIsPlain(raw);
  }

  lemma LetterCode(letter: char)
    requires IsType(letter)
    ensures letter as int == if letter == 'J' then 74 else if letter == 'F' then 70 else 67
  {
  }

  /** A wrong letter is always caught, as no two of the three codes end in one digit. */
  lemma WrongLetterIsCaught(base: string, c: char)
    requires IsBase(base) && IsType(c)
    ensures IsBase(base[0 := c]) && (CheckDigit(base[0 := c]) == CheckDigit(base) <==> c == base[0])
  {
    assert base[0 := c][1..] == base[1..];
  }

  /** A single wrong digit in the base is always caught. */
  lemma WrongDigitIsCaught(base: string, i: nat, c: char)
    requires IsBase(base) && 1 <= i < 13 && IsDigit(c)
    ensures IsBase(base[i := c]) && (CheckDigit(base[i := c]) == CheckDigit(base) <==> c == base[i])
  {
    BaseUpdate(base, i, c);
  }

  /** Two digits that changed places are never caught. */
  lemma SwapIsNeverCaught(base: string, i: nat, j: nat)
    requires IsBase(base) && 1 <= i < 13 && 1 <= j < 13
    ensures var swapped := base[i := base[j]][j := base[i]];
            IsBase(swapped) && CheckDigit(swapped) == CheckDigit(base)
  {
    BaseUpdate(base, i, base[j]);
    BaseUpdate(base[i := base[j]], j, base[i]);
  }
}
