/** The string operations the identifiers go through, on ASCII letters and JavaScript's white space. */
module Texts {
  import opened Digits

  /** What both `trim` and `\s` count as white space. */
  predicate IsSpace(c: char) {
    || c in "\t\n\r "
    || c as int in {0x0b, 0x0c, 0xa0, 0x1680, 0x2028, 0x2029, 0x202f, 0x205f, 0x3000, 0xfeff}
    || 0x2000 <= c as int <= 0x200a
  }

  predicate NotSpace(c: char) {
    !IsSpace(c)
  }

  function UpperChar(c: char): char {
    if 'a' <= c <= 'z' then c - 'a' + 'A' else c
  }

  function Upper(s: string): (u: string)
    ensures |u| == |s| && forall i | 0 <= i < |s| :: u[i] == UpperChar(s[i])
  {
    if s == "" then "" else [UpperChar(s[0])] + Upper(s[1..])
  }

  function Lower(s: string): string {
    seq(|s|, i requires 0 <= i < |s| => if 'A' <= s[i] <= 'Z' then s[i] - 'A' + 'a' else s[i])
  }

  function TrimStart(s: string): string {
    if s != "" && IsSpace(s[0]) then TrimStart(s[1..]) else s
  }

  function TrimEnd(s: string): string {
    if s != "" && IsSpace(s[|s| - 1]) then TrimEnd(s[..|s| - 1]) else s
  }

  function Trim(s: string): string {
    TrimEnd(TrimStart(s))
  }

  lemma {:induction false} TrimStartSkips(space: string, text: string)
    requires (forall i | 0 <= i < |space| :: IsSpace(space[i])) && (text == "" || !IsSpace(text[0]))
    ensures TrimStart(space + text) == text
  {
    if space == "" {
      assert space + text == text;
    } else {
      assert (space + text)[1..] == space[1..] + text;
      TrimStartSkips(space[1..], text);
    }
  }

  lemma {:induction false} TrimEndSkips(text: string, space: string)
    requires (forall i | 0 <= i < |space| :: IsSpace(space[i])) && (text == "" || !IsSpace(text[|text| - 1]))
    ensures TrimEnd(text + space) == text
  {
    var n := |space| - 1;
    if space == "" {
      assert text + space == text;
    } else {
      assert (text + space)[..|text + space| - 1] == text + space[..n];
      TrimEndSkips(text, space[..n]);
    }
  }

  /** Trimming takes the white space off both ends and leaves the rest. */
  lemma TrimRemovesTheEnds(before: string, text: string, after: string)
    requires forall i | 0 <= i < |before| :: IsSpace(before[i])
    requires forall i | 0 <= i < |after| :: IsSpace(after[i])
    requires text != "" && !IsSpace(text[0]) && !IsSpace(text[|text| - 1])
    ensures Trim(before + text + after) == text
  {
    assert before + text + after == before + (text + after);
    TrimStartSkips(before, text + after);
    TrimEndSkips(text, after);
  }

  /** The characters of `s` that satisfy `keep`, in order. */
  function Keep(s: string, keep: char -> bool): (k: string)
    ensures forall i | 0 <= i < |k| :: keep(k[i])
  {
    if s == "" then "" else (if keep(s[0]) then [s[0]] else "") + Keep(s[1..], keep)
  }

  lemma {:induction false} KeepConcat(a: string, b: string, keep: char -> bool)
    ensures Keep(a + b, keep) == Keep(a, keep) + Keep(b, keep)
  {
    if a == "" {
      assert a + b == b;
    } else {
      assert (a + b)[1..] == a[1..] + b;
      KeepConcat(a[1..], b, keep);
    }
  }

  lemma {:induction false} KeepAll(s: string, keep: char -> bool)
    requires forall i | 0 <= i < |s| :: keep(s[i])
    ensures Keep(s, keep) == s
  {
    if s != "" {
      KeepAll(s[1..], keep);
    }
  }

  lemma {:induction false} KeepTrimStart(s: string, keep: char -> bool)
    requires forall c | IsSpace(c) :: !keep(c)
    ensures Keep(TrimStart(s), keep) == Keep(s, keep)
  {
    if s != "" && IsSpace(s[0]) {
      KeepTrimStart(s[1..], keep);
    }
  }

  lemma {:induction false} KeepTrimEnd(s: string, keep: char -> bool)
    requires forall c | IsSpace(c) :: !keep(c)
    ensures Keep(TrimEnd(s), keep) == Keep(s, keep)
  {
    if s != "" && IsSpace(s[|s| - 1]) {
      KeepTrimEnd(s[..|s| - 1], keep);
      assert s == s[..|s| - 1] + [s[|s| - 1]];
      KeepConcat(s[..|s| - 1], [s[|s| - 1]], keep);
      assert Keep([s[|s| - 1]], keep) == "";
    }
  }

  /** Trimming removes nothing that a filter without white space would keep. */
  lemma KeepTrim(s: string, keep: char -> bool)
    requires forall c | IsSpace(c) :: !keep(c)
    ensures Keep(Trim(s), keep) == Keep(s, keep)
  {
    KeepTrimStart(s, keep);
    KeepTrimEnd(TrimStart(s), keep);
  }

  lemma {:induction false} KeepDigitsOfUpper(s: string)
    ensures Keep(Upper(s), IsDigit) == Keep(s, IsDigit)
  {
    if s != "" {
      KeepDigitsOfUpper(s[1..]);
      assert Upper(s)[1..] == Upper(s[1..]);
    }
  }
}
