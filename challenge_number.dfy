/**
 * `extractChallengeNumber`: the value of the first run of digits in a title,
 * or 0 when there is none or it does not fit in an `Int`.
 */
module ChallengeNumber {
  import opened Decimal
  import Catalog

  /** The largest Swift `Int` on a 64-bit platform; `Int(...)` fails above it. */
  const IntMax: int := 0x7FFF_FFFF_FFFF_FFFF

  predicate NoDigits(s: string) {
    forall i :: 0 <= i < |s| ==> !IsDigit(s[i])
  }

  /** The suffix of `s` that starts at its first digit (empty when there is none). */
  function SkipToDigit(s: string): (rest: string)
    ensures |rest| <= |s| && rest == s[|s| - |rest|..]
    ensures NoDigits(s[..|s| - |rest|])
    ensures rest == [] || IsDigit(rest[0])
    decreases |s|
  {
    if s == [] || IsDigit(s[0]) then s else SkipToDigit(s[1..])
  }

  /** The longest prefix of `s` made of digits. */
  function DigitRun(s: string): (run: string)
    ensures |run| <= |s| && run == s[..|run|] && AllDigits(run)
    ensures |run| < |s| ==> !IsDigit(s[|run|])
    decreases |s|
  {
    if s == [] || !IsDigit(s[0]) then [] else [s[0]] + DigitRun(s[1..])
  }

  /** The regular expression `\d+` matched first, read with `Int(...)`, 0 on no match or overflow. */
  function ExtractChallengeNumber(text: string): (n: int)
    ensures 0 <= n <= IntMax
    ensures NoDigits(text) ==> n == 0
  {
    var rest := SkipToDigit(text);
    if rest == [] then
      0
    else
      var v := ParseDigits(DigitRun(rest));
      if v <= IntMax then v else 0
  }

  /** `text[i..j]` is the first maximal run of digits in `text`. */
  predicate IsFirstRun(text: string, i: int, j: int) {
    && 0 <= i < j <= |text|
    && NoDigits(text[..i])
    && AllDigits(text[i..j])
    && (j < |text| ==> !IsDigit(text[j]))
  }

  /** Skipping to the first digit lands on the digit at `i` when none comes before it. */
  lemma {:induction false} SkipToDigitAt(text: string, i: int)
    requires 0 <= i < |text| && NoDigits(text[..i]) && IsDigit(text[i])
    ensures SkipToDigit(text) == text[i..]
    decreases i
  {
    if i > 0 {
      assert text[..i][0] == text[0];
      var tail := text[1..];
      assert tail[..i - 1] == text[1..i];
      assert tail[i - 1..] == text[i..];
      SkipToDigitAt(tail, i - 1);
    }
  }

  /** The digit run of `s` is `s[..m]` when those are digits and the next character is not one. */
  lemma {:induction false} DigitRunAt(s: string, m: int)
    requires 0 <= m <= |s| && AllDigits(s[..m])
    requires m < |s| ==> !IsDigit(s[m])
    ensures DigitRun(s) == s[..m]
    decreases m
  {
    if m > 0 {
      assert s[..m][0] == s[0];
      var tail := s[1..];
      DigitRunAt(tail, m - 1);
      assert s[..m] == [s[0]] + tail[..m - 1];
    } else if s != [] {
      assert !IsDigit(s[0]);
    }
  }

  /** The extracted number is the value of the first maximal digit run, when it fits in an `Int`. */
  lemma FirstRunExtracted(text: string, i: int, j: int)
    requires IsFirstRun(text, i, j)
    ensures ExtractChallengeNumber(text)
      == (var v := ParseDigits(text[i..j]); if v <= IntMax then v else 0)
  {
    assert text[i..j][0] == text[i];
    SkipToDigitAt(text, i);
    var rest := text[i..];
    assert rest[..j - i] == text[i..j];
    DigitRunAt(rest, j - i);
  }

  /** Reading the popup title built by the tap handler gives back its day. */
  lemma TitleRoundTrip(day: int, text: string)
    requires 0 <= day <= IntMax
    ensures ExtractChallengeNumber(Catalog.Title(day, text)) == day
  {
    var title := Catalog.Title(day, text);
    var digits := Dec(day);
    var j := 10 + |digits|;
    assert title == "Challenge " + digits + ": " + text;
    assert title[..10] == "Challenge ";
    assert title[10..j] == digits;
    assert title[j] == ':';
    FirstRunExtracted(title, 10, j);
  }
}
