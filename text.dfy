/**
 * Text handling shared by the document chatbot (JavaScript) and the cargo
 * responder (Python): lower-casing, accent stripping, trimming, substring
 * search, decimal rendering of counts and joining of phrases.
 *
 * Unicode is modelled over Latin-1: upper-case ASCII and Latin-1 letters are
 * lowered, the Latin-1 letters that have a canonical decomposition are
 * reduced to their base letter, and combining marks (U+0300..U+036F) are
 * dropped, which is what NFD followed by removal of that range does to them.
 */
module Text {

  predicate IsDigit(c: char) { '0' <= c <= '9' }

  /** Letters that String.prototype.toLowerCase and str.lower change in the model. */
  predicate IsUpper(c: char) {
    ('A' <= c <= 'Z') || ('\U{00C0}' <= c <= '\U{00DE}' && c != '\U{00D7}')
  }

  function LowerChar(c: char): char {
    if IsUpper(c) then (c as int + 32) as char else c
  }

  function ToLower(s: string): string {
    if s == [] then [] else [LowerChar(s[0])] + ToLower(s[1..])
  }

  /** Lower-casing maps every character and leaves no upper-case letter. */
  lemma {:induction false} ToLowerChars(s: string)
    ensures |ToLower(s)| == |s|
    ensures forall i :: 0 <= i < |s| ==> ToLower(s)[i] == LowerChar(s[i]) && !IsUpper(ToLower(s)[i])
  {
    if s != [] {
      ToLowerChars(s[1..]);
    }
  }

  /** The combining diacritical marks that the source removes after NFD. */
  predicate IsCombiningMark(c: char) { '\U{0300}' <= c <= '\U{036F}' }

  /** Base letter of a lower-case Latin-1 letter with a canonical decomposition. */
  function BaseLetter(c: char): char {
    if 'à' <= c <= 'å' then 'a'
    else if c == 'ç' then 'c'
    else if 'è' <= c <= 'ë' then 'e'
    else if 'ì' <= c <= 'ï' then 'i'
    else if c == 'ñ' then 'n'
    else if 'ò' <= c <= 'ö' then 'o'
    else if 'ù' <= c <= 'ü' then 'u'
    else if c == 'ý' || c == 'ÿ' then 'y'
    else c
  }

  /** NFD followed by deleting every combining mark. */
  function StripAccents(s: string): string {
    if s == [] then []
    else (if IsCombiningMark(s[0]) then [] else [BaseLetter(s[0])]) + StripAccents(s[1..])
  }

  /** The characters String.prototype.trim removes (WhiteSpace and LineTerminator). */
  predicate IsWhitespace(c: char) {
    c == ' ' || c == '\t' || c == '\n' || c == '\r' || c == '\U{000B}' || c == '\U{000C}'
    || c == '\U{00A0}' || c == '\U{1680}' || ('\U{2000}' <= c <= '\U{200A}')
    || c == '\U{2028}' || c == '\U{2029}' || c == '\U{202F}' || c == '\U{205F}'
    || c == '\U{3000}' || c == '\U{FEFF}'
  }

  function TrimStart(s: string): string {
    if |s| > 0 && IsWhitespace(s[0]) then TrimStart(s[1..]) else s
  }

  function TrimEnd(s: string): string {
    if |s| > 0 && IsWhitespace(s[|s| - 1]) then TrimEnd(s[..|s| - 1]) else s
  }

  function Trim(s: string): string { TrimEnd(TrimStart(s)) }

  /** The shape every normalised text has. */
  predicate IsNormalized(s: string) {
    && (forall i :: 0 <= i < |s| ==> !IsUpper(s[i]) && !IsCombiningMark(s[i]) && BaseLetter(s[i]) == s[i])
    && (|s| > 0 ==> !IsWhitespace(s[0]) && !IsWhitespace(s[|s| - 1]))
  }

  /**
   * normalizeText of the chatbot: lower-case, NFD, drop combining marks, trim.
   * Its early return of "" for an empty text is what the pipeline gives for
   * "" anyway, so it needs no branch here.
   */
  function Normalize(s: string): string {
    Trim(StripAccents(ToLower(s)))
  }

  /** A normalised text is in normal form and no longer than the original. */
  lemma {:induction false} NormalizeShape(s: string)
    ensures IsNormalized(Normalize(s)) && |Normalize(s)| <= |s|
    ensures s == "" ==> Normalize(s) == ""
  {
    var lowered := ToLower(s);
    ToLowerChars(s);
    LowerStripped(lowered);
    var stripped := StripAccents(lowered);
    var a := TrimKeeps(stripped);
    var t := Trim(stripped);
    forall i | 0 <= i < |t|
      ensures !IsUpper(t[i]) && !IsCombiningMark(t[i]) && BaseLetter(t[i]) == t[i]
    {
      assert t[i] == stripped[a + i];
    }
  }

  /**
   * normalize_text of the cargo responder: lower-case, strip, then
   * transliterate (unidecode). Only the accent removal of unidecode is
   * modelled: letters it spells out in several characters (such as ß or æ)
   * are kept as they are.
   */
  function NormalizePy(s: string): string {
    StripAccents(Trim(ToLower(s)))
  }

  /** The cargo responder's normal form has no upper case, accent or mark. */
  lemma {:induction false} NormalizePyShape(s: string)
    ensures forall i :: 0 <= i < |NormalizePy(s)| ==>
      !IsUpper(NormalizePy(s)[i]) && !IsCombiningMark(NormalizePy(s)[i]) && BaseLetter(NormalizePy(s)[i]) == NormalizePy(s)[i]
    ensures |NormalizePy(s)| <= |s| && (s == "" ==> NormalizePy(s) == "")
  {
    var lowered := ToLower(s);
    ToLowerChars(s);
    var a := TrimKeeps(lowered);
    forall i | 0 <= i < |Trim(lowered)| ensures !IsUpper(Trim(lowered)[i]) {
      assert Trim(lowered)[i] == lowered[a + i];
    }
    LowerStripped(Trim(lowered));
  }

  // ---------------------------------------------------------------------------
  // Facts about the pieces

  lemma {:induction false} LowerStripped(s: string)
    requires forall i :: 0 <= i < |s| ==> !IsUpper(s[i])
    ensures var r := StripAccents(s);
      |r| <= |s| &&
      forall i :: 0 <= i < |r| ==> !IsUpper(r[i]) && !IsCombiningMark(r[i]) && BaseLetter(r[i]) == r[i]
  {
    if s != [] {
      LowerStripped(s[1..]);
    }
  }

  /** Trimming removes whitespace at both ends and keeps a contiguous slice. */
  lemma {:induction false} TrimStartSlice(s: string) returns (a: nat)
    ensures a <= |s| && TrimStart(s) == s[a..]
    ensures |TrimStart(s)| > 0 ==> !IsWhitespace(TrimStart(s)[0])
  {
    if |s| > 0 && IsWhitespace(s[0]) {
      var a' := TrimStartSlice(s[1..]);
      a := a' + 1;
    } else {
      a := 0;
    }
  }

  lemma {:induction false} TrimEndSlice(s: string) returns (b: nat)
    ensures b <= |s| && TrimEnd(s) == s[..b]
    ensures |TrimEnd(s)| > 0 ==> !IsWhitespace(TrimEnd(s)[|TrimEnd(s)| - 1])
  {
    if |s| > 0 && IsWhitespace(s[|s| - 1]) {
      b := TrimEndSlice(s[..|s| - 1]);
    } else {
      b := |s|;
    }
  }

  lemma {:induction false} TrimKeeps(s: string) returns (a: nat)
    ensures a + |Trim(s)| <= |s|
    ensures forall i :: 0 <= i < |Trim(s)| ==> Trim(s)[i] == s[a + i]
    ensures |Trim(s)| > 0 ==> !IsWhitespace(Trim(s)[0]) && !IsWhitespace(Trim(s)[|Trim(s)| - 1])
  {
    a := TrimStartSlice(s);
    var b := TrimEndSlice(TrimStart(s));
    assert Trim(s) == s[a..a + b];
    if |Trim(s)| > 0 {
      assert Trim(s)[0] == TrimStart(s)[0];
    }
  }

  /** A text without upper case, accents, marks or edge whitespace is left alone. */
  lemma {:induction false} StripAccentsFixed(s: string)
    requires forall i :: 0 <= i < |s| ==> !IsCombiningMark(s[i]) && BaseLetter(s[i]) == s[i]
    ensures StripAccents(s) == s
  {
    if s != [] {
      StripAccentsFixed(s[1..]);
    }
  }

  lemma {:induction false} NormalizedFixed(s: string)
    requires IsNormalized(s)
    ensures Normalize(s) == s
  {
    ToLowerChars(s);
    assert ToLower(s) == s;
    StripAccentsFixed(s);
    assert TrimStart(s) == s;
    assert TrimEnd(s) == s;
  }

  /** Normalising twice is normalising once. */
  lemma {:induction false} NormalizeIdempotent(s: string)
    ensures Normalize(Normalize(s)) == Normalize(s)
  {
    NormalizeShape(s);
    NormalizedFixed(Normalize(s));
  }

  // ---------------------------------------------------------------------------
  // Substring search: JavaScript `includes` and Python `in` on strings

  predicate OccursAt(s: string, k: string, i: int) {
    0 <= i && i + |k| <= |s| && s[i..i + |k|] == k
  }

  predicate Contains(s: string, k: string) {
    exists i | 0 <= i <= |s| - |k| :: OccursAt(s, k, i)
  }

  /** Some word of the list occurs in the text (`words.some(w => text.includes(w))`, `any(w in text ...)`). */
  predicate MentionsAny(text: string, words: seq<string>) {
    exists i :: 0 <= i < |words| && Contains(text, words[i])
  }

  /** Every character of a found key occurs in the text. */
  lemma {:induction false} ContainsChar(s: string, k: string, j: nat)
    requires Contains(s, k) && j < |k|
    ensures k[j] in s
  {
    var i :| 0 <= i <= |s| - |k| && OccursAt(s, k, i);
    assert s[i..i + |k|][j] == k[j];
  }

  /** A key that holds a character the text lacks is not found. */
  lemma {:induction false} MissingChar(s: string, k: string, c: char)
    requires c in k && c !in s
    ensures !Contains(s, k)
  {
    if Contains(s, k) {
      var j :| 0 <= j < |k| && k[j] == c;
      ContainsChar(s, k, j);
    }
  }

  /** Finding a phrase finds every part of it. */
  lemma {:induction false} ContainsInfix(s: string, a: string, k: string, b: string)
    requires Contains(s, a + k + b)
    ensures Contains(s, k)
  {
    var w := a + k + b;
    var i :| 0 <= i <= |s| - |w| && OccursAt(s, w, i);
    assert s[i..i + |w|] == w;
    forall t | 0 <= t < |k| ensures s[i + |a| + t] == k[t] {
      assert s[i + |a| + t] == s[i..i + |w|][|a| + t] == w[|a| + t];
    }
    assert s[i + |a|..i + |a| + |k|] == k;
    assert OccursAt(s, k, i + |a|);
  }

  lemma {:induction false} ContainsPart(a: string, k: string, b: string)
    ensures Contains(a + k + b, k)
  {
    assert (a + k + b)[|a|..|a| + |k|] == k;
    assert OccursAt(a + k + b, k, |a|);
  }

  /** Text found in s is still found once s is wrapped. */
  lemma {:induction false} ContainsWithin(s: string, k: string, a: string, b: string)
    requires Contains(s, k)
    ensures Contains(a + s + b, k)
  {
    var i :| 0 <= i <= |s| - |k| && OccursAt(s, k, i);
    var w := a + s + b;
    forall t | 0 <= t < |k| ensures w[|a| + i + t] == k[t] {
      assert w[|a| + i + t] == s[i + t] == s[i..i + |k|][t];
    }
    assert w[|a| + i..|a| + i + |k|] == k;
    assert OccursAt(w, k, |a| + i);
  }

  // ---------------------------------------------------------------------------
  // Decimal rendering of counts (template-literal interpolation of a number)

  function DigitChar(d: nat): char
    requires d < 10
  {
    ('0' as int + d) as char
  }

  function NatToString(n: nat): (r: string)
    ensures |r| > 0 && forall i :: 0 <= i < |r| ==> IsDigit(r[i])
    ensures n >= 10 ==> r[0] != '0'
  {
    if n < 10 then [DigitChar(n)] else NatToString(n / 10) + [DigitChar(n % 10)]
  }

  function DigitValue(c: char): nat
    requires IsDigit(c)
  {
    c as int - '0' as int
  }

  function ParseDigits(s: string): nat
    requires forall i :: 0 <= i < |s| ==> IsDigit(s[i])
  {
    if s == [] then 0 else 10 * ParseDigits(s[..|s| - 1]) + DigitValue(s[|s| - 1])
  }

  /** Reading back the decimal text of a count gives the count. */
  lemma {:induction false} NatToStringRoundTrip(n: nat)
    ensures ParseDigits(NatToString(n)) == n
  {
    var r := NatToString(n);
    if n >= 10 {
      NatToStringRoundTrip(n / 10);
      assert r[..|r| - 1] == NatToString(n / 10);
    }
  }

  /** Array.prototype.join / str.join. */
  function Join(parts: seq<string>, sep: string): string {
    if |parts| == 0 then ""
    else if |parts| == 1 then parts[0]
    else parts[0] + sep + Join(parts[1..], sep)
  }
}
