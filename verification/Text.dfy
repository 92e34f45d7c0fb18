/**
 Go's string helpers on strings seen as sequences of runes.

 Lower-casing is exact for every rune whose lower case is an ASCII character. Any other rune is left
 alone: its lower case is again outside ASCII, and every function built on this module treats all
 runes outside ASCII alike.
 */
module Text {

  predicate IsSpace(c: char) {
    || '\t' <= c <= '\r' || c == ' ' || c == '\U{85}' || c == '\U{A0}' || c == '\U{1680}'
    || '\U{2000}' <= c <= '\U{200A}' || c == '\U{2028}' || c == '\U{2029}'
    || c == '\U{202F}' || c == '\U{205F}' || c == '\U{3000}'
  }

  function LowerChar(c: char): char {
    if 'A' <= c <= 'Z' then (c as int + 32) as char
    else if c == '\U{130}' then 'i'   // dotted capital I
    else if c == '\U{212A}' then 'k'  // Kelvin sign
    else c
  }

  function Map(s: string, f: char -> char): (r: string)
    ensures |r| == |s| && forall i :: 0 <= i < |s| ==> r[i] == f(s[i])
  {
    if s == "" then "" else Map(s[..|s| - 1], f) + [f(s[|s| - 1])]
  }

  function Lower(s: string): string {
    Map(s, LowerChar)
  }

  function TrimLeft(s: string, cut: char -> bool): (r: string)
    ensures r == "" || !cut(r[0])
    ensures |r| <= |s| && r == s[|s| - |r|..]
  {
    if s != "" && cut(s[0]) then TrimLeft(s[1..], cut) else s
  }

  function TrimRight(s: string, cut: char -> bool): (r: string)
    ensures r == "" || !cut(r[|r| - 1])
    ensures |r| <= |s| && r == s[..|r|]
  {
    if s != "" && cut(s[|s| - 1]) then TrimRight(s[..|s| - 1], cut) else s
  }

  function TrimWith(s: string, cut: char -> bool): (r: string)
    ensures r == "" || (!cut(r[0]) && !cut(r[|r| - 1]))
    ensures forall c :: c in r ==> c in s
  {
    TrimRight(TrimLeft(s, cut), cut)
  }

  /** strings.TrimSpace */
  function Trim(s: string): string {
    TrimWith(s, IsSpace)
  }

  function FoldChar(c: char): char {
    if 'A' <= c <= 'Z' then (c as int + 32) as char
    else if c == '\U{17F}' then 's'   // long s
    else if c == '\U{212A}' then 'k'  // Kelvin sign
    else c
  }

  /** strings.EqualFold, exact for text whose letters fold to ASCII. */
  predicate EqualFold(a: string, b: string) {
    Map(a, FoldChar) == Map(b, FoldChar)
  }

  /** The margins in ASCII text: blank, tab, line feed, vertical tab, form feed and carriage return. */
  lemma AsciiSpaces(c: char)
    requires c as int < 128
    ensures IsSpace(c) <==> c as int in {32, 9, 10, 11, 12, 13}
  {
  }

  /** One letter in two cases, the long s and the Kelvin sign included, or the same rune twice. */
  predicate SameLetter(a: char, b: char) {
    || a == b
    || ('A' <= a <= 'Z' && b as int == a as int + 32) || ('A' <= b <= 'Z' && a as int == b as int + 32)
    || (a in {'S', 's', '\U{17F}'} && b in {'S', 's', '\U{17F}'}) || (a in {'K', 'k', '\U{212A}'} && b in {'K', 'k', '\U{212A}'})
  }

  lemma FoldedRunes(a: char, b: char)
    ensures FoldChar(a) == FoldChar(b) <==> SameLetter(a, b)
  {
  }

  /** Two texts fold alike exactly if they have the same letters in the same places. */
  lemma FoldedTexts(a: string, b: string)
    ensures EqualFold(a, b) <==> |a| == |b| && forall i :: 0 <= i < |a| ==> SameLetter(a[i], b[i])
  {
    forall i | 0 <= i < |a| && i < |b|
      ensures Map(a, FoldChar)[i] == Map(b, FoldChar)[i] <==> SameLetter(a[i], b[i])
    {
      FoldedRunes(a[i], b[i]);
    }
  }

  /** Lower-casing moves A-Z to a-z and leaves all other ASCII alone. */
  lemma LowerRunes(s: string, i: nat)
    requires i < |s|
    ensures |Lower(s)| == |s|
    ensures 'A' <= s[i] <= 'Z' ==> Lower(s)[i] as int == s[i] as int + 32
    ensures s[i] as int < 128 && !('A' <= s[i] <= 'Z') ==> Lower(s)[i] == s[i]
  {
  }

  /** Trimming keeps a contiguous piece. */
  lemma TrimmedPiece(s: string, cut: char -> bool) returns (from: nat)
    ensures from == |s| - |TrimLeft(s, cut)|
    ensures from + |TrimWith(s, cut)| <= |s| && TrimWith(s, cut) == s[from..from + |TrimWith(s, cut)|]
  {
    var left := TrimLeft(s, cut);
    from := |s| - |left|;
  }

  /** And what it takes off both ends is nothing else than margins. */
  lemma TrimmedMargins(s: string, cut: char -> bool) returns (from: nat)
    ensures from + |TrimWith(s, cut)| <= |s| && TrimWith(s, cut) == s[from..from + |TrimWith(s, cut)|]
    ensures forall i :: 0 <= i < |s| && !cut(s[i]) ==> from <= i < from + |TrimWith(s, cut)|
  {
    var left := TrimLeft(s, cut);
    from := TrimmedPiece(s, cut);
    LeftMargin(s, cut);
    RightMargin(left, cut);
    forall i | from <= i < |s| && !cut(s[i])
      ensures i < from + |TrimWith(s, cut)|
    {
      assert s[i] == left[i - from];
    }
  }

  lemma {:induction false} LeftMargin(s: string, cut: char -> bool)
    ensures forall i :: 0 <= i < |s| - |TrimLeft(s, cut)| ==> cut(s[i])
  {
    if s != "" && cut(s[0]) {
      LeftMargin(s[1..], cut);
      assert forall i :: 0 < i < |s| ==> s[i] == s[1..][i - 1];
    }
  }

  lemma {:induction false} RightMargin(s: string, cut: char -> bool)
    ensures forall i :: |TrimRight(s, cut)| <= i < |s| ==> cut(s[i])
  {
    if s != "" && cut(s[|s| - 1]) {
      RightMargin(s[..|s| - 1], cut);
    }
  }

  predicate IsBlank(s: string) {
    Trim(s) == ""
  }

  lemma TrimFixes(s: string, cut: char -> bool)
    requires s == "" || (!cut(s[0]) && !cut(s[|s| - 1]))
    ensures TrimWith(s, cut) == s
  {
  }

  predicate IsPlainChar(c: char) {
    'a' <= c <= 'z' || '0' <= c <= '9' || c == '-'
  }

  lemma PlainCharIsFixed(c: char)
    requires IsPlainChar(c)
    ensures !IsSpace(c) && LowerChar(c) == c
  {
  }

  lemma {:induction false} FixedByMap(s: string, f: char -> char)
    requires forall i :: 0 <= i < |s| ==> f(s[i]) == s[i]
    ensures Map(s, f) == s
  {
  }

  lemma PlainTextHasNoMargin(s: string)
    requires forall i :: 0 <= i < |s| ==> IsPlainChar(s[i])
    ensures Trim(s) == s
  {
    if s != "" {
      PlainCharIsFixed(s[0]);
      PlainCharIsFixed(s[|s| - 1]);
    }
    TrimFixes(s, IsSpace);
  }

  lemma PlainTextIsLower(s: string)
    requires forall i :: 0 <= i < |s| ==> IsPlainChar(s[i])
    ensures Lower(s) == s
  {
    forall i | 0 <= i < |s|
      ensures LowerChar(s[i]) == s[i]
    {
      PlainCharIsFixed(s[i]);
    }
    FixedByMap(s, LowerChar);
  }

  /** Text in lower-case letters, digits and dashes is its own trimmed lower case. */
  lemma PlainTextIsFixed(s: string)
    requires forall i :: 0 <= i < |s| ==> IsPlainChar(s[i])
    ensures Trim(s) == s && Lower(s) == s
  {
    PlainTextHasNoMargin(s);
    PlainTextIsLower(s);
  }
}
