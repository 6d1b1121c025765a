/** Go's string helpers as the DSL uses them. A string is a sequence of code points,
    so utf8.RuneCountInString is the sequence length. */
module Text {
  /** unicode.IsSpace. */
  predicate IsSpace(c: char) {
    || '\t' <= c <= '\r' || c == ' ' || c == '\U{85}' || c == '\U{A0}' || c == '\U{1680}'
    || '\U{2000}' <= c <= '\U{200A}' || c == '\U{2028}' || c == '\U{2029}' || c == '\U{202F}'
    || c == '\U{205F}' || c == '\U{3000}'
  }

  function TrimLeft(s: string): string {
    if s != [] && IsSpace(s[0]) then TrimLeft(s[1..]) else s
  }

  function TrimRight(s: string): string {
    if s != [] && IsSpace(s[|s| - 1]) then TrimRight(s[..|s| - 1]) else s
  }

  /** strings.TrimSpace. */
  function TrimSpace(s: string): string { TrimRight(TrimLeft(s)) }

  predicate Untrimmed(s: string) { s != [] && (IsSpace(s[0]) || IsSpace(s[|s| - 1])) }

  lemma {:induction false} TrimLeftStarts(s: string)
    ensures |TrimLeft(s)| <= |s| && (TrimLeft(s) == [] || !IsSpace(TrimLeft(s)[0]))
  {
    if s != [] && IsSpace(s[0]) {
      TrimLeftStarts(s[1..]);
    }
  }

  lemma {:induction false} TrimRightEnds(s: string)
    ensures TrimRight(s) <= s && (TrimRight(s) == [] || !IsSpace(TrimRight(s)[|TrimRight(s)| - 1]))
  {
    if s != [] && IsSpace(s[|s| - 1]) {
      TrimRightEnds(s[..|s| - 1]);
    }
  }

  /** Trimming is idempotent, never lengthens, and fixes exactly the trimmed strings. */
  lemma Trim(s: string)
    ensures TrimSpace(TrimSpace(s)) == TrimSpace(s)
    ensures |TrimSpace(s)| <= |s|
    ensures !Untrimmed(TrimSpace(s))
    ensures TrimSpace(s) == s <==> !Untrimmed(s)
  {
    TrimLeftStarts(s);
    TrimRightEnds(TrimLeft(s));
  }

  function Upper(upper: char -> char, s: string): (r: string)
    ensures |r| == |s|
  {
    seq(|s|, i requires 0 <= i < |s| => upper(s[i]))
  }

  /** What strings.ToUpper needs of unicode.ToUpper. */
  ghost predicate UpperLaws(upper: char -> char) {
    forall c :: upper(upper(c)) == upper(c) && (IsSpace(upper(c)) ==> IsSpace(c))
  }

  /** Uppercasing a trimmed string leaves it trimmed, and doing both again changes nothing. */
  lemma UpperTrim(upper: char -> char, s: string)
    requires UpperLaws(upper)
    ensures var t := Upper(upper, TrimSpace(s));
            TrimSpace(t) == t && Upper(upper, t) == t && (t == [] <==> TrimSpace(s) == [])
  {
    Trim(s);
    var t := Upper(upper, TrimSpace(s));
    Trim(t);
    assert Upper(upper, t) == t;
  }

  predicate Occurs(s: string, part: string, i: int) {
    0 <= i <= |s| - |part| && s[i..i + |part|] == part
  }

  /** strings.Contains. */
  predicate Contains(s: string, part: string) {
    exists i :: 0 <= i <= |s| && Occurs(s, part, i)
  }
}
