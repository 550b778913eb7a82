/** Letter case. .NET's Unicode ToLower/ToUpper is replaced by a table that
    covers the Latin and Cyrillic alphabets the library works on (Russian letters,
    Ё, and the Ukrainian Є, І, Ї, Ґ); every other character is its own upper and
    lower case. */
module NCLStr {

  function LowerChar(c: char): char {
    if 'A' <= c <= 'Z' then (c as int + 0x20) as char
    else if '\U{0400}' <= c <= '\U{040F}' then (c as int + 0x50) as char   // Ѐ..Џ, holds Ё Є І Ї
    else if '\U{0410}' <= c <= '\U{042F}' then (c as int + 0x20) as char   // А..Я
    else if c == '\U{0490}' then '\U{0491}'                                // Ґ
    else c
  }

  function UpperChar(c: char): char {
    if 'a' <= c <= 'z' then (c as int - 0x20) as char
    else if '\U{0430}' <= c <= '\U{044F}' then (c as int - 0x20) as char   // а..я
    else if '\U{0450}' <= c <= '\U{045F}' then (c as int - 0x50) as char   // ѐ..џ
    else if c == '\U{0491}' then '\U{0490}'                                // ґ
    else c
  }

  /** NCLStr.isLowerCase on a one-letter string: the letter is unchanged by
      lower-casing. Digits, punctuation and apostrophes count as lower case. */
  predicate IsLowerCase(c: char) {
    c == LowerChar(c)
  }

  function ToLower(s: string): (r: string)
    ensures |r| == |s|
    ensures forall i :: 0 <= i < |s| ==> r[i] == LowerChar(s[i])
  {
    if s == [] then [] else [LowerChar(s[0])] + ToLower(s[1..])
  }

  function ToUpper(s: string): (r: string)
    ensures |r| == |s|
    ensures forall i :: 0 <= i < |s| ==> r[i] == UpperChar(s[i])
  {
    if s == [] then [] else [UpperChar(s[0])] + ToUpper(s[1..])
  }

  /** Lower-casing twice is lower-casing once. */
  lemma LowerCharIdempotent(c: char)
    ensures LowerChar(LowerChar(c)) == LowerChar(c)
  {
  }

  /** A letter that lower-casing changes is recovered by upper-casing. */
  lemma UpperUndoesLower(c: char)
    ensures !IsLowerCase(c) ==> UpperChar(LowerChar(c)) == c
  {
  }

  /** The result of upper-casing is never changed by upper-casing again. */
  lemma UpperCharIdempotent(c: char)
    ensures UpperChar(UpperChar(c)) == UpperChar(c)
  {
  }

  lemma {:induction false} ToLowerIdempotent(s: string)
    ensures ToLower(ToLower(s)) == ToLower(s)
  {
    forall i | 0 <= i < |s| ensures ToLower(ToLower(s))[i] == ToLower(s)[i] {
      LowerCharIdempotent(s[i]);
    }
  }
}
