/**
  The string operations the core relies on, over ASCII: JavaScript's
  `startsWith`, `toLowerCase` and `Array.join`, and Python's `startswith`,
  `str.replace` of one character, `split(',')[0]` and `str.title`.
 */
module Text {

  predicate StartsWith(s: string, prefix: string)
  {
    prefix <= s
  }

  predicate IsUpper(c: char) { 'A' <= c <= 'Z' }

  predicate IsLower(c: char) { 'a' <= c <= 'z' }

  predicate IsLetter(c: char) { IsUpper(c) || IsLower(c) }

  function ToUpper(c: char): (r: char)
    ensures IsLetter(c) ==> IsUpper(r)
    ensures !IsLower(c) ==> r == c
  {
    if IsLower(c) then (c as int - 'a' as int + 'A' as int) as char else c
  }

  function ToLower(c: char): (r: char)
    ensures IsLetter(c) ==> IsLower(r)
    ensures !IsUpper(c) ==> r == c
  {
    if IsUpper(c) then (c as int - 'A' as int + 'a' as int) as char else c
  }

  /** JavaScript `s.toLowerCase()` restricted to ASCII letters. */
  function Lower(s: string): (r: string)
    ensures |r| == |s|
    ensures forall i :: 0 <= i < |s| ==> r[i] == ToLower(s[i])
  {
    if s == [] then [] else [ToLower(s[0])] + Lower(s[1..])
  }

  /** Python `s.replace(a, b)` for single characters. */
  function Replace(s: string, a: char, b: char): (r: string)
    ensures |r| == |s|
    ensures forall i :: 0 <= i < |s| ==> r[i] == if s[i] == a then b else s[i]
  {
    if s == [] then [] else [if s[0] == a then b else s[0]] + Replace(s[1..], a, b)
  }

  /** Python `s.split(',')[0]`: the text before the first comma, or all of s. */
  function BeforeComma(s: string): (r: string)
    ensures r <= s
    ensures ',' !in r
    ensures r == s || s[|r|] == ','
  {
    if s == [] then []
    else if s[0] == ',' then []
    else [s[0]] + BeforeComma(s[1..])
  }

  /**
    Python `str.title` over ASCII, as CPython writes it: walk the string with
    a flag saying whether the previous character was a letter; a letter is
    lower-cased after a letter and upper-cased otherwise; any other character
    is copied and clears the flag.
   */
  function TitleFrom(s: string, previousIsCased: bool): (r: string)
    ensures |r| == |s|
  {
    if s == [] then []
    else
      var c := s[0];
      var d := if !IsLetter(c) then c else if previousIsCased then ToLower(c) else ToUpper(c);
      [d] + TitleFrom(s[1..], IsLetter(c))
  }

  /** Python `str.title`: one output character per input character. */
  function Title(s: string): (r: string)
    ensures |r| == |s|
  {
    TitleFrom(s, false)
  }

  /** What `str.title` puts at position i of s: the position-wise statement of the rule. */
  function TitleCharAt(s: string, i: nat): char
    requires i < |s|
  {
    if !IsLetter(s[i]) then s[i]
    else if i > 0 && IsLetter(s[i - 1]) then ToLower(s[i])
    else ToUpper(s[i])
  }

  /** A string already in title case: letters start upper-case after a non-letter and are lower-case after a letter. */
  predicate IsTitleCased(s: string)
  {
    forall i :: 0 <= i < |s| ==>
      (IsLetter(s[i]) && (i == 0 || !IsLetter(s[i - 1])) ==> IsUpper(s[i])) &&
      (IsLetter(s[i]) && i > 0 && IsLetter(s[i - 1]) ==> IsLower(s[i]))
  }

  lemma {:induction false} TitleFromAt(s: string, previousIsCased: bool, i: nat)
    requires i < |s|
    ensures TitleFrom(s, previousIsCased)[i] ==
      if !IsLetter(s[i]) then s[i]
      else if (if i == 0 then previousIsCased else IsLetter(s[i - 1])) then ToLower(s[i])
      else ToUpper(s[i])
  {
    if i > 0 {
      TitleFromAt(s[1..], IsLetter(s[0]), i - 1);
      assert s[1..][i - 1] == s[i];
      if i > 1 { assert s[1..][i - 2] == s[i - 1]; }
    }
  }

  /** `str.title` keeps the length and follows the position-wise rule at every index. */
  lemma {:induction false} TitleSpec(s: string)
    ensures |Title(s)| == |s|
    ensures forall i :: 0 <= i < |s| ==> Title(s)[i] == TitleCharAt(s, i)
  {
    forall i | 0 <= i < |s| ensures Title(s)[i] == TitleCharAt(s, i) {
      TitleFromAt(s, false, i);
    }
  }

  /** Title-casing leaves letters letters and non-letters unchanged, so its output is title-cased. */
  lemma {:induction false} TitleIsTitleCased(s: string)
    ensures IsTitleCased(Title(s))
    ensures forall i :: 0 <= i < |s| ==> (IsLetter(Title(s)[i]) <==> IsLetter(s[i]))
  {
    TitleSpec(s);
  }

  /** `str.title` is idempotent. */
  lemma {:induction false} TitleIdempotent(s: string)
    ensures Title(Title(s)) == Title(s)
  {
    var t := Title(s);
    TitleSpec(s);
    TitleSpec(t);
    TitleIsTitleCased(s);
    assert |Title(t)| == |t|;
    forall i | 0 <= i < |t| ensures Title(t)[i] == t[i] {
      assert Title(t)[i] == TitleCharAt(t, i);
    }
  }

  /** `xs.join(sep)`. */
  function Join(xs: seq<string>, sep: string): string
  {
    if xs == [] then ""
    else if |xs| == 1 then xs[0]
    else xs[0] + sep + Join(xs[1..], sep)
  }
}
