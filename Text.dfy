/** The two string operations order lookup relies on: upper-casing the
    customer's text and Python's substring test `pat in text`. */
module Text {

  /** True when `c` is an ASCII lower-case letter. */
  predicate IsLower(c: char) {
    'a' <= c <= 'z'
  }

  /** True when upper-casing cannot change `s`: it holds no lower-case letter. */
  predicate Caseless(s: string) {
    forall i :: 0 <= i < |s| ==> !IsLower(s[i])
  }

  /** Upper-cases one character (ASCII letters only). */
  function UpperChar(c: char): (u: char)
    ensures !IsLower(u)
    ensures !IsLower(c) ==> u == c
  {
    if IsLower(c) then (c as int - 'a' as int + 'A' as int) as char else c
  }

  /** `str.upper()`, character by character. */
  function Upper(s: string): string {
    if s == [] then [] else [UpperChar(s[0])] + Upper(s[1..])
  }

  /** `pat` occurs in `text` starting at position `i`. */
  predicate OccursAt(text: string, pat: string, i: int) {
    0 <= i <= |text| - |pat| && text[i..i + |pat|] == pat
  }

  /** Substring test: `pat` occurs somewhere in `text` (the empty pattern occurs everywhere). */
  predicate Contains(text: string, pat: string) {
    exists i | 0 <= i <= |text| - |pat| :: OccursAt(text, pat, i)
  }

  /** Upper-casing keeps the length and works position by position. */
  lemma {:induction false} UpperAt(s: string)
    ensures |Upper(s)| == |s|
    ensures forall i :: 0 <= i < |s| ==> Upper(s)[i] == UpperChar(s[i])
  {
    if s != [] {
      UpperAt(s[1..]);
    }
  }

  /** The result of upper-casing holds no lower-case letter. */
  lemma {:induction false} UpperIsCaseless(s: string)
    ensures Caseless(Upper(s))
  {
    UpperAt(s);
  }

  /** A string without lower-case letters is left as it is. */
  lemma {:induction false} UpperKeepsCaseless(s: string)
    requires Caseless(s)
    ensures Upper(s) == s
  {
    UpperAt(s);
  }

  /** Upper-casing twice is upper-casing once. */
  lemma {:induction false} UpperIdempotent(s: string)
    ensures Upper(Upper(s)) == Upper(s)
  {
    UpperIsCaseless(s);
    UpperKeepsCaseless(Upper(s));
  }

  /** A pattern without lower-case letters that occurs in `s` still occurs once
      `s` is upper-cased: the case of the surrounding text does not matter. */
  lemma ContainsSurvivesUpper(s: string, pat: string)
    requires Caseless(pat) && Contains(s, pat)
    ensures Contains(Upper(s), pat)
  {
    var i :| 0 <= i <= |s| - |pat| && OccursAt(s, pat, i);
    UpperAt(s);
    assert Upper(s)[i..i + |pat|] == pat;
    assert OccursAt(Upper(s), pat, i);
  }

  /** A string occurs at the end of any concatenation it closes. */
  lemma ContainsEnd(a: string, pat: string)
    ensures Contains(a + pat, pat)
  {
    assert OccursAt(a + pat, pat, |a|);
  }

  /** Appending text keeps every occurrence. */
  lemma ContainsExtend(a: string, pat: string, b: string)
    requires Contains(a, pat)
    ensures Contains(a + b, pat)
  {
    var i :| 0 <= i <= |a| - |pat| && OccursAt(a, pat, i);
    assert OccursAt(a + b, pat, i);
  }

  /** A string that occurs in a substring of `text` occurs in `text`. */
  lemma ContainsTransitive(text: string, mid: string, pat: string)
    requires Contains(text, mid) && Contains(mid, pat)
    ensures Contains(text, pat)
  {
    var i :| 0 <= i <= |text| - |mid| && OccursAt(text, mid, i);
    var j :| 0 <= j <= |mid| - |pat| && OccursAt(mid, pat, j);
    forall k | 0 <= k < |pat|
      ensures text[i + j + k] == pat[k]
    {
      assert text[i..i + |mid|][j + k] == mid[j + k];
      assert mid[j..j + |pat|][k] == pat[k];
    }
    assert text[i + j..i + j + |pat|] == pat;
    assert OccursAt(text, pat, i + j);
  }

  /** The fragments of an f-string joined in order, with nothing between them. */
  function Concat(parts: seq<string>): string {
    if parts == [] then [] else Concat(parts[..|parts| - 1]) + parts[|parts| - 1]
  }

  /** Every fragment occurs, verbatim, in the joined text. */
  lemma {:induction false} ConcatContainsPart(parts: seq<string>, k: nat)
    requires k < |parts|
    ensures Contains(Concat(parts), parts[k])
  {
    var init := parts[..|parts| - 1];
    if k == |parts| - 1 {
      ContainsEnd(Concat(init), parts[k]);
    } else {
      ConcatContainsPart(init, k);
      ContainsExtend(Concat(init), parts[k], parts[|parts| - 1]);
    }
  }
}
