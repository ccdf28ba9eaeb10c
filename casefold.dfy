/**
 * The bio test of main.py: `BIO_KEYWORD.casefold() not in user_bio.casefold()`.
 * Case folding is modelled on ASCII letters (upper case to lower case);
 * `in` on strings is substring containment.
 */
module CaseFolding {

  function FoldChar(c: char): (d: char)
    ensures 'A' <= c <= 'Z' ==> 'a' <= d <= 'z' && d as int - c as int == 32
    ensures !('A' <= c <= 'Z') ==> d == c
  {
    if 'A' <= c <= 'Z' then (c as int + 32) as char else c
  }

  /** Folds every character of `s`, keeping its length. */
  function CaseFold(s: string): (r: string)
    ensures |r| == |s|
    ensures forall i :: 0 <= i < |s| ==> r[i] == FoldChar(s[i])
  {
    seq(|s|, i requires 0 <= i < |s| => FoldChar(s[i]))
  }

  /** Folding twice is folding once. */
  lemma CaseFoldIdempotent(s: string)
    ensures CaseFold(CaseFold(s)) == CaseFold(s)
  {
    var once := CaseFold(s);
    forall i | 0 <= i < |s| ensures CaseFold(once)[i] == once[i] {
      assert !('A' <= once[i] <= 'Z');
    }
  }

  /** `needle` occurs in `hay` starting at index `i`. */
  ghost predicate OccursAt(needle: string, hay: string, i: int) {
    0 <= i && i + |needle| <= |hay| && hay[i..i + |needle|] == needle
  }

  /** Python's `needle in hay` for strings: true iff `needle` occurs somewhere in `hay`. */
  function IsSubstring(needle: string, hay: string): (r: bool)
    ensures r <==> exists i :: OccursAt(needle, hay, i)
    decreases |hay|
  {
    if |needle| > |hay| then
      assert forall i :: !OccursAt(needle, hay, i);
      false
    else if hay[..|needle|] == needle then
      assert OccursAt(needle, hay, 0);
      true
    else
      OccursShift(needle, hay);
      IsSubstring(needle, hay[1..])
  }

  /** An occurrence past the first index is an occurrence in the tail, and there is none at 0. */
  lemma OccursShift(needle: string, hay: string)
    requires |needle| <= |hay| && hay[..|needle|] != needle
    ensures (exists i :: OccursAt(needle, hay, i)) <==> (exists j :: OccursAt(needle, hay[1..], j))
  {
    forall i | OccursAt(needle, hay, i) ensures OccursAt(needle, hay[1..], i - 1) {
      assert i != 0;
      assert hay[1..][i - 1..i - 1 + |needle|] == hay[i..i + |needle|];
    }
    forall j | OccursAt(needle, hay[1..], j) ensures OccursAt(needle, hay, j + 1) {
      assert hay[1..][j..j + |needle|] == hay[j + 1..j + 1 + |needle|];
    }
  }

  /** The containment test is insensitive to case: any occurrence of the needle in the hay survives folding. */
  lemma FoldPreservesOccurrence(needle: string, hay: string, i: int)
    requires OccursAt(needle, hay, i)
    ensures OccursAt(CaseFold(needle), CaseFold(hay), i)
  {
    var fn, fh := CaseFold(needle), CaseFold(hay);
    forall j | 0 <= j < |needle| ensures fh[i..i + |needle|][j] == fn[j] {
      assert hay[i..i + |needle|][j] == needle[j];
    }
  }
}
