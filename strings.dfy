/** Facts about colon-separated strings, shared by permission names and cache keys. */
module Strings {

  /** The string holds no ':' separator. */
  predicate ColonFree(s: string)
  {
    forall i :: 0 <= i < |s| ==> s[i] != ':'
  }

  /** In x + ":" + r with x colon-free, no ':' comes before position |x|. */
  lemma FirstColon(x: string, r: string, i: int)
    requires ColonFree(x)
    requires 0 <= i <= |x| && (x + ":" + r)[i] == ':'
    ensures i == |x|
  {
  }

  /** The only ':' in x + ":" + y, for colon-free x and y, is the one between them. */
  lemma OnlyColon(x: string, y: string, i: int)
    requires ColonFree(x) && ColonFree(y)
    requires 0 <= i < |x + ":" + y| && (x + ":" + y)[i] == ':'
    ensures i == |x|
  {
  }

  /** Splitting at the first ':' is unique: a colon-free head is determined by the string. */
  lemma SplitAtFirstColon(x: string, r: string, y: string, q: string)
    requires ColonFree(x) && ColonFree(y)
    requires x + ":" + r == y + ":" + q
    ensures x == y && r == q
  {
    var s := x + ":" + r;
    if |x| < |y| {
      FirstColon(y, q, |x|);
    } else if |y| < |x| {
      FirstColon(x, r, |y|);
    }
    assert x == s[..|x|];
    assert r == s[|x| + 1..];
  }
}
