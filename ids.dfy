/**
 * Identifiers of workspaces, boards, lists, cards and users.
 *
 * The entities use uuid primary keys, so an identifier is a non-empty string made of
 * hexadecimal digits and dashes. The model asks only what the cache keys rely on: an
 * identifier is non-empty and holds neither the key separator ':' nor any of the
 * characters Redis' KEYS treats as glob syntax.
 */
module Ids {
  /** A character that KEYS patterns or the key layout give a meaning to. */
  predicate Special(c: char)
  {
    c == ':' || c == '*' || c == '?' || c == '[' || c == ']' || c == '\\'
  }

  predicate IsId(s: string)
  {
    |s| > 0 && forall i :: 0 <= i < |s| ==> !Special(s[i])
  }

  type Id = s: string | IsId(s) witness "0"
}
