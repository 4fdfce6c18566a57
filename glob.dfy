/**
 * The part of Redis' KEYS pattern language that the RBAC cache uses: '*' matches any
 * run of characters, ':' included, and every other character matches itself.
 */
module Glob {
  /** The pattern or string holds no '*'. */
  predicate StarFree(s: string)
  {
    forall i :: 0 <= i < |s| ==> s[i] != '*'
  }

  /** The pattern p matches the whole of s. */
  predicate Match(p: string, s: string)
    decreases |p| + |s|
  {
    if |p| == 0 then |s| == 0
    else if p[0] == '*' then Match(p[1..], s) || (|s| > 0 && Match(p, s[1..]))
    else |s| > 0 && p[0] == s[0] && Match(p[1..], s[1..])
  }

  /** A lone '*' matches every string. */
  lemma {:induction false} StarMatchesAll(s: string)
    ensures Match("*", s)
    decreases |s|
  {
    if |s| > 0 {
      StarMatchesAll(s[1..]);
    }
  }

  /** A star-free head of the pattern matches exactly the same head of the string. */
  lemma {:induction false} LiteralHead(x: string, q: string, s: string)
    requires StarFree(x)
    ensures Match(x + q, s) <==> x <= s && Match(q, s[|x|..])
    decreases |x|
  {
    if |x| == 0 {
      assert x + q == q;
      assert s[|x|..] == s;
    } else {
      var p := x + q;
      assert p[0] == x[0] && p[0] != '*';
      assert p[1..] == x[1..] + q;
      if |s| > 0 {
        LiteralHead(x[1..], q, s[1..]);
        if |x| <= |s| {
          assert s[1..][|x| - 1..] == s[|x|..];
        }
        if x <= s {
          assert x[1..] <= s[1..];
        }
        if x[0] == s[0] && x[1..] <= s[1..] {
          assert x <= s;
        }
      }
    }
  }

  /** A star-free pattern matches only itself. */
  lemma LiteralMatchesItself(x: string, s: string)
    requires StarFree(x)
    ensures Match(x, s) <==> x == s
  {
    LiteralHead(x, "", s);
    assert x + "" == x;
  }

  /** A leading '*' lets the rest of the pattern match any tail of the string. */
  lemma {:induction false} StarHead(q: string, s: string)
    ensures Match("*" + q, s) <==> exists i :: 0 <= i <= |s| && Match(q, s[i..])
    decreases |s|
  {
    var p := "*" + q;
    assert p[0] == '*' && p[1..] == q;
    assert s[0..] == s;
    if |s| > 0 {
      StarHead(q, s[1..]);
      if i :| 0 <= i <= |s| && Match(q, s[i..]) {
        if i > 0 {
          assert s[1..][i - 1..] == s[i..];
        }
      }
      if Match(p, s[1..]) {
        var j :| 0 <= j <= |s[1..]| && Match(q, s[1..][j..]);
        assert s[1..][j..] == s[j + 1..];
      }
    }
  }

  /** A pattern '*' + x, with x star-free, matches exactly the strings that end in x. */
  lemma StarThenLiteral(x: string, s: string)
    requires StarFree(x)
    ensures Match("*" + x, s) <==> exists i :: 0 <= i <= |s| && s[i..] == x
  {
    StarHead(x, s);
    forall i | 0 <= i <= |s|
      ensures Match(x, s[i..]) <==> s[i..] == x
    {
      LiteralMatchesItself(x, s[i..]);
    }
  }

  /** x occurs in s. */
  predicate Occurs(x: string, s: string)
  {
    exists i :: 0 <= i <= |s| && x <= s[i..]
  }

  /** A pattern '*' + x + '*', with x star-free, matches exactly the strings in which x occurs. */
  lemma StarLiteralStar(x: string, s: string)
    requires StarFree(x)
    ensures Match("*" + x + "*", s) <==> Occurs(x, s)
  {
    assert "*" + x + "*" == "*" + (x + "*");
    StarHead(x + "*", s);
    forall i | 0 <= i <= |s|
      ensures Match(x + "*", s[i..]) <==> x <= s[i..]
    {
      LiteralThenStar(x, s[i..]);
    }
  }

  /** A pattern x + '*', with x star-free, matches exactly the strings that start with x. */
  lemma LiteralThenStar(x: string, t: string)
    requires StarFree(x)
    ensures Match(x + "*", t) <==> x <= t
  {
    LiteralHead(x, "*", t);
    if x <= t {
      StarMatchesAll(t[|x|..]);
    }
  }
}
