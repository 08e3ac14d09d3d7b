/** Shell-style name patterns (`fnmatch`, `glob`) with `*` as the one
    wildcard: `*` matches any run of characters, `/` and a leading `.`
    included, as in `fnmatch`; every other character, `?` and `[` among
    them, matches itself. */
module Glob {
  import opened PyStr

  /** `fnmatch(t, p)` */
  predicate Match(p: string, t: string)
    decreases |p|, |t|
  {
    if |p| == 0 then |t| == 0
    else if p[0] == '*' then Match(p[1..], t) || (|t| > 0 && Match(p, t[1..]))
    else |t| > 0 && t[0] == p[0] && Match(p[1..], t[1..])
  }

  predicate StarFree(p: string) {
    '*' !in p
  }

  /** A pattern without `*` matches only itself. */
  lemma {:induction false} MatchLiteral(q: string, t: string)
    requires StarFree(q)
    ensures Match(q, t) <==> t == q
    decreases |q|
  {
    if |q| > 0 {
      assert q[0] in q;
      if |t| > 0 {
        MatchLiteral(q[1..], t[1..]);
        assert t == [t[0]] + t[1..];
        assert q == [q[0]] + q[1..];
      }
    }
  }

  /** A leading `*` before a literal tail: the name ends with the tail. */
  lemma {:induction false} MatchStarLiteral(q: string, t: string)
    requires StarFree(q)
    ensures Match("*" + q, t) <==> EndsWith(t, q)
    decreases |t|
  {
    var p := "*" + q;
    assert p[1..] == q;
    MatchLiteral(q, t);
    if |t| > 0 {
      MatchStarLiteral(q, t[1..]);
      if EndsWith(t[1..], q) {
        assert t[|t| - |q|..] == t[1..][|t[1..]| - |q|..];
      }
      if EndsWith(t, q) && t != q {
        assert t[1..][|t[1..]| - |q|..] == t[|t| - |q|..];
      }
    }
  }

  /** A literal head before a trailing `*`: the name starts with the head. */
  lemma {:induction false} MatchLiteralStar(q: string, t: string)
    requires StarFree(q)
    ensures Match(q + "*", t) <==> StartsWith(t, q)
    decreases |q|
  {
    var p := q + "*";
    if |q| == 0 {
      assert p == "*";
      MatchAnyStar(t);
    } else {
      assert p[0] == q[0] && q[0] in q;
      assert p[1..] == q[1..] + "*";
      if |t| > 0 {
        MatchLiteralStar(q[1..], t[1..]);
        if StartsWith(t, q) {
          assert forall k :: 0 <= k < |q| - 1 ==> t[1..][k] == t[k + 1] == q[k + 1];
          assert t[1..][..|q| - 1] == q[1..];
        }
        if StartsWith(t[1..], q[1..]) && t[0] == q[0] {
          assert t[..|q|] == [t[0]] + t[1..][..|q| - 1];
          assert q == [q[0]] + q[1..];
        }
      }
    }
  }

  /** `*` alone matches every name. */
  lemma {:induction false} MatchAnyStar(t: string)
    ensures Match("*", t)
    decreases |t|
  {
    if |t| > 0 {
      MatchAnyStar(t[1..]);
    }
  }

  /** A leading `*` before any pattern: some suffix of the name matches the rest. */
  lemma {:induction false} MatchStarSplit(q: string, t: string)
    ensures Match("*" + q, t) <==> exists i :: 0 <= i <= |t| && Match(q, t[i..])
    decreases |t|
  {
    var p := "*" + q;
    assert p[1..] == q;
    assert t[0..] == t;
    if |t| > 0 {
      MatchStarSplit(q, t[1..]);
      if Match(p, t[1..]) {
        var j :| 0 <= j <= |t[1..]| && Match(q, t[1..][j..]);
        assert t[1..][j..] == t[j + 1..];
      }
      if exists i :: 0 <= i <= |t| && Match(q, t[i..]) {
        var i :| 0 <= i <= |t| && Match(q, t[i..]);
        if i > 0 {
          assert t[1..][i - 1..] == t[i..];
        }
      }
    }
  }
}
