/** The Python 2 string operations the scripts rely on, written out so that
    their edge cases (empty pieces, empty patterns, negative slice bounds)
    are explicit. */
module PyStr {
  import opened Wrappers

  /** `s.startswith(p)` */
  predicate StartsWith(s: string, p: string) {
    |p| <= |s| && s[..|p|] == p
  }

  /** `s.endswith(p)` */
  predicate EndsWith(s: string, p: string) {
    |p| <= |s| && s[|s| - |p|..] == p
  }

  /** `sub` occurs in `s` starting at index `i`. */
  predicate OccursAt(s: string, sub: string, i: int) {
    0 <= i <= |s| - |sub| && s[i..i + |sub|] == sub
  }

  /** `sub in s`: a substring test. */
  predicate Contains(s: string, sub: string) {
    exists i | 0 <= i <= |s| - |sub| :: OccursAt(s, sub, i)
  }

  lemma ContainsPrefix(s: string, p: string)
    requires StartsWith(s, p)
    ensures Contains(s, p)
  {
    assert OccursAt(s, p, 0);
  }

  lemma ContainsSuffix(s: string, p: string)
    requires EndsWith(s, p)
    ensures Contains(s, p)
  {
    assert OccursAt(s, p, |s| - |p|);
  }

  /** A one-character pattern occurs exactly when the character does. */
  lemma ContainsChar(s: string, c: char)
    ensures Contains(s, [c]) <==> c in s
  {
    if c in s {
      var i :| 0 <= i < |s| && s[i] == c;
      assert OccursAt(s, [c], i);
    }
    if Contains(s, [c]) {
      var i :| 0 <= i <= |s| - |[c]| && OccursAt(s, [c], i);
      assert s[i] == s[i..i + 1][0];
    }
  }

  lemma ContainsLeft(a: string, b: string, sub: string)
    requires Contains(a, sub)
    ensures Contains(a + b, sub)
  {
    var i :| 0 <= i <= |a| - |sub| && OccursAt(a, sub, i);
    assert (a + b)[i..i + |sub|] == a[i..i + |sub|];
    assert OccursAt(a + b, sub, i);
  }

  /** `[x for x in xs if keep(x)]`, and the append loops that build the
      same list. */
  function Filter(xs: seq<string>, keep: string -> bool): (r: seq<string>)
    ensures |r| <= |xs|
    decreases |xs|
  {
    if |xs| == 0 then [] else Filter(xs[..|xs| - 1], keep) + (if keep(Last(xs)) then [Last(xs)] else [])
  }

  /** `[x for x in files if pattern in x]`, in listing order. */
  function Containing(files: seq<string>, pattern: string): (r: seq<string>)
    ensures forall x :: x in r <==> x in files && Contains(x, pattern)
    decreases |files|
  {
    if |files| == 0 then []
    else Containing(files[..|files| - 1], pattern) +
         (if Contains(Last(files), pattern) then [Last(files)] else [])
  }

  /** No element appears twice, as in a directory listing. */
  predicate NoDuplicates(xs: seq<string>) {
    forall i, j :: 0 <= i < j < |xs| ==> xs[i] != xs[j]
  }

  /** The list keeps exactly the elements that pass. */
  lemma {:induction false} FilterMembers(xs: seq<string>, keep: string -> bool)
    ensures forall x :: x in Filter(xs, keep) <==> x in xs && keep(x)
    decreases |xs|
  {
    if |xs| > 0 {
      FilterMembers(xs[..|xs| - 1], keep);
      assert xs == xs[..|xs| - 1] + [Last(xs)];
    }
  }

  /** A text that occurs carries its every head with it. */
  lemma ContainsHead(s: string, sub: string, k: nat)
    requires Contains(s, sub) && k <= |sub|
    ensures Contains(s, sub[..k])
  {
    var i :| 0 <= i <= |s| - |sub| && OccursAt(s, sub, i);
    assert s[i..i + k] == s[i..i + |sub|][..k];
    assert OccursAt(s, sub[..k], i);
  }

  /** A text absent from `a + b` is absent from `a`. */
  lemma NotContainsLeft(a: string, b: string, sub: string)
    requires !Contains(a + b, sub)
    ensures !Contains(a, sub)
  {
    forall i | 0 <= i <= |a| - |sub|
      ensures !OccursAt(a, sub, i)
    {
      assert !OccursAt(a + b, sub, i);
      assert (a + b)[i..i + |sub|] == a[i..i + |sub|];
    }
  }

  lemma ContainsRight(a: string, b: string, sub: string)
    requires Contains(b, sub)
    ensures Contains(a + b, sub)
  {
    var i :| 0 <= i <= |b| - |sub| && OccursAt(b, sub, i);
    assert (a + b)[|a| + i..|a| + i + |sub|] == b[i..i + |sub|];
    assert OccursAt(a + b, sub, |a| + i);
  }

  /** A pattern longer than the text never occurs in it. */
  lemma ContainsLonger(s: string, sub: string)
    requires |sub| > |s|
    ensures !Contains(s, sub)
  {
  }

  /** A text occurring inside `sub` shares every character of `sub`. */
  lemma ContainsChars(s: string, sub: string, c: char)
    requires Contains(s, sub) && c in sub
    ensures c in s
  {
    var i :| 0 <= i <= |s| - |sub| && OccursAt(s, sub, i);
    var j :| 0 <= j < |sub| && sub[j] == c;
    assert s[i + j] == sub[j];
  }

  /** `s.split(sep)` for a one-character separator: the pieces between
      separators, always at least one (`"".split("_") == [""]`). */
  function Split(s: string, sep: char): (r: seq<string>)
    ensures |r| >= 1
    decreases |s|
  {
    if |s| == 0 then [""]
    else
      var rest := Split(s[1..], sep);
      if s[0] == sep then [""] + rest else [[s[0]] + rest[0]] + rest[1..]
  }

  /** `sep.join(parts)` */
  function Join(parts: seq<string>, sep: string): string
    decreases |parts|
  {
    if |parts| == 0 then ""
    else if |parts| == 1 then parts[0]
    else parts[0] + sep + Join(parts[1..], sep)
  }

  /** A character of a joined text comes from a piece, or from a separator
      when there are at least two pieces. */
  lemma {:induction false} JoinHasChar(parts: seq<string>, sep: string, c: char)
    ensures c in Join(parts, sep) <==>
            (exists k :: 0 <= k < |parts| && c in parts[k]) || (|parts| >= 2 && c in sep)
    decreases |parts|
  {
    if |parts| > 1 {
      JoinHasChar(parts[1..], sep, c);
      var rest := Join(parts[1..], sep);
      assert Join(parts, sep) == parts[0] + sep + rest;
      if exists k :: 0 <= k < |parts| && c in parts[k] {
        var k :| 0 <= k < |parts| && c in parts[k];
        if k > 0 {
          assert c in parts[1..][k - 1];
        }
      }
      if exists k :: 0 <= k < |parts[1..]| && c in parts[1..][k] {
        var k :| 0 <= k < |parts[1..]| && c in parts[1..][k];
        assert c in parts[k + 1];
      }
    }
  }

  function Last<T>(s: seq<T>): T
    requires |s| > 0
  {
    s[|s| - 1]
  }

  /** No piece of a split holds the separator. */
  lemma {:induction false} SplitPiecesFree(s: string, sep: char)
    ensures forall k :: 0 <= k < |Split(s, sep)| ==> sep !in Split(s, sep)[k]
    decreases |s|
  {
    if |s| > 0 {
      SplitPiecesFree(s[1..], sep);
    }
  }

  /** Joining the pieces of a split with the separator gives the text back. */
  lemma {:induction false} JoinSplit(s: string, sep: char)
    ensures Join(Split(s, sep), [sep]) == s
    decreases |s|
  {
    if |s| > 0 {
      var rest := Split(s[1..], sep);
      JoinSplit(s[1..], sep);
      if s[0] == sep {
        assert Join([""] + rest, [sep]) == "" + [sep] + Join(rest, [sep]) by {
          assert ([""] + rest)[1..] == rest;
        }
      } else if |rest| > 1 {
        var p := [[s[0]] + rest[0]] + rest[1..];
        assert p[1..] == rest[1..];
        assert Join(rest, [sep]) == rest[0] + [sep] + Join(rest[1..], [sep]);
        assert s == [s[0]] + s[1..];
      } else {
        assert s == [s[0]] + s[1..];
      }
    }
  }

  lemma {:induction false} SplitNoSep(p: string, sep: char)
    requires sep !in p
    ensures Split(p, sep) == [p]
    decreases |p|
  {
    if |p| > 0 {
      SplitNoSep(p[1..], sep);
      assert p == [p[0]] + p[1..];
    }
  }

  lemma {:induction false} SplitAtSep(p: string, q: string, sep: char)
    requires sep !in p
    ensures Split(p + [sep] + q, sep) == [p] + Split(q, sep)
    decreases |p|
  {
    var s := p + [sep] + q;
    if |p| == 0 {
      assert s[1..] == q;
    } else {
      assert s[1..] == p[1..] + [sep] + q;
      SplitAtSep(p[1..], q, sep);
      assert p == [p[0]] + p[1..];
    }
  }

  /** Splitting separator-free pieces joined by the separator gives them back. */
  lemma {:induction false} SplitJoin(parts: seq<string>, sep: char)
    requires |parts| >= 1
    requires forall k :: 0 <= k < |parts| ==> sep !in parts[k]
    ensures Split(Join(parts, [sep]), sep) == parts
    decreases |parts|
  {
    if |parts| == 1 {
      SplitNoSep(parts[0], sep);
    } else {
      SplitJoin(parts[1..], sep);
      SplitAtSep(parts[0], Join(parts[1..], [sep]), sep);
      assert parts == [parts[0]] + parts[1..];
    }
  }

  /** `s.replace(pat, rep)`: every non-overlapping occurrence, scanning from
      the left, is replaced; an empty pattern matches around every character. */
  function Replace(s: string, pat: string, rep: string): string
    decreases |s|
  {
    if |pat| == 0 then Interleave(s, rep)
    else if |s| < |pat| then s
    else if s[..|pat|] == pat then rep + Replace(s[|pat|..], pat, rep)
    else [s[0]] + Replace(s[1..], pat, rep)
  }

  /** `s.replace("", rep)` */
  function Interleave(s: string, rep: string): string
    decreases |s|
  {
    if |s| == 0 then rep else rep + [s[0]] + Interleave(s[1..], rep)
  }

  /** A text without the pattern is left as it is. */
  lemma {:induction false} ReplaceAbsent(s: string, pat: string, rep: string)
    requires |pat| > 0 && !Contains(s, pat)
    ensures Replace(s, pat, rep) == s
    decreases |s|
  {
    if |s| >= |pat| {
      assert !OccursAt(s, pat, 0);
      if Contains(s[1..], pat) {
        var i :| 0 <= i <= |s[1..]| - |pat| && OccursAt(s[1..], pat, i);
        assert s[i + 1..i + 1 + |pat|] == s[1..][i..i + |pat|];
        assert OccursAt(s, pat, i + 1);
      }
      ReplaceAbsent(s[1..], pat, rep);
      assert s == [s[0]] + s[1..];
    }
  }

  /** Characters before the first character of the pattern pass unchanged. */
  lemma {:induction false} ReplaceSkip(x: string, y: string, pat: string, rep: string)
    requires |pat| > 0 && pat[0] !in x
    ensures Replace(x + y, pat, rep) == x + Replace(y, pat, rep)
    decreases |x|
  {
    if |x| > 0 {
      var s := x + y;
      assert s[1..] == x[1..] + y;
      ReplaceSkip(x[1..], y, pat, rep);
      if |s| >= |pat| {
        assert s[0] == x[0];
        assert s[..|pat|] != pat;
      }
      assert x == [x[0]] + x[1..];
    } else {
      assert x + y == y;
    }
  }

  /** A pattern at the front is replaced. */
  lemma ReplaceHead(pat: string, rest: string, rep: string)
    requires |pat| > 0
    ensures Replace(pat + rest, pat, rep) == rep + Replace(rest, pat, rep)
  {
    assert (pat + rest)[..|pat|] == pat && (pat + rest)[|pat|..] == rest;
  }

  /** Pieces free of the pattern's first character, joined by the pattern:
      replacing the pattern re-joins them with the replacement. */
  lemma {:induction false} ReplaceJoin(parts: seq<string>, pat: string, rep: string)
    requires |pat| > 0
    requires forall k :: 0 <= k < |parts| ==> pat[0] !in parts[k]
    ensures Replace(Join(parts, pat), pat, rep) == Join(parts, rep)
    decreases |parts|
  {
    if |parts| == 1 {
      ReplaceSkip(parts[0], "", pat, rep);
      assert parts[0] + "" == parts[0];
    } else if |parts| > 1 {
      var rest := Join(parts[1..], pat);
      ReplaceSkip(parts[0], pat + rest, pat, rep);
      ReplaceHead(pat, rest, rep);
      ReplaceJoin(parts[1..], pat, rep);
      assert parts[0] + pat + rest == parts[0] + (pat + rest);
    }
  }

  /** ASCII letters and digits (`str.isalnum` on one character). */
  predicate IsAlnum(c: char) {
    ('a' <= c <= 'z') || ('A' <= c <= 'Z') || ('0' <= c <= '9')
  }

  /** `"".join(e for e in s if e.isalnum())` */
  function AlnumOnly(s: string): (r: string)
    ensures forall k :: 0 <= k < |r| ==> IsAlnum(r[k])
    ensures |r| <= |s|
    decreases |s|
  {
    if |s| == 0 then ""
    else if IsAlnum(s[0]) then [s[0]] + AlnumOnly(s[1..])
    else AlnumOnly(s[1..])
  }

  lemma {:induction false} AlnumOnlyConcat(a: string, b: string)
    ensures AlnumOnly(a + b) == AlnumOnly(a) + AlnumOnly(b)
    decreases |a|
  {
    if |a| > 0 {
      assert (a + b)[1..] == a[1..] + b;
      AlnumOnlyConcat(a[1..], b);
    } else {
      assert a + b == b;
    }
  }

  lemma {:induction false} AlnumOnlyNone(s: string)
    requires forall k :: 0 <= k < |s| ==> !IsAlnum(s[k])
    ensures AlnumOnly(s) == ""
    decreases |s|
  {
    if |s| > 0 {
      AlnumOnlyNone(s[1..]);
    }
  }

  lemma {:induction false} AlnumOnlyAll(s: string)
    requires forall k :: 0 <= k < |s| ==> IsAlnum(s[k])
    ensures AlnumOnly(s) == s
    decreases |s|
  {
    if |s| > 0 {
      AlnumOnlyAll(s[1..]);
      assert s == [s[0]] + s[1..];
    }
  }

  /** Replacing a text of punctuation by punctuation does not change which
      letters and digits remain. */
  lemma {:induction false} AlnumOnlyReplace(s: string, pat: string, rep: string)
    requires |pat| > 0
    requires forall k :: 0 <= k < |pat| ==> !IsAlnum(pat[k])
    requires forall k :: 0 <= k < |rep| ==> !IsAlnum(rep[k])
    ensures AlnumOnly(Replace(s, pat, rep)) == AlnumOnly(s)
    decreases |s|
  {
    if |s| < |pat| {
    } else if s[..|pat|] == pat {
      AlnumOnlyReplace(s[|pat|..], pat, rep);
      AlnumOnlyConcat(rep, Replace(s[|pat|..], pat, rep));
      AlnumOnlyNone(rep);
      AlnumOnlyConcat(pat, s[|pat|..]);
      AlnumOnlyNone(pat);
      assert s == pat + s[|pat|..];
    } else {
      AlnumOnlyReplace(s[1..], pat, rep);
      AlnumOnlyConcat([s[0]], Replace(s[1..], pat, rep));
      AlnumOnlyConcat([s[0]], s[1..]);
      assert s == [s[0]] + s[1..];
    }
  }

  function LowerChar(c: char): char {
    if 'A' <= c <= 'Z' then (c as int + 32) as char else c
  }

  /** `s.lower()` on ASCII text. */
  function Lower(s: string): (r: string)
    ensures |r| == |s|
    ensures forall k :: 0 <= k < |s| ==> r[k] == LowerChar(s[k])
  {
    seq(|s|, k requires 0 <= k < |s| => LowerChar(s[k]))
  }

  /** `s[n:]` for `n >= 0`. */
  function Drop(s: string, n: nat): (r: string)
    ensures |s| <= n ==> r == ""
    ensures n < |s| ==> s == s[..n] + r
  {
    if n < |s| then s[n..] else ""
  }

  /** `s[:n]` for `n >= 0`. */
  function Take(s: string, n: nat): (r: string)
    ensures StartsWith(s, r)
    ensures |r| == if n < |s| then n else |s|
  {
    if n < |s| then s[..n] else s
  }

  /** `s[:-n]` for `n > 0`: the last `n` characters removed. */
  function DropLast(s: string, n: nat): (r: string)
    requires n > 0
    ensures StartsWith(s, r)
    ensures |r| == if n < |s| then |s| - n else 0
  {
    if n < |s| then s[..|s| - n] else ""
  }

  /** Python's reading of a slice bound: negative counts from the end, and
      the result is clamped to the text. */
  function SliceBound(len: nat, i: int): (r: nat)
    ensures r <= len
  {
    if i < 0 then (if i + len < 0 then 0 else i + len)
    else if i > len then len
    else i
  }

  /** `s[i:j]` for any integers `i` and `j`: the characters from the
      clamped start up to the clamped end, none when the end is not past
      the start. */
  function Slice(s: string, i: int, j: int): (r: string)
    ensures var a, b := SliceBound(|s|, i), SliceBound(|s|, j);
            |r| == (if a < b then b - a else 0) && forall k :: 0 <= k < |r| ==> r[k] == s[a + k]
  {
    var a, b := SliceBound(|s|, i), SliceBound(|s|, j);
    if a < b then s[a..b] else ""
  }

  /** `os.path.join(a, b)` on POSIX: an absolute `b` replaces `a`, and a
      `/` is inserted unless `a` is empty or already ends with one. */
  function PathJoin(a: string, b: string): string {
    if StartsWith(b, "/") || a == "" then b
    else if EndsWith(a, "/") then a + b
    else a + "/" + b
  }

  /** `s.find(sub, start)` for `start >= 0`: the first index at or after
      `start` where `sub` occurs, or -1. */
  function Find(s: string, sub: string, start: nat): (r: int)
    ensures r == -1 || (start <= r && OccursAt(s, sub, r))
    ensures r == -1 ==> forall i :: start <= i ==> !OccursAt(s, sub, i)
    ensures r != -1 ==> forall i :: start <= i < r ==> !OccursAt(s, sub, i)
    decreases |s| - start
  {
    if start + |sub| > |s| then -1
    else if s[start..start + |sub|] == sub then start
    else Find(s, sub, start + 1)
  }

  function DigitChar(d: nat): char
    requires d < 10
  {
    ('0' as int + d) as char
  }

  predicate IsDigit(c: char) {
    '0' <= c <= '9'
  }

  /** `str(n)` for a natural number. */
  function NatToStr(n: nat): (r: string)
    ensures |r| >= 1
    ensures forall k :: 0 <= k < |r| ==> IsDigit(r[k])
    decreases n
  {
    if n < 10 then [DigitChar(n)] else NatToStr(n / 10) + [DigitChar(n % 10)]
  }

  /** The value of a non-empty run of decimal digits. */
  function DigitsValue(d: string): nat
    requires forall k :: 0 <= k < |d| ==> IsDigit(d[k])
    decreases |d|
  {
    if |d| == 0 then 0
    else
      assert IsDigit(d[|d| - 1]);
      DigitsValue(d[..|d| - 1]) * 10 + (d[|d| - 1] as int - '0' as int)
  }

  predicate AllDigits(d: string) {
    |d| > 0 && forall k :: 0 <= k < |d| ==> IsDigit(d[k])
  }

  /** `int(s)`: an optional sign followed by decimal digits; anything else
      raises `ValueError`, modelled as `None`. */
  function ParseInt(s: string): (r: Option<int>)
    ensures r.Some? <==> AllDigits(s) || (|s| > 1 && (s[0] == '-' || s[0] == '+') && AllDigits(s[1..]))
  {
    if AllDigits(s) then Some(DigitsValue(s))
    else if |s| > 1 && s[0] == '-' && AllDigits(s[1..]) then Some(-(DigitsValue(s[1..]) as int))
    else if |s| > 1 && s[0] == '+' && AllDigits(s[1..]) then Some(DigitsValue(s[1..]))
    else None
  }

  /** `int(str(n)) == n` */
  lemma {:induction false} ParseNatToStr(n: nat)
    ensures ParseInt(NatToStr(n)) == Some(n)
  {
    DigitsNatToStr(n);
  }

  lemma {:induction false} DigitsNatToStr(n: nat)
    ensures DigitsValue(NatToStr(n)) == n
    decreases n
  {
    if n >= 10 {
      DigitsNatToStr(n / 10);
      var s := NatToStr(n);
      assert s[..|s| - 1] == NatToStr(n / 10);
    }
  }

  predicate IsLineBreak(c: char) {
    c == '\n' || c == '\r'
  }

  /** The index of the first line break at or after `i`, or `|s|`. */
  function LineEnd(s: string, i: nat): (r: nat)
    requires i <= |s|
    ensures i <= r <= |s|
    ensures r < |s| ==> IsLineBreak(s[r])
    ensures forall k :: i <= k < r ==> !IsLineBreak(s[k])
    decreases |s| - i
  {
    if i == |s| || IsLineBreak(s[i]) then i else LineEnd(s, i + 1)
  }

  /** `s.splitlines()`: lines end at `\n`, `\r` or `\r\n`; a final line
      break does not start an empty line, and `""` has no lines. */
  function SplitLines(s: string): (r: seq<string>)
    ensures forall k :: 0 <= k < |r| ==> forall c :: c in r[k] ==> !IsLineBreak(c)
    decreases |s|
  {
    if |s| == 0 then []
    else
      var e := LineEnd(s, 0);
      if e == |s| then [s]
      else
        var next := if s[e] == '\r' && e + 1 < |s| && s[e + 1] == '\n' then e + 2 else e + 1;
        [s[..e]] + SplitLines(s[next..])
  }

  lemma {:induction false} LineEndFree(s: string)
    requires forall c :: c in s ==> !IsLineBreak(c)
    ensures LineEnd(s, 0) == |s|
  {
  }

  lemma {:induction false} LineEndAt(a: string, b: string)
    requires forall c :: c in a ==> !IsLineBreak(c)
    ensures LineEnd(a + "\n" + b, 0) == |a|
  {
    var s := a + "\n" + b;
    var e := LineEnd(s, 0);
    assert forall k :: 0 <= k < |a| ==> s[k] == a[k] && a[k] in a;
    assert s[|a|] == '\n';
  }

  /** Non-empty lines without line breaks, joined by `\n`, split back into
      the same lines. */
  lemma {:induction false} SplitLinesJoin(lines: seq<string>)
    requires forall k :: 0 <= k < |lines| ==> |lines[k]| > 0
    requires forall k :: 0 <= k < |lines| ==> forall c :: c in lines[k] ==> !IsLineBreak(c)
    ensures SplitLines(Join(lines, "\n")) == lines
    decreases |lines|
  {
    if |lines| == 1 {
      LineEndFree(lines[0]);
    } else if |lines| > 1 {
      SplitLinesCons(lines[0], Join(lines[1..], "\n"));
      SplitLinesJoin(lines[1..]);
      assert lines == [lines[0]] + lines[1..];
    }
  }

  /** A first line ended by `\n` is split off the rest. */
  lemma SplitLinesCons(a: string, b: string)
    requires forall c :: c in a ==> !IsLineBreak(c)
    ensures SplitLines(a + "\n" + b) == [a] + SplitLines(b)
  {
    var s := a + "\n" + b;
    LineEndAt(a, b);
    assert s[..|a|] == a;
    assert s[|a| + 1..] == b;
  }

  /** Every item followed by the separator. */
  function Terminated(items: seq<string>, sep: string): string
    decreases |items|
  {
    if |items| == 0 then "" else Terminated(items[..|items| - 1], sep) + items[|items| - 1] + sep
  }

  lemma TerminatedSnoc(items: seq<string>, x: string, sep: string)
    ensures Terminated(items + [x], sep) == Terminated(items, sep) + x + sep
  {
    assert (items + [x])[..|items|] == items;
  }

  /** Dropping the last separator of a terminated list gives the joined list. */
  lemma {:induction false} TerminatedJoin(items: seq<string>, sep: string)
    requires |items| > 0
    ensures Terminated(items, sep) == Join(items, sep) + sep
    decreases |items|
  {
    if |items| > 1 {
      var front := items[..|items| - 1];
      TerminatedJoin(front, sep);
      JoinSnoc(front, items[|items| - 1], sep);
      assert front + [items[|items| - 1]] == items;
    }
  }

  lemma {:induction false} JoinSnoc(items: seq<string>, x: string, sep: string)
    requires |items| > 0
    ensures Join(items + [x], sep) == Join(items, sep) + sep + x
    decreases |items|
  {
    var s := items + [x];
    assert s[1..] == items[1..] + [x];
    if |items| > 1 {
      JoinSnoc(items[1..], x, sep);
    }
  }

  /** A trailing line break does not add a line: break-free lines, each
      followed by `\n`, split back into the same lines, empty ones included. */
  lemma {:induction false} SplitLinesTerminated(lines: seq<string>)
    requires forall k :: 0 <= k < |lines| ==> forall c :: c in lines[k] ==> !IsLineBreak(c)
    ensures SplitLines(Terminated(lines, "\n")) == lines
    decreases |lines|
  {
    if |lines| > 0 {
      var rest := lines[1..];
      var b := Terminated(rest, "\n");
      TerminatedCons(lines, "\n");
      assert Terminated(lines, "\n") == lines[0] + "\n" + b;
      SplitLinesCons(lines[0], b);
      assert forall k :: 0 <= k < |rest| ==> rest[k] == lines[k + 1];
      SplitLinesTerminated(rest);
      assert lines == [lines[0]] + lines[1..];
    }
  }

  lemma {:induction false} TerminatedCons(items: seq<string>, sep: string)
    requires |items| > 0
    ensures Terminated(items, sep) == items[0] + sep + Terminated(items[1..], sep)
    decreases |items|
  {
    if |items| > 1 {
      var front := items[..|items| - 1];
      TerminatedCons(front, sep);
      assert front[1..] == items[1..][..|items[1..]| - 1];
    }
  }
}
