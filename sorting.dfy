/** Python's `sorted()`, as a pure function: the sorted permutation of a
    sequence under a total order, which is unique. */
module Sorting {

  ghost predicate TotalOrder<T(!new)>(le: (T, T) -> bool) {
    (forall a, b :: le(a, b) || le(b, a)) &&
    (forall a, b :: le(a, b) && le(b, a) ==> a == b) &&
    (forall a, b, c :: le(a, b) && le(b, c) ==> le(a, c))
  }

  predicate SortedBy<T>(le: (T, T) -> bool, s: seq<T>) {
    forall i, j :: 0 <= i < j < |s| ==> le(s[i], s[j])
  }

  function InsertBy<T(!new)>(le: (T, T) -> bool, x: T, s: seq<T>): (r: seq<T>)
    requires TotalOrder(le) && SortedBy(le, s)
    ensures SortedBy(le, r)
    ensures multiset(r) == multiset(s) + multiset{x}
    ensures forall e :: e in r ==> e == x || e in s
    decreases |s|
  {
    if |s| == 0 then [x]
    else if le(x, s[0]) then
      BelowHead(le, x, s);
      SortedCons(le, x, s);
      [x] + s
    else
      var t := InsertBy(le, x, s[1..]);
      assert s == [s[0]] + s[1..];
      assert forall e :: e in t ==> le(s[0], e);
      SortedCons(le, s[0], t);
      [s[0]] + t
  }

  /** Below the first element of a sorted sequence is below all of it. */
  lemma BelowHead<T(!new)>(le: (T, T) -> bool, x: T, s: seq<T>)
    requires TotalOrder(le) && SortedBy(le, s) && |s| > 0 && le(x, s[0])
    ensures forall e :: e in s ==> le(x, e)
  {
    forall e | e in s
      ensures le(x, e)
    {
      var j :| 0 <= j < |s| && s[j] == e;
      if j > 0 {
        assert le(s[0], s[j]);
      }
    }
  }

  /** A sorted sequence with an element below all of it in front. */
  lemma SortedCons<T(!new)>(le: (T, T) -> bool, x: T, s: seq<T>)
    requires SortedBy(le, s) && (forall e :: e in s ==> le(x, e))
    ensures SortedBy(le, [x] + s)
  {
    var r := [x] + s;
    forall i, j | 0 <= i < j < |r|
      ensures le(r[i], r[j])
    {
      assert r[j] == s[j - 1];
      if i > 0 {
        assert r[i] == s[i - 1];
      }
    }
  }

  /** `sorted(s)` */
  function SortBy<T(!new)>(le: (T, T) -> bool, s: seq<T>): (r: seq<T>)
    requires TotalOrder(le)
    ensures SortedBy(le, r)
    ensures multiset(r) == multiset(s)
    decreases |s|
  {
    if |s| == 0 then []
    else
      assert s == s[..|s| - 1] + [s[|s| - 1]];
      InsertBy(le, s[|s| - 1], SortBy(le, s[..|s| - 1]))
  }

  /** Two sorted sequences with the same elements are equal: whatever
      algorithm sorts, the result is the one `SortBy` gives. */
  lemma {:induction false} SortedUnique<T(!new)>(le: (T, T) -> bool, a: seq<T>, b: seq<T>)
    requires TotalOrder(le)
    requires SortedBy(le, a) && SortedBy(le, b)
    requires multiset(a) == multiset(b)
    ensures a == b
    decreases |a|
  {
    if |a| > 0 {
      assert |b| == |multiset(b)| == |a|;
      assert a[0] in multiset(b);
      assert b[0] in multiset(a);
      var i :| 0 <= i < |b| && b[i] == a[0];
      var j :| 0 <= j < |a| && a[j] == b[0];
      assert le(b[0], b[i]) && le(a[0], a[j]);
      assert a[0] == b[0];
      assert a == [a[0]] + a[1..];
      assert b == [b[0]] + b[1..];
      assert multiset(a[1..]) == multiset(a) - multiset{a[0]};
      assert multiset(b[1..]) == multiset(b) - multiset{b[0]};
      SortedUnique(le, a[1..], b[1..]);
    }
  }

  /** Python's ordering of `str` values: lexicographic by character code. */
  predicate StrLe(a: string, b: string)
    decreases |a|
  {
    |a| == 0 || (|b| > 0 && (a[0] < b[0] || (a[0] == b[0] && StrLe(a[1..], b[1..]))))
  }

  lemma {:induction false} StrLeTotal(a: string, b: string)
    ensures StrLe(a, b) || StrLe(b, a)
    decreases |a|
  {
    if |a| > 0 && |b| > 0 && a[0] == b[0] {
      StrLeTotal(a[1..], b[1..]);
    }
  }

  lemma {:induction false} StrLeAntisym(a: string, b: string)
    requires StrLe(a, b) && StrLe(b, a)
    ensures a == b
    decreases |a|
  {
    if |a| > 0 {
      StrLeAntisym(a[1..], b[1..]);
      assert a == [a[0]] + a[1..];
      assert b == [b[0]] + b[1..];
    }
  }

  lemma {:induction false} StrLeTrans(a: string, b: string, c: string)
    requires StrLe(a, b) && StrLe(b, c)
    ensures StrLe(a, c)
    decreases |a|
  {
    if |a| > 0 && a[0] == b[0] && b[0] == c[0] {
      StrLeTrans(a[1..], b[1..], c[1..]);
    }
  }

  lemma StrLeTotalOrder()
    ensures TotalOrder(StrLe)
  {
    forall a, b ensures StrLe(a, b) || StrLe(b, a) {
      StrLeTotal(a, b);
    }
    forall a, b | StrLe(a, b) && StrLe(b, a) ensures a == b {
      StrLeAntisym(a, b);
    }
    forall a, b, c | StrLe(a, b) && StrLe(b, c) ensures StrLe(a, c) {
      StrLeTrans(a, b, c);
    }
  }

  /** `sorted(names)` for a sequence of strings. */
  function SortStrings(s: seq<string>): (r: seq<string>)
    ensures SortedBy(StrLe, r)
    ensures multiset(r) == multiset(s)
  {
    StrLeTotalOrder();
    SortBy(StrLe, s)
  }

  /** A sorted sequence of strings is its own `sorted()`. */
  lemma SortStringsSorted(s: seq<string>)
    requires SortedBy(StrLe, s)
    ensures SortStrings(s) == s
  {
    StrLeTotalOrder();
    SortedUnique(StrLe, SortStrings(s), s);
  }

  /** Python's ordering of `(int, str)` tuples: by the number, then the text. */
  predicate PairLe(a: (int, string), b: (int, string)) {
    a.0 < b.0 || (a.0 == b.0 && StrLe(a.1, b.1))
  }

  lemma PairLeTotalOrder()
    ensures TotalOrder(PairLe)
  {
    StrLeTotalOrder();
  }

  /** `sorted(pairs)` for `(int, str)` tuples. */
  function SortPairs(s: seq<(int, string)>): (r: seq<(int, string)>)
    ensures SortedBy(PairLe, r)
    ensures multiset(r) == multiset(s)
  {
    PairLeTotalOrder();
    SortBy(PairLe, s)
  }
}
