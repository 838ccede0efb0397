/** Python's `sorted`: an insertion sort over any total preorder, and the fact that the
    result depends only on which elements were given, not on their order. */
module Sorting {

  ghost predicate Chain<T>(le: (T, T) -> bool, x: T, y: T, z: T) {
    le(x, y) && le(y, z)
  }

  /** Total and transitive: what a sort key gives. */
  ghost predicate Orders<T(!new)>(le: (T, T) -> bool) {
    && (forall x, y :: le(x, y) || le(y, x))
    && (forall x, y, z {:trigger Chain(le, x, y, z)} :: Chain(le, x, y, z) ==> le(x, z))
  }

  /** No two different elements of `s` tie. */
  ghost predicate NoTies<T>(le: (T, T) -> bool, s: seq<T>) {
    forall x, y | x in s && y in s :: le(x, y) && le(y, x) ==> x == y
  }

  predicate Ascending<T>(le: (T, T) -> bool, s: seq<T>) {
    |s| < 2 || (le(s[0], s[1]) && Ascending(le, s[1..]))
  }

  function Insert<T>(le: (T, T) -> bool, x: T, s: seq<T>): seq<T> {
    if |s| == 0 then [x]
    else if le(x, s[0]) then [x] + s
    else [s[0]] + Insert(le, x, s[1..])
  }

  function Sort<T>(le: (T, T) -> bool, s: seq<T>): seq<T> {
    if |s| == 0 then [] else Insert(le, s[0], Sort(le, s[1..]))
  }

  lemma {:induction false} InsertKeepsOrder<T(!new)>(le: (T, T) -> bool, x: T, s: seq<T>)
    requires Orders(le) && Ascending(le, s)
    ensures Ascending(le, Insert(le, x, s))
    ensures Insert(le, x, s)[0] == if |s| == 0 || le(x, s[0]) then x else s[0]
  {
    if |s| > 0 {
      if le(x, s[0]) {
        assert ([x] + s)[1..] == s;
      } else {
        var r := Insert(le, x, s[1..]);
        InsertKeepsOrder(le, x, s[1..]);
        assert ([s[0]] + r)[1..] == r;
        assert le(s[0], x);
      }
    }
  }

  lemma {:induction false} InsertKeepsElements<T>(le: (T, T) -> bool, x: T, s: seq<T>)
    ensures multiset(Insert(le, x, s)) == multiset(s) + multiset{x}
  {
    if |s| > 0 && !le(x, s[0]) {
      assert s == [s[0]] + s[1..];
      InsertKeepsElements(le, x, s[1..]);
    }
  }

  /** In an ascending sequence every earlier element is at most every later one. */
  lemma {:induction false} AscendingAt<T(!new)>(le: (T, T) -> bool, s: seq<T>, i: nat, j: nat)
    requires Orders(le) && Ascending(le, s) && i <= j < |s|
    ensures le(s[i], s[j])
  {
    if i > 0 {
      AscendingAt(le, s[1..], i - 1, j - 1);
    } else if j > 0 {
      AscendingAt(le, s[1..], 0, j - 1);
      assert Chain(le, s[0], s[1], s[j]);
    }
  }

  lemma {:induction false} SortSorts<T(!new)>(le: (T, T) -> bool, s: seq<T>)
    requires Orders(le)
    ensures Ascending(le, Sort(le, s))
    ensures multiset(Sort(le, s)) == multiset(s)
    ensures |Sort(le, s)| == |s|
    ensures forall x :: x in Sort(le, s) <==> x in s
  {
    if |s| > 0 {
      assert s == [s[0]] + s[1..];
      SortSorts(le, s[1..]);
      InsertKeepsOrder(le, s[0], Sort(le, s[1..]));
      InsertKeepsElements(le, s[0], Sort(le, s[1..]));
    }
    SameMultisetSameElements(Sort(le, s), s);
  }

  lemma SameMultisetSameElements<T>(a: seq<T>, b: seq<T>)
    requires multiset(a) == multiset(b)
    ensures |a| == |b| && forall x :: x in a <==> x in b
  {
    assert |multiset(a)| == |a| && |multiset(b)| == |b|;
    forall x ensures x in a <==> x in b {
      assert x in a <==> x in multiset(a);
      assert x in b <==> x in multiset(b);
    }
  }

  /** Two ascending arrangements of the same elements are the same sequence. */
  lemma {:induction false} AscendingUnique<T(!new)>(le: (T, T) -> bool, a: seq<T>, b: seq<T>)
    requires Orders(le) && Ascending(le, a) && Ascending(le, b)
    requires multiset(a) == multiset(b) && NoTies(le, a)
    ensures a == b
  {
    SameMultisetSameElements(a, b);
    if |a| > 0 {
      assert b[0] in a && a[0] in b;
      FirstIsLeast(le, a, b[0]);
      FirstIsLeast(le, b, a[0]);
      SameTails(le, a, b);
      AscendingUnique(le, a[1..], b[1..]);
    }
  }

  lemma SameTails<T>(le: (T, T) -> bool, a: seq<T>, b: seq<T>)
    requires |a| > 0 && |b| > 0 && a[0] == b[0] && multiset(a) == multiset(b) && NoTies(le, a)
    ensures multiset(a[1..]) == multiset(b[1..]) && NoTies(le, a[1..])
    ensures a[1..] == b[1..] ==> a == b
  {
    assert a == [a[0]] + a[1..] && b == [b[0]] + b[1..];
    assert multiset(a[1..]) == multiset(a) - multiset{a[0]};
    assert multiset(b[1..]) == multiset(b) - multiset{b[0]};
    assert forall x :: x in a[1..] ==> x in a;
  }

  lemma FirstIsLeast<T(!new)>(le: (T, T) -> bool, s: seq<T>, x: T)
    requires Orders(le) && Ascending(le, s) && x in s
    ensures le(s[0], x)
  {
    var i :| 0 <= i < |s| && s[i] == x;
    AscendingAt(le, s, 0, i);
  }

  /** Sorting forgets the order its input came in. */
  lemma SortForgetsOrder<T(!new)>(le: (T, T) -> bool, a: seq<T>, b: seq<T>)
    requires Orders(le) && multiset(a) == multiset(b) && NoTies(le, a)
    ensures Sort(le, a) == Sort(le, b)
  {
    SortSorts(le, a);
    SortSorts(le, b);
    AscendingUnique(le, Sort(le, a), Sort(le, b));
  }

  /** An ascending arrangement of the elements is what sorting them gives. */
  lemma SortedIs<T(!new)>(le: (T, T) -> bool, s: seq<T>, t: seq<T>)
    requires Orders(le) && Ascending(le, t) && multiset(s) == multiset(t) && NoTies(le, t)
    ensures Sort(le, s) == t
  {
    SortSorts(le, s);
    AscendingUnique(le, t, Sort(le, s));
  }
}
