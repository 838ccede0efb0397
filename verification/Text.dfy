/** Strings as the source compares them: ASCII case folding, ASCII upper-casing and
    Python's code-point order. */
module Text {

  datatype Option<+T> = None | Some(value: T)

  function LowerChar(c: char): char {
    if 'A' <= c <= 'Z' then (c as int + 32) as char else c
  }

  function UpperChar(c: char): char {
    if 'a' <= c <= 'z' then (c as int - 32) as char else c
  }

  /** `str.casefold` and SQL `lower`, restricted to ASCII letters. */
  function Fold(s: string): string {
    seq(|s|, i requires 0 <= i < |s| => LowerChar(s[i]))
  }

  /** `str.upper`, restricted to ASCII letters. */
  function Upper(s: string): string {
    seq(|s|, i requires 0 <= i < |s| => UpperChar(s[i]))
  }

  /** The same character, or one ASCII letter in its two cases. */
  predicate SameButCase(a: char, b: char) {
    a == b || ('A' <= a <= 'Z' && b as int - a as int == 32) || ('A' <= b <= 'Z' && a as int - b as int == 32)
  }

  /** Equal but for the case of ASCII letters. */
  predicate EqualButCase(a: string, b: string) {
    |a| == |b| && forall i :: 0 <= i < |a| ==> SameButCase(a[i], b[i])
  }

  /** Both foldings identify exactly the strings that are equal but for case. */
  lemma FoldsIff(a: string, b: string)
    ensures Fold(a) == Fold(b) <==> EqualButCase(a, b)
    ensures Upper(a) == Upper(b) <==> EqualButCase(a, b)
  {
    if Fold(a) == Fold(b) || Upper(a) == Upper(b) {
      assert |a| == |Fold(a)| == |Upper(a)| && |b| == |Fold(b)| == |Upper(b)|;
      forall i | 0 <= i < |a| ensures SameButCase(a[i], b[i]) {
        assert Fold(a)[i] == LowerChar(a[i]) && Fold(b)[i] == LowerChar(b[i]);
        assert Upper(a)[i] == UpperChar(a[i]) && Upper(b)[i] == UpperChar(b[i]);
      }
    }
  }

  lemma UpperHasNoLower(s: string)
    ensures EqualButCase(Upper(s), s) && forall c :: c in Upper(s) ==> !('a' <= c <= 'z')
  {
  }

  /** An absent list and an empty one mean the same thing (`x or []`). */
  function Listed(xs: Option<seq<string>>): seq<string> {
    match xs
    case None => []
    case Some(v) => v
  }

  /** Lexicographic order by code point. */
  predicate StrLe(a: string, b: string) {
    |a| == 0 || (|b| > 0 && (a[0] < b[0] || (a[0] == b[0] && StrLe(a[1..], b[1..]))))
  }

  lemma {:induction false} StrLeTotal(a: string, b: string)
    ensures StrLe(a, b) || StrLe(b, a)
    ensures StrLe(a, b) && StrLe(b, a) ==> a == b
  {
    if |a| > 0 && |b| > 0 && a[0] == b[0] {
      StrLeTotal(a[1..], b[1..]);
      assert a == [a[0]] + a[1..] && b == [b[0]] + b[1..];
    }
  }

  lemma {:induction false} StrLeTransitive(a: string, b: string, c: string)
    requires StrLe(a, b) && StrLe(b, c)
    ensures StrLe(a, c)
  {
    if |a| > 0 && a[0] == b[0] && b[0] == c[0] {
      StrLeTransitive(a[1..], b[1..], c[1..]);
    }
  }

  /** Code-point order: a prefix, or smaller at the first difference. */
  lemma {:induction false} StrLeIff(a: string, b: string)
    ensures StrLe(a, b) <==> a <= b || exists k: nat :: SmallerAt(a, b, k)
  {
    if |a| > 0 && |b| > 0 && a[0] == b[0] {
      StrLeIff(a[1..], b[1..]);
      assert a == [a[0]] + a[1..] && b == [b[0]] + b[1..];
      if k: nat :| SmallerAt(a[1..], b[1..], k) { assert SmallerAt(a, b, k + 1); }
      if k: nat :| SmallerAt(a, b, k) {
        assert k > 0 && a[1..][..k - 1] == a[..k][1..] && b[1..][..k - 1] == b[..k][1..];
        assert SmallerAt(a[1..], b[1..], k - 1);
      }
    } else if |a| > 0 && |b| > 0 {
      if a[0] < b[0] { assert SmallerAt(a, b, 0); }
      if k: nat :| SmallerAt(a, b, k) { assert k > 0 ==> a[..k][0] == b[..k][0]; }
    }
  }

  predicate SmallerAt(a: string, b: string, k: nat) {
    k < |a| && k < |b| && a[..k] == b[..k] && a[k] < b[k]
  }
}
