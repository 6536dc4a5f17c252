/** JavaScript string comparison: `a < b` on strings compares UTF-16 code
    units lexicographically, and a proper prefix sorts first.  A Dafny
    `char` is a Unicode code point, so this is code-point order, which agrees
    with the code-unit order on characters up to U+FFFF. */
module Strings {

  /** `a < b` for two strings. */
  predicate LexLess(a: string, b: string)
    decreases |a|
  {
    if |a| == 0 then |b| > 0
    else if |b| == 0 then false
    else if a[0] == b[0] then LexLess(a[1..], b[1..])
    else a[0] < b[0]
  }

  /** Where the two orders part: U+FFFF sorts before U+10000 here, while
      JavaScript compares the surrogate pair of U+10000 (0xD800 0xDC00)
      below 0xFFFF and puts it first. */
  lemma SupplementarySortsLast()
    ensures LexLess("\U{FFFF}", "\U{10000}") && !LexLess("\U{10000}", "\U{FFFF}")
  {
  }

  lemma {:induction false} LexLessIrreflexive(a: string)
    ensures !LexLess(a, a)
    decreases |a|
  {
    if |a| > 0 {
      LexLessIrreflexive(a[1..]);
    }
  }

  lemma {:induction false} LexLessAsymmetric(a: string, b: string)
    ensures LexLess(a, b) ==> !LexLess(b, a)
    decreases |a|
  {
    if |a| > 0 && |b| > 0 && a[0] == b[0] {
      LexLessAsymmetric(a[1..], b[1..]);
    }
  }

  lemma {:induction false} LexLessTransitive(a: string, b: string, c: string)
    requires LexLess(a, b) && LexLess(b, c)
    ensures LexLess(a, c)
    decreases |a|
  {
    if |a| > 0 && |b| > 0 && |c| > 0 && a[0] == b[0] && b[0] == c[0] {
      LexLessTransitive(a[1..], b[1..], c[1..]);
    }
  }

  /** Two different strings are always ordered one way or the other. */
  lemma {:induction false} LexLessTotal(a: string, b: string)
    ensures a == b || LexLess(a, b) || LexLess(b, a)
    decreases |a|
  {
    if |a| > 0 && |b| > 0 && a[0] == b[0] {
      LexLessTotal(a[1..], b[1..]);
      if a[1..] == b[1..] {
        assert a == [a[0]] + a[1..] && b == [b[0]] + b[1..];
      }
    }
  }

  /** Strictly ascending, hence free of duplicates. */
  predicate StrictlySorted(q: seq<string>) {
    forall i, j :: 0 <= i < j < |q| ==> LexLess(q[i], q[j])
  }

  /** JavaScript's `length`: the number of UTF-16 code units, one for a
      character up to U+FFFF and two, a surrogate pair, above it. */
  function Utf16Length(s: string): nat {
    if |s| == 0 then 0 else (if s[0] as int > 0xFFFF then 2 else 1) + Utf16Length(s[1..])
  }

  /** A string has between one and two code units per character, so it is
      empty exactly when its `length` is 0. */
  lemma {:induction false} Utf16LengthBounds(s: string)
    ensures |s| <= Utf16Length(s) <= 2 * |s|
    ensures Utf16Length(s) == 0 <==> |s| == 0
    decreases |s|
  {
    if |s| > 0 {
      Utf16LengthBounds(s[1..]);
    }
  }

  /** Without characters above U+FFFF the two lengths agree. */
  lemma {:induction false} Utf16LengthBasic(s: string)
    requires forall i :: 0 <= i < |s| ==> s[i] as int <= 0xFFFF
    ensures Utf16Length(s) == |s|
    decreases |s|
  {
    if |s| > 0 {
      assert forall i :: 0 <= i < |s| - 1 ==> s[1..][i] == s[i + 1];
      Utf16LengthBasic(s[1..]);
    }
  }

  /** With only characters above U+FFFF the `length` is twice the count. */
  lemma {:induction false} Utf16LengthSupplementary(s: string)
    requires forall i :: 0 <= i < |s| ==> s[i] as int > 0xFFFF
    ensures Utf16Length(s) == 2 * |s|
    decreases |s|
  {
    if |s| > 0 {
      assert forall i :: 0 <= i < |s| - 1 ==> s[1..][i] == s[i + 1];
      Utf16LengthSupplementary(s[1..]);
    }
  }
}
