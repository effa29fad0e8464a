/**
  The order JavaScript's default `Array.prototype.sort` puts two strings in:
  lexicographic by character, a proper prefix first. Dafny's `<` on strings
  means "proper prefix", so the order is defined here.
 */
module Lex {

  /** `a` sorts strictly before `b`. */
  predicate Less(a: string, b: string)
    decreases |a|
  {
    if |a| == 0 then |b| > 0
    else if |b| == 0 then false
    else if a[0] == b[0] then Less(a[1..], b[1..])
    else a[0] < b[0]
  }

  predicate LessEq(a: string, b: string) {
    a == b || Less(a, b)
  }

  lemma {:induction false} LessIrreflexive(a: string)
    ensures !Less(a, a)
    decreases |a|
  {
    if |a| > 0 {
      LessIrreflexive(a[1..]);
    }
  }

  lemma {:induction false} LessAsymmetric(a: string, b: string)
    requires Less(a, b)
    ensures !Less(b, a)
    decreases |a|
  {
    if |a| > 0 && |b| > 0 && a[0] == b[0] {
      LessAsymmetric(a[1..], b[1..]);
    }
  }

  /** Any two strings are equal or ordered one way round. */
  lemma {:induction false} LessTotal(a: string, b: string)
    ensures a == b || Less(a, b) || Less(b, a)
    decreases |a|
  {
    if |a| > 0 && |b| > 0 && a[0] == b[0] {
      LessTotal(a[1..], b[1..]);
      if a[1..] == b[1..] {
        assert a == [a[0]] + a[1..] && b == [b[0]] + b[1..];
      }
    }
  }

  /**
    The two-element array `[a, b]` after `sort()`: the pair in canonical
    order, whichever way round it was given.
   */
  function SortPair(a: string, b: string): (p: (string, string))
    ensures LessEq(p.0, p.1)
    ensures p == (a, b) || p == (b, a)
    ensures p == (a, b) <==> !Less(b, a)
  {
    if Less(b, a) then
      LessIrreflexive(a);
      (b, a)
    else
      LessTotal(a, b);
      (a, b)
  }

  /** Sorting does not depend on the order the two strings came in. */
  lemma SortPairSymmetric(a: string, b: string)
    ensures SortPair(a, b) == SortPair(b, a)
  {
    if Less(b, a) {
      LessAsymmetric(b, a);
    }
  }

  /** A canonically ordered pair over `{a, b}` is the one `SortPair` builds. */
  lemma SortedPairIsCanonical(p: (string, string), a: string, b: string)
    requires LessEq(p.0, p.1)
    requires p == (a, b) || p == (b, a)
    ensures p == SortPair(a, b)
  {
    if p.0 != p.1 {
      LessAsymmetric(p.0, p.1);
    }
  }
}
