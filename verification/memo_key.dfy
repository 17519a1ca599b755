/**
 * The cache key of Sources/ParserCore2/Tracers/Memoizer.swift: a position in the
 * source and a parser tag, ordered by position first and tag second.
 */
module MemoKeys {

  datatype Key = Key(position: nat, tag: string)

  /** Lexicographic order on strings, character by character (code points). */
  predicate StrLess(a: string, b: string)
  {
    if a == [] then b != []
    else b != [] && (a[0] < b[0] || (a[0] == b[0] && StrLess(a[1..], b[1..])))
  }

  lemma {:induction false} StrLessIrreflexive(a: string)
    ensures !StrLess(a, a)
  {
    if a != [] {
      StrLessIrreflexive(a[1..]);
    }
  }

  lemma {:induction false} StrLessTransitive(a: string, b: string, c: string)
    requires StrLess(a, b) && StrLess(b, c)
    ensures StrLess(a, c)
  {
    if a != [] && a[0] == b[0] && b[0] == c[0] {
      StrLessTransitive(a[1..], b[1..], c[1..]);
    }
  }

  lemma {:induction false} StrLessTotal(a: string, b: string)
    requires a != b
    ensures StrLess(a, b) || StrLess(b, a)
  {
    if a != [] && b != [] && a[0] == b[0] {
      assert a == [a[0]] + a[1..] && b == [b[0]] + b[1..];
      StrLessTotal(a[1..], b[1..]);
    }
  }

  /** `Key.<`: position first, then tag. */
  predicate Less(k1: Key, k2: Key)
  {
    k1.position < k2.position || (k1.position == k2.position && StrLess(k1.tag, k2.tag))
  }

  /** `Key.<` is a strict order compatible with `Key.==`. */
  lemma LessIrreflexive(k: Key)
    ensures !Less(k, k)
  {
    StrLessIrreflexive(k.tag);
  }

  lemma LessTransitive(k1: Key, k2: Key, k3: Key)
    requires Less(k1, k2) && Less(k2, k3)
    ensures Less(k1, k3)
  {
    if k1.position == k2.position == k3.position {
      StrLessTransitive(k1.tag, k2.tag, k3.tag);
    }
  }

  /** Any two distinct keys are ordered one way or the other, and never both ways. */
  lemma LessTrichotomy(k1: Key, k2: Key)
    ensures k1 == k2 || Less(k1, k2) || Less(k2, k1)
    ensures !(Less(k1, k2) && Less(k2, k1))
  {
    if k1 != k2 && k1.position == k2.position {
      StrLessTotal(k1.tag, k2.tag);
    }
    if Less(k1, k2) && Less(k2, k1) {
      LessTransitive(k1, k2, k1);
      LessIrreflexive(k1);
    }
  }
}
