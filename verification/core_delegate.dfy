/**
 * The memoizer delegate implemented by the current `Core`
 * (Sources/ParserCore/Core.swift): which cached answer wins, and where the
 * cursor goes when a cached answer is replayed.
 */
module CoreDelegate {
  import opened Eithers
  import opened Mismatches
  import opened Matches

  /** What the memo cache stores for a (position, tag) call. */
  type Value<E> = Either<Mismatch, Match<Symbol<E>>>

  /**
   * `memoizer(shouldUpdate:with:)`: a success replaces a failure, and replaces
   * a success only when it reaches strictly farther; a failure never replaces.
   */
  predicate ShouldUpdate<E>(cached: Value<E>, candidate: Value<E>)
  {
    match candidate
    case Left(_) => false
    case Right(c) =>
      match cached
      case Right(m) => c.range.upper > m.range.upper
      case Left(_) => true
  }

  /** The rule, case by case. */
  lemma ShouldUpdateCases<E>(cached: Value<E>, candidate: Value<E>)
    ensures candidate.Left? ==> !ShouldUpdate(cached, candidate)
    ensures candidate.Right? && cached.Left? ==> ShouldUpdate(cached, candidate)
    ensures candidate.Right? && cached.Right? ==>
              (ShouldUpdate(cached, candidate) <==> candidate.right.range.upper > cached.right.range.upper)
  {
  }

  /** Ties keep the cache: a value never displaces itself, nor one reaching as far. */
  lemma ShouldUpdateStrict<E>(cached: Value<E>, candidate: Value<E>)
    requires ShouldUpdate(cached, candidate)
    ensures !ShouldUpdate(candidate, cached)
    ensures candidate != cached
  {
  }

  /** Repeated updates only ever improve: a replaced answer could not have replaced its successor. */
  lemma ShouldUpdateTransitive<E>(a: Value<E>, b: Value<E>, c: Value<E>)
    requires ShouldUpdate(a, b) && ShouldUpdate(b, c)
    ensures ShouldUpdate(a, c)
  {
  }

  /**
   * `memoizer(willReturnCached:)`: the cursor after replaying `cached` from
   * `position` — the end of a cached match, or where it was for a cached failure.
   */
  function ReplayPosition<E>(position: nat, cached: Value<E>): (p: nat)
    ensures cached.Right? ==> p == cached.right.range.upper
    ensures cached.Left? ==> p == position
  {
    match cached
    case Right(m) => m.range.upper
    case Left(_) => position
  }
}
