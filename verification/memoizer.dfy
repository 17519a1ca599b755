/**
 * Sources/ParserCore2/Tracers/Memoizer.swift: the tracer that caches the
 * outcome of every tagged call under its (position, tag) key in an
 * `IndexDictionary`, and asks its delegate (the `Core`) whether a fresh
 * outcome should replace a cached one.
 */
module Memoizing {
  import opened Wrappers
  import opened Eithers
  import opened Mismatches
  import opened Matches
  import opened MemoKeys
  import opened IndexDictionaries
  import CoreDelegate

  type Value<E> = CoreDelegate.Value<E>

  /** The mismatch `unpack` produces when a cached symbol has another type. */
  const TypeMismatch: Mismatch := Mismatch(Some("Cache record type mismatch (duplicate tags?)"))

  /** `pack`: erases the symbol type, keeping the case, the mismatch and the range. */
  function Pack<S, A>(outcome: Either<Mismatch, Match<S>>, erase: S -> A): (r: Either<Mismatch, Match<A>>)
    ensures r.Left? <==> outcome.Left?
    ensures outcome.Left? ==> r.left == outcome.left
    ensures outcome.Right? ==> r.right == Match(erase(outcome.right.symbol), outcome.right.range)
  {
    match outcome
    case Left(mismatch) => Left(mismatch)
    case Right(m) => Right(Match(erase(m.symbol), m.range))
  }

  /**
   * `unpack`: recovers the symbol type through a checked cast; a symbol of
   * another type becomes the type-mismatch failure.
   */
  function Unpack<S, A>(cached: Either<Mismatch, Match<A>>, cast: A -> Option<S>): (r: Either<Mismatch, Match<S>>)
    ensures cached.Left? ==> r == Left(cached.left)
    ensures cached.Right? && cast(cached.right.symbol).Some? ==>
              r == Right(Match(cast(cached.right.symbol).value, cached.right.range))
    ensures cached.Right? && cast(cached.right.symbol).None? ==> r == Left(TypeMismatch)
  {
    match cached
    case Left(mismatch) => Left(mismatch)
    case Right(m) =>
      match cast(m.symbol)
      case Some(symbol) => Right(Match(symbol, m.range))
      case None => Left(TypeMismatch)
  }

  /** When the cast undoes the erasure, unpacking what was packed gives back the outcome. */
  lemma UnpackPack<S, A>(outcome: Either<Mismatch, Match<S>>, erase: S -> A, cast: A -> Option<S>)
    requires forall s :: cast(erase(s)) == Some(s)
    ensures Unpack(Pack(outcome, erase), cast) == outcome
  {
  }

  /** `shouldUpdate(cached:with:)`: the delegate's rule, or false when the (weak) delegate is gone. */
  predicate ShouldUpdate<E>(hasDelegate: bool, cached: Value<E>, candidate: Value<E>)
  {
    hasDelegate && CoreDelegate.ShouldUpdate(cached, candidate)
  }

  /** Without a delegate an existing entry is never overwritten; with one, the `Core` rule decides. */
  lemma ShouldUpdateDelegation<E>(hasDelegate: bool, cached: Value<E>, candidate: Value<E>)
    ensures !hasDelegate ==> !ShouldUpdate(hasDelegate, cached, candidate)
    ensures hasDelegate ==> (ShouldUpdate(hasDelegate, cached, candidate) <==> CoreDelegate.ShouldUpdate(cached, candidate))
  {
  }

  class Memoizer<E> {
    const cache: IndexDictionary<Value<E>>
    /** Whether the weakly held delegate is still alive. */
    const hasDelegate: bool

    ghost predicate Valid()
      reads this, cache
    {
      cache.Valid()
    }

    /** `init(delegate:)`: an empty cache. */
    constructor (hasDelegate: bool)
      ensures Valid() && fresh(cache)
      ensures cache.items == [] && this.hasDelegate == hasDelegate
    {
      this.hasDelegate := hasDelegate;
      cache := new IndexDictionary();
    }

    /** The lookup `trace` makes before running the body of a tagged call. */
    method Lookup(position: nat, tag: string) returns (cached: Option<Value<E>>)
      requires Valid()
      ensures cached == Find(cache.items, Key(position, tag))
    {
      cached := cache.Get(Key(position, tag));
    }

    /**
     * What `trace` does after the body of a tagged call on a miss: when a
     * re-entrant call has meanwhile filled the key and the delegate does not
     * prefer the candidate, the cached value is kept and replayed; otherwise
     * the candidate is stored and returned.
     */
    method Store(position: nat, tag: string, candidate: Value<E>) returns (replay: bool, result: Value<E>)
      requires Valid()
      modifies cache
      ensures Valid()
      ensures var prior := old(Find(cache.items, Key(position, tag)));
              replay <==> prior.Some? && !ShouldUpdate(hasDelegate, prior.value, candidate)
      ensures replay ==> result == old(Find(cache.items, Key(position, tag))).value && cache.items == old(cache.items)
      ensures !replay ==> result == candidate
      ensures !replay ==> forall k :: Find(cache.items, k) == if k == Key(position, tag) then Some(candidate) else old(Find(cache.items, k))
    {
      var key := Key(position, tag);
      var cached := cache.Get(key);
      if cached.Some? && !ShouldUpdate(hasDelegate, cached.value, candidate) {
        return true, cached.value;
      }
      cache.Set(key, Some(candidate));
      return false, candidate;
    }
  }
}
