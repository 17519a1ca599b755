/**
 * The memoizer of the GenericParserCore generation
 * (Sources/ParserCore/Memoizer.swift): a dictionary cache configured by two
 * closures, `shouldUpdate` (kept here as a function) and
 * `willReturnFromCache` (a hook on the parsing context, which the caller
 * runs whenever `Lookup` hits or `Store` tells it to replay).
 */
module GenericMemoizing {
  import opened Wrappers

  class Memoizer<K(==), V> {
    var cache: map<K, V>
    /** `shouldUpdate(cached, candidate)`: whether a candidate may replace a cached value. */
    const shouldUpdate: (V, V) -> bool

    constructor (shouldUpdate: (V, V) -> bool)
      ensures cache == map[] && this.shouldUpdate == shouldUpdate
    {
      cache := map[];
      this.shouldUpdate := shouldUpdate;
    }

    /** The first lookup of `memoize(key:context:_:)`: a hit is returned without running the body. */
    method Lookup(key: K) returns (cached: Option<V>)
      ensures key in cache <==> cached.Some?
      ensures key in cache ==> cached.value == cache[key]
    {
      if key in cache {
        return Some(cache[key]);
      }
      return None;
    }

    /**
     * The second half of `memoize(key:context:_:)`, after the body produced
     * `candidate`: an entry that a re-entrant call stored meanwhile is kept
     * and replayed unless `shouldUpdate` prefers the candidate; otherwise the
     * candidate is stored and returned.
     */
    method Store(key: K, candidate: V) returns (replay: bool, result: V)
      modifies this
      ensures replay <==> key in old(cache) && !shouldUpdate(old(cache)[key], candidate)
      ensures replay ==> result == old(cache)[key] && cache == old(cache)
      ensures !replay ==> result == candidate && cache == old(cache)[key := candidate]
      ensures key in old(cache) && cache[key] != old(cache)[key] ==> shouldUpdate(old(cache)[key], candidate)
      ensures forall k :: k != key ==> (k in cache <==> k in old(cache)) && (k in cache ==> cache[k] == old(cache)[k])
    {
      if key in cache && !shouldUpdate(cache[key], candidate) {
        return true, cache[key];
      }
      cache := cache[key := candidate];
      return false, candidate;
    }
  }
}
