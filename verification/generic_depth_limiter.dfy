/**
 * The depth limiter of the GenericParserCore generation
 * (Sources/ParserCore/DepthLimiter.swift): one depth per key; a call is
 * refused once the key's depth exceeds the limit, and an admitted call
 * leaves the dictionary exactly as it found it, the entry being removed
 * rather than set to zero.
 */
module GenericDepthLimiting {

  /** No key is recorded at depth zero. */
  ghost predicate Positive<K>(depthMap: map<K, nat>)
  {
    forall key :: key in depthMap ==> depthMap[key] >= 1
  }

  /** `depthMap[key] ?? 0`. */
  function DepthOf<K>(depthMap: map<K, nat>, key: K): (depth: nat)
    ensures key in depthMap ==> depth == depthMap[key]
    ensures key !in depthMap ==> depth == 0
  {
    if key in depthMap then depthMap[key] else 0
  }

  /** The dictionary while an admitted call runs. */
  function Entered<K(!new)>(depthMap: map<K, nat>, key: K): (m: map<K, nat>)
    ensures DepthOf(m, key) == DepthOf(depthMap, key) + 1
    ensures forall k :: k != key ==> DepthOf(m, k) == DepthOf(depthMap, k)
  {
    depthMap[key := DepthOf(depthMap, key) + 1]
  }

  /** The deferred write-back: the prior depth, or no entry when that was zero. */
  function Restored<K(!new)>(depthMap: map<K, nat>, key: K, depth: nat): (m: map<K, nat>)
    ensures DepthOf(m, key) == depth
    ensures forall k :: k != key ==> DepthOf(m, k) == DepthOf(depthMap, k)
  {
    if depth > 0 then depthMap[key := depth] else depthMap - {key}
  }

  /** Entering then restoring gives back the very same dictionary, not just the same depths. */
  lemma EnterRestore<K(!new)>(depthMap: map<K, nat>, key: K)
    requires Positive(depthMap)
    ensures Positive(Entered(depthMap, key))
    ensures Restored(Entered(depthMap, key), key, DepthOf(depthMap, key)) == depthMap
  {
    var restored := Restored(Entered(depthMap, key), key, DepthOf(depthMap, key));
    assert forall k :: k in restored <==> k in depthMap by {
      forall k
        ensures k in restored <==> k in depthMap
      {
        if k != key {
          assert DepthOf(restored, k) == DepthOf(depthMap, k);
        }
      }
    }
  }

  class DepthLimiter<K(==,!new)> {
    var depthMap: map<K, nat>

    ghost predicate Valid()
      reads this
    {
      Positive(depthMap)
    }

    constructor ()
      ensures Valid() && depthMap == map[]
    {
      depthMap := map[];
    }

    /**
     * The check and increment of `limitDepth(key:limit:_:)`: refused, with
     * nothing changed, when the depth exceeds `limit`.
     */
    method Enter(key: K, limit: int) returns (admitted: bool, depth: nat)
      requires Valid()
      modifies this
      ensures Valid()
      ensures depth == DepthOf(old(depthMap), key)
      ensures admitted <==> depth <= limit
      ensures admitted ==> depthMap == Entered(old(depthMap), key)
      ensures !admitted ==> depthMap == old(depthMap)
    {
      depth := DepthOf(depthMap, key);
      if depth > limit {
        return false, depth;
      }
      EnterRestore(depthMap, key);
      depthMap := Entered(depthMap, key);
      admitted := true;
    }

    /** The deferred write-back of `limitDepth(key:limit:_:)`. */
    method Leave(key: K, depth: nat)
      requires Valid()
      modifies this
      ensures Valid()
      ensures depthMap == Restored(old(depthMap), key, depth)
    {
      depthMap := Restored(depthMap, key, depth);
    }
  }
}
