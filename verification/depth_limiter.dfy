/**
 * Sources/ParserCore/Tracers/DepthLimiter.swift: per position, a dictionary
 * from tag to the number of activations of that (position, tag) call in
 * progress. A tagged call is refused once that number exceeds the length
 * still left in the source, which cuts left recursion off.
 */
module DepthLimiting {
  import opened Wrappers

  type DepthMapMap = map<nat, map<string, nat>>

  /** `depthMapMap[position] ?? [:]`. */
  function MapAt(m: DepthMapMap, position: nat): (depthMap: map<string, nat>)
    ensures position in m ==> depthMap == m[position]
    ensures position !in m ==> depthMap == map[]
  {
    if position in m then m[position] else map[]
  }

  /** `depthMap[tag] ?? 0`, read through `MapAt`. */
  function DepthOf(m: DepthMapMap, position: nat, tag: string): (depth: nat)
    ensures tag in MapAt(m, position) ==> depth == MapAt(m, position)[tag]
    ensures tag !in MapAt(m, position) ==> depth == 0
  {
    var depthMap := MapAt(m, position);
    if tag in depthMap then depthMap[tag] else 0
  }

  /**
   * Two states record the same depths. Restoring an entry to 0 leaves an
   * explicit 0 where there was none, so states are compared through `DepthOf`.
   */
  ghost predicate SameDepths(a: DepthMapMap, b: DepthMapMap)
  {
    forall position: nat, tag: string :: DepthOf(a, position, tag) == DepthOf(b, position, tag)
  }

  /** The state while the body of an admitted call runs. */
  function Entered(m: DepthMapMap, position: nat, tag: string): DepthMapMap
  {
    m[position := MapAt(m, position)[tag := DepthOf(m, position, tag) + 1]]
  }

  /** The state after an admitted call: the saved dictionary of its position written back. */
  function Restored(m: DepthMapMap, position: nat, depthMap: map<string, nat>, tag: string, depth: nat): DepthMapMap
  {
    m[position := depthMap[tag := depth]]
  }

  /** An admitted call raises its own depth by one and no other. */
  lemma EnteredDepths(m: DepthMapMap, position: nat, tag: string)
    ensures DepthOf(Entered(m, position, tag), position, tag) == DepthOf(m, position, tag) + 1
    ensures forall p: nat, t: string :: (p, t) != (position, tag) ==> DepthOf(Entered(m, position, tag), p, t) == DepthOf(m, p, t)
  {
  }

  /**
   * Enter, a body that leaves the depths as it found them, and the write-back
   * of the saved dictionary together leave every depth as it was before the call.
   */
  lemma {:induction false} EnterLeaveRestores(before: DepthMapMap, after: DepthMapMap, position: nat, tag: string)
    requires SameDepths(Entered(before, position, tag), after)
    ensures SameDepths(before, Restored(after, position, MapAt(before, position), tag, DepthOf(before, position, tag)))
  {
    var entered := Entered(before, position, tag);
    var restored := Restored(after, position, MapAt(before, position), tag, DepthOf(before, position, tag));
    forall p: nat, t: string
      ensures DepthOf(before, p, t) == DepthOf(restored, p, t)
    {
      if p != position {
        assert DepthOf(entered, p, t) == DepthOf(after, p, t);
        assert MapAt(restored, p) == MapAt(after, p);
        assert MapAt(entered, p) == MapAt(before, p);
      }
    }
  }

  class DepthLimiter {
    var depthMapMap: DepthMapMap
    /** The overestimated length of the source from a position on. */
    const tailLength: nat -> int

    /** A dictionary of depths for `position` that an activation chain can reach. */
    predicate Fits(position: nat, depthMap: map<string, nat>)
    {
      forall tag :: tag in depthMap ==> depthMap[tag] <= tailLength(position) + 1
    }

    /** At most `tailLength(position) + 1` activations of a call are ever in progress. */
    ghost predicate Valid()
      reads this
    {
      forall position :: position in depthMapMap ==> Fits(position, depthMapMap[position])
    }

    /** `init(sourceLength:tailLength:)`; reserving capacity has no observable effect. */
    constructor (tailLength: nat -> int)
      ensures Valid()
      ensures depthMapMap == map[] && this.tailLength == tailLength
    {
      this.tailLength := tailLength;
      depthMapMap := map[];
    }

    /**
     * The part of `trace` before the body, for a tagged call: reads the saved
     * dictionary and depth; when the depth does not exceed the tail length the
     * call is admitted and its depth raised by one, otherwise nothing changes.
     */
    method Enter(position: nat, tag: string) returns (admitted: bool, depthMap: map<string, nat>, depth: nat)
      requires Valid()
      modifies this
      ensures Valid()
      ensures depthMap == MapAt(old(depthMapMap), position) && Fits(position, depthMap)
      ensures depth == DepthOf(old(depthMapMap), position, tag)
      ensures admitted <==> depth <= tailLength(position)
      ensures admitted ==> depthMapMap == Entered(old(depthMapMap), position, tag)
      ensures !admitted ==> depthMapMap == old(depthMapMap)
    {
      depthMap := MapAt(depthMapMap, position);
      depth := if tag in depthMap then depthMap[tag] else 0;
      admitted := depth <= tailLength(position);
      if admitted {
        depthMapMap := depthMapMap[position := depthMap[tag := depth + 1]];
      }
    }

    /** The part of `trace` after the body: the saved dictionary, with the saved depth, is written back. */
    method Leave(position: nat, tag: string, depthMap: map<string, nat>, depth: nat)
      requires Valid() && Fits(position, depthMap) && depth <= tailLength(position) + 1
      modifies this
      ensures Valid()
      ensures depthMapMap == Restored(old(depthMapMap), position, depthMap, tag, depth)
    {
      depthMapMap := depthMapMap[position := depthMap[tag := depth]];
    }
  }
}
