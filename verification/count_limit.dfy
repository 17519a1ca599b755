/** The repetition bound of Sources/ParserCore/CountLimit.swift. */
module CountLimits {
  import Utils
  import opened Wrappers

  datatype CountLimit = AtLeast(min: int) | AtMost(max: int) | Times(min: int, max: int)

  /** `exactly(_:)`: both bounds equal. */
  function Exactly(count: int): (l: CountLimit)
    ensures forall c :: Contains(l, c) <==> c == count
    ensures forall c :: Extends(l, c) <==> c < count
  {
    Times(count, count)
  }

  /** `extends(past:)`: may one more item be taken once `count` items are taken? */
  predicate Extends(limit: CountLimit, count: int)
  {
    match limit
    case AtLeast(_) => true
    case AtMost(max) => count < max
    case Times(_, max) => count < max
  }

  /** `contains(_:)`: is `count` an acceptable number of items? */
  predicate Contains(limit: CountLimit, count: int)
  {
    match limit
    case AtLeast(min) => min <= count
    case AtMost(max) => count <= max
    case Times(min, max) => min <= count <= max
  }

  /** The upper bound, when the limit has one. */
  function Max(limit: CountLimit): (m: Option<int>)
    ensures m.None? <==> limit.AtLeast?
  {
    match limit
    case AtLeast(_) => None
    case AtMost(max) => Some(max)
    case Times(_, max) => Some(max)
  }

  /** Once the limit stops extending, no larger count is acceptable. */
  lemma StopIsFinal(limit: CountLimit, count: int, larger: int)
    requires !Extends(limit, count) && count < larger
    ensures !Contains(limit, larger)
  {
  }

  /** Extension is downward closed: a limit that extends past `count` extends past any smaller count. */
  lemma ExtendsDownward(limit: CountLimit, count: int, smaller: int)
    requires Extends(limit, count) && smaller <= count
    ensures Extends(limit, smaller)
  {
  }

  /**
   * A repetition that takes one more item only while the limit extends past
   * the items taken so far never takes more than a non-negative upper bound.
   */
  lemma ExtendsBoundsCount(limit: CountLimit, count: nat)
    requires count > 0 && Extends(limit, count - 1)
    ensures Max(limit).Some? ==> count <= Max(limit).value
  {
  }

  /** `"\(limit)"`: how Swift prints the case. */
  function Description(limit: CountLimit): string
  {
    match limit
    case AtLeast(min) => "atLeast(" + Utils.IntToString(min) + ")"
    case AtMost(max) => "atMost(" + Utils.IntToString(max) + ")"
    case Times(min, max) => "times(" + Utils.IntToString(min) + ", " + Utils.IntToString(max) + ")"
  }
}
