/** Sources/ParserCore/Core+Ext/Core+Subseq.swift: `subseq(while:count:)` and `subseq(_ pattern:)`. */
module Subseq {
  import opened Wrappers
  import opened Mismatches
  import opened CountLimits

  /**
   * The length of the prefix `prefix(while:)` takes when its closure also
   * counts: an element is taken while the limit extends past the number
   * already taken (`count` of them before `tail`) and the predicate holds.
   */
  function PrefixLength<E>(tail: seq<E>, holds: E -> bool, limit: CountLimit, count: nat): (n: nat)
    ensures n <= |tail|
    ensures forall i :: 0 <= i < n ==> holds(tail[i]) && Extends(limit, count + i)
    ensures n == |tail| || !Extends(limit, count + n) || !holds(tail[n])
    decreases |tail|
  {
    if tail == [] || !(Extends(limit, count) && holds(tail[0])) then 0
    else
      var rest := PrefixLength(tail[1..], holds, limit, count + 1);
      assert forall i :: 1 <= i < 1 + rest ==> tail[i] == tail[1..][i - 1];
      1 + rest
  }

  /** The counting closure run over the tail, as the loop `prefix(while:)` performs. */
  method CountPrefix<E>(tail: seq<E>, holds: E -> bool, limit: CountLimit) returns (count: nat)
    ensures count == PrefixLength(tail, holds, limit, 0)
  {
    count := 0;
    while count < |tail| && Extends(limit, count) && holds(tail[count])
      invariant count <= |tail|
      invariant PrefixLength(tail, holds, limit, 0) == count + PrefixLength(tail[count..], holds, limit, count)
      decreases |tail| - count
    {
      assert tail[count..][1..] == tail[count + 1..];
      count := count + 1;
    }
  }

  /** The holds probe: the counted prefix, accepted when the limit contains its length. */
  function WhileLength<E>(tail: seq<E>, holds: E -> bool, limit: CountLimit): (r: Option<nat>)
    ensures r.Some? <==> Contains(limit, PrefixLength(tail, holds, limit, 0))
    ensures r.Some? ==> r.value == PrefixLength(tail, holds, limit, 0)
  {
    var n := PrefixLength(tail, holds, limit, 0);
    if Contains(limit, n) then Some(n) else None
  }

  /** The longest prefix whose elements all satisfy the predicate (`prefix(while:)` alone). */
  function PredicatePrefix<E>(tail: seq<E>, holds: E -> bool): (n: nat)
    ensures n <= |tail|
    ensures forall i :: 0 <= i < n ==> holds(tail[i])
    ensures n == |tail| || !holds(tail[n])
  {
    if tail == [] || !holds(tail[0]) then 0
    else
      var rest := PredicatePrefix(tail[1..], holds);
      assert forall i :: 1 <= i < 1 + rest ==> tail[i] == tail[1..][i - 1];
      1 + rest
  }

  /** A limit without an upper bound never caps the prefix: it is the longest holds prefix. */
  lemma {:induction false} UnboundedPrefix<E>(tail: seq<E>, holds: E -> bool, min: int, count: nat)
    ensures PrefixLength(tail, holds, AtLeast(min), count) == PredicatePrefix(tail, holds)
    decreases |tail|
  {
    if tail != [] && holds(tail[0]) {
      UnboundedPrefix(tail[1..], holds, min, count + 1);
    }
  }

  /** With the default limit `atLeast(1)` the probe succeeds exactly on a non-empty holds prefix. */
  lemma DefaultLimitRejectsEmpty<E>(tail: seq<E>, holds: E -> bool)
    ensures WhileLength(tail, holds, AtLeast(1)).Some? <==> tail != [] && holds(tail[0])
    ensures WhileLength(tail, holds, AtLeast(1)).Some? ==>
              WhileLength(tail, holds, AtLeast(1)).value == PredicatePrefix(tail, holds)
  {
    UnboundedPrefix(tail, holds, 1, 0);
  }

  /** A holds probe under a bounded limit never takes more than the bound. */
  lemma WhileLengthBounded<E>(tail: seq<E>, holds: E -> bool, limit: CountLimit)
    requires limit.AtMost? || limit.Times?
    requires WhileLength(tail, holds, limit).Some?
    ensures WhileLength(tail, holds, limit).value <= limit.max
  {
  }

  /** The pattern probe: `tail.starts(with: pattern)`, consuming `pattern.count` elements. */
  function PatternLength<E(==)>(tail: seq<E>, pattern: seq<E>): (r: Option<nat>)
    ensures r.Some? <==> |pattern| <= |tail| && tail[..|pattern|] == pattern
    ensures r.Some? ==> r.value == |pattern|
  {
    if |pattern| <= |tail| && tail[..|pattern|] == pattern then Some(|pattern|) else None
  }

  /** The holds `subseq` fails with the bare tag. */
  function WhileMismatch(tag: Option<string>): (m: Mismatch)
    ensures m.message.None? <==> tag.None?
    ensures tag.Some? ==> Mismatches.Description(m) == "Cannot parse " + tag.value
  {
    WithTag(tag, None)
  }

  /** The pattern `subseq` fails with the tag, expecting the pattern as it prints itself. */
  function PatternMismatch(tag: Option<string>, renderedPattern: string): (m: Mismatch)
    ensures m.message.Some?
    ensures tag.None? ==> Mismatches.Description(m) == "Expected " + renderedPattern
    ensures tag.Some? ==> Mismatches.Description(m) == "Cannot parse " + tag.value + ": expected " + renderedPattern
  {
    WithTag(tag, Some(renderedPattern))
  }
}
