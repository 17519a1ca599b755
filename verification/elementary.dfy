/** Sources/ParserCore/Core+Ext/Core+Elementary.swift: `empty` and `end`. */
module Elementary {
  import opened Wrappers
  import opened Mismatches

  /**
   * The `end` probe: a zero-width match exactly when the tail is empty
   * (`tail.startIndex == tail.endIndex`). The answer is the match length.
   */
  function EndLength<E>(source: seq<E>, start: nat): (r: Option<nat>)
    requires start <= |source|
    ensures r.Some? <==> source[start..] == []
    ensures r.Some? ==> r.value == 0
  {
    if start == |source| then Some(0) else None
  }

  /** `end` fails expecting "end of input". */
  const EndMismatch: Mismatch := Expected("end of input")

  /** The merged copy builds the same mismatch through `init(tag: nil, expectation:)`. */
  lemma EndMismatchMerged()
    ensures EndMismatch == WithTag(None, Some("end of input"))
    ensures Description(EndMismatch) == "Expected end of input"
  {
  }
}
