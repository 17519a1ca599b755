/** Sources/ParserCore/Core+Ext/Core+Arity.swift: the failure of `many(count:)`. */
module Arity {
  import opened Wrappers
  import opened Mismatches
  import opened CountLimits

  /** `many` fails expecting "limit tag" when the repeated parser is tagged, else with `Mismatch()`. */
  function ManyMismatch(limit: CountLimit, itemTag: Option<string>): (m: Mismatch)
    ensures m == NoMatch <==> itemTag.None?
    ensures itemTag.Some? ==> Mismatches.Description(m) == "Expected " + CountLimits.Description(limit) + " " + itemTag.value
  {
    if itemTag.Some? then Expected(CountLimits.Description(limit) + " " + itemTag.value) else NoMatch
  }

  /** The merged copy: the `many` tag, expecting "limit tag" only when the repeated parser is tagged. */
  function MergedManyMismatch(tag: Option<string>, limit: CountLimit, itemTag: Option<string>): (m: Mismatch)
    ensures m.message.None? <==> tag.None? && itemTag.None?
    ensures tag.None? ==> m == ManyMismatch(limit, itemTag)
  {
    WithTag(tag, if itemTag.Some? then Some(CountLimits.Description(limit) + " " + itemTag.value) else None)
  }
}
