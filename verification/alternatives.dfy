/**
 * Sources/ParserCore/Core+Ext/Core+Alternatives.swift: `oneOf` over parsers
 * and `oneOf` over elements, with the mismatch texts of the merged copy
 * (Sources/ParserCore/Core+Ext/Core+Ext.swift) beside them.
 */
module Alternatives {
  import opened Wrappers
  import opened Mismatches
  import Utils

  /** The element probe: one element, when the tail starts with one of the alternatives. */
  function ElementLength<E(==)>(tail: seq<E>, alternatives: seq<E>): (r: Option<nat>)
    ensures r.Some? <==> tail != [] && tail[0] in alternatives
    ensures r.Some? ==> r.value == 1
  {
    if tail != [] && tail[0] in alternatives then Some(1) else None
  }

  /** The candidates' tags, each described ("nil" for an untagged one), joined with " or ". */
  function TagList(tags: seq<Option<string>>): string
  {
    Utils.Join(Utils.Each(tags, Utils.Describe), " or ")
  }

  /**
   * Parser `oneOf` when every candidate failed: expected the tag list, or
   * `Mismatch()` when that list is the empty string.
   */
  function OneOfMismatch(tags: seq<Option<string>>): (m: Mismatch)
    ensures TagList(tags) != [] ==> m == Expected(TagList(tags))
    ensures TagList(tags) == [] ==> m == NoMatch
  {
    match Utils.NonEmpty(TagList(tags))
    case Some(list) => Expected(list)
    case None => NoMatch
  }

  /**
   * The mismatch carries no message exactly when there is no candidate, or a
   * single candidate whose tag is the empty string.
   */
  lemma OneOfMismatchEmpty(tags: seq<Option<string>>)
    ensures OneOfMismatch(tags) == NoMatch <==> tags == [] || (|tags| == 1 && tags[0] == Some(""))
  {
    var described := Utils.Each(tags, Utils.Describe);
    Utils.JoinEmpty(described, " or ");
    if |tags| == 1 && described[0] == [] {
      assert tags[0] == Some("");
    }
  }

  /** Element `oneOf` fails expecting the alternatives, each as it prints itself, joined with " or ". */
  function ElementsMismatch<E>(alternatives: seq<E>, reflect: E -> string): (m: Mismatch)
    ensures m.message.Some?
    ensures Description(m) == "Expected " + Utils.Join(Utils.Each(alternatives, reflect), " or ")
  {
    Expected(Utils.Join(Utils.Each(alternatives, reflect), " or "))
  }

  /** Whether any candidate has a tag (`compactMap { $0.tag }.count > 0`). */
  predicate AnyTagged(tags: seq<Option<string>>)
  {
    exists i :: 0 <= i < |tags| && tags[i].Some?
  }

  /**
   * The merged copy's parser `oneOf` failure: the `oneOf` tag, with the tag
   * list as expectation only when some candidate is tagged.
   */
  function MergedOneOfMismatch(tag: Option<string>, tags: seq<Option<string>>): (m: Mismatch)
    ensures AnyTagged(tags) ==> m == WithTag(tag, Some(TagList(tags)))
    ensures !AnyTagged(tags) ==> m == WithTag(tag, None)
  {
    WithTag(tag, if AnyTagged(tags) then Some(TagList(tags)) else None)
  }

  /** Without a tag of its own and without tagged candidates, the merged `oneOf` failure has no message. */
  lemma MergedOneOfMismatchSilent(tag: Option<string>, tags: seq<Option<string>>)
    ensures MergedOneOfMismatch(tag, tags).message.None? <==> tag.None? && !AnyTagged(tags)
  {
  }

  /** The merged copy's element `oneOf` failure: the tag, expecting the alternatives as they describe themselves. */
  function MergedElementsMismatch<E>(tag: Option<string>, alternatives: seq<E>, describe: E -> string): (m: Mismatch)
    ensures m.message.Some?
    ensures m == WithTag(tag, Some(Utils.Join(Utils.Each(alternatives, describe), " or ")))
  {
    WithTag(tag, Some(Utils.Join(Utils.Each(alternatives, describe), " or ")))
  }
}
