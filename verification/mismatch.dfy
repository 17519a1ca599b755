/**
 * The failure value of Sources/ParserCore/Mismatch.swift: a struct holding an
 * optional message, built from an optional tag and an optional expectation.
 */
module Mismatches {
  import opened Wrappers

  datatype Mismatch = Mismatch(message: Option<string>)

  /** `Mismatch()`: no message at all. */
  const NoMatch: Mismatch := Mismatch(None)

  /** `description`: the message, or "No match" when there is none. */
  function Description(m: Mismatch): (d: string)
    ensures m.message.Some? ==> d == m.message.value
    ensures m.message.None? ==> d == "No match"
  {
    if m.message.Some? then m.message.value else "No match"
  }

  /**
   * `init(tag:_:)`: the message names the tag and the expectation that are
   * present; the expectation is given as the text it describes itself with.
   */
  function WithTag(tag: Option<string>, expectation: Option<string>): (m: Mismatch)
    ensures m.message.None? <==> tag.None? && expectation.None?
    ensures tag.Some? && expectation.Some? ==>
              m.message.value == "Cannot parse " + tag.value + ": expected " + expectation.value
    ensures tag.Some? && expectation.None? ==> m.message.value == "Cannot parse " + tag.value
    ensures tag.None? && expectation.Some? ==> m.message.value == "Expected " + expectation.value
  {
    match (tag, expectation)
    case (Some(t), Some(e)) => Mismatch(Some("Cannot parse " + t + ": expected " + e))
    case (Some(t), None) => Mismatch(Some("Cannot parse " + t))
    case (None, Some(e)) => Mismatch(Some("Expected " + e))
    case (None, None) => Mismatch(None)
  }

  /** `Mismatch.expected(_:)`: an expectation without a tag. */
  function Expected(expectation: string): (m: Mismatch)
    ensures m == WithTag(None, Some(expectation))
  {
    Mismatch(Some("Expected " + expectation))
  }

  /** A mismatch built by `init(tag:_:)` never describes itself with the empty string. */
  lemma DescriptionNonEmpty(tag: Option<string>, expectation: Option<string>)
    ensures Description(WithTag(tag, expectation)) != []
  {
  }

  /** Two mismatches from different expectations (same tag) describe themselves differently. */
  lemma WithTagInjective(tag: Option<string>, e1: Option<string>, e2: Option<string>)
    requires e1 != e2
    ensures WithTag(tag, e1) != WithTag(tag, e2)
  {
    var m1, m2 := WithTag(tag, e1), WithTag(tag, e2);
    if tag.Some? && e1.Some? && e2.Some? {
      var prefix := "Cannot parse " + tag.value + ": expected ";
      assert m1.message.value[|prefix|..] == e1.value;
      assert m2.message.value[|prefix|..] == e2.value;
    } else if tag.None? && e1.Some? && e2.Some? {
      assert m1.message.value[9..] == e1.value;
      assert m2.message.value[9..] == e2.value;
    } else if tag.Some? && e1.Some? && e2.None? {
      assert |m1.message.value| > |m2.message.value|;
    } else if tag.Some? && e1.None? && e2.Some? {
      assert |m1.message.value| < |m2.message.value|;
    }
  }
}
