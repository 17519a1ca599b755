/** The helpers of Sources/ParserCore/Utils.swift, and the string joining they feed. */
module Utils {
  import opened Wrappers

  /** `String.nonEmpty`: nil for the empty string, the string itself otherwise. */
  function NonEmpty(s: string): (r: Option<string>)
    ensures r.None? <==> s == []
    ensures r.Some? ==> r.value == s
  {
    if s == [] then None else Some(s)
  }

  /** `Collection.subscript(safe:)`: the element when the index is in bounds, else nil. */
  function SafeAt<T>(s: seq<T>, index: int): (r: Option<T>)
    ensures r.Some? <==> 0 <= index < |s|
    ensures r.Some? ==> r.value == s[index]
  {
    if 0 <= index < |s| then Some(s[index]) else None
  }

  /** `id`. */
  function Id<T>(x: T): (r: T)
    ensures r == x
  {
    x
  }

  /** `const(_:)`, the one-argument form: a function that ignores its argument. */
  function Const<A(!new), T>(x: T): (f: A -> T)
    ensures forall a: A :: f(a) == x
  {
    (_: A) => x
  }

  /** `const(_:)`, the two-argument form. */
  function Const2<A(!new), B(!new), T>(x: T): (f: (A, B) -> T)
    ensures forall a: A, b: B :: f(a, b) == x
  {
    (_: A, _: B) => x
  }

  /** `describe(_:)`: the tag itself, or "nil" when there is none. */
  function Describe(tag: Option<string>): (d: string)
    ensures tag.Some? ==> d == tag.value
    ensures tag.None? ==> d == "nil"
  {
    if tag.Some? then tag.value else "nil"
  }

  /** `map(_:)` over an array: `f` applied to each item, in order. */
  function Each<T, U>(items: seq<T>, f: T -> U): (r: seq<U>)
    ensures |r| == |items|
    ensures forall i :: 0 <= i < |items| ==> r[i] == f(items[i])
  {
    seq(|items|, i requires 0 <= i < |items| => f(items[i]))
  }

  /** `joined(separator:)` over a sequence of strings. */
  function Join(parts: seq<string>, separator: string): string
  {
    if |parts| == 0 then ""
    else if |parts| == 1 then parts[0]
    else parts[0] + separator + Join(parts[1..], separator)
  }

  /** With a non-empty separator, a join is empty only for no part or one empty part. */
  lemma JoinEmpty(parts: seq<string>, separator: string)
    requires separator != []
    ensures Join(parts, separator) == [] <==> parts == [] || (|parts| == 1 && parts[0] == [])
  {
    if |parts| > 1 {
      assert |Join(parts, separator)| >= |separator|;
    }
  }

  /** Decimal rendering of an integer, as Swift's string interpolation prints it. */
  function IntToString(n: int): (s: string)
    ensures s != []
  {
    if n < 0 then "-" + NatToString(-n) else NatToString(n)
  }

  function NatToString(n: nat): (s: string)
    ensures s != []
    decreases n
  {
    if n < 10 then [Digit(n)] else NatToString(n / 10) + [Digit(n % 10)]
  }

  function Digit(d: nat): char
    requires d < 10
  {
    "0123456789"[d]
  }
}
