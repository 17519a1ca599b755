/**
 * The values a parse produces in the current engine and in ParserCore2:
 * a symbol together with the range of source positions it covers
 * (`GenericMatch`), and the outcome of a run bounded by fuel.
 */
module Matches {
  import opened Wrappers

  /** `lower ..< upper`, in positions counted from the start of the source. */
  datatype Range = Range(lower: nat, upper: nat)

  /** `GenericMatch<Symbol, Index>`. */
  datatype Match<S> = Match(symbol: S, range: Range)

  /**
   * The symbols the combinators build: `()` (`Unit`), one element, a
   * subsequence of the source, an array of symbols, an optional symbol, and a
   * labelled node for what user transforms make of them.
   */
  datatype Symbol<E> =
    | Unit
    | Element(element: E)
    | Elements(elements: seq<E>)
    | Items(items: seq<Symbol<E>>)
    | Optional(optional: Option<Symbol<E>>)
    | Node(name: string, children: seq<Symbol<E>>)

  /**
   * A run of the interpreter: it either finishes with a result, or stops
   * because its fuel ran out (the original program would not terminate, or
   * would take longer than the fuel allows).
   */
  datatype Run<T> = Done(result: T) | Stuck

  /** How elements and patterns print themselves in expectation texts. */
  datatype Rendering<!E> = Rendering(reflect: E -> string, describe: E -> string, reflectSlice: seq<E> -> string)

  /** A match that starts at `start` and ends inside a source of length `n`. */
  predicate Fits<S>(m: Match<S>, start: nat, n: nat)
  {
    m.range.lower == start <= m.range.upper <= n
  }
}
