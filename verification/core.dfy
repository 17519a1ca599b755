/**
 * The current engine, Sources/ParserCore/Core.swift: a cursor over the source
 * that parsers move with `accept` and call each other through with `parse`.
 * Every `parse` runs the parser's body through the tracer chain — depth
 * limiter, memoizer, farthest-mismatch tracer, outermost first — and puts
 * the cursor back where it was when the outcome is a failure.
 *
 * Parsers are values of the `Parser` datatype, one form per combinator of
 * Sources/ParserCore/Core+Ext and Sources/ParserCore/Parser.swift, and the
 * `Core` interprets them. Recursive grammars refer to their rules by name.
 * Every interpretation carries fuel: a run that exhausts it is `Stuck`.
 */
module CoreEngine {
  import opened Wrappers
  import opened Eithers
  import opened Mismatches
  import opened Matches
  import opened CountLimits
  import opened MemoKeys
  import opened IndexDictionaries
  import CoreDelegate
  import opened DepthLimiting
  import opened Memoizing
  import opened FarthestMismatch
  import Elementary
  import Subseq
  import Alternatives
  import Arity
  import Tracing
  import Utils
  import opened ParseCalls
  import opened EitherCalls

  type Outcome<E> = Either<Mismatch, Symbol<E>>

  /**
   * The combinators. Each carries the optional tag it was built with, except
   * `End`, which has none.
   */
  datatype Parser<!E> =
    | Empty(tag: Option<string>)
    | End
    | SubseqWhile(tag: Option<string>, holds: E -> bool, limit: CountLimit)
    | SubseqPattern(tag: Option<string>, pattern: seq<E>)
    | OneOfElements(tag: Option<string>, alternatives: seq<E>)
    | Maybe(tag: Option<string>, parser: Parser<E>)
    | Many(tag: Option<string>, parser: Parser<E>, limit: CountLimit)
    | List(tag: Option<string>, item: Parser<E>, separator: Parser<E>)
    | OneOf(tag: Option<string>, parsers: seq<Parser<E>>)
    | Map(tag: Option<string>, parser: Parser<E>, transform: Symbol<E> -> Symbol<E>)
    | AttemptMap(tag: Option<string>, parser: Parser<E>, attempt: Symbol<E> -> Outcome<E>)
    | FlatMap(tag: Option<string>, parser: Parser<E>, continuation: Symbol<E> -> Parser<E>)
    | MapError(tag: Option<string>, parser: Parser<E>, recover: Mismatch -> Mismatch)
    | Rule(tag: Option<string>, name: string)
  {
    /** `tag`. */
    function Tag(): Option<string>
    {
      if End? then None else tag
    }
  }

  /** `Core.init(source:)` for strings: the tail length is its UTF-16 count, given as `utf16Count`. */
  function StringCount(utf16Count: string -> nat): (count: string -> int)
    ensures forall s :: count(s) == utf16Count(s)
  {
    s => utf16Count(s)
  }

  /** The calls of `parse` a body has made, in order. */
  type Trail<!E> = seq<ParseCall<Parser<E>, Outcome<E>>>

  /** `maybe`: one call of the inner parser; a success holding its symbol, or nothing when it failed. */
  ghost predicate MaybeStep<E>(parser: Parser<E>, start: nat, made: Trail<E>, result: Outcome<E>, end: nat)
  {
    Single(made, parser, start) && result == Right(Optional(Eithers.Value(made[0].outcome))) && end == made[0].end
  }

  /**
   * `many(count:)`: the inner parser is called while the limit extends past
   * the number of items so far, until it fails; the items are the result
   * when the limit contains their number, else the `many` mismatch.
   */
  ghost predicate ManyStep<E>(merged: bool, tag: Option<string>, parser: Parser<E>, limit: CountLimit,
                              start: nat, made: Trail<E>, result: Outcome<E>, end: nat)
  {
    && Chained(made, parser, start)
    && (forall i :: 0 <= i < |made| ==> Extends(limit, i))
    && ((made != [] && Last(made).outcome.Left?) || !Extends(limit, |made|))
    && end == EndOf(made, start)
    && var found := Found(made);
       if Contains(limit, |found|) then result == Right(Items(SymbolsOf(found)))
       else if merged then result == Left(Arity.MergedManyMismatch(tag, limit, parser.Tag()))
       else result == Left(Arity.ManyMismatch(limit, parser.Tag()))
  }

  /** The unit `list` parses after its first item: `separator.flatMap(const(item))`. */
  function FollowingItem<E>(separator: Parser<E>, item: Parser<E>): (following: Parser<E>)
    ensures following.FlatMap? && following.tag.None? && following.parser == separator
  {
    FlatMap(None, separator, (_: Symbol<E>) => item)
  }

  /**
   * `list(item:separator:)`: one call of the item; when it fails, no items
   * and the cursor where it was; else calls of the following-item unit until
   * one fails, and the first item followed by theirs.
   */
  ghost predicate ListStep<E>(item: Parser<E>, separator: Parser<E>, start: nat, made: Trail<E>, result: Outcome<E>, end: nat)
  {
    && made != [] && made[0].parser == item && made[0].start == start
    && (made[0].outcome.Left? ==> |made| == 1 && result == Right(Items([])) && end == start)
    && (made[0].outcome.Right? ==>
          var rest := made[1..];
          && Chained(rest, FollowingItem(separator, item), made[0].end)
          && rest != [] && Last(rest).outcome.Left?
          && result == Right(Items([made[0].outcome.right] + SymbolsOf(Found(rest))))
          && end == EndOf(rest, made[0].end))
  }

  /**
   * Parser `oneOf`: the candidates are called in order, each from the start,
   * until one succeeds, which is the result; later candidates are not
   * called. When all fail, the mismatch names their tags.
   */
  ghost predicate OneOfStep<E>(merged: bool, tag: Option<string>, parsers: seq<Parser<E>>,
                               start: nat, made: Trail<E>, result: Outcome<E>, end: nat)
  {
    && |made| <= |parsers|
    && (forall i :: 0 <= i < |made| ==> made[i].parser == parsers[i] && made[i].start == start)
    && (forall i :: 0 <= i < |made| - 1 ==> made[i].outcome.Left?)
    && if made != [] && Last(made).outcome.Right? then result == Last(made).outcome && end == Last(made).end
       else
         var tags := Utils.Each(parsers, (p: Parser<E>) => p.Tag());
         && |made| == |parsers| && end == start
         && result == Left(if merged then Alternatives.MergedOneOfMismatch(tag, tags) else Alternatives.OneOfMismatch(tags))
  }

  /** `map`: one call of the inner parser, its outcome with the transform applied to a success. */
  ghost predicate MapStep<E>(parser: Parser<E>, transform: Symbol<E> -> Symbol<E>, start: nat, made: Trail<E>, result: Outcome<E>, end: nat)
  {
    Single(made, parser, start) && result == Eithers.Map(made[0].outcome, transform) && end == made[0].end
  }

  /** `attemptMap`: one call of the inner parser, a success passed through the attempt. */
  ghost predicate AttemptMapStep<E>(parser: Parser<E>, attempt: Symbol<E> -> Outcome<E>, start: nat, made: Trail<E>, result: Outcome<E>, end: nat)
  {
    Single(made, parser, start) && result == Eithers.FlatMap(made[0].outcome, attempt) && end == made[0].end
  }

  /** `mapError`: one call of the inner parser, only a mismatch transformed. */
  ghost predicate MapErrorStep<E>(parser: Parser<E>, recover: Mismatch -> Mismatch, start: nat, made: Trail<E>, result: Outcome<E>, end: nat)
  {
    Single(made, parser, start) && result == Eithers.MapError(made[0].outcome, recover) && end == made[0].end
  }

  /**
   * `flatMap`: one call of the inner parser, whose failure is the result;
   * after a success, one call of the parser the continuation chooses for
   * its symbol, from where the first left the cursor, whose outcome is the result.
   */
  ghost predicate FlatMapStep<E>(parser: Parser<E>, continuation: Symbol<E> -> Parser<E>,
                                 start: nat, made: Trail<E>, result: Outcome<E>, end: nat)
  {
    && made != [] && made[0].parser == parser && made[0].start == start
    && (made[0].outcome.Left? ==> |made| == 1 && result == made[0].outcome && end == start)
    && (made[0].outcome.Right? ==>
          && |made| == 2 && made[1].parser == continuation(made[0].outcome.right) && made[1].start == made[0].end
          && result == made[1].outcome && end == made[1].end)
  }

  /** A `many` parse never keeps more items than the limit's maximum. */
  lemma ManyStepBounded<E>(merged: bool, tag: Option<string>, parser: Parser<E>, limit: CountLimit,
                           start: nat, made: Trail<E>, result: Outcome<E>, end: nat)
    requires ManyStep(merged, tag, parser, limit, start, made, result, end)
    ensures Found(made) != [] && Max(limit).Some? ==> |Found(made)| <= Max(limit).value
    ensures result.Right? <==> Contains(limit, |Found(made)|)
  {
    if Found(made) != [] {
      assert Extends(limit, |Found(made)| - 1);
      ExtendsBoundsCount(limit, |Found(made)|);
    }
  }

  /** Every cached success at (position, tag) starts at that position and ends inside the source. */
  ghost predicate CacheSound<E>(items: seq<Item<Value<E>>>, length: nat)
  {
    forall key: Key :: Find(items, key).Some? && Find(items, key).value.Right? ==>
      Fits(Find(items, key).value.right, key.position, length)
  }

  class Core<E(==)> {
    const source: seq<E>
    var position: nat
    const overestimatedCount: seq<E> -> int
    /** The grammar's named rules, for parsers that refer to themselves. */
    const rules: map<string, Parser<E>>
    const rendering: Rendering<E>
    /** Whether the mismatch texts are those of the merged copy, Core+Ext/Core+Ext.swift. */
    const merged: bool
    const depthLimiter: DepthLimiter
    const memoizer: Memoizer<E>
    const farthest: FarthestMismatchTracer
    /** The calls of `parse` the running body has made so far; only `Parse` changes it. */
    ghost var calls: Trail<E>

    ghost predicate Valid()
      reads this, depthLimiter, memoizer, memoizer.cache, farthest
    {
      && position <= |source|
      && depthLimiter.Valid()
      && memoizer.Valid()
      && memoizer.hasDelegate
      && farthest.Valid()
      && CacheSound(memoizer.cache.items, |source|)
    }

    /**
     * What a finished call leaves behind: the cursor has not moved back, the
     * farthest-mismatch stack is as it was, and so is every recorded depth.
     */
    twostate predicate Balanced()
      reads this, depthLimiter, farthest
    {
      && old(position) <= position
      && farthest.stack == old(farthest.stack)
      && SameDepths(old(depthLimiter.depthMapMap), depthLimiter.depthMapMap)
    }

    /**
     * `init(source:overestimatedCount:)`: the cursor at the start, and the
     * tracer chain with the depth limiter's tail length taken from
     * `overestimatedCount` (by default the number of elements left).
     */
    constructor (source: seq<E>, overestimatedCount: Option<seq<E> -> int>, rules: map<string, Parser<E>>,
                 rendering: Rendering<E>, merged: bool)
      ensures Valid() && fresh(depthLimiter) && fresh(memoizer) && fresh(memoizer.cache) && fresh(farthest)
      ensures this.source == source && position == 0
      ensures forall p: nat :: p <= |source| ==> depthLimiter.tailLength(p) == this.overestimatedCount(source[p..])
      ensures overestimatedCount.None? ==> forall p: nat :: p <= |source| ==> depthLimiter.tailLength(p) == |source| - p
      ensures memoizer.cache.items == [] && farthest.stack == [] && farthest.farthestMismatch == None
    {
      var count: seq<E> -> int := if overestimatedCount.Some? then overestimatedCount.value else (s: seq<E>) => |s|;
      this.source := source;
      this.position := 0;
      this.overestimatedCount := count;
      this.rules := rules;
      this.rendering := rendering;
      this.merged := merged;
      depthLimiter := new DepthLimiter((p: nat) => if p <= |source| then count(source[p..]) else 0);
      memoizer := new Memoizer(true);
      farthest := new FarthestMismatchTracer();
    }

    /**
     * The report of the tracer chain, built with the corrected
     * `Tracing.CompositeReport`: the farthest-mismatch tracer is the only one
     * with a report, so the chain reports nothing until a mismatch is
     * registered. As written the composite turns two absent reports into an
     * empty one, so the chain's report is never nil; see
     * `Tracing.ChainReportAsWritten`.
     */
    function Report(): (r: Option<string>)
      reads this, farthest
      ensures r.None? <==> farthest.farthestMismatch.None?
    {
      var none := Tracing.EmptyReport;
      Tracing.ChainReport(FarthestMismatch.Report(farthest.farthestMismatch));
      Tracing.CompositeReport(Tracing.CompositeReport(Tracing.CompositeReport(none, none), none),
                              FarthestMismatch.Report(farthest.farthestMismatch))
    }

    /**
     * `accept(_:)`, given what the probe answered on the tail at the cursor:
     * a match moves the cursor to its end and yields its symbol; no match
     * changes nothing.
     */
    method Accept(found: Option<Match<Symbol<E>>>) returns (symbol: Option<Symbol<E>>)
      requires Valid()
      requires found.Some? ==> position <= found.value.range.upper <= |source|
      modifies this
      ensures Valid()
      ensures found.Some? ==> position == found.value.range.upper && symbol == Some(found.value.symbol)
      ensures found.None? ==> position == old(position) && symbol == None
      ensures calls == old(calls)
    {
      if found.Some? {
        position := found.value.range.upper;
        return Some(found.value.symbol);
      }
      return None;
    }

    /** `memoizer(willReturnCached:)`: a cached success puts the cursor at its end. */
    method WillReturnCached(cached: Value<E>)
      requires Valid()
      requires cached.Right? ==> cached.right.range.upper <= |source|
      modifies this
      ensures Valid()
      ensures position == CoreDelegate.ReplayPosition(old(position), cached)
      ensures calls == old(calls)
    {
      if cached.Right? {
        position := cached.right.range.upper;
      }
    }

    /**
     * `parse(_:)`: the body of `parser`, traced, as a match from the start
     * position to where the cursor ends; on failure the cursor goes back to
     * the start. `traced` is the outcome the tracer chain returned. The call
     * is recorded after the calls the enclosing body made before it.
     */
    method Parse(parser: Parser<E>, fuel: nat) returns (r: Run<Outcome<E>>, ghost traced: Run<Value<E>>)
      requires Valid()
      modifies this, depthLimiter, memoizer.cache, farthest
      ensures Valid()
      ensures r.Done? <==> traced.Done?
      ensures r.Done? ==> Balanced()
      ensures r.Done? ==> r.result == Eithers.Map(traced.result, (m: Match<Symbol<E>>) => m.symbol)
      ensures r.Done? && r.result.Left? ==> position == old(position)
      ensures r.Done? && r.result.Right? ==> traced.result.right.range == Range(old(position), position)
      ensures r.Done? ==> calls == old(calls) + [ParseCall(parser, old(position), r.result, position)]
      decreases fuel, 5
    {
      var startPosition := position;
      ghost var before := calls;
      calls := [];
      var m := TraceDepth(parser, fuel);
      traced := m;
      if m.Stuck? {
        return Stuck, m;
      }
      if m.result.Left? {
        position := startPosition;
      }
      r := Done(Eithers.Map(m.result, (m: Match<Symbol<E>>) => m.symbol));
      calls := before + [ParseCall(parser, startPosition, r.result, position)];
    }

    /**
     * The depth limiter's `trace`: an untagged call goes straight on; a
     * tagged call deeper than the tail length is refused without running
     * the rest of the chain; otherwise the rest runs with the depth raised,
     * and the saved dictionary of the position is written back afterwards.
     */
    method TraceDepth(parser: Parser<E>, fuel: nat) returns (m: Run<Value<E>>)
      requires Valid() && calls == []
      modifies this, depthLimiter, memoizer.cache, farthest
      ensures Valid()
      ensures m.Done? ==> Balanced()
      ensures m.Done? && m.result.Right? ==> m.result.right.range == Range(old(position), position)
      ensures parser.Tag().Some? && depthLimiter.tailLength(old(position)) < DepthOf(old(depthLimiter.depthMapMap), old(position), parser.Tag().value) ==>
                m == Done(Left(NoMatch)) && position == old(position)
      decreases fuel, 4
    {
      var tag := parser.Tag();
      if tag.None? {
        m := TraceMemo(parser, fuel);
        return;
      }
      var start := position;
      ghost var before := depthLimiter.depthMapMap;
      var admitted, depthMap, depth := depthLimiter.Enter(start, tag.value);
      if !admitted {
        return Done(Left(NoMatch));
      }
      m := TraceMemo(parser, fuel);
      if m.Stuck? {
        return;
      }
      ghost var after := depthLimiter.depthMapMap;
      depthLimiter.Leave(start, tag.value, depthMap, depth);
      EnterLeaveRestores(before, after, start, tag.value);
    }

    /**
     * The memoizer's `trace`: an untagged call goes straight on; a cached
     * (position, tag) is replayed without running the rest of the chain;
     * otherwise the rest runs and its candidate is stored, unless a
     * re-entrant call cached an answer the delegate prefers to keep, which
     * is replayed instead. Either way, what a tagged call returns is what
     * the cache holds for its (position, tag) afterwards.
     */
    method TraceMemo(parser: Parser<E>, fuel: nat) returns (m: Run<Value<E>>)
      requires Valid() && calls == []
      modifies this, depthLimiter, memoizer.cache, farthest
      ensures Valid()
      ensures m.Done? ==> Balanced()
      ensures m.Done? && m.result.Right? ==> m.result.right.range == Range(old(position), position)
      ensures parser.Tag().Some? && old(Find(memoizer.cache.items, Key(position, parser.Tag().value))).Some? ==>
                m == Done(old(Find(memoizer.cache.items, Key(position, parser.Tag().value))).value)
                && memoizer.cache.items == old(memoizer.cache.items)
      ensures parser.Tag().Some? && m.Done? ==> Find(memoizer.cache.items, Key(old(position), parser.Tag().value)) == Some(m.result)
      decreases fuel, 3
    {
      var tag := parser.Tag();
      ghost var inner;
      if tag.None? {
        m, inner := TraceFarthest(parser, fuel);
        return;
      }
      var start := position;
      var cached := memoizer.Lookup(start, tag.value);
      if cached.Some? {
        WillReturnCached(cached.value);
        return Done(cached.value);
      }
      var candidate;
      candidate, inner := TraceFarthest(parser, fuel);
      if candidate.Stuck? {
        return Stuck;
      }
      var replay, result := memoizer.Store(start, tag.value, candidate.result);
      if replay {
        WillReturnCached(result);
      }
      m := Done(result);
    }

    /**
     * The farthest-mismatch tracer's `trace`: enter the call, run the body,
     * register a failure, leave; the body's outcome is returned unchanged.
     */
    method TraceFarthest(parser: Parser<E>, fuel: nat) returns (m: Run<Value<E>>, ghost inner: Option<Farthest>)
      requires Valid() && calls == []
      modifies this, depthLimiter, memoizer.cache, farthest
      ensures Valid()
      ensures m.Done? ==> Balanced()
      ensures m.Done? && m.result.Right? ==> m.result.right.range == Range(old(position), position)
      ensures m.Done? && m.result.Right? ==> farthest.farthestMismatch == inner
      ensures m.Done? && m.result.Left? ==>
                farthest.farthestMismatch == Registered(inner, FarthestMismatch.Entered(old(farthest.stack), old(position), parser.Tag()), m.result.left)
      decreases fuel, 2
    {
      ghost var stack := farthest.stack;
      farthest.Enter(position, parser.Tag());
      m := RunBody(parser, fuel);
      inner := farthest.farthestMismatch;
      if m.Stuck? {
        return;
      }
      if m.result.Left? {
        farthest.Register(m.result.left);
      }
      LeftEntered(stack, old(position), parser.Tag());
      farthest.Leave();
    }

    /** The body of `parse`: the parser's own body, its symbol wrapped into a match of the cursor's movement. */
    method RunBody(parser: Parser<E>, fuel: nat) returns (m: Run<Value<E>>)
      requires Valid() && calls == []
      modifies this, depthLimiter, memoizer.cache, farthest
      ensures Valid()
      ensures m.Done? ==> Balanced()
      ensures m.Done? && m.result.Right? ==> m.result.right.range == Range(old(position), position)
      ensures m.Done? ==> Step(parser, old(position), calls, Eithers.Map(m.result, (found: Match<Symbol<E>>) => found.symbol), position)
      decreases fuel, 1
    {
      var startPosition := position;
      var r := Body(parser, fuel);
      if r.Stuck? {
        return Stuck;
      }
      var range := Range(startPosition, position);
      m := Done(Eithers.Map(r.result, (symbol: Symbol<E>) => Match(symbol, range)));
      assert Eithers.Map(m.result, (found: Match<Symbol<E>>) => found.symbol) == r.result;
    }

    /** `end()`: succeeds, without moving, exactly at the end of the source. */
    ghost predicate EndStep(start: nat, result: Outcome<E>, end: nat)
    {
      && end == start
      && if start == |source| then result == Right(Unit) else result == Left(Elementary.EndMismatch)
    }

    /**
     * `subseq(while:count:)`: the counted predicate prefix of the tail,
     * accepted when the limit contains its length.
     */
    ghost predicate WhileStep(tag: Option<string>, holds: E -> bool, limit: CountLimit, start: nat, result: Outcome<E>, end: nat)
      requires start <= |source|
    {
      var n := Subseq.PrefixLength(source[start..], holds, limit, 0);
      if Contains(limit, n) then end == start + n && end <= |source| && result == Right(Elements(source[start..end]))
      else end == start && result == Left(Subseq.WhileMismatch(tag))
    }

    /** `subseq(_ pattern:)`: the pattern, when the tail starts with it. */
    ghost predicate PatternStep(tag: Option<string>, pattern: seq<E>, start: nat, result: Outcome<E>, end: nat)
      requires start <= |source|
    {
      var tail := source[start..];
      if |pattern| <= |tail| && tail[..|pattern|] == pattern then end == start + |pattern| && result == Right(Elements(pattern))
      else end == start && result == Left(Subseq.PatternMismatch(tag, rendering.reflectSlice(pattern)))
    }

    /** Element `oneOf`: one element, when it is among the alternatives. */
    ghost predicate ElementStep(tag: Option<string>, alternatives: seq<E>, start: nat, result: Outcome<E>, end: nat)
    {
      if start < |source| && source[start] in alternatives then end == start + 1 && result == Right(Element(source[start]))
      else
        && end == start
        && result == Left(if merged then Alternatives.MergedElementsMismatch(tag, alternatives, rendering.describe)
                          else Alternatives.ElementsMismatch(alternatives, rendering.reflect))
    }

    /** A rule: one call of the grammar's parser of that name, whose outcome is the result. */
    ghost predicate RuleStep(name: string, start: nat, made: Trail<E>, result: Outcome<E>, end: nat)
    {
      name in rules && Single(made, rules[name], start) && result == made[0].outcome && end == made[0].end
    }

    /**
     * What the body of `parser` does, started at `start`: the calls of
     * `parse` it makes, in order, its result and where it leaves the cursor.
     */
    ghost predicate Step(parser: Parser<E>, start: nat, made: Trail<E>, result: Outcome<E>, end: nat)
      requires start <= |source|
    {
      match parser
      case Empty(_) => made == [] && result == Right(Unit) && end == start
      case End => made == [] && EndStep(start, result, end)
      case SubseqWhile(tag, holds, limit) => made == [] && WhileStep(tag, holds, limit, start, result, end)
      case SubseqPattern(tag, pattern) => made == [] && PatternStep(tag, pattern, start, result, end)
      case OneOfElements(tag, alternatives) => made == [] && ElementStep(tag, alternatives, start, result, end)
      case Maybe(_, inner) => MaybeStep(inner, start, made, result, end)
      case Many(tag, inner, limit) => ManyStep(merged, tag, inner, limit, start, made, result, end)
      case List(_, item, separator) => ListStep(item, separator, start, made, result, end)
      case OneOf(tag, parsers) => OneOfStep(merged, tag, parsers, start, made, result, end)
      case Map(_, inner, transform) => MapStep(inner, transform, start, made, result, end)
      case AttemptMap(_, inner, attempt) => AttemptMapStep(inner, attempt, start, made, result, end)
      case FlatMap(_, inner, continuation) => FlatMapStep(inner, continuation, start, made, result, end)
      case MapError(_, inner, recover) => MapErrorStep(inner, recover, start, made, result, end)
      case Rule(_, name) => RuleStep(name, start, made, result, end)
    }

    /** `GenericParser.parse`: the body of the parser's form. */
    method Body(parser: Parser<E>, fuel: nat) returns (r: Run<Outcome<E>>)
      requires Valid() && calls == []
      modifies this, depthLimiter, memoizer.cache, farthest
      ensures Valid()
      ensures r.Done? ==> Balanced()
      ensures r.Done? ==> Step(parser, old(position), calls, r.result, position)
      ensures parser.Empty? && fuel > 0 ==> r == Done(Right(Unit)) && position == old(position) && calls == []
      decreases fuel, 0
    {
      if fuel == 0 {
        return Stuck;
      }
      match parser
      case Empty(_) =>
        r := Done(Right(Unit));
      case End =>
        r := EndBody();
      case SubseqWhile(tag, holds, limit) =>
        r := WhileBody(tag, holds, limit);
      case SubseqPattern(tag, pattern) =>
        r := PatternBody(tag, pattern);
      case OneOfElements(tag, alternatives) =>
        r := ElementBody(tag, alternatives);
      case Maybe(_, inner) =>
        r := MaybeBody(inner, fuel - 1);
      case Many(tag, inner, limit) =>
        r := ManyBody(tag, inner, limit, fuel - 1);
      case List(_, item, separator) =>
        r := ListBody(item, separator, fuel - 1);
      case OneOf(tag, parsers) =>
        r := OneOfBody(tag, parsers, fuel - 1);
      case Map(_, inner, transform) =>
        r := MapBody(inner, transform, fuel - 1);
      case AttemptMap(_, inner, attempt) =>
        r := AttemptMapBody(inner, attempt, fuel - 1);
      case FlatMap(_, inner, continuation) =>
        r := FlatMapBody(inner, continuation, fuel - 1);
      case MapError(_, inner, recover) =>
        r := MapErrorBody(inner, recover, fuel - 1);
      case Rule(_, name) =>
        r := RuleBody(name, fuel - 1);
    }

    /** `end()`. */
    method EndBody() returns (r: Run<Outcome<E>>)
      requires Valid()
      modifies this
      ensures Valid() && calls == old(calls)
      ensures r.Done? && EndStep(old(position), r.result, position)
    {
      var length := Elementary.EndLength(source, position);
      var found := if length.Some? then Some(Match(Unit, Range(position, position + length.value))) else None;
      var symbol := Accept(found);
      r := Done(if symbol.Some? then Right(symbol.value) else Left(Elementary.EndMismatch));
    }

    /** `subseq(while:count:)`. */
    method WhileBody(tag: Option<string>, holds: E -> bool, limit: CountLimit) returns (r: Run<Outcome<E>>)
      requires Valid()
      modifies this
      ensures Valid() && calls == old(calls)
      ensures r.Done? && WhileStep(tag, holds, limit, old(position), r.result, position)
    {
      var count := Subseq.CountPrefix(source[position..], holds, limit);
      var found := if Contains(limit, count) then Some(Match(Elements(source[position..position + count]), Range(position, position + count))) else None;
      var symbol := Accept(found);
      r := Done(if symbol.Some? then Right(symbol.value) else Left(Subseq.WhileMismatch(tag)));
    }

    /** `subseq(_ pattern:)`. */
    method PatternBody(tag: Option<string>, pattern: seq<E>) returns (r: Run<Outcome<E>>)
      requires Valid()
      modifies this
      ensures Valid() && calls == old(calls)
      ensures r.Done? && PatternStep(tag, pattern, old(position), r.result, position)
    {
      var length := Subseq.PatternLength(source[position..], pattern);
      var found := if length.Some? then Some(Match(Elements(pattern), Range(position, position + length.value))) else None;
      var symbol := Accept(found);
      r := Done(if symbol.Some? then Right(symbol.value) else Left(Subseq.PatternMismatch(tag, rendering.reflectSlice(pattern))));
    }

    /** Element `oneOf`. */
    method ElementBody(tag: Option<string>, alternatives: seq<E>) returns (r: Run<Outcome<E>>)
      requires Valid()
      modifies this
      ensures Valid() && calls == old(calls)
      ensures r.Done? && ElementStep(tag, alternatives, old(position), r.result, position)
    {
      var length := Alternatives.ElementLength(source[position..], alternatives);
      var found := if length.Some? then Some(Match(Element(source[position]), Range(position, position + length.value))) else None;
      var symbol := Accept(found);
      var mismatch := if merged then Alternatives.MergedElementsMismatch(tag, alternatives, rendering.describe)
                      else Alternatives.ElementsMismatch(alternatives, rendering.reflect);
      r := Done(if symbol.Some? then Right(symbol.value) else Left(mismatch));
    }

    /** `maybe`. */
    method MaybeBody(parser: Parser<E>, fuel: nat) returns (r: Run<Outcome<E>>)
      requires Valid() && calls == []
      modifies this, depthLimiter, memoizer.cache, farthest
      ensures Valid()
      ensures r.Done? ==> Balanced() && MaybeStep(parser, old(position), calls, r.result, position)
      decreases fuel, 6
    {
      var a;
      ghost var traced;
      a, traced := Parse(parser, fuel);
      if a.Stuck? {
        return Stuck;
      }
      r := Done(Right(Optional(if a.result.Right? then Some(a.result.right) else None)));
    }

    /** `many(count:)`. */
    method ManyBody(tag: Option<string>, parser: Parser<E>, limit: CountLimit, fuel: nat) returns (r: Run<Outcome<E>>)
      requires Valid() && calls == []
      modifies this, depthLimiter, memoizer.cache, farthest
      ensures Valid()
      ensures r.Done? ==> Balanced() && ManyStep(merged, tag, parser, limit, old(position), calls, r.result, position)
      decreases fuel, 6
    {
      var found: seq<Symbol<E>> := [];
      var budget := fuel;
      while Extends(limit, |found|)
        invariant Valid() && Balanced()
        invariant Chained(calls, parser, old(position)) && position == EndOf(calls, old(position))
        invariant forall i :: 0 <= i < |calls| ==> calls[i].outcome.Right? && Extends(limit, i)
        invariant found == SymbolsOf(calls)
        decreases budget
      {
        if budget == 0 {
          return Stuck;
        }
        var next;
        ghost var traced;
        ghost var prior := calls;
        next, traced := Parse(parser, fuel);
        if next.Stuck? {
          return Stuck;
        }
        ChainedAppend(prior, parser, old(position), Last(calls));
        if next.result.Left? {
          assert Found(calls) == calls[..|calls| - 1];
          break;
        }
        SymbolsOfAppend(prior, Last(calls));
        found := found + [next.result.right];
        budget := budget - 1;
      }
      if Contains(limit, |found|) {
        r := Done(Right(Items(found)));
      } else if merged {
        r := Done(Left(Arity.MergedManyMismatch(tag, limit, parser.Tag())));
      } else {
        r := Done(Left(Arity.ManyMismatch(limit, parser.Tag())));
      }
    }

    /** `list(item:separator:)`. */
    method ListBody(item: Parser<E>, separator: Parser<E>, fuel: nat) returns (r: Run<Outcome<E>>)
      requires Valid() && calls == []
      modifies this, depthLimiter, memoizer.cache, farthest
      ensures Valid()
      ensures r.Done? ==> Balanced() && ListStep(item, separator, old(position), calls, r.result, position)
      decreases fuel, 6
    {
      var head;
      ghost var traced;
      head, traced := Parse(item, fuel);
      if head.Stuck? {
        return Stuck;
      }
      if head.result.Left? {
        return Done(Right(Items([])));
      }
      ghost var first := calls[0];
      ghost var rest: Trail<E> := [];
      var found := [head.result.right];
      var followingItem := FollowingItem(separator, item);
      var budget := fuel;
      while true
        invariant Valid() && Balanced()
        invariant calls == [first] + rest
        invariant Chained(rest, followingItem, first.end) && position == EndOf(rest, first.end)
        invariant forall i :: 0 <= i < |rest| ==> rest[i].outcome.Right?
        invariant found == [first.outcome.right] + SymbolsOf(rest)
        decreases budget
      {
        if budget == 0 {
          return Stuck;
        }
        var next;
        ghost var prior := rest;
        next, traced := Parse(followingItem, fuel);
        if next.Stuck? {
          return Stuck;
        }
        rest := rest + [Last(calls)];
        ChainedAppend(prior, followingItem, first.end, Last(calls));
        if next.result.Left? {
          assert Found(rest) == rest[..|rest| - 1];
          break;
        }
        SymbolsOfAppend(prior, Last(calls));
        found := found + [next.result.right];
        budget := budget - 1;
      }
      assert calls[1..] == rest;
      r := Done(Right(Items(found)));
    }

    /** Parser `oneOf`. */
    method OneOfBody(tag: Option<string>, parsers: seq<Parser<E>>, fuel: nat) returns (r: Run<Outcome<E>>)
      requires Valid() && calls == []
      modifies this, depthLimiter, memoizer.cache, farthest
      ensures Valid()
      ensures r.Done? ==> Balanced() && OneOfStep(merged, tag, parsers, old(position), calls, r.result, position)
      decreases fuel, 6
    {
      var i := 0;
      while i < |parsers|
        invariant 0 <= i <= |parsers| && |calls| == i
        invariant Valid() && Balanced() && position == old(position)
        invariant forall j :: 0 <= j < i ==> calls[j].parser == parsers[j] && calls[j].start == old(position) && calls[j].outcome.Left?
        decreases |parsers| - i
      {
        var result;
        ghost var traced;
        result, traced := Parse(parsers[i], fuel);
        if result.Stuck? {
          return Stuck;
        }
        if result.result.Right? {
          return result;
        }
        i := i + 1;
      }
      var tags := Utils.Each(parsers, (p: Parser<E>) => p.Tag());
      var mismatch := if merged then Alternatives.MergedOneOfMismatch(tag, tags) else Alternatives.OneOfMismatch(tags);
      r := Done(Left(mismatch));
    }

    /** `map`. */
    method MapBody(parser: Parser<E>, transform: Symbol<E> -> Symbol<E>, fuel: nat) returns (r: Run<Outcome<E>>)
      requires Valid() && calls == []
      modifies this, depthLimiter, memoizer.cache, farthest
      ensures Valid()
      ensures r.Done? ==> Balanced() && MapStep(parser, transform, old(position), calls, r.result, position)
      decreases fuel, 6
    {
      var a;
      ghost var traced;
      a, traced := Parse(parser, fuel);
      if a.Stuck? {
        return Stuck;
      }
      r := Done(Eithers.Map(a.result, transform));
    }

    /** `attemptMap`. */
    method AttemptMapBody(parser: Parser<E>, transform: Symbol<E> -> Outcome<E>, fuel: nat) returns (r: Run<Outcome<E>>)
      requires Valid() && calls == []
      modifies this, depthLimiter, memoizer.cache, farthest
      ensures Valid()
      ensures r.Done? ==> Balanced() && AttemptMapStep(parser, transform, old(position), calls, r.result, position)
      decreases fuel, 6
    {
      var a;
      ghost var traced;
      a, traced := Parse(parser, fuel);
      if a.Stuck? {
        return Stuck;
      }
      r := Done(Eithers.FlatMap(a.result, transform));
    }

    /** `flatMap`. */
    method FlatMapBody(parser: Parser<E>, continuation: Symbol<E> -> Parser<E>, fuel: nat) returns (r: Run<Outcome<E>>)
      requires Valid() && calls == []
      modifies this, depthLimiter, memoizer.cache, farthest
      ensures Valid()
      ensures r.Done? ==> Balanced() && FlatMapStep(parser, continuation, old(position), calls, r.result, position)
      decreases fuel, 6
    {
      var head;
      ghost var traced;
      head, traced := Parse(parser, fuel);
      if head.Stuck? {
        return Stuck;
      }
      if head.result.Left? {
        return head;
      }
      r, traced := Parse(continuation(head.result.right), fuel);
    }

    /** `mapError`. */
    method MapErrorBody(parser: Parser<E>, recover: Mismatch -> Mismatch, fuel: nat) returns (r: Run<Outcome<E>>)
      requires Valid() && calls == []
      modifies this, depthLimiter, memoizer.cache, farthest
      ensures Valid()
      ensures r.Done? ==> Balanced() && MapErrorStep(parser, recover, old(position), calls, r.result, position)
      decreases fuel, 6
    {
      var a;
      ghost var traced;
      a, traced := Parse(parser, fuel);
      if a.Stuck? {
        return Stuck;
      }
      r := Done(Eithers.MapError(a.result, recover));
    }

    /**
     * The parser-returning `GenericParser` initialiser used for recursive
     * rules: the body parses the rule's parser through `parse`.
     */
    method RuleBody(name: string, fuel: nat) returns (r: Run<Outcome<E>>)
      requires Valid() && calls == []
      modifies this, depthLimiter, memoizer.cache, farthest
      ensures Valid()
      ensures r.Done? ==> Balanced() && RuleStep(name, old(position), calls, r.result, position)
      decreases fuel, 6
    {
      if name !in rules {
        return Stuck;
      }
      ghost var traced;
      r, traced := Parse(rules[name], fuel);
    }
  }
}
