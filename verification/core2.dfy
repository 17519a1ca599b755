/**
 * The ParserCore2 generation (Sources/ParserCore2/Core.swift and
 * CoreExt.swift): backtracking with farthest-failure tracing, and neither
 * memoization nor depth limiting. `parse` runs the body inside the tracer
 * and returns its outcome as it is, putting the cursor back on a failure.
 */
module Core2 {
  import opened Wrappers
  import opened Eithers
  import opened Mismatches
  import opened Matches
  import opened FarthestMismatch
  import Tracer2
  import Elementary
  import Subseq
  import Alternatives
  import Utils
  import opened ParseCalls
  import opened EitherCalls

  type Outcome<E> = Either<Mismatch, Symbol<E>>

  /** The combinators of CoreExt.swift, with the `flatMap` of Parser.swift that `list` builds its units from. */
  datatype Parser<!E> =
    | Empty(tag: Option<string>)
    | End
    | StringWhile(tag: Option<string>, holds: E -> bool)
    | StringPattern(tag: Option<string>, pattern: seq<E>)
    | Maybe(tag: Option<string>, parser: Parser<E>)
    | Many(tag: Option<string>, parser: Parser<E>)
    | SomeOf(tag: Option<string>, parser: Parser<E>)
    | List(tag: Option<string>, item: Parser<E>, separator: Parser<E>)
    | OneOf(tag: Option<string>, parsers: seq<Parser<E>>)
    | FlatMap(tag: Option<string>, parser: Parser<E>, continuation: Symbol<E> -> Parser<E>)
    | Rule(tag: Option<string>, name: string)
  {
    function Tag(): Option<string>
    {
      if End? then None else tag
    }
  }


  /** The calls of `parse` a body has made, in order. */
  type Trail<!E> = seq<ParseCall<Parser<E>, Outcome<E>>>

  /** `maybe`: one call of the inner parser; a success holding its symbol, or nothing when it failed. */
  ghost predicate MaybeStep<E>(parser: Parser<E>, start: nat, made: Trail<E>, result: Outcome<E>, end: nat)
  {
    Single(made, parser, start) && result == Right(Optional(Eithers.Value(made[0].outcome))) && end == made[0].end
  }

  /**
   * `many`: the inner parser is called, each time from where the previous
   * call left the cursor, until it fails; the result is a success holding
   * the symbols of the calls before the failing one.
   */
  ghost predicate ManyStep<E>(parser: Parser<E>, start: nat, made: Trail<E>, result: Outcome<E>, end: nat)
  {
    && Chained(made, parser, start)
    && made != [] && Last(made).outcome.Left?
    && end == EndOf(made, start)
    && result == Right(Items(SymbolsOf(Found(made))))
  }

  /**
   * `some`: as `many`, except that when the very first call fails its
   * failure is the result.
   */
  ghost predicate SomeStep<E>(parser: Parser<E>, start: nat, made: Trail<E>, result: Outcome<E>, end: nat)
  {
    && Chained(made, parser, start)
    && made != [] && Last(made).outcome.Left?
    && end == EndOf(made, start)
    && (|made| == 1 ==> result == made[0].outcome)
    && (|made| > 1 ==> result == Right(Items(SymbolsOf(Found(made)))))
  }

  /** The unit `list` parses after its first item: `separator.flatMap(const(item))`. */
  function FollowingItem<E>(separator: Parser<E>, item: Parser<E>): (following: Parser<E>)
    ensures following.FlatMap? && following.tag.None? && following.parser == separator
  {
    FlatMap(None, separator, (_: Symbol<E>) => item)
  }

  /**
   * `list(item:separator:)`: one call of the item; when it fails, no items
   * and the cursor where it was; else calls of the following-item unit until
   * one fails, and the first item followed by theirs.
   */
  ghost predicate ListStep<E>(item: Parser<E>, separator: Parser<E>, start: nat, made: Trail<E>, result: Outcome<E>, end: nat)
  {
    && made != [] && made[0].parser == item && made[0].start == start
    && (made[0].outcome.Left? ==> |made| == 1 && result == Right(Items([])) && end == start)
    && (made[0].outcome.Right? ==>
          var rest := made[1..];
          && Chained(rest, FollowingItem(separator, item), made[0].end)
          && rest != [] && Last(rest).outcome.Left?
          && result == Right(Items([made[0].outcome.right] + SymbolsOf(Found(rest))))
          && end == EndOf(rest, made[0].end))
  }

  /**
   * `oneOf`: the candidates are called in order, each from the start, until
   * one succeeds, which is the result; later candidates are not called.
   * When all fail, the mismatch carries the `oneOf`'s tag and, when a
   * candidate is tagged, the candidates' tags.
   */
  ghost predicate OneOfStep<E>(tag: Option<string>, parsers: seq<Parser<E>>, start: nat, made: Trail<E>, result: Outcome<E>, end: nat)
  {
    && |made| <= |parsers|
    && (forall i :: 0 <= i < |made| ==> made[i].parser == parsers[i] && made[i].start == start)
    && (forall i :: 0 <= i < |made| - 1 ==> made[i].outcome.Left?)
    && if made != [] && Last(made).outcome.Right? then result == Last(made).outcome && end == Last(made).end
       else
         && |made| == |parsers| && end == start
         && result == Left(Alternatives.MergedOneOfMismatch(tag, Utils.Each(parsers, (p: Parser<E>) => p.Tag())))
  }

  /**
   * `flatMap`: one call of the inner parser, whose failure is the result;
   * after a success, one call of the parser the continuation chooses for
   * its symbol, from where the first left the cursor, whose outcome is the result.
   */
  ghost predicate FlatMapStep<E>(parser: Parser<E>, continuation: Symbol<E> -> Parser<E>,
                                 start: nat, made: Trail<E>, result: Outcome<E>, end: nat)
  {
    && made != [] && made[0].parser == parser && made[0].start == start
    && (made[0].outcome.Left? ==> |made| == 1 && result == made[0].outcome && end == start)
    && (made[0].outcome.Right? ==>
          && |made| == 2 && made[1].parser == continuation(made[0].outcome.right) && made[1].start == made[0].end
          && result == made[1].outcome && end == made[1].end)
  }

  /** A `some` parse that succeeds holds at least one item, the first call's symbol first. */
  lemma SomeStepNonEmpty<E>(parser: Parser<E>, start: nat, made: Trail<E>, result: Outcome<E>, end: nat)
    requires SomeStep(parser, start, made, result, end)
    ensures result.Right? <==> made[0].outcome.Right?
    ensures result.Right? ==> result.right.Items? && result.right.items != [] && result.right.items[0] == made[0].outcome.right
  {
  }

  class Core<E(==)> {
    const source: seq<E>
    var position: nat
    const rules: map<string, Parser<E>>
    const rendering: Rendering<E>
    const tracer: Tracer2.Tracer
    /** The calls of `parse` made by the body running now, in order. */
    ghost var calls: Trail<E>

    ghost predicate Valid()
      reads this, tracer
    {
      position <= |source| && tracer.Valid()
    }

    /**
     * The cursor never moves back across a finished call, the tracer's stack
     * is as it was and its farthest failure has not moved back.
     */
    twostate predicate Balanced()
      reads this, tracer
    {
      && old(position) <= position
      && tracer.stack == old(tracer.stack)
      && Tracer2.NotLowered(old(tracer.farthestMismatch), tracer.farthestMismatch)
    }

    constructor (source: seq<E>, rules: map<string, Parser<E>>, rendering: Rendering<E>)
      ensures Valid() && fresh(tracer)
      ensures this.source == source && position == 0 && calls == []
      ensures tracer.stack == [] && tracer.farthestMismatch == None
    {
      this.source := source;
      this.rules := rules;
      this.rendering := rendering;
      position := 0;
      calls := [];
      tracer := new Tracer2.Tracer();
    }

    /** `accept(_:)`: a match moves the cursor to its upper bound and yields its symbol. */
    method Accept(found: Option<Match<Symbol<E>>>) returns (symbol: Option<Symbol<E>>)
      requires Valid()
      requires found.Some? ==> position <= found.value.range.upper <= |source|
      modifies this
      ensures Valid() && calls == old(calls)
      ensures found.Some? ==> position == found.value.range.upper && symbol == Some(found.value.symbol)
      ensures found.None? ==> position == old(position) && symbol == None
    {
      if found.Some? {
        position := found.value.range.upper;
        return Some(found.value.symbol);
      }
      return None;
    }

    /**
     * `parse(_:)` with the tracer's `trace` around the body: enter, run,
     * register a failure, leave; on a failure the cursor goes back. The
     * call is recorded after the calls the enclosing body made before it.
     * Corrected: the tracer is one object shared with the calls of `parse`
     * the body makes, so the farthest failure never moves back. As written
     * the tracer is a struct that `trace` copies in and stores back,
     * dropping what the nested calls recorded; see `Tracer2.TracedAsWritten`.
     */
    method Parse(parser: Parser<E>, fuel: nat) returns (r: Run<Outcome<E>>, ghost inner: Option<Farthest>)
      requires Valid()
      modifies this, tracer
      ensures Valid()
      ensures r.Done? ==> Balanced()
      ensures r.Done? && r.result.Left? ==> position == old(position)
      ensures r.Done? && r.result.Right? ==> tracer.farthestMismatch == inner
      ensures r.Done? && r.result.Left? ==>
                tracer.farthestMismatch == Tracer2.Registered2(inner, Entered(old(tracer.stack), old(position), parser.Tag()), r.result.left)
      ensures r.Done? ==> Tracer2.NotLowered(old(tracer.farthestMismatch), inner)
      ensures r.Done? ==> calls == old(calls) + [ParseCall(parser, old(position), r.result, position)]
      decreases fuel, 1
    {
      var startPosition := position;
      ghost var stack := tracer.stack;
      ghost var before := calls;
      calls := [];
      tracer.Enter(position, parser.Tag());
      r := Body(parser, fuel);
      inner := tracer.farthestMismatch;
      if r.Stuck? {
        return;
      }
      if r.result.Left? {
        tracer.Register(r.result.left);
      }
      LeftEntered(stack, startPosition, parser.Tag());
      tracer.Leave();
      if r.result.Left? {
        position := startPosition;
      }
      calls := before + [ParseCall(parser, startPosition, r.result, position)];
    }

    /** `end()`: succeeds, without moving, exactly at the end of the source. */
    ghost predicate EndStep(start: nat, result: Outcome<E>, end: nat)
    {
      && end == start
      && if start == |source| then result == Right(Unit) else result == Left(Elementary.EndMismatch)
    }

    /** `string(while:)`: the longest predicate prefix of the tail, accepted when it is not empty. */
    ghost predicate WhileStep(tag: Option<string>, holds: E -> bool, start: nat, result: Outcome<E>, end: nat)
      requires start <= |source|
    {
      var n := Subseq.PredicatePrefix(source[start..], holds);
      if n > 0 then end == start + n && end <= |source| && result == Right(Elements(source[start..end]))
      else end == start && result == Left(Subseq.WhileMismatch(tag))
    }

    /** `string(_ pattern:)`: the pattern, when the tail starts with it. */
    ghost predicate PatternStep(tag: Option<string>, pattern: seq<E>, start: nat, result: Outcome<E>, end: nat)
      requires start <= |source|
    {
      var tail := source[start..];
      if |pattern| <= |tail| && tail[..|pattern|] == pattern then end == start + |pattern| && result == Right(Elements(pattern))
      else end == start && result == Left(Subseq.PatternMismatch(tag, rendering.reflectSlice(pattern)))
    }

    /** A rule: one call of the grammar's parser of that name, whose outcome is the result. */
    ghost predicate RuleStep(name: string, start: nat, made: Trail<E>, result: Outcome<E>, end: nat)
    {
      name in rules && Single(made, rules[name], start) && result == made[0].outcome && end == made[0].end
    }

    /**
     * What the body of `parser` does, started at `start`: the calls of
     * `parse` it makes, in order, its result and where it leaves the cursor.
     */
    ghost predicate Step(parser: Parser<E>, start: nat, made: Trail<E>, result: Outcome<E>, end: nat)
      requires start <= |source|
    {
      match parser
      case Empty(_) => made == [] && result == Right(Unit) && end == start
      case End => made == [] && EndStep(start, result, end)
      case StringWhile(tag, holds) => made == [] && WhileStep(tag, holds, start, result, end)
      case StringPattern(tag, pattern) => made == [] && PatternStep(tag, pattern, start, result, end)
      case Maybe(_, inner) => MaybeStep(inner, start, made, result, end)
      case Many(_, inner) => ManyStep(inner, start, made, result, end)
      case SomeOf(_, inner) => SomeStep(inner, start, made, result, end)
      case List(_, item, separator) => ListStep(item, separator, start, made, result, end)
      case OneOf(tag, parsers) => OneOfStep(tag, parsers, start, made, result, end)
      case FlatMap(_, inner, continuation) => FlatMapStep(inner, continuation, start, made, result, end)
      case Rule(_, name) => RuleStep(name, start, made, result, end)
    }

    /** `GenericParser.parse`: the body of the parser's form. */
    method Body(parser: Parser<E>, fuel: nat) returns (r: Run<Outcome<E>>)
      requires Valid() && calls == []
      modifies this, tracer
      ensures Valid()
      ensures r.Done? ==> Balanced()
      ensures r.Done? ==> Step(parser, old(position), calls, r.result, position)
      ensures parser.Empty? && fuel > 0 ==> r == Done(Right(Unit)) && position == old(position) && calls == []
      decreases fuel, 0
    {
      if fuel == 0 {
        return Stuck;
      }
      match parser
      case Empty(_) =>
        r := Done(Right(Unit));
      case End =>
        r := EndBody();
      case StringWhile(tag, holds) =>
        r := WhileBody(tag, holds);
      case StringPattern(tag, pattern) =>
        r := PatternBody(tag, pattern);
      case Maybe(_, inner) =>
        r := MaybeBody(inner, fuel - 1);
      case Many(_, inner) =>
        r := ManyBody(inner, fuel - 1);
      case SomeOf(_, inner) =>
        r := SomeBody(inner, fuel - 1);
      case List(_, item, separator) =>
        r := ListBody(item, separator, fuel - 1);
      case OneOf(tag, parsers) =>
        r := OneOfBody(tag, parsers, fuel - 1);
      case FlatMap(_, inner, continuation) =>
        r := FlatMapBody(inner, continuation, fuel - 1);
      case Rule(_, name) =>
        r := RuleBody(name, fuel - 1);
    }

    /** `end()`. */
    method EndBody() returns (r: Run<Outcome<E>>)
      requires Valid()
      modifies this
      ensures Valid() && calls == old(calls)
      ensures r.Done? && EndStep(old(position), r.result, position)
    {
      var found := if position == |source| then Some(Match(Unit, Range(position, position))) else None;
      var symbol := Accept(found);
      r := Done(if symbol.Some? then Right(symbol.value) else Left(Elementary.EndMismatch));
    }

    /** `string(while:)`. */
    method WhileBody(tag: Option<string>, holds: E -> bool) returns (r: Run<Outcome<E>>)
      requires Valid()
      modifies this
      ensures Valid() && calls == old(calls)
      ensures r.Done? && WhileStep(tag, holds, old(position), r.result, position)
    {
      var tail := source[position..];
      var n := Subseq.PredicatePrefix(tail, holds);
      assert tail[..n] == source[position..position + n];
      var found := if n > 0 then Some(Match(Elements(tail[..n]), Range(position, position + n))) else None;
      var symbol := Accept(found);
      r := Done(if symbol.Some? then Right(symbol.value) else Left(Subseq.WhileMismatch(tag)));
    }

    /** `string(_ pattern:)`. */
    method PatternBody(tag: Option<string>, pattern: seq<E>) returns (r: Run<Outcome<E>>)
      requires Valid()
      modifies this
      ensures Valid() && calls == old(calls)
      ensures r.Done? && PatternStep(tag, pattern, old(position), r.result, position)
    {
      var length := Subseq.PatternLength(source[position..], pattern);
      var found := if length.Some? then Some(Match(Elements(pattern), Range(position, position + length.value))) else None;
      var symbol := Accept(found);
      r := Done(if symbol.Some? then Right(symbol.value) else Left(Subseq.PatternMismatch(tag, rendering.reflectSlice(pattern))));
    }

    /** `maybe`. */
    method MaybeBody(parser: Parser<E>, fuel: nat) returns (r: Run<Outcome<E>>)
      requires Valid() && calls == []
      modifies this, tracer
      ensures Valid()
      ensures r.Done? ==> Balanced() && MaybeStep(parser, old(position), calls, r.result, position)
      decreases fuel, 2
    {
      var a;
      ghost var inner;
      a, inner := Parse(parser, fuel);
      if a.Stuck? {
        return Stuck;
      }
      r := Done(Right(Optional(if a.result.Right? then Some(a.result.right) else None)));
    }

    /**
     * The loop `many` and `some` share: `parser` is called until it fails,
     * each call's symbol appended to `first`, the symbols of the calls made
     * so far. The calls it makes continue the chain of the calls before it.
     */
    method Repeat(parser: Parser<E>, fuel: nat, ghost start: nat, first: seq<Symbol<E>>) returns (r: Run<seq<Symbol<E>>>)
      requires Valid()
      requires Chained(calls, parser, start) && position == EndOf(calls, start)
      requires forall i :: 0 <= i < |calls| ==> calls[i].outcome.Right?
      requires first == SymbolsOf(calls)
      modifies this, tracer
      ensures Valid()
      ensures r.Done? ==> Balanced()
      ensures r.Done? ==> |calls| > |old(calls)| && calls[..|old(calls)|] == old(calls)
      ensures r.Done? ==> Chained(calls, parser, start) && Last(calls).outcome.Left? && position == EndOf(calls, start)
      ensures r.Done? ==> r.result == SymbolsOf(Found(calls))
      decreases fuel, 2
    {
      var items := first;
      var budget := fuel;
      while true
        invariant Valid() && Balanced()
        invariant |calls| >= |old(calls)| && calls[..|old(calls)|] == old(calls)
        invariant Chained(calls, parser, start) && position == EndOf(calls, start)
        invariant forall i :: 0 <= i < |calls| ==> calls[i].outcome.Right?
        invariant items == SymbolsOf(calls)
        decreases budget
      {
        if budget == 0 {
          return Stuck;
        }
        var next;
        ghost var inner;
        ghost var prior := calls;
        next, inner := Parse(parser, fuel);
        if next.Stuck? {
          return Stuck;
        }
        ChainedAppend(prior, parser, start, Last(calls));
        if next.result.Left? {
          assert Found(calls) == prior;
          break;
        }
        SymbolsOfAppend(prior, Last(calls));
        items := items + [next.result.right];
        budget := budget - 1;
      }
      r := Done(items);
    }

    /** `many`. */
    method ManyBody(parser: Parser<E>, fuel: nat) returns (r: Run<Outcome<E>>)
      requires Valid() && calls == []
      modifies this, tracer
      ensures Valid()
      ensures r.Done? ==> Balanced() && ManyStep(parser, old(position), calls, r.result, position)
      decreases fuel, 3
    {
      var found := Repeat(parser, fuel, position, []);
      if found.Stuck? {
        return Stuck;
      }
      r := Done(Right(Items(found.result)));
    }

    /** `some`. */
    method SomeBody(parser: Parser<E>, fuel: nat) returns (r: Run<Outcome<E>>)
      requires Valid() && calls == []
      modifies this, tracer
      ensures Valid()
      ensures r.Done? ==> Balanced() && SomeStep(parser, old(position), calls, r.result, position)
      decreases fuel, 3
    {
      var head;
      ghost var inner;
      head, inner := Parse(parser, fuel);
      if head.Stuck? {
        return Stuck;
      }
      if head.result.Left? {
        return head;
      }
      assert SymbolsOf(calls) == [head.result.right];
      var found := Repeat(parser, fuel, old(position), [head.result.right]);
      if found.Stuck? {
        return Stuck;
      }
      r := Done(Right(Items(found.result)));
    }

    /** `list(item:separator:)`. */
    method ListBody(item: Parser<E>, separator: Parser<E>, fuel: nat) returns (r: Run<Outcome<E>>)
      requires Valid() && calls == []
      modifies this, tracer
      ensures Valid()
      ensures r.Done? ==> Balanced() && ListStep(item, separator, old(position), calls, r.result, position)
      decreases fuel, 3
    {
      var head;
      ghost var inner;
      head, inner := Parse(item, fuel);
      if head.Stuck? {
        return Stuck;
      }
      if head.result.Left? {
        return Done(Right(Items([])));
      }
      ghost var first := calls[0];
      ghost var rest: Trail<E> := [];
      var found := [head.result.right];
      var followingItem := FollowingItem(separator, item);
      var budget := fuel;
      while true
        invariant Valid() && Balanced()
        invariant calls == [first] + rest
        invariant Chained(rest, followingItem, first.end) && position == EndOf(rest, first.end)
        invariant forall i :: 0 <= i < |rest| ==> rest[i].outcome.Right?
        invariant found == [first.outcome.right] + SymbolsOf(rest)
        decreases budget
      {
        if budget == 0 {
          return Stuck;
        }
        var next;
        ghost var prior := rest;
        next, inner := Parse(followingItem, fuel);
        if next.Stuck? {
          return Stuck;
        }
        rest := rest + [Last(calls)];
        ChainedAppend(prior, followingItem, first.end, Last(calls));
        if next.result.Left? {
          assert Found(rest) == rest[..|rest| - 1];
          break;
        }
        SymbolsOfAppend(prior, Last(calls));
        found := found + [next.result.right];
        budget := budget - 1;
      }
      assert calls[1..] == rest;
      r := Done(Right(Items(found)));
    }

    /** `oneOf`. */
    method OneOfBody(tag: Option<string>, parsers: seq<Parser<E>>, fuel: nat) returns (r: Run<Outcome<E>>)
      requires Valid() && calls == []
      modifies this, tracer
      ensures Valid()
      ensures r.Done? ==> Balanced() && OneOfStep(tag, parsers, old(position), calls, r.result, position)
      decreases fuel, 2
    {
      var i := 0;
      while i < |parsers|
        invariant 0 <= i <= |parsers| && |calls| == i
        invariant Valid() && Balanced() && position == old(position)
        invariant forall j :: 0 <= j < i ==> calls[j].parser == parsers[j] && calls[j].start == old(position) && calls[j].outcome.Left?
        decreases |parsers| - i
      {
        var result;
        ghost var inner;
        result, inner := Parse(parsers[i], fuel);
        if result.Stuck? {
          return Stuck;
        }
        if result.result.Right? {
          return result;
        }
        i := i + 1;
      }
      r := Done(Left(Alternatives.MergedOneOfMismatch(tag, Utils.Each(parsers, (p: Parser<E>) => p.Tag()))));
    }

    /** `flatMap`. */
    method FlatMapBody(parser: Parser<E>, continuation: Symbol<E> -> Parser<E>, fuel: nat) returns (r: Run<Outcome<E>>)
      requires Valid() && calls == []
      modifies this, tracer
      ensures Valid()
      ensures r.Done? ==> Balanced() && FlatMapStep(parser, continuation, old(position), calls, r.result, position)
      decreases fuel, 2
    {
      var head;
      ghost var inner;
      head, inner := Parse(parser, fuel);
      if head.Stuck? {
        return Stuck;
      }
      if head.result.Left? {
        return head;
      }
      r, inner := Parse(continuation(head.result.right), fuel);
    }

    /** A rule of the grammar, parsed through `parse`. */
    method RuleBody(name: string, fuel: nat) returns (r: Run<Outcome<E>>)
      requires Valid() && calls == []
      modifies this, tracer
      ensures Valid()
      ensures r.Done? ==> Balanced() && RuleStep(name, old(position), calls, r.result, position)
      decreases fuel, 2
    {
      if name !in rules {
        return Stuck;
      }
      ghost var inner;
      r, inner := Parse(rules[name], fuel);
    }
  }
}
