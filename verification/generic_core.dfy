/**
 * The GenericParserCore generation (Sources/ParserCore/ParserCore.swift with
 * Memoizer.swift, DepthLimiter.swift and ParserCoreExt.swift): a cursor that
 * advances by match lengths, a call stack of (start, tag) frames, and a
 * `wrap` that runs every tagged call through the depth limiter and then the
 * memoizer, both keyed by (offset, tag).
 *
 * The memoizer replays a cached success by moving the cursor to the start
 * of the call plus the cached length. The code as written takes that start
 * from the top of the call stack, which belongs to the enclosing call; the
 * functions `ReplayPositionAsWritten` and `ReplayPosition` below set the two
 * side by side, and the engine uses the latter.
 */
module GenericCore {
  import opened Wrappers
  import opened Results
  import opened Mismatches
  import opened Matches
  import GenericMemoizing
  import opened GenericDepthLimiting
  import Subseq
  import Utils
  import opened ParseCalls

  /** `Key` (Sources/ParserCore/Key.swift): equal iff both components are. */
  datatype Key = Key(offset: nat, tag: string)

  /** `TerminalMatch`: a symbol and the number of elements it spans. */
  datatype TerminalMatch<S> = TerminalMatch(symbol: S, length: nat)

  type Value<E> = Result<TerminalMatch<Symbol<E>>, Mismatch>
  type Outcome<E> = Result<Symbol<E>, Mismatch>

  /** An entry of the call stack. */
  datatype Frame = Frame(startPosition: nat, tag: Option<string>)

  /** The combinators of ParserCoreExt.swift and Parser.swift. */
  datatype Parser<!E> =
    | Empty(tag: Option<string>)
    | Skip(tag: Option<string>, parser: Parser<E>)
    | Maybe(tag: Option<string>, parser: Parser<E>)
    | Many(tag: Option<string>, parser: Parser<E>)
    | SomeOf(tag: Option<string>, parser: Parser<E>)
    | List(tag: Option<string>, item: Parser<E>, separator: Parser<E>)
    | OneOf(tag: Option<string>, parsers: seq<Parser<E>>)
    | End
    | StringWhile(tag: Option<string>, holds: E -> bool)
    | StringPattern(tag: Option<string>, pattern: seq<E>)
    | Map(tag: Option<string>, parser: Parser<E>, transform: Symbol<E> -> Symbol<E>)
    | AttemptMap(tag: Option<string>, parser: Parser<E>, attempt: Symbol<E> -> Outcome<E>)
    | FlatMap(tag: Option<string>, parser: Parser<E>, continuation: Symbol<E> -> Parser<E>)
    | MapError(tag: Option<string>, parser: Parser<E>, recover: Mismatch -> Mismatch)
    | Rule(tag: Option<string>, name: string)
  {
    function Tag(): Option<string>
    {
      if End? then None else tag
    }
  }

  /** The memo and depth key of a call: only tagged parsers have one. */
  function KeyOf(offset: nat, tag: Option<string>): (key: Option<Key>)
    ensures key.Some? <==> tag.Some?
    ensures key.Some? ==> key.value.offset == offset && key.value.tag == tag.value
  {
    if tag.Some? then Some(Key(offset, tag.value)) else None
  }

  /** The tagged frames of the stack, bottom first. */
  function Tagged(stack: seq<Frame>): (r: seq<Frame>)
    ensures |r| <= |stack|
    ensures forall f :: f in r <==> f in stack && f.tag.Some?
  {
    if stack == [] then []
    else Tagged(stack[..|stack| - 1]) + (if stack[|stack| - 1].tag.Some? then [stack[|stack| - 1]] else [])
  }

  /** `trace`: "offset:tag" for every tagged frame, bottom first, separated by spaces. */
  function TraceText(stack: seq<Frame>): string
  {
    var tagged := Tagged(stack);
    Utils.Join(seq(|tagged|, i requires 0 <= i < |tagged| =>
                     Utils.NatToString(tagged[i].startPosition) + ":" + Utils.Describe(tagged[i].tag)), " ")
  }

  const CutOff: string := " Depth cut-off"

  /** The failure of a call the depth limiter refuses. */
  function DepthCutOff(stack: seq<Frame>): (m: Mismatch)
    ensures m.message.Some?
    ensures |m.message.value| >= |CutOff|
    ensures m.message.value[|m.message.value| - |CutOff|..] == CutOff
    ensures m.message.value[..|m.message.value| - |CutOff|] == TraceText(stack)
  {
    Mismatch(Some(TraceText(stack) + CutOff))
  }

  /** The `shouldUpdate` closure: a success replaces a failure, or a success strictly shorter than itself. */
  predicate LongerMatch<S>(cached: Result<TerminalMatch<S>, Mismatch>, candidate: Result<TerminalMatch<S>, Mismatch>)
  {
    match candidate
    case Failure(_) => false
    case Success(candidateMatch) =>
      match cached
      case Failure(_) => true
      case Success(cachedMatch) => candidateMatch.length > cachedMatch.length
  }

  lemma LongerMatchCases<S>(cached: Result<TerminalMatch<S>, Mismatch>, candidate: Result<TerminalMatch<S>, Mismatch>)
    ensures candidate.Failure? ==> !LongerMatch(cached, candidate)
    ensures candidate.Success? && cached.Failure? ==> LongerMatch(cached, candidate)
    ensures candidate.Success? && cached.Success? ==>
              (LongerMatch(cached, candidate) <==> candidate.value.length > cached.value.length)
    ensures LongerMatch(cached, candidate) ==> !LongerMatch(candidate, cached)
  {
  }

  /**
   * The `willReturnFromCache` closure as written: a cached success moves the
   * cursor to the start of the frame on top of the stack plus the cached
   * length; an empty stack or a cached failure leaves it where it is.
   */
  function ReplayPositionAsWritten<S>(stack: seq<Frame>, position: nat, cached: Result<TerminalMatch<S>, Mismatch>): (p: nat)
    ensures cached.Failure? || stack == [] ==> p == position
    ensures cached.Success? && stack != [] ==> p == stack[|stack| - 1].startPosition + cached.value.length
  {
    if cached.Success? && stack != [] then stack[|stack| - 1].startPosition + cached.value.length else position
  }

  /** The replay as intended: the start of the call being answered from the cache, plus the cached length. */
  function ReplayPosition<S>(start: nat, position: nat, cached: Result<TerminalMatch<S>, Mismatch>): (p: nat)
    ensures cached.Failure? ==> p == position
    ensures cached.Success? ==> p - start == cached.value.length
  {
    if cached.Success? then start + cached.value.length else position
  }

  /**
   * The two agree exactly when the frame on top of the stack starts where
   * the answered call starts; when the stack is empty they agree only on an
   * empty match.
   */
  lemma ReplayPositionAgreement<S>(stack: seq<Frame>, start: nat, position: nat, cached: Result<TerminalMatch<S>, Mismatch>)
    requires cached.Success?
    ensures stack != [] ==> (ReplayPositionAsWritten(stack, position, cached) == ReplayPosition(start, position, cached)
                             <==> stack[|stack| - 1].startPosition == start)
    ensures stack == [] ==> (ReplayPositionAsWritten(stack, position, cached) == ReplayPosition(start, position, cached)
                             <==> position == start + cached.value.length)
  {
  }

  /**
   * Source "ab", grammar oneOf(a.flatMap(b).flatMap(c), a.flatMap(b)) with
   * `b` tagged and `c` failing: the second alternative finds (1, b) in the
   * cache while the frame on top of the stack is its own flatMap, started at
   * 0. The cursor goes to 0 + 1 where the match of `b` ends at 2.
   */
  lemma ReplayFromEnclosingFrame()
    ensures var cached: Result<TerminalMatch<Symbol<char>>, Mismatch> := Success(TerminalMatch(Elements("b"), 1));
            var stack := [Frame(0, None), Frame(0, None)];
            ReplayPositionAsWritten(stack, 1, cached) == 1 && ReplayPosition(1, 1, cached) == 2
  {
  }

  /** The calls of `parse` a body has made, in order. */
  type Trail<!E> = seq<ParseCall<Parser<E>, Outcome<E>>>

  /** The symbols of successful calls, in order. */
  function SymbolsOf<E>(made: Trail<E>): (symbols: seq<Symbol<E>>)
    requires forall i :: 0 <= i < |made| ==> made[i].outcome.Success?
    ensures |symbols| == |made|
  {
    seq(|made|, i requires 0 <= i < |made| && made[i].outcome.Success? => made[i].outcome.value)
  }

  lemma SymbolsOfAppend<E>(made: Trail<E>, next: ParseCall<Parser<E>, Outcome<E>>)
    requires forall i :: 0 <= i < |made| ==> made[i].outcome.Success?
    requires next.outcome.Success?
    ensures SymbolsOf(made + [next]) == SymbolsOf(made) + [next.outcome.value]
  {
  }

  /**
   * The loop of `many` and `some`: calls of `parser`, each from where the
   * previous one left the cursor, every one a success but the last, which failed.
   */
  ghost predicate UntilFailure<E>(made: Trail<E>, parser: Parser<E>, start: nat)
  {
    && AllOf(made, parser) && Linked(made, start)
    && made != [] && Last(made).outcome.Failure?
    && (forall i :: 0 <= i < |made| - 1 ==> made[i].outcome.Success?)
  }

  /** `skip`: one call of the inner parser, for its effect on the cursor; always a success. */
  ghost predicate SkipStep<E>(parser: Parser<E>, start: nat, made: Trail<E>, result: Outcome<E>, end: nat)
  {
    Single(made, parser, start) && result == Success(Unit) && end == made[0].end
  }

  /** `maybe`: one call of the inner parser; a success holding its symbol, or nothing when it failed. */
  ghost predicate MaybeStep<E>(parser: Parser<E>, start: nat, made: Trail<E>, result: Outcome<E>, end: nat)
  {
    Single(made, parser, start) && result == Success(Optional(Results.Value(made[0].outcome))) && end == made[0].end
  }

  /** `many`: calls of the inner parser until one fails; always a success holding the items before it. */
  ghost predicate ManyStep<E>(parser: Parser<E>, start: nat, made: Trail<E>, result: Outcome<E>, end: nat)
  {
    && UntilFailure(made, parser, start)
    && result == Success(Items(SymbolsOf(made[..|made| - 1])))
    && end == EndOf(made, start)
  }

  /**
   * `some`: calls of the inner parser until one fails; the failure of the
   * first call is the result, else the items before the failing call.
   */
  ghost predicate SomeStep<E>(parser: Parser<E>, start: nat, made: Trail<E>, result: Outcome<E>, end: nat)
  {
    && UntilFailure(made, parser, start)
    && end == EndOf(made, start)
    && if |made| == 1 then result == made[0].outcome else result == Success(Items(SymbolsOf(made[..|made| - 1])))
  }

  /** Separator calls at even indices, item calls at odd ones. */
  ghost predicate Alternating<E>(made: Trail<E>, separator: Parser<E>, item: Parser<E>)
  {
    forall i :: 0 <= i < |made| ==> made[i].parser == if i % 2 == 0 then separator else item
  }

  /** The symbols of the first `count` item calls of separator and item pairs. */
  function PairedItems<E>(made: Trail<E>, count: nat): (items: seq<Symbol<E>>)
    requires 2 * count <= |made|
    requires forall i :: 0 <= i < 2 * count ==> made[i].outcome.Success?
    ensures |items| == count
  {
    seq(count, j requires 0 <= j < count => made[2 * j + 1].outcome.value)
  }

  lemma AlternatingConcat<E>(made: Trail<E>, more: Trail<E>, separator: Parser<E>, item: Parser<E>)
    requires Alternating(made, separator, item) && Alternating(more, separator, item) && |made| % 2 == 0
    ensures Alternating(made + more, separator, item)
  {
    var joined := made + more;
    forall i | |made| <= i < |joined|
      ensures joined[i].parser == if i % 2 == 0 then separator else item
    {
      assert joined[i] == more[i - |made|];
      assert i % 2 == (i - |made|) % 2;
    }
  }

  /** Calls after the pairs counted leave their items as they were. */
  lemma PairedPrefix<E>(made: Trail<E>, more: Trail<E>, count: nat)
    requires 2 * count <= |made|
    requires forall i :: 0 <= i < |made| ==> made[i].outcome.Success?
    requires forall i :: 0 <= i < |more| - 1 ==> more[i].outcome.Success?
    requires |more| <= 2 && (|made| + |more| - 1) / 2 == count
    ensures PairedItems(made + more, (|made + more| - 1) / 2) == PairedItems(made, count)
  {
    var extended := made + more;
    assert forall i :: 0 <= i < 2 * count ==> extended[i] == made[i];
  }

  /** A complete pair adds its item. */
  lemma PairedNext<E>(made: Trail<E>, pair: Trail<E>)
    requires |made| % 2 == 0 && |pair| == 2
    requires forall i :: 0 <= i < |made| ==> made[i].outcome.Success?
    requires pair[0].outcome.Success? && pair[1].outcome.Success?
    ensures PairedItems(made + pair, |made + pair| / 2) == PairedItems(made, |made| / 2) + [pair[1].outcome.value]
  {
    var extended := made + pair;
    assert forall i :: 0 <= i < |made| ==> extended[i] == made[i];
    assert extended[|made| + 1] == pair[1];
  }

  /**
   * `list(item:separator:)`: one call of the item; when it fails, no items
   * and the cursor where it was; else separator and item calls in turn,
   * until one fails, each from where the previous left the cursor, so a
   * separator whose item fails stays consumed; the first item followed by
   * those of the complete pairs.
   */
  ghost predicate ListStep<E>(item: Parser<E>, separator: Parser<E>, start: nat, made: Trail<E>, result: Outcome<E>, end: nat)
  {
    && made != [] && made[0].parser == item && made[0].start == start
    && (made[0].outcome.Failure? ==> |made| == 1 && result == Success(Items([])) && end == start)
    && (made[0].outcome.Success? ==>
          var rest := made[1..];
          && Alternating(rest, separator, item) && Linked(rest, made[0].end)
          && rest != [] && Last(rest).outcome.Failure?
          && (forall i :: 0 <= i < |rest| - 1 ==> rest[i].outcome.Success?)
          && result == Success(Items([made[0].outcome.value] + PairedItems(rest, (|rest| - 1) / 2)))
          && end == EndOf(rest, made[0].end))
  }

  /**
   * `oneOf`: the candidates are called in order, each from the start, until
   * one succeeds, which is the result; later candidates are not called.
   * When all fail, "One of tag is expected".
   */
  ghost predicate OneOfStep<E>(tag: Option<string>, parsers: seq<Parser<E>>, start: nat, made: Trail<E>, result: Outcome<E>, end: nat)
  {
    && |made| <= |parsers|
    && (forall i :: 0 <= i < |made| ==> made[i].parser == parsers[i] && made[i].start == start)
    && (forall i :: 0 <= i < |made| - 1 ==> made[i].outcome.Failure?)
    && if made != [] && Last(made).outcome.Success? then result == Last(made).outcome && end == Last(made).end
       else |made| == |parsers| && end == start && result == Failure(OneOfMismatch(tag))
  }

  /** `map`: one call of the inner parser, its outcome with the transform applied to a success. */
  ghost predicate MapStep<E>(parser: Parser<E>, transform: Symbol<E> -> Symbol<E>, start: nat, made: Trail<E>, result: Outcome<E>, end: nat)
  {
    Single(made, parser, start) && result == Results.Map(made[0].outcome, transform) && end == made[0].end
  }

  /** `attemptMap`: one call of the inner parser, a success passed through the attempt. */
  ghost predicate AttemptMapStep<E>(parser: Parser<E>, attempt: Symbol<E> -> Outcome<E>, start: nat, made: Trail<E>, result: Outcome<E>, end: nat)
  {
    Single(made, parser, start) && result == Results.FlatMap(made[0].outcome, attempt) && end == made[0].end
  }

  /** `mapError`: one call of the inner parser, only a mismatch transformed. */
  ghost predicate MapErrorStep<E>(parser: Parser<E>, recover: Mismatch -> Mismatch, start: nat, made: Trail<E>, result: Outcome<E>, end: nat)
  {
    && Single(made, parser, start) && end == made[0].end
    && result == match made[0].outcome
                 case Success(_) => made[0].outcome
                 case Failure(mismatch) => Failure(recover(mismatch))
  }

  /**
   * `flatMap`: one call of the inner parser, whose failure is the result;
   * after a success, one call of the parser the continuation chooses for
   * its symbol, from where the first left the cursor, whose outcome is the result.
   */
  ghost predicate FlatMapStep<E>(parser: Parser<E>, continuation: Symbol<E> -> Parser<E>,
                                 start: nat, made: Trail<E>, result: Outcome<E>, end: nat)
  {
    && made != [] && made[0].parser == parser && made[0].start == start
    && (made[0].outcome.Failure? ==> |made| == 1 && result == made[0].outcome && end == start)
    && (made[0].outcome.Success? ==>
          && |made| == 2 && made[1].parser == continuation(made[0].outcome.value) && made[1].start == made[0].end
          && result == made[1].outcome && end == made[1].end)
  }

  /** `One of tag is expected`. */
  function OneOfMismatch(tag: Option<string>): Mismatch
  {
    Mismatch(Some("One of " + Utils.Describe(tag) + " is expected"))
  }

  const EndMismatch: Mismatch := Mismatch(Some("End of input is expected"))

  /** Every cached success at (offset, tag) ends inside the source. */
  ghost predicate CacheSound<E>(cache: map<Key, Value<E>>, length: nat)
  {
    forall key :: key in cache && cache[key].Success? ==> key.offset + cache[key].value.length <= length
  }

  class GenericParserCore<E(==)> {
    const source: seq<E>
    var position: nat
    var stack: seq<Frame>
    /** The grammar's named rules, for parsers that refer to themselves. */
    const rules: map<string, Parser<E>>
    const memoizer: GenericMemoizing.Memoizer<Key, Value<E>>
    const depthLimiter: DepthLimiter<Key>
    /** The calls of `parse` the running body has made so far; only `Parse` changes it. */
    ghost var calls: Trail<E>

    ghost predicate Valid()
      reads this, memoizer, depthLimiter
    {
      && position <= |source|
      && depthLimiter.Valid()
      && CacheSound(memoizer.cache, |source|)
    }

    /** A finished call leaves the cursor no earlier, and the stack and the depth dictionary as they were. */
    twostate predicate Balanced()
      reads this, depthLimiter
    {
      && old(position) <= position
      && stack == old(stack)
      && depthLimiter.depthMap == old(depthLimiter.depthMap)
    }

    /** `init(source:)`: the cursor at the start, the memoizer configured with `LongerMatch`. */
    constructor (source: seq<E>, rules: map<string, Parser<E>>)
      ensures Valid() && fresh(memoizer) && fresh(depthLimiter)
      ensures this.source == source && this.rules == rules && position == 0 && stack == []
      ensures memoizer.cache == map[] && depthLimiter.depthMap == map[]
      ensures forall cached, candidate :: memoizer.shouldUpdate(cached, candidate) == LongerMatch(cached, candidate)
    {
      this.source := source;
      this.rules := rules;
      position := 0;
      stack := [];
      memoizer := new GenericMemoizing.Memoizer((cached: Value<E>, candidate: Value<E>) => LongerMatch(cached, candidate));
      depthLimiter := new DepthLimiter();
    }

    /** `accept(_:)`: a match advances the cursor by its length and yields its symbol. */
    method Accept(found: Option<TerminalMatch<Symbol<E>>>) returns (symbol: Option<Symbol<E>>)
      requires Valid()
      requires found.Some? ==> position + found.value.length <= |source|
      modifies this
      ensures Valid() && stack == old(stack)
      ensures found.Some? ==> position == old(position) + found.value.length && symbol == Some(found.value.symbol)
      ensures found.None? ==> position == old(position) && symbol == None
      ensures calls == old(calls)
    {
      if found.Some? {
        position := position + found.value.length;
        return Some(found.value.symbol);
      }
      return None;
    }

    /** The `willReturnFromCache` closure, taking the start from the call being answered. */
    method WillReturnFromCache(start: nat, cached: Value<E>)
      requires Valid()
      requires cached.Success? ==> start + cached.value.length <= |source|
      modifies this
      ensures Valid() && stack == old(stack)
      ensures position == ReplayPosition(start, old(position), cached)
      ensures calls == old(calls)
    {
      if cached.Success? {
        position := start + cached.value.length;
      }
    }

    /**
     * `parse(_:)`: the traced body, a failure putting the cursor back to the
     * start; a success's length is the distance the cursor moved. The call
     * is recorded after the calls the enclosing body made before it.
     */
    method Parse(parser: Parser<E>, fuel: nat) returns (r: Run<Outcome<E>>, ghost traced: Run<Value<E>>)
      requires Valid()
      modifies this, memoizer, depthLimiter
      ensures Valid()
      ensures r.Done? <==> traced.Done?
      ensures r.Done? ==> Balanced()
      ensures r.Done? ==> r.result == Results.Map(traced.result, (m: TerminalMatch<Symbol<E>>) => m.symbol)
      ensures r.Done? && r.result.Failure? ==> position == old(position)
      ensures r.Done? && r.result.Success? ==> position == old(position) + traced.result.value.length
      ensures r.Done? ==> calls == old(calls) + [ParseCall(parser, old(position), r.result, position)]
      decreases fuel, 4
    {
      var startPosition := position;
      ghost var before := calls;
      calls := [];
      var key := KeyOf(position, parser.Tag());
      var m := Wrap(parser, key, fuel);
      traced := m;
      if m.Stuck? {
        return Stuck, m;
      }
      if m.result.Failure? {
        position := startPosition;
      }
      r := Done(Results.Map(m.result, (m: TerminalMatch<Symbol<E>>) => m.symbol));
      calls := before + [ParseCall(parser, startPosition, r.result, position)];
    }

    /**
     * `wrap(key:_:)`: a keyed call passes the depth limiter, with the limit
     * the number of elements left, and then the memoizer; an unkeyed call
     * runs the body directly.
     */
    method Wrap(parser: Parser<E>, key: Option<Key>, fuel: nat) returns (m: Run<Value<E>>)
      requires Valid() && calls == []
      requires key.Some? ==> key.value.offset == position
      modifies this, memoizer, depthLimiter
      ensures Valid()
      ensures m.Done? ==> Balanced()
      ensures m.Done? && m.result.Success? ==> position == old(position) + m.result.value.length
      ensures key.Some? && DepthOf(old(depthLimiter.depthMap), key.value) > |source| - old(position) ==>
                m == Done(Failure(DepthCutOff(old(stack)))) && position == old(position)
      decreases fuel, 3
    {
      if key.None? {
        m := Closure(parser, fuel);
        return;
      }
      var admitted, depth := depthLimiter.Enter(key.value, |source| - position);
      if !admitted {
        return Done(Failure(DepthCutOff(stack)));
      }
      m := Memoize(parser, key.value, fuel);
      if m.Stuck? {
        return;
      }
      depthLimiter.Leave(key.value, depth);
      EnterRestore(old(depthLimiter.depthMap), key.value);
    }

    /**
     * `memoize(key:context:_:)`: a hit replays the cached value without
     * running the body; a miss runs it and stores the candidate unless a
     * re-entrant call stored a value that `LongerMatch` prefers to keep.
     */
    method Memoize(parser: Parser<E>, key: Key, fuel: nat) returns (m: Run<Value<E>>)
      requires Valid() && calls == []
      requires key.offset == position
      modifies this, memoizer, depthLimiter
      ensures Valid()
      ensures m.Done? ==> Balanced()
      ensures m.Done? && m.result.Success? ==> position == old(position) + m.result.value.length
      ensures key in old(memoizer.cache) ==> m == Done(old(memoizer.cache)[key]) && memoizer.cache == old(memoizer.cache)
      ensures key !in old(memoizer.cache) && m.Done? ==> key in memoizer.cache && m.result == memoizer.cache[key]
      decreases fuel, 2
    {
      var cached := memoizer.Lookup(key);
      if cached.Some? {
        WillReturnFromCache(key.offset, cached.value);
        return Done(cached.value);
      }
      var candidate := Closure(parser, fuel);
      if candidate.Stuck? {
        return Stuck;
      }
      var replay, result := memoizer.Store(key, candidate.result);
      if replay {
        WillReturnFromCache(key.offset, result);
      }
      m := Done(result);
    }

    /**
     * The closure handed to `wrap`: push the call's frame, run the body, pop
     * the frame, and measure the match from the start to the cursor.
     */
    method Closure(parser: Parser<E>, fuel: nat) returns (m: Run<Value<E>>)
      requires Valid() && calls == []
      modifies this, memoizer, depthLimiter
      ensures Valid()
      ensures m.Done? ==> Balanced()
      ensures m.Done? && m.result.Success? ==> position == old(position) + m.result.value.length
      ensures m.Done? ==> Step(parser, old(position), calls, Results.Map(m.result, (found: TerminalMatch<Symbol<E>>) => found.symbol), position)
      decreases fuel, 1
    {
      var startPosition := position;
      stack := stack + [Frame(startPosition, parser.Tag())];
      var r := Body(parser, fuel);
      if r.Stuck? {
        return Stuck;
      }
      stack := stack[..|stack| - 1];
      var length := position - startPosition;
      m := Done(Results.Map(r.result, (symbol: Symbol<E>) => TerminalMatch(symbol, length)));
      assert Results.Map(m.result, (found: TerminalMatch<Symbol<E>>) => found.symbol) == r.result;
    }

    /** `end()`: a zero-length success exactly when no element is left. */
    ghost predicate EndStep(start: nat, result: Outcome<E>, end: nat)
    {
      && end == start
      && if start == |source| then result == Success(Unit) else result == Failure(EndMismatch)
    }

    /** `string(while:)`: the longest predicate prefix of the tail, when it is not empty. */
    ghost predicate WhileStep(holds: E -> bool, start: nat, result: Outcome<E>, end: nat)
      requires start <= |source|
    {
      var n := Subseq.PredicatePrefix(source[start..], holds);
      if n > 0 then end == start + n && end <= |source| && result == Success(Elements(source[start..end]))
      else end == start && result == Failure(NoMatch)
    }

    /** `string(_ pattern:)`: the pattern, when the tail starts with it. */
    ghost predicate PatternStep(pattern: seq<E>, start: nat, result: Outcome<E>, end: nat)
      requires start <= |source|
    {
      var tail := source[start..];
      if |pattern| <= |tail| && tail[..|pattern|] == pattern then end == start + |pattern| && result == Success(Elements(pattern))
      else end == start && result == Failure(NoMatch)
    }

    /** A rule: one call of the grammar's parser of that name, whose outcome is the result. */
    ghost predicate RuleStep(name: string, start: nat, made: Trail<E>, result: Outcome<E>, end: nat)
    {
      name in rules && Single(made, rules[name], start) && result == made[0].outcome && end == made[0].end
    }

    /**
     * What the body of `parser` does, started at `start`: the calls of
     * `parse` it makes, in order, its result and where it leaves the cursor.
     */
    ghost predicate Step(parser: Parser<E>, start: nat, made: Trail<E>, result: Outcome<E>, end: nat)
      requires start <= |source|
    {
      match parser
      case Empty(_) => made == [] && result == Success(Unit) && end == start
      case Skip(_, inner) => SkipStep(inner, start, made, result, end)
      case Maybe(_, inner) => MaybeStep(inner, start, made, result, end)
      case Many(_, inner) => ManyStep(inner, start, made, result, end)
      case SomeOf(_, inner) => SomeStep(inner, start, made, result, end)
      case List(_, item, separator) => ListStep(item, separator, start, made, result, end)
      case OneOf(tag, parsers) => OneOfStep(tag, parsers, start, made, result, end)
      case End => made == [] && EndStep(start, result, end)
      case StringWhile(_, holds) => made == [] && WhileStep(holds, start, result, end)
      case StringPattern(_, pattern) => made == [] && PatternStep(pattern, start, result, end)
      case Map(_, inner, transform) => MapStep(inner, transform, start, made, result, end)
      case AttemptMap(_, inner, attempt) => AttemptMapStep(inner, attempt, start, made, result, end)
      case FlatMap(_, inner, continuation) => FlatMapStep(inner, continuation, start, made, result, end)
      case MapError(_, inner, recover) => MapErrorStep(inner, recover, start, made, result, end)
      case Rule(_, name) => RuleStep(name, start, made, result, end)
    }

    /** `GenericParser.parse`: the body of the parser's form. */
    method Body(parser: Parser<E>, fuel: nat) returns (r: Run<Outcome<E>>)
      requires Valid() && calls == []
      modifies this, memoizer, depthLimiter
      ensures Valid()
      ensures r.Done? ==> Balanced()
      ensures r.Done? ==> Step(parser, old(position), calls, r.result, position)
      ensures parser.Empty? && fuel > 0 ==> r == Done(Success(Unit)) && position == old(position) && calls == []
      decreases fuel, 0
    {
      if fuel == 0 {
        return Stuck;
      }
      match parser
      case Empty(_) =>
        r := Done(Success(Unit));
      case Skip(_, inner) =>
        r := SkipBody(inner, fuel - 1);
      case Maybe(_, inner) =>
        r := MaybeBody(inner, fuel - 1);
      case Many(_, inner) =>
        r := ManyBody(inner, fuel - 1);
      case SomeOf(_, inner) =>
        r := SomeBody(inner, fuel - 1);
      case List(_, item, separator) =>
        r := ListBody(item, separator, fuel - 1);
      case OneOf(tag, parsers) =>
        r := OneOfBody(tag, parsers, fuel - 1);
      case End =>
        r := EndBody();
      case StringWhile(_, holds) =>
        r := WhileBody(holds);
      case StringPattern(_, pattern) =>
        r := PatternBody(pattern);
      case Map(_, inner, transform) =>
        r := MapBody(inner, transform, fuel - 1);
      case AttemptMap(_, inner, attempt) =>
        r := AttemptMapBody(inner, attempt, fuel - 1);
      case FlatMap(_, inner, continuation) =>
        r := FlatMapBody(inner, continuation, fuel - 1);
      case MapError(_, inner, recover) =>
        r := MapErrorBody(inner, recover, fuel - 1);
      case Rule(_, name) =>
        r := RuleBody(name, fuel - 1);
    }

    /** `skip`. */
    method SkipBody(parser: Parser<E>, fuel: nat) returns (r: Run<Outcome<E>>)
      requires Valid() && calls == []
      modifies this, memoizer, depthLimiter
      ensures Valid()
      ensures r.Done? ==> Balanced() && SkipStep(parser, old(position), calls, r.result, position)
      decreases fuel, 5
    {
      var a;
      ghost var traced;
      a, traced := Parse(parser, fuel);
      if a.Stuck? {
        return Stuck;
      }
      r := Done(Success(Unit));
    }

    /** `maybe`. */
    method MaybeBody(parser: Parser<E>, fuel: nat) returns (r: Run<Outcome<E>>)
      requires Valid() && calls == []
      modifies this, memoizer, depthLimiter
      ensures Valid()
      ensures r.Done? ==> Balanced() && MaybeStep(parser, old(position), calls, r.result, position)
      decreases fuel, 5
    {
      var a;
      ghost var traced;
      a, traced := Parse(parser, fuel);
      if a.Stuck? {
        return Stuck;
      }
      r := Done(Success(Optional(if a.result.Success? then Some(a.result.value) else None)));
    }

    /**
     * The loop shared by `many` and `some`: given the successful calls of
     * `parser` so far, linked from `start`, and their symbols, calls it
     * until it fails and returns all the symbols.
     */
    method Repeat(parser: Parser<E>, fuel: nat, ghost start: nat, first: seq<Symbol<E>>) returns (r: Run<seq<Symbol<E>>>)
      requires Valid()
      requires AllOf(calls, parser) && Linked(calls, start) && position == EndOf(calls, start)
      requires forall i :: 0 <= i < |calls| ==> calls[i].outcome.Success?
      requires first == SymbolsOf(calls)
      modifies this, memoizer, depthLimiter
      ensures Valid()
      ensures r.Done? ==> Balanced()
      ensures r.Done? ==> UntilFailure(calls, parser, start) && position == EndOf(calls, start)
      ensures r.Done? ==> r.result == SymbolsOf(calls[..|calls| - 1]) && |calls| > |old(calls)|
      decreases fuel, 5
    {
      var items := first;
      var budget := fuel;
      while true
        invariant Valid() && Balanced()
        invariant AllOf(calls, parser) && Linked(calls, start) && position == EndOf(calls, start)
        invariant forall i :: 0 <= i < |calls| ==> calls[i].outcome.Success?
        invariant items == SymbolsOf(calls) && |calls| >= |old(calls)|
        decreases budget
      {
        if budget == 0 {
          return Stuck;
        }
        var next;
        ghost var traced;
        ghost var prior := calls;
        next, traced := Parse(parser, fuel);
        if next.Stuck? {
          return Stuck;
        }
        LinkedAppend(prior, start, Last(calls));
        if next.result.Failure? {
          assert calls[..|calls| - 1] == prior;
          break;
        }
        SymbolsOfAppend(prior, Last(calls));
        items := items + [next.result.value];
        budget := budget - 1;
      }
      r := Done(items);
    }

    /** `many`. */
    method ManyBody(parser: Parser<E>, fuel: nat) returns (r: Run<Outcome<E>>)
      requires Valid() && calls == []
      modifies this, memoizer, depthLimiter
      ensures Valid()
      ensures r.Done? ==> Balanced() && ManyStep(parser, old(position), calls, r.result, position)
      decreases fuel, 6
    {
      var found := Repeat(parser, fuel, position, []);
      if found.Stuck? {
        return Stuck;
      }
      r := Done(Success(Items(found.result)));
    }

    /** `some`. */
    method SomeBody(parser: Parser<E>, fuel: nat) returns (r: Run<Outcome<E>>)
      requires Valid() && calls == []
      modifies this, memoizer, depthLimiter
      ensures Valid()
      ensures r.Done? ==> Balanced() && SomeStep(parser, old(position), calls, r.result, position)
      decreases fuel, 6
    {
      var head;
      ghost var traced;
      head, traced := Parse(parser, fuel);
      if head.Stuck? {
        return Stuck;
      }
      if head.result.Failure? {
        return head;
      }
      var found := Repeat(parser, fuel, old(position), [head.result.value]);
      if found.Stuck? {
        return Stuck;
      }
      r := Done(Success(Items(found.result)));
    }

    /** `list(item:separator:)`. */
    method ListBody(item: Parser<E>, separator: Parser<E>, fuel: nat) returns (r: Run<Outcome<E>>)
      requires Valid() && calls == []
      modifies this, memoizer, depthLimiter
      ensures Valid()
      ensures r.Done? ==> Balanced() && ListStep(item, separator, old(position), calls, r.result, position)
      decreases fuel, 7
    {
      var head;
      ghost var traced;
      head, traced := Parse(item, fuel);
      if head.Stuck? {
        return Stuck;
      }
      if head.result.Failure? {
        return Done(Success(Items([])));
      }
      var found := Pairs(item, separator, fuel, position, [head.result.value]);
      if found.Stuck? {
        return Stuck;
      }
      r := Done(Success(Items(found.result)));
    }

    /**
     * The loop of `list` after its first item: a separator and then, when
     * it matched, an item, until one of them fails; the items found are
     * appended to `first`.
     */
    method Pairs(item: Parser<E>, separator: Parser<E>, fuel: nat, ghost from: nat, first: seq<Symbol<E>>) returns (r: Run<seq<Symbol<E>>>)
      requires Valid() && position == from
      modifies this, memoizer, depthLimiter
      ensures Valid()
      ensures r.Done? ==> Balanced() && |calls| > |old(calls)| && calls[..|old(calls)|] == old(calls)
      ensures r.Done? ==>
                var rest := calls[|old(calls)|..];
                && Alternating(rest, separator, item) && Linked(rest, from) && position == EndOf(rest, from)
                && Last(rest).outcome.Failure? && (forall i :: 0 <= i < |rest| - 1 ==> rest[i].outcome.Success?)
                && r.result == first + PairedItems(rest, (|rest| - 1) / 2)
      decreases fuel, 6
    {
      ghost var rest: Trail<E> := [];
      var found := first;
      var budget := fuel;
      while true
        invariant Valid() && Balanced()
        invariant calls == old(calls) + rest && |rest| % 2 == 0
        invariant Alternating(rest, separator, item) && Linked(rest, from) && position == EndOf(rest, from)
        invariant forall i :: 0 <= i < |rest| ==> rest[i].outcome.Success?
        invariant found == first + PairedItems(rest, |rest| / 2)
        decreases budget
      {
        if budget == 0 {
          return Stuck;
        }
        var next;
        ghost var pair;
        ghost var prior := rest;
        next, pair := Turn(item, separator, fuel);
        if next.Stuck? {
          return Stuck;
        }
        rest := rest + pair;
        LinkedConcat(prior, pair, from);
        AlternatingConcat(prior, pair, separator, item);
        if next.result.None? {
          PairedPrefix(prior, pair, |prior| / 2);
          break;
        }
        PairedNext(prior, pair);
        found := found + [next.result.value];
        budget := budget - 1;
      }
      assert calls[|old(calls)|..] == rest;
      r := Done(found);
    }

    /** One turn of the `list` loop: a separator and, when it matched, an item; the item when both matched. */
    method Turn(item: Parser<E>, separator: Parser<E>, fuel: nat) returns (r: Run<Option<Symbol<E>>>, ghost pair: Trail<E>)
      requires Valid()
      modifies this, memoizer, depthLimiter
      ensures Valid()
      ensures r.Done? ==> Balanced() && calls == old(calls) + pair
      ensures r.Done? ==> && 1 <= |pair| <= 2 && Alternating(pair, separator, item)
                          && Linked(pair, old(position)) && position == EndOf(pair, old(position))
                          && (forall i :: 0 <= i < |pair| - 1 ==> pair[i].outcome.Success?)
      ensures r.Done? && r.result.Some? ==> |pair| == 2 && pair[1].outcome == Success(r.result.value)
      ensures r.Done? && r.result.None? ==> Last(pair).outcome.Failure?
      decreases fuel, 5
    {
      var mark;
      ghost var traced;
      mark, traced := Parse(separator, fuel);
      if mark.Stuck? {
        return Stuck, [];
      }
      pair := [Last(calls)];
      if mark.result.Failure? {
        return Done(None), pair;
      }
      var next;
      next, traced := Parse(item, fuel);
      if next.Stuck? {
        return Stuck, pair;
      }
      pair := pair + [Last(calls)];
      r := Done(if next.result.Success? then Some(next.result.value) else None);
    }

    /** `oneOf`. */
    method OneOfBody(tag: Option<string>, parsers: seq<Parser<E>>, fuel: nat) returns (r: Run<Outcome<E>>)
      requires Valid() && calls == []
      modifies this, memoizer, depthLimiter
      ensures Valid()
      ensures r.Done? ==> Balanced() && OneOfStep(tag, parsers, old(position), calls, r.result, position)
      decreases fuel, 5
    {
      var i := 0;
      while i < |parsers|
        invariant 0 <= i <= |parsers| && |calls| == i
        invariant Valid() && Balanced() && position == old(position)
        invariant forall j :: 0 <= j < i ==> calls[j].parser == parsers[j] && calls[j].start == old(position) && calls[j].outcome.Failure?
        decreases |parsers| - i
      {
        var result;
        ghost var traced;
        result, traced := Parse(parsers[i], fuel);
        if result.Stuck? {
          return Stuck;
        }
        if result.result.Success? {
          return result;
        }
        i := i + 1;
      }
      r := Done(Failure(OneOfMismatch(tag)));
    }

    /** `end()`. */
    method EndBody() returns (r: Run<Outcome<E>>)
      requires Valid()
      modifies this
      ensures Valid() && stack == old(stack) && calls == old(calls)
      ensures r.Done? && EndStep(old(position), r.result, position)
    {
      var found := if |source[position..]| == 0 then Some(TerminalMatch(Unit, 0)) else None;
      var symbol := Accept(found);
      r := Done(if symbol.Some? then Success(symbol.value) else Failure(EndMismatch));
    }

    /** `string(while:)`. */
    method WhileBody(holds: E -> bool) returns (r: Run<Outcome<E>>)
      requires Valid()
      modifies this
      ensures Valid() && stack == old(stack) && calls == old(calls)
      ensures r.Done? && WhileStep(holds, old(position), r.result, position)
    {
      var tail := source[position..];
      var n := Subseq.PredicatePrefix(tail, holds);
      assert tail[..n] == source[position..position + n];
      var found := if n > 0 then Some(TerminalMatch(Elements(tail[..n]), n)) else None;
      var symbol := Accept(found);
      r := Done(if symbol.Some? then Success(symbol.value) else Failure(NoMatch));
    }

    /** `string(_ pattern:)`. */
    method PatternBody(pattern: seq<E>) returns (r: Run<Outcome<E>>)
      requires Valid()
      modifies this
      ensures Valid() && stack == old(stack) && calls == old(calls)
      ensures r.Done? && PatternStep(pattern, old(position), r.result, position)
    {
      var length := Subseq.PatternLength(source[position..], pattern);
      var found := if length.Some? then Some(TerminalMatch(Elements(pattern), length.value)) else None;
      var symbol := Accept(found);
      r := Done(if symbol.Some? then Success(symbol.value) else Failure(NoMatch));
    }

    /** `map`. */
    method MapBody(parser: Parser<E>, transform: Symbol<E> -> Symbol<E>, fuel: nat) returns (r: Run<Outcome<E>>)
      requires Valid() && calls == []
      modifies this, memoizer, depthLimiter
      ensures Valid()
      ensures r.Done? ==> Balanced() && MapStep(parser, transform, old(position), calls, r.result, position)
      decreases fuel, 5
    {
      var a;
      ghost var traced;
      a, traced := Parse(parser, fuel);
      if a.Stuck? {
        return Stuck;
      }
      r := Done(Results.Map(a.result, transform));
    }

    /** `attemptMap`. */
    method AttemptMapBody(parser: Parser<E>, attempt: Symbol<E> -> Outcome<E>, fuel: nat) returns (r: Run<Outcome<E>>)
      requires Valid() && calls == []
      modifies this, memoizer, depthLimiter
      ensures Valid()
      ensures r.Done? ==> Balanced() && AttemptMapStep(parser, attempt, old(position), calls, r.result, position)
      decreases fuel, 5
    {
      var a;
      ghost var traced;
      a, traced := Parse(parser, fuel);
      if a.Stuck? {
        return Stuck;
      }
      r := Done(Results.FlatMap(a.result, attempt));
    }

    /** `flatMap`. */
    method FlatMapBody(parser: Parser<E>, continuation: Symbol<E> -> Parser<E>, fuel: nat) returns (r: Run<Outcome<E>>)
      requires Valid() && calls == []
      modifies this, memoizer, depthLimiter
      ensures Valid()
      ensures r.Done? ==> Balanced() && FlatMapStep(parser, continuation, old(position), calls, r.result, position)
      decreases fuel, 5
    {
      var head;
      ghost var traced;
      head, traced := Parse(parser, fuel);
      if head.Stuck? {
        return Stuck;
      }
      if head.result.Failure? {
        return head;
      }
      r, traced := Parse(continuation(head.result.value), fuel);
    }

    /** `mapError`. */
    method MapErrorBody(parser: Parser<E>, recover: Mismatch -> Mismatch, fuel: nat) returns (r: Run<Outcome<E>>)
      requires Valid() && calls == []
      modifies this, memoizer, depthLimiter
      ensures Valid()
      ensures r.Done? ==> Balanced() && MapErrorStep(parser, recover, old(position), calls, r.result, position)
      decreases fuel, 5
    {
      var a;
      ghost var traced;
      a, traced := Parse(parser, fuel);
      if a.Stuck? {
        return Stuck;
      }
      r := Done(if a.result.Failure? then Failure(recover(a.result.error)) else a.result);
    }

    /** The parser-returning initialiser: the rule's parser, parsed through `parse`. */
    method RuleBody(name: string, fuel: nat) returns (r: Run<Outcome<E>>)
      requires Valid() && calls == []
      modifies this, memoizer, depthLimiter
      ensures Valid()
      ensures r.Done? ==> Balanced() && RuleStep(name, old(position), calls, r.result, position)
      decreases fuel, 5
    {
      if name !in rules {
        return Stuck;
      }
      ghost var traced;
      r, traced := Parse(rules[name], fuel);
    }
  }
}
