/**
 * The calls of `parse` a combinator's body makes, as the engines record
 * them: which parser was called, where the cursor was when it was called,
 * the outcome, and where the cursor was when it returned. Each engine says
 * per combinator which calls its body makes and what it makes of them.
 */
module ParseCalls {
  datatype ParseCall<P, O> = ParseCall(parser: P, start: nat, outcome: O, end: nat)

  function Last<P, O>(made: seq<ParseCall<P, O>>): ParseCall<P, O>
    requires made != []
  {
    made[|made| - 1]
  }

  /** Where the cursor is after the calls, made from `start`. */
  function EndOf<P, O>(made: seq<ParseCall<P, O>>, start: nat): (end: nat)
    ensures made == [] ==> end == start
    ensures made != [] ==> end == Last(made).end
  {
    if made == [] then start else Last(made).end
  }

  /** Exactly one call, of `parser`, from `start`. */
  ghost predicate Single<P, O>(made: seq<ParseCall<P, O>>, parser: P, start: nat)
  {
    |made| == 1 && made[0].parser == parser && made[0].start == start
  }

  /** Every call is of `parser`. */
  ghost predicate AllOf<P, O>(made: seq<ParseCall<P, O>>, parser: P)
  {
    forall i :: 0 <= i < |made| ==> made[i].parser == parser
  }

  /** The first call starts at `start`, each later one where the previous one left the cursor. */
  ghost predicate Linked<P, O>(made: seq<ParseCall<P, O>>, start: nat)
  {
    && (made != [] ==> made[0].start == start)
    && (forall i :: 0 < i < |made| ==> made[i].start == made[i - 1].end)
  }

  /** A call from where linked calls left the cursor keeps them linked. */
  lemma LinkedAppend<P, O>(made: seq<ParseCall<P, O>>, start: nat, next: ParseCall<P, O>)
    requires Linked(made, start) && next.start == EndOf(made, start)
    ensures Linked(made + [next], start) && EndOf(made + [next], start) == next.end
  {
    assert Last(made + [next]) == next;
  }

  /** Linked calls followed by calls linked from where they left the cursor are linked. */
  lemma LinkedConcat<P, O>(made: seq<ParseCall<P, O>>, more: seq<ParseCall<P, O>>, start: nat)
    requires Linked(made, start) && Linked(more, EndOf(made, start))
    ensures Linked(made + more, start) && EndOf(made + more, start) == EndOf(more, EndOf(made, start))
  {
    var joined := made + more;
    if more != [] {
      assert Last(joined) == Last(more);
      if made != [] {
        assert joined[|made|] == more[0] && joined[|made| - 1] == Last(made);
      }
    }
    forall i | 0 < i < |joined|
      ensures joined[i].start == joined[i - 1].end
    {
      if i > |made| {
        assert joined[i] == more[i - |made|] && joined[i - 1] == more[i - 1 - |made|];
      }
    }
  }

  /** Linked calls after a first one that ends where they start are linked from the first's start. */
  lemma LinkedPrepend<P, O>(first: ParseCall<P, O>, made: seq<ParseCall<P, O>>)
    requires Linked(made, first.end)
    ensures Linked([first] + made, first.start) && EndOf([first] + made, first.start) == EndOf(made, first.end)
  {
    if made != [] {
      assert Last([first] + made) == Last(made);
    }
  }
}

/**
 * Calls whose outcome is an `Either`, as in the engines that report a
 * failure as `.left`: the repetitions `many`, `some` and `list` make.
 */
module EitherCalls {
  import opened Eithers
  import opened ParseCalls

  /**
   * Repeated calls of `parser`, the first from `start`, each from where the
   * previous one left the cursor, every one but the last a success.
   */
  ghost predicate Chained<P, L, R>(made: seq<ParseCall<P, Either<L, R>>>, parser: P, start: nat)
  {
    && AllOf(made, parser)
    && Linked(made, start)
    && (forall i :: 0 <= i < |made| - 1 ==> made[i].outcome.Right?)
  }

  /** The successful calls of a repetition: all of them but a failing last one. */
  function Found<P, L, R>(made: seq<ParseCall<P, Either<L, R>>>): (found: seq<ParseCall<P, Either<L, R>>>)
    ensures (forall i :: 0 <= i < |made| - 1 ==> made[i].outcome.Right?) ==>
              forall i :: 0 <= i < |found| ==> found[i].outcome.Right?
  {
    if made != [] && Last(made).outcome.Left? then made[..|made| - 1] else made
  }

  /** The values of successful calls, in order. */
  function SymbolsOf<P, L, R>(made: seq<ParseCall<P, Either<L, R>>>): (symbols: seq<R>)
    requires forall i :: 0 <= i < |made| ==> made[i].outcome.Right?
    ensures |symbols| == |made|
  {
    seq(|made|, i requires 0 <= i < |made| && made[i].outcome.Right? => made[i].outcome.right)
  }

  /** A further call from where the successful calls left the cursor extends the chain. */
  lemma ChainedAppend<P, L, R>(made: seq<ParseCall<P, Either<L, R>>>, parser: P, start: nat, next: ParseCall<P, Either<L, R>>)
    requires Chained(made, parser, start) && forall i :: 0 <= i < |made| ==> made[i].outcome.Right?
    requires next.parser == parser && next.start == EndOf(made, start)
    ensures Chained(made + [next], parser, start) && EndOf(made + [next], start) == next.end
  {
    LinkedAppend(made, start, next);
  }

  lemma SymbolsOfAppend<P, L, R>(made: seq<ParseCall<P, Either<L, R>>>, next: ParseCall<P, Either<L, R>>)
    requires forall i :: 0 <= i < |made| ==> made[i].outcome.Right?
    requires next.outcome.Right?
    ensures SymbolsOf(made + [next]) == SymbolsOf(made) + [next.outcome.right]
  {
  }
}
