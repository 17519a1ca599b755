/**
 * The two-case outcome of Sources/ParserCore/Either.swift: `.left` carries a
 * failure (a `Mismatch` in the engine), `.right` a value. Every combinator of
 * `EitherRepresenting` is derived from the eliminator `iif`, and so it is here.
 */
module Eithers {
  import opened Wrappers

  datatype Either<+L, +R> = Left(left: L) | Right(right: R)

  /** `iif(right:left:)`: applies the function matching the case. */
  function Iif<L, R, T>(e: Either<L, R>, right: R -> T, left: L -> T): (t: T)
    ensures e.Right? ==> t == right(e.right)
    ensures e.Left? ==> t == left(e.left)
  {
    match e
    case Left(l) => left(l)
    case Right(r) => right(r)
  }

  /** The `value` accessor. */
  function Value<L, R>(e: Either<L, R>): (v: Option<R>)
    ensures v.Some? <==> e.Right?
    ensures v.Some? ==> v.value == e.right
  {
    Iif(e, (r: R) => Some(r), (_: L) => None)
  }

  /** The `error` accessor. */
  function Error<L, R>(e: Either<L, R>): (v: Option<L>)
    ensures v.Some? <==> e.Left?
    ensures v.Some? ==> v.value == e.left
  {
    Iif(e, (_: R) => None, (l: L) => Some(l))
  }

  /** `map`: transforms a `.right`, passes a `.left` through unchanged. */
  function Map<L, R, T>(e: Either<L, R>, transform: R -> T): (m: Either<L, T>)
    ensures m.Left? <==> e.Left?
    ensures e.Left? ==> m.left == e.left
    ensures e.Right? ==> m.right == transform(e.right)
  {
    Iif(e, (r: R) => Right(transform(r)), (l: L) => Left(l))
  }

  /** `flatMap`: a `.left` short-circuits; a `.right` is fed to `transform`. */
  function FlatMap<L, R, T>(e: Either<L, R>, transform: R -> Either<L, T>): (m: Either<L, T>)
    ensures e.Left? ==> m == Left(e.left)
    ensures e.Right? ==> m == transform(e.right)
  {
    Iif(e, transform, (l: L) => Left(l))
  }

  /** `mapError`: transforms a `.left`, keeps a `.right` unchanged. */
  function MapError<L, R, T>(e: Either<L, R>, transform: L -> T): (m: Either<T, R>)
    ensures m.Right? <==> e.Right?
    ensures e.Right? ==> m.right == e.right
    ensures e.Left? ==> m.left == transform(e.left)
  {
    Iif(e, (r: R) => Right(r), (l: L) => Left(transform(l)))
  }

  /** `init(value:error:)`: `.right` exactly when `value()` produced something. */
  function FromOptional<L, R>(value: Option<R>, error: L): (e: Either<L, R>)
    ensures e.Right? <==> value.Some?
    ensures e.Right? ==> e.right == value.value
    ensures e.Left? ==> e.left == error
  {
    if value.Some? then Right(value.value) else Left(error)
  }

  /** `value` and `init(value:error:)` are inverse on successes. */
  lemma FromOptionalValue<L, R>(e: Either<L, R>, error: L)
    ensures e.Right? ==> FromOptional(Value(e), error) == e
    ensures Value(FromOptional(Value(e), error)) == Value(e)
  {
  }

  /** Exactly one of `value` and `error` is present. */
  lemma ValueErrorExclusive<L, R>(e: Either<L, R>)
    ensures Value(e).Some? != Error(e).Some?
  {
  }

  /** `map` respects identity and composition (the functor laws). */
  lemma MapLaws<L, R, S, T>(e: Either<L, R>, f: R -> S, g: S -> T)
    ensures Map(e, (r: R) => r) == e
    ensures Map(Map(e, f), g) == Map(e, (r: R) => g(f(r)))
  {
  }

  /** `flatMap` with the `.right` constructor is the identity, and it is associative. */
  lemma FlatMapLaws<L, R, S, T>(e: Either<L, R>, f: R -> Either<L, S>, g: S -> Either<L, T>)
    ensures FlatMap(e, (r: R) => Right(r)) == e
    ensures FlatMap(FlatMap(e, f), g) == FlatMap(e, (r: R) => FlatMap(f(r), g))
  {
  }

  /** `map` is `flatMap` followed by the `.right` constructor. */
  lemma MapIsFlatMap<L, R, T>(e: Either<L, R>, f: R -> T)
    ensures Map(e, f) == FlatMap(e, (r: R) => Right(f(r)))
  {
  }

  /** `map` and `mapError` act on different cases and commute. */
  lemma MapCommutesWithMapError<L, R, K, T>(e: Either<L, R>, f: R -> T, g: L -> K)
    ensures MapError(Map(e, f), g) == Map(MapError(e, g), f)
  {
  }
}
