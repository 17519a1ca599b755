/**
 * The success/failure outcome of Sources/ParserCore/Result.swift, used inside
 * the older `GenericParserCore` engine. As in the source, every combinator is
 * derived from the eliminator `iif`.
 */
module Results {
  import opened Wrappers

  datatype Result<+V, +E> = Success(value: V) | Failure(error: E)

  /** `iif(success:failure:)`: applies the function matching the case. */
  function Iif<V, E, T>(r: Result<V, E>, success: V -> T, failure: E -> T): (t: T)
    ensures r.Success? ==> t == success(r.value)
    ensures r.Failure? ==> t == failure(r.error)
  {
    match r
    case Success(v) => success(v)
    case Failure(e) => failure(e)
  }

  /** The `value` accessor. */
  function Value<V, E>(r: Result<V, E>): (o: Option<V>)
    ensures o.Some? <==> r.Success?
    ensures o.Some? ==> o.value == r.value
  {
    Iif(r, (v: V) => Some(v), (_: E) => None)
  }

  /** The `error` accessor. */
  function Error<V, E>(r: Result<V, E>): (o: Option<E>)
    ensures o.Some? <==> r.Failure?
    ensures o.Some? ==> o.value == r.error
  {
    Iif(r, (_: V) => None, (e: E) => Some(e))
  }

  /** `map`: transforms a success, propagates a failure unchanged. */
  function Map<V, E, T>(r: Result<V, E>, transform: V -> T): (m: Result<T, E>)
    ensures m.Failure? <==> r.Failure?
    ensures r.Failure? ==> m.error == r.error
    ensures r.Success? ==> m.value == transform(r.value)
  {
    Iif(r, (v: V) => Success(transform(v)), (e: E) => Failure(e))
  }

  /** `flatMap`: a failure propagates; a success is fed to `transform`. */
  function FlatMap<V, E, T>(r: Result<V, E>, transform: V -> Result<T, E>): (m: Result<T, E>)
    ensures r.Failure? ==> m == Failure(r.error)
    ensures r.Success? ==> m == transform(r.value)
  {
    Iif(r, transform, (e: E) => Failure(e))
  }

  /** `init(value:error:)`: a success exactly when `value()` produced something. */
  function FromOptional<V, E>(value: Option<V>, error: E): (r: Result<V, E>)
    ensures r.Success? <==> value.Some?
    ensures r.Success? ==> r.value == value.value
    ensures r.Failure? ==> r.error == error
  {
    if value.Some? then Success(value.value) else Failure(error)
  }

  /** `value` and `init(value:error:)` are inverse on successes. */
  lemma FromOptionalValue<V, E>(r: Result<V, E>, error: E)
    ensures r.Success? ==> FromOptional(Value(r), error) == r
    ensures Value(FromOptional(Value(r), error)) == Value(r)
  {
  }

  /** `map` respects identity and composition. */
  lemma MapLaws<V, E, S, T>(r: Result<V, E>, f: V -> S, g: S -> T)
    ensures Map(r, (v: V) => v) == r
    ensures Map(Map(r, f), g) == Map(r, (v: V) => g(f(v)))
  {
  }

  /** `flatMap` with the success constructor is the identity, and it is associative. */
  lemma FlatMapLaws<V, E, S, T>(r: Result<V, E>, f: V -> Result<S, E>, g: S -> Result<T, E>)
    ensures FlatMap(r, (v: V) => Success(v)) == r
    ensures FlatMap(FlatMap(r, f), g) == FlatMap(r, (v: V) => FlatMap(f(v), g))
  {
  }
}
