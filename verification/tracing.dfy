/**
 * Sources/ParserCore/Tracers/Tracing.swift: a tracer wraps the body of every
 * `parse` call; tracers compose by nesting, and each may have a report.
 *
 * A tracer is modelled as a transformer of bodies: a body takes the tracing
 * state to a result and a new state, and `trace(position, tag, body)` is a new
 * body.
 */
module Tracing {
  import opened Wrappers
  import Utils

  type Body<V, !S> = S -> (V, S)
  type Trace<!V, !S> = (nat, Option<string>, Body<V, S>) -> Body<V, S>

  /** `EmptyTracer.trace`: the body itself. */
  function EmptyTrace<V, S>(): Trace<V, S>
  {
    (position: nat, tag: Option<string>, body: Body<V, S>) => body
  }

  /** `EmptyTracer.report`. */
  const EmptyReport: Option<string> := None

  /**
   * `CompositeTracer.trace`, as built by `combine(with:)`: the receiver is the
   * outer tracer, and its body is the other tracer applied to the original
   * body, at the same position and tag.
   */
  function Combine<V, S>(outer: Trace<V, S>, inner: Trace<V, S>): Trace<V, S>
  {
    (position: nat, tag: Option<string>, body: Body<V, S>) => outer(position, tag, inner(position, tag, body))
  }

  /** The empty tracer is a unit for `combine` on either side. */
  lemma CombineUnit<V, S>(t: Trace<V, S>, position: nat, tag: Option<string>, body: Body<V, S>)
    ensures Combine(EmptyTrace(), t)(position, tag, body) == t(position, tag, body)
    ensures Combine(t, EmptyTrace())(position, tag, body) == t(position, tag, body)
  {
  }

  /** Composition does not depend on grouping. */
  lemma CombineAssociative<V, S>(a: Trace<V, S>, b: Trace<V, S>, c: Trace<V, S>, position: nat, tag: Option<string>, body: Body<V, S>)
    ensures Combine(Combine(a, b), c)(position, tag, body) == Combine(a, Combine(b, c))(position, tag, body)
  {
  }

  /**
   * The chain built in Core.swift, `EmptyTracer().combine(with: depthLimiter)
   * .combine(with: memoizer).combine(with: farthestMismatchTracer)`, runs the
   * depth limiter outermost, then the memoizer, then the farthest-mismatch
   * tracer, then the body.
   */
  lemma ChainOrder<V, S>(depthLimiter: Trace<V, S>, memoizer: Trace<V, S>, farthest: Trace<V, S>,
                         position: nat, tag: Option<string>, body: Body<V, S>)
    ensures Combine(Combine(Combine(EmptyTrace(), depthLimiter), memoizer), farthest)(position, tag, body)
         == depthLimiter(position, tag, memoizer(position, tag, farthest(position, tag, body)))
  {
  }

  /** `flatMap(id)` over optional reports: the present ones, in order. */
  function Present(reports: seq<Option<string>>): (r: seq<string>)
    ensures |r| <= |reports|
    ensures (forall i :: 0 <= i < |reports| ==> reports[i].None?) <==> r == []
  {
    if reports == [] then []
    else (if reports[0].Some? then [reports[0].value] else []) + Present(reports[1..])
  }

  /** `Present` of two reports, spelled out. */
  lemma PresentPair(report1: Option<string>, report2: Option<string>)
    ensures Present([report1, report2])
         == (if report1.Some? then [report1.value] else []) + (if report2.Some? then [report2.value] else [])
  {
    assert [report1, report2][1..] == [report2];
    assert [report2][1..] == [];
  }

  /** Joining two parts puts the separator between them. */
  lemma JoinPair(first: string, second: string, separator: string)
    ensures Utils.Join([first, second], separator) == first + separator + second
  {
    assert [first, second][1..] == [second];
  }

  /**
   * `CompositeTracer.report` as written: the present reports joined by a blank
   * line. The joined string is always wrapped into an optional, so the report
   * is never nil, even when neither component has one.
   */
  function CompositeReportAsWritten(report1: Option<string>, report2: Option<string>): (r: Option<string>)
    ensures r.Some?
    ensures r.value == Utils.Join(Present([report1, report2]), "\n\n")
  {
    Some(Utils.Join(Present([report1, report2]), "\n\n"))
  }

  /** Two tracers without reports still make a composite with a report: the empty string. */
  lemma CompositeReportAsWrittenNeverNil()
    ensures CompositeReportAsWritten(EmptyReport, EmptyReport) == Some("")
    ensures CompositeReportAsWritten(EmptyReport, EmptyReport) != EmptyReport
  {
    assert Present([EmptyReport, EmptyReport]) == [];
  }

  /**
   * For the chain of Core.swift, where only the farthest-mismatch tracer
   * reports, the composite report gains a leading blank line, or is the empty
   * string when that tracer has nothing to report.
   */
  lemma ChainReportAsWritten(farthest: Option<string>)
    ensures var none := EmptyReport;
            CompositeReportAsWritten(CompositeReportAsWritten(CompositeReportAsWritten(none, none), none), farthest)
            == if farthest.Some? then Some("\n\n" + farthest.value) else Some("")
  {
    var none: Option<string> := EmptyReport;
    PresentPair(none, none);
    PresentPair(Some(""), none);
    PresentPair(Some(""), farthest);
    assert CompositeReportAsWritten(none, none) == Some("");
    assert CompositeReportAsWritten(Some(""), none) == Some("");
    if farthest.Some? {
      JoinPair("", farthest.value, "\n\n");
      assert "" + "\n\n" + farthest.value == "\n\n" + farthest.value;
    }
  }

  /**
   * The composite report with the evident intent: nil when neither tracer
   * reports, the one present report, or both joined by a blank line.
   */
  function CompositeReport(report1: Option<string>, report2: Option<string>): (r: Option<string>)
    ensures r.None? <==> report1.None? && report2.None?
    ensures report1.Some? && report2.None? ==> r == report1
    ensures report1.None? && report2.Some? ==> r == report2
    ensures report1.Some? && report2.Some? ==> r == Some(report1.value + "\n\n" + report2.value)
  {
    var present := Present([report1, report2]);
    PresentPair(report1, report2);
    if present == [] then None
    else if report1.Some? && report2.Some? then
      JoinPair(report1.value, report2.value, "\n\n");
      Some(Utils.Join(present, "\n\n"))
    else Some(Utils.Join(present, "\n\n"))
  }

  /** The corrected composite agrees with the one as written whenever some tracer reports. */
  lemma CompositeReportAgrees(report1: Option<string>, report2: Option<string>)
    requires report1.Some? || report2.Some?
    ensures CompositeReport(report1, report2) == CompositeReportAsWritten(report1, report2)
  {
    PresentPair(report1, report2);
  }

  /** With the corrected composite, the chain of Core.swift reports exactly what the farthest-mismatch tracer reports. */
  lemma ChainReport(farthest: Option<string>)
    ensures var none := EmptyReport;
            CompositeReport(CompositeReport(CompositeReport(none, none), none), farthest) == farthest
  {
  }
}
