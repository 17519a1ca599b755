/**
 * The farthest-failure tracer of the ParserCore2 generation
 * (Sources/ParserCore2/Tracer.swift). Its call stack is kept exactly as the
 * current engine's tracer keeps it; its register differs in appending every
 * mismatch at the recorded position, repeats included.
 */
module Tracer2 {
  import opened Wrappers
  import opened Mismatches
  import opened FarthestMismatch

  /** `register(_:)`: replace on a farther position or an empty record, append at an equal one, else ignore. */
  function Registered2(farthest: Option<Farthest>, stack: seq<Call>, mismatch: Mismatch): (r: Option<Farthest>)
    requires stack != []
    ensures r.Some? && NotLowered(farthest, r)
  {
    var call := stack[|stack| - 1];
    if farthest.None? || farthest.value.position < call.position then
      Some(Farthest(call.position, [Entry(stack, mismatch)]))
    else if farthest.value.position == call.position then
      Some(Farthest(call.position, farthest.value.list + [Entry(stack, mismatch)]))
    else
      farthest
  }

  /** The farthest failure recorded has not moved back: it is still there, at the same or a larger position. */
  ghost predicate NotLowered(before: Option<Farthest>, after: Option<Farthest>)
  {
    before.Some? ==> after.Some? && after.value.position >= before.value.position
  }

  /**
   * The recorded position is the larger of the old one and the top call's;
   * a nearer mismatch leaves the record alone; at an equal position the list
   * grows by exactly this entry; a farther one starts a new list with it.
   */
  lemma Registered2Properties(farthest: Option<Farthest>, stack: seq<Call>, mismatch: Mismatch)
    requires stack != []
    ensures var r := Registered2(farthest, stack, mismatch);
            var call := stack[|stack| - 1];
            && r.value.position == (if farthest.Some? && farthest.value.position > call.position then farthest.value.position else call.position)
            && (farthest.Some? && farthest.value.position > call.position ==> r == farthest)
            && (farthest.Some? && farthest.value.position == call.position ==>
                  r.value.list == farthest.value.list + [Entry(stack, mismatch)])
            && (farthest.None? || farthest.value.position < call.position ==>
                  r.value.list == [Entry(stack, mismatch)])
  {
  }

  /**
   * The two generations' registers differ on exactly one kind of call: a
   * mismatch at the recorded position that repeats the last one recorded,
   * which only the current tracer drops.
   */
  lemma RegisteredGenerations(farthest: Option<Farthest>, stack: seq<Call>, mismatch: Mismatch)
    requires stack != []
    requires farthest.Some? ==> farthest.value.list != []
    ensures Registered(farthest, stack, mismatch) != Registered2(farthest, stack, mismatch) <==>
              && farthest.Some?
              && farthest.value.position == stack[|stack| - 1].position
              && farthest.value.list[|farthest.value.list| - 1].mismatch == mismatch
  {
    if farthest.Some? && farthest.value.position == stack[|stack| - 1].position
       && farthest.value.list[|farthest.value.list| - 1].mismatch == mismatch {
      assert |Registered2(farthest, stack, mismatch).value.list| == |farthest.value.list| + 1;
    }
  }

  /** What the tracer holds: its call stack and the farthest failure recorded. */
  datatype State = State(stack: seq<Call>, farthestMismatch: Option<Farthest>)

  /**
   * `trace(position:tag:call:)` as `parse` reaches it in
   * Sources/ParserCore2/Core.swift. The tracer is a struct held in a `lazy
   * var` of the core, so the mutating `trace` works on a copy of the state
   * stored when it starts (`before`) and the copy is stored back when it
   * returns. The calls of `parse` the body makes read and store that same
   * property meanwhile; whatever they stored is replaced. So the state
   * after the call is a function of `before` and the body's own failure
   * alone: the enclosing call entered, this failure registered, the call left.
   */
  function TracedAsWritten(before: State, position: nat, tag: Option<string>, failure: Option<Mismatch>): (after: State)
    requires Compressed(before.stack)
    ensures after.stack == before.stack
    ensures failure.None? ==> after == before
    ensures failure.Some? ==> after.farthestMismatch == Registered2(before.farthestMismatch, Entered(before.stack, position, tag), failure.value)
  {
    var entered := Entered(before.stack, position, tag);
    LeftEntered(before.stack, position, tag);
    State(Left(entered), if failure.Some? then Registered2(before.farthestMismatch, entered, failure.value) else before.farthestMismatch)
  }

  /**
   * The farthest failure a parse that starts at the beginning leaves behind,
   * as written: nothing at all after a success, and after a failure only
   * the outermost call's own mismatch at the start, however far inside it
   * a nested parse failed.
   */
  lemma AsWrittenKeepsOnlyOutermost(position: nat, tag: Option<string>, failure: Option<Mismatch>)
    ensures var after := TracedAsWritten(State([], None), position, tag, failure);
            && (failure.None? ==> after.farthestMismatch == None)
            && (failure.Some? ==> after.farthestMismatch == Some(Farthest(position, [Entry([Call(position, tag, 1)], failure.value)])))
  {
    assert Entered([], position, tag) == [Call(position, tag, 1)];
  }

  /**
   * A concrete run that shows the difference. An untagged parse at offset 0
   * fails after a parse nested inside it failed at offset 3. With the
   * tracer shared, as `Core2.Core.Parse` keeps it, offset 3 stays the
   * farthest failure; as written, the record points at offset 0.
   */
  lemma AsWrittenLosesNestedFailure()
    ensures var outer := Call(0, None, 1);
            var nested := Some(Farthest(3, [Entry([outer, Call(3, Some("digits"), 1)], NoMatch)]));
            && Registered2(nested, [outer], NoMatch) == nested
            && TracedAsWritten(State([], None), 0, None, Some(NoMatch)).farthestMismatch == Some(Farthest(0, [Entry([outer], NoMatch)]))
  {
    assert Entered([], 0, None) == [Call(0, None, 1)];
  }

  class Tracer {
    var stack: seq<Call>
    var farthestMismatch: Option<Farthest>

    ghost predicate Valid()
      reads this
    {
      Compressed(stack)
    }

    constructor ()
      ensures Valid() && stack == [] && farthestMismatch == None
    {
      stack := [];
      farthestMismatch := None;
    }

    /** `enter(position:tag:)`: a repeat of the top call raises its depth, anything else is pushed at depth 1. */
    method Enter(position: nat, tag: Option<string>)
      requires Valid()
      modifies this
      ensures Valid()
      ensures stack == Entered(old(stack), position, tag)
      ensures farthestMismatch == old(farthestMismatch)
    {
      EnteredCompressed(stack, position, tag);
      if |stack| > 0 && stack[|stack| - 1].position == position && stack[|stack| - 1].tag == tag {
        var call := stack[|stack| - 1];
        stack := stack[|stack| - 1 := Call(call.position, call.tag, call.depth + 1)];
      } else {
        stack := stack + [Call(position, tag, 1)];
      }
    }

    /** `leave()`: lowers the top call's depth, popping it at depth 1. */
    method Leave()
      requires Valid() && stack != []
      modifies this
      ensures Valid()
      ensures stack == Left(old(stack))
      ensures farthestMismatch == old(farthestMismatch)
    {
      LeftCompressed(stack);
      var call := stack[|stack| - 1];
      if call.depth > 1 {
        stack := stack[|stack| - 1 := Call(call.position, call.tag, call.depth - 1)];
      } else {
        stack := stack[..|stack| - 1];
      }
    }

    method Register(mismatch: Mismatch)
      requires Valid() && stack != []
      modifies this
      ensures Valid()
      ensures stack == old(stack)
      ensures farthestMismatch == Registered2(old(farthestMismatch), stack, mismatch)
    {
      var call := stack[|stack| - 1];
      if farthestMismatch.None? || farthestMismatch.value.position < call.position {
        farthestMismatch := Some(Farthest(call.position, [Entry(stack, mismatch)]));
      } else if farthestMismatch.value.position == call.position {
        farthestMismatch := Some(Farthest(call.position, farthestMismatch.value.list + [Entry(stack, mismatch)]));
      }
    }
  }
}
