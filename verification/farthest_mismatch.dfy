/**
 * Sources/ParserCore/Tracers/FarthestMismatchTracer.swift: a compressed stack
 * of the calls in progress, and the mismatches seen at the farthest position
 * reached by a failing call.
 */
module FarthestMismatch {
  import opened Wrappers
  import opened Mismatches
  import Utils

  /** A stack frame: consecutive re-entries of one (position, tag) share a frame and count as its depth. */
  datatype Call = Call(position: nat, tag: Option<string>, depth: nat)
  /** A recorded mismatch with the stack it was registered under. */
  datatype Entry = Entry(stack: seq<Call>, mismatch: Mismatch)
  datatype Farthest = Farthest(position: nat, list: seq<Entry>)

  /** Every frame counts at least one activation, and no two adjacent frames are for the same call. */
  ghost predicate Compressed(stack: seq<Call>)
  {
    && (forall i :: 0 <= i < |stack| ==> stack[i].depth >= 1)
    && (forall i :: 0 < i < |stack| ==> (stack[i - 1].position, stack[i - 1].tag) != (stack[i].position, stack[i].tag))
  }

  /** `enter(position:tag:)`: re-entry of the top call deepens its frame, any other call pushes one. */
  function Entered(stack: seq<Call>, position: nat, tag: Option<string>): (s: seq<Call>)
    ensures |s| > 0 && s[|s| - 1].position == position && s[|s| - 1].tag == tag
    ensures |s| == |stack| || |s| == |stack| + 1
    ensures s[..|s| - 1] == stack[..|s| - 1]
  {
    if stack != [] && stack[|stack| - 1].position == position && stack[|stack| - 1].tag == tag then
      stack[|stack| - 1 := Call(position, tag, stack[|stack| - 1].depth + 1)]
    else
      stack + [Call(position, tag, 1)]
  }

  /** `leave()`: the top frame loses one activation, and is popped when it had only one. */
  function Left(stack: seq<Call>): (s: seq<Call>)
    requires stack != []
    ensures |s| == |stack| || |s| == |stack| - 1
  {
    var call := stack[|stack| - 1];
    if call.depth > 1 then stack[|stack| - 1 := Call(call.position, call.tag, call.depth - 1)]
    else stack[..|stack| - 1]
  }

  /** Entering keeps the stack compressed. */
  lemma EnteredCompressed(stack: seq<Call>, position: nat, tag: Option<string>)
    requires Compressed(stack)
    ensures Compressed(Entered(stack, position, tag))
  {
  }

  /** Leaving keeps the stack compressed. */
  lemma LeftCompressed(stack: seq<Call>)
    requires stack != [] && Compressed(stack)
    ensures Compressed(Left(stack))
  {
  }

  /** `leave` undoes `enter`: on a compressed stack the pair changes nothing. */
  lemma LeftEntered(stack: seq<Call>, position: nat, tag: Option<string>)
    requires Compressed(stack)
    ensures Left(Entered(stack, position, tag)) == stack
  {
    var entered := Entered(stack, position, tag);
    if stack != [] && stack[|stack| - 1].position == position && stack[|stack| - 1].tag == tag {
      assert entered[|entered| - 1].depth > 1;
    } else {
      assert entered[..|entered| - 1] == stack;
    }
  }

  /** No two adjacent entries of the list carry the same mismatch. */
  ghost predicate Deduplicated(list: seq<Entry>)
  {
    forall i :: 0 < i < |list| ==> list[i - 1].mismatch != list[i].mismatch
  }

  /**
   * `register(_:)`: a mismatch of the top call at a position past the
   * recorded one (or with none recorded) starts a new list; at the recorded
   * position it is appended unless it repeats the last one; a nearer one is
   * ignored.
   */
  function Registered(farthest: Option<Farthest>, stack: seq<Call>, mismatch: Mismatch): (r: Option<Farthest>)
    requires stack != []
    ensures r.Some?
  {
    var call := stack[|stack| - 1];
    if farthest.None? || farthest.value.position < call.position then
      Some(Farthest(call.position, [Entry(stack, mismatch)]))
    else if farthest.value.position == call.position
         && (farthest.value.list == [] || farthest.value.list[|farthest.value.list| - 1].mismatch != mismatch) then
      Some(Farthest(call.position, farthest.value.list + [Entry(stack, mismatch)]))
    else
      farthest
  }

  /**
   * The recorded position becomes the larger of the old one and the top
   * call's; a nearer mismatch leaves the record alone; at the recorded
   * position the registered mismatch ends up last; the list is never empty
   * once set and never holds adjacent repeats.
   */
  lemma RegisteredProperties(farthest: Option<Farthest>, stack: seq<Call>, mismatch: Mismatch)
    requires stack != []
    requires farthest.Some? ==> farthest.value.list != [] && Deduplicated(farthest.value.list)
    ensures var r := Registered(farthest, stack, mismatch);
            var call := stack[|stack| - 1];
            && r.value.position == (if farthest.Some? && farthest.value.position > call.position then farthest.value.position else call.position)
            && (farthest.Some? && farthest.value.position > call.position ==> r == farthest)
            && (r.value.position == call.position ==> r.value.list[|r.value.list| - 1].mismatch == mismatch)
            && r.value.list != []
            && Deduplicated(r.value.list)
  {
  }

  /** A registration at a position past the recorded one replaces the list by a single entry. */
  lemma RegisteredFarther(farthest: Option<Farthest>, stack: seq<Call>, mismatch: Mismatch)
    requires stack != []
    requires farthest.None? || farthest.value.position < stack[|stack| - 1].position
    ensures Registered(farthest, stack, mismatch) == Some(Farthest(stack[|stack| - 1].position, [Entry(stack, mismatch)]))
  {
  }

  /** One frame as `description(of:)` prints it: offset, tag and, past one activation, the depth. */
  function CallDescription(call: Call): string
  {
    Utils.IntToString(call.position) + ":" + Utils.Describe(call.tag)
      + (if call.depth > 1 then "×" + Utils.IntToString(call.depth) else "")
  }

  /** The tagged frames, innermost first. */
  function TaggedReversed(stack: seq<Call>): (r: seq<Call>)
    ensures forall c :: c in r <==> c in stack && c.tag.Some?
  {
    if stack == [] then []
    else
      var rest := TaggedReversed(stack[..|stack| - 1]);
      var last := stack[|stack| - 1];
      assert stack == stack[..|stack| - 1] + [last];
      (if last.tag.Some? then [last] else []) + rest
  }

  /**
   * The order is reversed: the tagged frames of a stack that continues `a`
   * with `b` are those of `b`, innermost first, then those of `a`.
   */
  lemma {:induction false} TaggedReversedConcat(a: seq<Call>, b: seq<Call>)
    ensures TaggedReversed(a + b) == TaggedReversed(b) + TaggedReversed(a)
    decreases |b|
  {
    if b == [] {
      assert a + b == a;
    } else {
      var init := b[..|b| - 1];
      var last := b[|b| - 1];
      assert (a + b)[..|a + b| - 1] == a + init;
      assert (a + b)[|a + b| - 1] == last;
      TaggedReversedConcat(a, init);
      var unit := if last.tag.Some? then [last] else [];
      calc {
        TaggedReversed(a + b);
        unit + TaggedReversed(a + init);
        unit + (TaggedReversed(init) + TaggedReversed(a));
        (unit + TaggedReversed(init)) + TaggedReversed(a);
        TaggedReversed(b) + TaggedReversed(a);
      }
    }
  }

  /** A single frame is kept exactly when it is tagged. */
  lemma TaggedReversedSingle(call: Call)
    ensures TaggedReversed([call]) == if call.tag.Some? then [call] else []
  {
    assert [call][..0] == [];
  }

  /** `description(of:)`. */
  function StackDescription(stack: seq<Call>): string
  {
    Utils.Join(seq(|TaggedReversed(stack)|, i requires 0 <= i < |TaggedReversed(stack)| => CallDescription(TaggedReversed(stack)[i])), " ◂ ")
  }

  /** `report()`: nil until a mismatch is registered, then the recorded position and every entry. */
  function Report(farthest: Option<Farthest>): (r: Option<string>)
    ensures r.None? <==> farthest.None?
  {
    match farthest
    case None => None
    case Some(f) =>
      var entries := seq(|f.list|, i requires 0 <= i < |f.list| =>
                         StackDescription(f.list[i].stack) + "\n" + Description(f.list[i].mismatch));
      Some("Mismatches at position " + Utils.IntToString(f.position) + ":\n\n" + Utils.Join(entries, "\n\n"))
  }

  class FarthestMismatchTracer {
    var stack: seq<Call>
    var farthestMismatch: Option<Farthest>

    ghost predicate Valid()
      reads this
    {
      && Compressed(stack)
      && (farthestMismatch.Some? ==> farthestMismatch.value.list != [] && Deduplicated(farthestMismatch.value.list))
    }

    /** `init(offset:)`; positions are already offsets from the start of the source here. */
    constructor ()
      ensures Valid() && stack == [] && farthestMismatch == None
    {
      stack := [];
      farthestMismatch := None;
    }

    method Enter(position: nat, tag: Option<string>)
      requires Valid()
      modifies this
      ensures Valid()
      ensures stack == Entered(old(stack), position, tag)
      ensures farthestMismatch == old(farthestMismatch)
    {
      EnteredCompressed(stack, position, tag);
      if |stack| > 0 && stack[|stack| - 1].position == position && stack[|stack| - 1].tag == tag {
        var call := stack[|stack| - 1];
        stack := stack[|stack| - 1 := Call(call.position, call.tag, call.depth + 1)];
      } else {
        stack := stack + [Call(position, tag, 1)];
      }
    }

    method Leave()
      requires Valid() && stack != []
      modifies this
      ensures Valid()
      ensures stack == Left(old(stack))
      ensures farthestMismatch == old(farthestMismatch)
    {
      LeftCompressed(stack);
      var call := stack[|stack| - 1];
      if call.depth > 1 {
        stack := stack[|stack| - 1 := Call(call.position, call.tag, call.depth - 1)];
      } else {
        stack := stack[..|stack| - 1];
      }
    }

    method Register(mismatch: Mismatch)
      requires Valid() && stack != []
      modifies this
      ensures Valid()
      ensures stack == old(stack)
      ensures farthestMismatch == Registered(old(farthestMismatch), stack, mismatch)
    {
      RegisteredProperties(farthestMismatch, stack, mismatch);
      var call := stack[|stack| - 1];
      if farthestMismatch.None? || farthestMismatch.value.position < call.position {
        farthestMismatch := Some(Farthest(call.position, [Entry(stack, mismatch)]));
      } else {
        var f := farthestMismatch.value;
        if f.position == call.position && (f.list == [] || f.list[|f.list| - 1].mismatch != mismatch) {
          farthestMismatch := Some(Farthest(call.position, f.list + [Entry(stack, mismatch)]));
        }
      }
    }
  }
}
