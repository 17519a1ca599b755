# ParserCore in Dafny

ParserCore is a Swift library of parser combinators with a backtracking
parsing core. A grammar is built from parsers:

- terminals: `end`, `subseq(while:)`, `subseq(pattern)` and element `oneOf`;
- combinators: `maybe`, `many`, `list`, `oneOf`, `map`, `attemptMap`,
  `flatMap` and `mapError`;
- named rules, for grammars that refer to themselves.

A core runs the grammar on a source sequence. It keeps the cursor (the
position), accepts terminal matches, and backtracks whenever a parser fails.
Every `parse` call goes through a chain of tracers:

- a depth limiter, which lets left-recursive rules terminate;
- a memoizer, which caches results by (position, tag);
- a farthest-mismatch tracer, which remembers the mismatches seen at the
  farthest position reached.

The repository holds three generations of the core, and each is modelled in
its own modules:

- **The current engine** (`Sources/ParserCore/Core.swift`, `Tracers/`,
  `Core+Ext/`, `CountLimit.swift`). It is modelled by `CoreEngine`,
  `Tracing`, `DepthLimiting`, `Memoizing`, `FarthestMismatch`,
  `CoreDelegate` and the combinator modules `Elementary`, `Subseq`,
  `Alternatives`, `Arity` and `CountLimits`. Its memoizer stores entries in
  the sorted `IndexDictionary` (`IndexDictionaries`) and orders them by the
  key ordering (`MemoKeys`). The merged copy of the combinators,
  `Core+Ext/Core+Ext.swift`, differs only in its mismatch texts. The core's
  `merged` flag selects those texts.
- **The older `GenericParserCore`** (`ParserCore.swift`, `Memoizer.swift`,
  `DepthLimiter.swift`, `ParserCoreExt.swift`). It is modelled by
  `GenericCore`, `GenericMemoizing` and `GenericDepthLimiting`.
- **The `ParserCore2` prototype** (`Core.swift`, `Tracer.swift`,
  `CoreExt.swift`). It is modelled by `Core2` and `Tracer2`.

`Eithers`, `Results`, `Mismatches` and `Utils` model the value types and
helpers that all three generations share.

Each generation's combinators come from these files:

- `GenericCore`: `empty`, `skip`, `maybe`, `many`, `some`, `list`, `oneOf`
  and the terminals come from `ParserCoreExt.swift`. `map`, `attemptMap`,
  `flatMap`, `mapError` and the parser-returning `GenericParser` initialiser
  (rules) come from `Parser.swift`, which declares them for
  `ParserCoreProtocol`, the protocol of this generation.
- `CoreEngine`: `empty`, the terminals, `maybe`, `many(count:)`, `list` and `oneOf`
  come from `Core+Ext/`. `map`, `attemptMap`, `flatMap`, `mapError` and rules
  are taken from `Parser.swift`, as for `GenericCore`.
- `Core2`: `empty`, `maybe`, `many`, `some`, `list`, `oneOf` and the
  terminals come from `ParserCore2/CoreExt.swift`. Its `list` uses a
  `flatMap`, and its rules need the parser-returning `GenericParser`
  initialiser; both are taken from `Sources/ParserCore/Parser.swift`, since
  `ParserCore2/Parser.swift` has only `init(tag:_:)` with a body.

Every body's contract names the calls of `parse` it makes. Each core keeps a
ghost record of the calls, which only its `Parse` appends to. For each form,
a step predicate says which calls the body made (parser, start, outcome, end),
in which order, and how its result and final cursor follow from them.

Cores are classes whose methods update the cursor and the tracers' state in
place, as the Swift classes do. The mutually recursive `parse` / body
cluster runs on a `fuel` budget. `Run.Stuck` reports that the budget ran out,
or that a rule name is missing. Every `parse` method is proved to do the
following whenever it finishes:

- leave the tracer state balanced: the call stack and the depth counts are
  as before;
- move the cursor only forward;
- restore the cursor on a mismatch;
- on a success, report the range it consumed.

## Model

| member | source | states |
|---|---|---|
| Eithers.Iif | Sources/ParserCore/Either.swift:47-54 | exactly one of the two handlers decides the result, chosen by the case |
| Eithers.Value | Sources/ParserCore/Either.swift:13-15 | present exactly for a right value, and is that value |
| Eithers.Error | Sources/ParserCore/Either.swift:17-19 | present exactly for a left value, and is that value |
| Eithers.Map | Sources/ParserCore/Either.swift:21-23 | a left passes through unchanged; a right is transformed |
| Eithers.FlatMap | Sources/ParserCore/Either.swift:25-27 | a left passes through; a right is replaced by the continuation's result |
| Eithers.MapError | Sources/ParserCore/Either.swift:29-31 | only a left is transformed |
| Eithers.FromOptional | Sources/ParserCore/Either.swift:56-62 | a present value becomes right, an absent one the given left |
| Eithers.FromOptionalValue | Sources/ParserCore/Either.swift:56-62 | `value` of the constructed either gives back the optional |
| Eithers.ValueErrorExclusive | Sources/ParserCore/Either.swift:13-19 | exactly one of `value` and `error` is present |
| Eithers.MapLaws | Sources/ParserCore/Either.swift:21-23 | map with the identity changes nothing; maps compose |
| Eithers.FlatMapLaws | Sources/ParserCore/Either.swift:25-27 | flatMap with `right` is the identity and is associative |
| Eithers.MapIsFlatMap | Sources/ParserCore/Either.swift:21-27 | map equals flatMap with a wrapped transform |
| Eithers.MapCommutesWithMapError | Sources/ParserCore/Either.swift:21-31 | transforming the right and the left commute |
| Results.Iif | Sources/ParserCore/Result.swift:45-52 | the success or the failure handler decides, by case |
| Results.Value | Sources/ParserCore/Result.swift:13-15 | present exactly for a success, and is its value |
| Results.Error | Sources/ParserCore/Result.swift:17-19 | present exactly for a failure, and is its error |
| Results.Map | Sources/ParserCore/Result.swift:21-23 | a failure passes through; a success is transformed |
| Results.FlatMap | Sources/ParserCore/Result.swift:25-27 | a failure passes through; a success is replaced by the continuation's result |
| Results.FromOptional | Sources/ParserCore/Result.swift:54-60 | a present value becomes a success, an absent one the given failure |
| Results.FromOptionalValue | Sources/ParserCore/Result.swift:54-60 | `value` of the constructed result gives back the optional |
| Results.MapLaws | Sources/ParserCore/Result.swift:21-23 | identity and composition laws of map |
| Results.FlatMapLaws | Sources/ParserCore/Result.swift:25-27 | unit and associativity laws of flatMap |
| Mismatches.Description | Sources/ParserCore/Mismatch.swift:11 | the message, or "No match" when there is none |
| Mismatches.WithTag | Sources/ParserCore/Mismatch.swift:30-41 | the four tag/expectation cases give "Cannot parse T: expected X", "Cannot parse T", "Expected X" or no message |
| Mismatches.Expected | Sources/ParserCore/Mismatch.swift:30-41 | an expectation without a tag reads "Expected X" |
| Mismatches.DescriptionNonEmpty | Sources/ParserCore/Mismatch.swift:11 | a description is never empty, whether or not there is a message |
| Mismatches.WithTagInjective | Sources/ParserCore/Mismatch.swift:30-41 | under one tag, different expectations give different mismatches |
| Utils.NonEmpty | Sources/ParserCore/Utils.swift:3 | nil exactly for the empty string, otherwise the string |
| Utils.Describe | Sources/ParserCore/Utils.swift:6-8 | the tag itself, or "nil" |
| Utils.Id | Sources/ParserCore/Utils.swift:10-12 | returns its argument |
| Utils.Const | Sources/ParserCore/Utils.swift:14-16 | the function returns the constant on every argument |
| Utils.Const2 | Sources/ParserCore/Utils.swift:18-20 | the two-argument function returns the constant on every pair |
| Utils.SafeAt | Sources/ParserCore/Utils.swift:22-26 | the element exactly when the index is in bounds |
| Utils.Each | Sources/ParserCore/Core+Ext/Core+Alternatives.swift:45-47 | same length, each item transformed in place |
| Utils.JoinEmpty | Sources/ParserCore/Tracers/Tracing.swift:37-41 | a join is empty exactly when there are no parts or one empty part |
| CountLimits.Exactly | Sources/ParserCore/CountLimit.swift:6-8 | accepts exactly the given count and extends only below it |
| CountLimits.Max | Sources/ParserCore/CountLimit.swift:1-4 | the upper bound, absent exactly for `atLeast` |
| CountLimits.StopIsFinal | Sources/ParserCore/CountLimit.swift:10-31 | once a limit stops extending, no larger count is accepted |
| CountLimits.ExtendsDownward | Sources/ParserCore/CountLimit.swift:10-19 | a limit that extends past a count extends past every smaller count |
| CountLimits.ExtendsBoundsCount | Sources/ParserCore/CountLimit.swift:10-19 | taking an item only while the limit extends never exceeds its upper bound |
| MemoKeys.StrLessIrreflexive | Sources/ParserCore2/Tracers/Memoizer.swift:89-94 | string ordering is irreflexive |
| MemoKeys.StrLessTransitive | Sources/ParserCore2/Tracers/Memoizer.swift:89-94 | string ordering is transitive |
| MemoKeys.StrLessTotal | Sources/ParserCore2/Tracers/Memoizer.swift:89-94 | of two different strings, one is smaller |
| MemoKeys.LessIrreflexive | Sources/ParserCore2/Tracers/Memoizer.swift:89-94 | the key order (position, then tag) is irreflexive |
| MemoKeys.LessTransitive | Sources/ParserCore2/Tracers/Memoizer.swift:89-94 | the key order is transitive |
| MemoKeys.LessTrichotomy | Sources/ParserCore2/Tracers/Memoizer.swift:81-94 | two keys are equal or exactly one is smaller, so the order is strict and total |
| IndexDictionaries.Find | Sources/ParserCore2/IndexDictionary.swift:16-19 | a found value belongs to an item with the key; absent means no item has the key |
| IndexDictionaries.FindSorted | Sources/ParserCore2/IndexDictionary.swift:16-19 | in a sorted dictionary every stored item is found under its key |
| IndexDictionaries.FindSortedIff | Sources/ParserCore2/IndexDictionary.swift:16-19 | in a sorted dictionary, lookup gives v exactly when (key, v) is stored |
| IndexDictionaries.IndexDictionary.IntendedIndex | Sources/ParserCore2/IndexDictionary.swift:35-50 | the binary search returns the insertion point: every key before it is smaller, none after it is |
| IndexDictionaries.IndexDictionary.Get | Sources/ParserCore2/IndexDictionary.swift:16-19 | the subscript getter returns the lookup of the key |
| IndexDictionaries.IndexDictionary.Set | Sources/ParserCore2/IndexDictionary.swift:21-33 | setting a value or nil keeps the items sorted and changes the lookup of that key only |
| IndexDictionaries.InsertSorted | Sources/ParserCore2/IndexDictionary.swift:21-33 | inserting at the intended index keeps the items sorted |
| IndexDictionaries.RemoveSorted | Sources/ParserCore2/IndexDictionary.swift:21-33 | removing an item keeps the items sorted |
| IndexDictionaries.SetFrame | Sources/ParserCore2/IndexDictionary.swift:21-33 | the updated array keeps every other key's lookup |
| IndexDictionaries.FindSame | Sources/ParserCore2/IndexDictionary.swift:16-19 | two sorted arrays with the same items for a key give the same lookup |
| CoreDelegate.ShouldUpdateCases | Sources/ParserCore/Core.swift:91-99 | a mismatch never replaces; a match replaces a mismatch, and replaces a match exactly when it ends farther |
| CoreDelegate.ShouldUpdateStrict | Sources/ParserCore/Core.swift:91-99 | the replacement relation is asymmetric, so a value never replaces itself |
| CoreDelegate.ShouldUpdateTransitive | Sources/ParserCore/Core.swift:91-99 | the replacement relation is transitive, so stored matches only grow longer |
| CoreDelegate.ReplayPosition | Sources/ParserCore/Core.swift:101-105 | a cached match moves the cursor to its upper bound; a cached mismatch leaves it |
| Tracing.CombineUnit | Sources/ParserCore/Tracers/Tracing.swift:12-14 | the empty tracer is a unit for `combine` on both sides |
| Tracing.CombineAssociative | Sources/ParserCore/Tracers/Tracing.swift:31-35 | composite tracing does not depend on grouping |
| Tracing.ChainOrder | Sources/ParserCore/Core.swift:34-49 | the core's chain runs the depth limiter outermost, then the memoizer, then the farthest-mismatch tracer |
| Tracing.Present | Sources/ParserCore/Tracers/Tracing.swift:37-41 | empty exactly when no report is present |
| Tracing.PresentPair | Sources/ParserCore/Tracers/Tracing.swift:37-41 | the present reports of two, in order |
| Tracing.JoinPair | Sources/ParserCore/Tracers/Tracing.swift:37-41 | two parts are joined with the separator between them |
| Tracing.CompositeReportAsWritten | Sources/ParserCore/Tracers/Tracing.swift:37-41 | as written: always a report, the present ones joined by a blank line |
| Tracing.CompositeReportAsWrittenNeverNil | Sources/ParserCore/Tracers/Tracing.swift:37-41 | two silent tracers make a composite whose report is "" rather than nil |
| Tracing.ChainReportAsWritten | Sources/ParserCore/Core.swift:34-49 | the core's composite report is "" without mismatches, and has a leading blank line otherwise |
| Tracing.CompositeReport | Sources/ParserCore/Tracers/Tracing.swift:37-41 | corrected: nil exactly when both are nil, else the present one or both joined |
| Tracing.CompositeReportAgrees | Sources/ParserCore/Tracers/Tracing.swift:37-41 | the corrected composite equals the written one whenever some report is present |
| Tracing.ChainReport | Sources/ParserCore/Core.swift:34-49 | with the corrected composite, the chain reports exactly the farthest-mismatch report |
| DepthLimiting.MapAt | Sources/ParserCore/Tracers/DepthLimiter.swift:17 | the depth map at a position, empty if none |
| DepthLimiting.DepthOf | Sources/ParserCore/Tracers/DepthLimiter.swift:18 | the tag's depth at the position, zero if unrecorded |
| DepthLimiting.EnteredDepths | Sources/ParserCore/Tracers/DepthLimiter.swift:19-21 | entering raises that (position, tag) depth by one and no other |
| DepthLimiting.EnterLeaveRestores | Sources/ParserCore/Tracers/DepthLimiter.swift:19-25 | restoring after the body gives every (position, tag) its depth from before the call |
| DepthLimiting.DepthLimiter.Enter | Sources/ParserCore/Tracers/DepthLimiter.swift:13-21 | a tagged call is admitted exactly when its depth is at most the tail length, and then its depth rises by one |
| DepthLimiting.DepthLimiter.Leave | Sources/ParserCore/Tracers/DepthLimiter.swift:23-25 | writes back the prior depth of the tag at the position |
| Memoizing.Pack | Sources/ParserCore2/Tracers/Memoizer.swift:47-52 | a mismatch is kept; a match keeps its range with the symbol erased |
| Memoizing.Unpack | Sources/ParserCore2/Tracers/Memoizer.swift:54-65 | a mismatch is kept; a match comes back when the cast succeeds, else the type-mismatch failure |
| Memoizing.UnpackPack | Sources/ParserCore2/Tracers/Memoizer.swift:47-65 | unpacking a packed result with a matching cast gives it back |
| Memoizing.ShouldUpdateDelegation | Sources/ParserCore2/Tracers/Memoizer.swift:67-69 | without a delegate nothing replaces a cached value; with one, the core decides |
| Memoizing.Memoizer.Lookup | Sources/ParserCore2/Tracers/Memoizer.swift:27-30 | returns the cached entry for (position, tag) |
| Memoizing.Memoizer.Store | Sources/ParserCore2/Tracers/Memoizer.swift:32-42 | an entry stored meanwhile is replayed unless the delegate prefers the candidate; otherwise the candidate is stored, and other keys are untouched |
| FarthestMismatch.Entered | Sources/ParserCore/Tracers/FarthestMismatchTracer.swift:29-35 | the top call is at the position and tag; the calls below it are unchanged |
| FarthestMismatch.Left | Sources/ParserCore/Tracers/FarthestMismatchTracer.swift:37-44 | the stack keeps its length or loses its top call |
| FarthestMismatch.EnteredCompressed | Sources/ParserCore/Tracers/FarthestMismatchTracer.swift:29-35 | entering keeps the stack compressed: positive depths, no repeated neighbour |
| FarthestMismatch.LeftCompressed | Sources/ParserCore/Tracers/FarthestMismatchTracer.swift:37-44 | leaving keeps the stack compressed |
| FarthestMismatch.LeftEntered | Sources/ParserCore/Tracers/FarthestMismatchTracer.swift:29-44 | leaving undoes entering, so every call restores the stack |
| FarthestMismatch.Registered | Sources/ParserCore/Tracers/FarthestMismatchTracer.swift:46-56 | after a registration there is always a farthest record |
| FarthestMismatch.RegisteredProperties | Sources/ParserCore/Tracers/FarthestMismatchTracer.swift:46-56 | the recorded position is the larger one; a nearer mismatch is ignored; at the recorded position the mismatch ends up last; the list stays non-empty and free of adjacent repeats |
| FarthestMismatch.RegisteredFarther | Sources/ParserCore/Tracers/FarthestMismatchTracer.swift:46-49 | a farther mismatch starts a new one-entry list |
| FarthestMismatch.TaggedReversed | Sources/ParserCore/Tracers/FarthestMismatchTracer.swift:67-70 | the frames kept are exactly the tagged ones (their order: `TaggedReversedConcat`) |
| FarthestMismatch.TaggedReversedConcat | Sources/ParserCore/Tracers/FarthestMismatchTracer.swift:67-70 | the order is reversed: the frames of a longer stack come first, then those below them |
| FarthestMismatch.TaggedReversedSingle | Sources/ParserCore/Tracers/FarthestMismatchTracer.swift:67-70 | a single frame is kept exactly when it is tagged |
| FarthestMismatch.Report | Sources/ParserCore/Tracers/FarthestMismatchTracer.swift:58-65 | a report exactly when a mismatch was recorded |
| FarthestMismatch.FarthestMismatchTracer.Enter | Sources/ParserCore/Tracers/FarthestMismatchTracer.swift:29-35 | pushes or deepens the top call, keeping the stack compressed |
| FarthestMismatch.FarthestMismatchTracer.Leave | Sources/ParserCore/Tracers/FarthestMismatchTracer.swift:37-44 | lowers or pops the top call |
| FarthestMismatch.FarthestMismatchTracer.Register | Sources/ParserCore/Tracers/FarthestMismatchTracer.swift:46-56 | the record becomes `Registered` of the old one |
| Elementary.EndLength | Sources/ParserCore/Core+Ext/Core+Elementary.swift:7-18 | matches, with length zero, exactly at the end of the source |
| Elementary.EndMismatchMerged | Sources/ParserCore/Core+Ext/Core+Ext.swift:7-18 | the end mismatch reads "Expected end of input" in both copies |
| Subseq.PrefixLength | Sources/ParserCore/Core+Ext/Core+Subseq.swift:3-27 | the longest prefix whose elements hold and that the count limit extends over |
| Subseq.CountPrefix | Sources/ParserCore/Core+Ext/Core+Subseq.swift:10-20 | the counting loop computes that prefix length |
| Subseq.WhileLength | Sources/ParserCore/Core+Ext/Core+Subseq.swift:3-27 | a match exactly when the limit accepts the prefix length, and of that length |
| Subseq.PredicatePrefix | Sources/ParserCore/ParserCoreExt.swift:119 | the longest prefix whose elements all hold |
| Subseq.UnboundedPrefix | Sources/ParserCore/Core+Ext/Core+Subseq.swift:3-27 | with an `atLeast` limit the count never stops the prefix |
| Subseq.DefaultLimitRejectsEmpty | Sources/ParserCore/Core+Ext/Core+Subseq.swift:3-27 | the default `atLeast(1)` matches exactly when the first element holds |
| Subseq.WhileLengthBounded | Sources/ParserCore/Core+Ext/Core+Subseq.swift:3-27 | a bounded limit bounds the match length |
| Subseq.PatternLength | Sources/ParserCore/Core+Ext/Core+Subseq.swift:33-47 | matches exactly when the tail starts with the pattern, and has its length |
| Subseq.WhileMismatch | Sources/ParserCore/Core+Ext/Core+Ext.swift:96-120 | no message untagged, "Cannot parse T" tagged |
| Subseq.PatternMismatch | Sources/ParserCore/Core+Ext/Core+Ext.swift:146-160 | always a message naming the expected pattern, with the tag when there is one |
| Alternatives.ElementLength | Sources/ParserCore/Core+Ext/Core+Alternatives.swift:35-50 | one element, exactly when the first element is an alternative |
| Alternatives.OneOfMismatch | Sources/ParserCore/Core+Ext/Core+Alternatives.swift:9-29 | "Expected" the tag list, or no message when that list is empty |
| Alternatives.OneOfMismatchEmpty | Sources/ParserCore/Core+Ext/Core+Alternatives.swift:9-29 | there is no message exactly for no alternatives, or one with an empty tag |
| Alternatives.ElementsMismatch | Sources/ParserCore/Core+Ext/Core+Alternatives.swift:35-50 | "Expected a or b or ...", the alternatives rendered and joined |
| Alternatives.MergedOneOfMismatch | Sources/ParserCore/Core+Ext/Core+Ext.swift:74-94 | the oneOf tag and, when some alternative is tagged, the list of tags |
| Alternatives.MergedOneOfMismatchSilent | Sources/ParserCore/Core+Ext/Core+Ext.swift:74-94 | no message exactly when neither oneOf nor any alternative is tagged |
| Alternatives.MergedElementsMismatch | Sources/ParserCore/Core+Ext/Core+Ext.swift:126-144 | always a message, with the tag and the joined alternatives |
| Arity.ManyMismatch | Sources/ParserCore/Core+Ext/Core+Arity.swift:25-28 | no message for an untagged item, else "Expected <limit> <item tag>" |
| Arity.MergedManyMismatch | Sources/ParserCore/Core+Ext/Core+Ext.swift:42-45 | no message exactly when neither tag exists; untagged, the same as the split copy |
| CoreEngine.StringCount | Sources/ParserCore/Core.swift:112-114 | the string core measures tails by their UTF-16 count |
| CoreEngine.FollowingItem | Sources/ParserCore/Core+Ext/Core+List.swift:12 | the unit `list` repeats after its first item is an untagged `flatMap` of the separator |
| CoreEngine.ManyStepBounded | Sources/ParserCore/Core+Ext/Core+Arity.swift:11-30 | in every `many` step the items kept never exceed the limit's maximum, and the result is a success exactly when the limit contains their number |
| CoreEngine.Core.constructor | Sources/ParserCore/Core.swift:34-57 | the cursor at 0, empty tracers, tail length from the overestimate, defaulting to the real tail length |
| CoreEngine.Core.Report | Sources/ParserCore/Core.swift:34-49 | corrected: built with the corrected composite, the chain reports exactly when a mismatch was recorded (the written composite always reports, see Findings) |
| CoreEngine.Core.Accept | Sources/ParserCore/Core.swift:59-68 | a match moves the cursor to its upper bound and yields its symbol; none leaves the cursor |
| CoreEngine.Core.WillReturnCached | Sources/ParserCore/Core.swift:101-105 | the cursor moves to a cached match's end |
| CoreEngine.Core.Parse | Sources/ParserCore/Core.swift:70-84 | balanced tracers; a mismatch restores the cursor; a match's range is exactly what was consumed; the call, its start, outcome and end are appended to the calls the enclosing body has made |
| CoreEngine.Core.TraceDepth | Sources/ParserCore/Tracers/DepthLimiter.swift:13-29 | a tagged call deeper than the tail length fails without running; otherwise every depth is restored |
| CoreEngine.Core.TraceMemo | Sources/ParserCore2/Tracers/Memoizer.swift:23-43 | a cache hit is returned and the cursor replayed without running the body, the cache unchanged; on a miss, what a tagged call returns is what the cache holds for its (position, tag) afterwards |
| CoreEngine.Core.TraceFarthest | Sources/ParserCore/Tracers/FarthestMismatchTracer.swift:15-27 | a mismatch is registered against the stack of the call; the stack is restored |
| CoreEngine.Core.RunBody | Sources/ParserCore/Core.swift:73-76 | the symbol is wrapped into the range the body consumed, and the body's calls, result and cursor satisfy the step of the parser's form |
| CoreEngine.Core.Body | Sources/ParserCore/Parser.swift:55-57 | for every form, the calls of `parse` the body made, its result and the cursor satisfy that form's step; `empty` succeeds with no call and no movement |
| CoreEngine.Core.EndBody | Sources/ParserCore/Core+Ext/Core+Elementary.swift:7-18 | no call; succeeds, without moving, exactly at the end of the source, else the end mismatch |
| CoreEngine.Core.WhileBody | Sources/ParserCore/Core+Ext/Core+Subseq.swift:3-27 | no call; consumes the limited predicate prefix exactly when the limit accepts its length, else fails in place with the tagged mismatch |
| CoreEngine.Core.PatternBody | Sources/ParserCore/Core+Ext/Core+Subseq.swift:33-47 | no call; consumes the pattern exactly when the tail starts with it, else fails in place with the pattern mismatch |
| CoreEngine.Core.ElementBody | Sources/ParserCore/Core+Ext/Core+Alternatives.swift:35-50 | no call; consumes one element exactly when it is an alternative, else fails in place with the alternatives mismatch |
| CoreEngine.Core.MaybeBody | Sources/ParserCore/Core+Ext/Core+Arity.swift:3-9 | exactly one call of the inner parser, from the start; a success holding its symbol or none, the cursor where that call left it |
| CoreEngine.Core.ManyBody | Sources/ParserCore/Core+Ext/Core+Arity.swift:11-30 | calls of the inner parser, each from where the last ended, while the limit extends past the items so far and until one fails; the items exactly when the limit contains their number, else the many mismatch |
| CoreEngine.Core.ListBody | Sources/ParserCore/Core+Ext/Core+List.swift:4-19 | one call of the item; if it fails, no items and the cursor unmoved; else calls of the `separator.flatMap(const(item))` unit, chained, until one fails, and the first item followed by theirs |
| CoreEngine.Core.OneOfBody | Sources/ParserCore/Core+Ext/Core+Alternatives.swift:9-29 | the candidates are called in order, each from the start, until the first success, which is the result; after all fail, the cursor unmoved and the mismatch naming their tags |
| CoreEngine.Core.MapBody | Sources/ParserCore/Parser.swift:14-19 | exactly one call of the inner parser; its outcome with the transform applied to a success |
| CoreEngine.Core.AttemptMapBody | Sources/ParserCore/Parser.swift:21-26 | exactly one call of the inner parser; a failure passes through, a success is replaced by the attempt's outcome |
| CoreEngine.Core.FlatMapBody | Sources/ParserCore/Parser.swift:28-38 | one call of the inner parser, whose failure is the result; after a success, one call of the parser the continuation chooses, from where the first ended, whose outcome is the result |
| CoreEngine.Core.MapErrorBody | Sources/ParserCore/Parser.swift:40-45 | exactly one call of the inner parser; only a mismatch is transformed |
| CoreEngine.Core.RuleBody | Sources/ParserCore/Parser.swift:69-74 | exactly one call of the parser the rule names, whose outcome is the result |
| GenericCore.KeyOf | Sources/ParserCore/ParserCore.swift:41 | a key exactly for a tagged parser, holding the offset and tag |
| GenericCore.Tagged | Sources/ParserCore/ParserCore.swift:62-67 | the trace lists exactly the tagged frames |
| GenericCore.DepthCutOff | Sources/ParserCore/ParserCore.swift:77 | the message is the trace followed by " Depth cut-off" |
| GenericCore.LongerMatchCases | Sources/ParserCore/ParserCore.swift:81-89 | a failure never replaces; a match replaces a failure or a shorter match; the relation is asymmetric |
| GenericCore.ReplayPositionAsWritten | Sources/ParserCore/ParserCore.swift:90-96 | as written: the replayed cursor is the top frame's start plus the cached length |
| GenericCore.ReplayPosition | Sources/ParserCore/ParserCore.swift:90-96 | corrected: the cursor is the start of the call being memoized plus the cached length |
| GenericCore.ReplayPositionAgreement | Sources/ParserCore/ParserCore.swift:40-44 | the two agree exactly when the top frame starts where the memoized call starts |
| GenericCore.ReplayFromEnclosingFrame | Sources/ParserCore/ParserCore.swift:90-96 | a concrete replay where the written version puts the cursor at 1 instead of 2 |
| GenericCore.GenericParserCore.constructor | Sources/ParserCore/ParserCore.swift:23-26 | the cursor at 0, empty stack, cache and depth map; longer matches replace cached ones |
| GenericCore.GenericParserCore.Accept | Sources/ParserCore/ParserCore.swift:28-35 | a match advances the cursor by its length and yields its symbol |
| GenericCore.GenericParserCore.WillReturnFromCache | Sources/ParserCore/ParserCore.swift:90-96 | the cursor is replayed to the cached match's end |
| GenericCore.GenericParserCore.Parse | Sources/ParserCore/ParserCore.swift:37-58 | balanced stack and depths; a failure restores the cursor; a success advances it by the match length; the call is appended to the calls the enclosing body has made |
| GenericCore.GenericParserCore.Wrap | Sources/ParserCore/ParserCore.swift:69-78 | deeper than the remaining length fails with the trace and " Depth cut-off" |
| GenericCore.GenericParserCore.Memoize | Sources/ParserCore/Memoizer.swift:15-30 | a hit is returned unchanged; otherwise the result ends up in the cache |
| GenericCore.GenericParserCore.Closure | Sources/ParserCore/ParserCore.swift:42-50 | pushes a frame for the call, runs the body and pops it; the body's calls, result and cursor satisfy the step of the parser's form |
| GenericCore.GenericParserCore.Body | Sources/ParserCore/Parser.swift:55-57 | for every form, the calls of `parse` the body made, its result and the cursor satisfy that form's step; `empty` succeeds with no call and no movement |
| GenericCore.GenericParserCore.SkipBody | Sources/ParserCore/ParserCoreExt.swift:11-18 | exactly one call of the inner parser; always a success with no symbol, the cursor where that call left it |
| GenericCore.GenericParserCore.MaybeBody | Sources/ParserCore/ParserCoreExt.swift:20-32 | exactly one call of the inner parser; a success holding its symbol or none |
| GenericCore.GenericParserCore.Repeat | Sources/ParserCore/ParserCoreExt.swift:38-42 | calls of the inner parser, each from where the last ended, until one fails; the symbols of the successful calls extend those already found |
| GenericCore.GenericParserCore.ManyBody | Sources/ParserCore/ParserCoreExt.swift:34-44 | calls of the inner parser, chained from the start, until one fails; a success holding the symbols of all but that last call |
| GenericCore.GenericParserCore.SomeBody | Sources/ParserCore/ParserCoreExt.swift:46-59 | as `many`, except that a failing first call's failure is the result |
| GenericCore.GenericParserCore.ListBody | Sources/ParserCore/ParserCoreExt.swift:61-78 | one call of the item; if it fails, no items and the cursor unmoved; else separator and item calls in turn until one fails, a separator whose item fails staying consumed; the first item followed by those of the complete pairs |
| GenericCore.GenericParserCore.Pairs | Sources/ParserCore/ParserCoreExt.swift:68-73 | the calls it makes alternate separator and item, chained from the cursor, until one fails; the items of the complete pairs extend those already found |
| GenericCore.GenericParserCore.Turn | Sources/ParserCore/ParserCoreExt.swift:69-70 | a separator call and, only when it matched, an item call from where it ended; the item exactly when both matched |
| GenericCore.GenericParserCore.OneOfBody | Sources/ParserCore/ParserCoreExt.swift:86-98 | the candidates are called in order, each from the start, until the first success, which is the result; after all fail, the cursor unmoved and "One of T is expected" |
| GenericCore.GenericParserCore.EndBody | Sources/ParserCore/ParserCoreExt.swift:103-111 | no call; succeeds, without moving, exactly at the end |
| GenericCore.GenericParserCore.WhileBody | Sources/ParserCore/ParserCoreExt.swift:113-129 | no call; consumes the predicate prefix exactly when it is not empty |
| GenericCore.GenericParserCore.PatternBody | Sources/ParserCore/ParserCoreExt.swift:135-146 | no call; consumes the pattern exactly when the tail starts with it |
| GenericCore.GenericParserCore.MapBody | Sources/ParserCore/Parser.swift:14-19 | exactly one call of the inner parser; its outcome with the transform applied to a success |
| GenericCore.GenericParserCore.AttemptMapBody | Sources/ParserCore/Parser.swift:21-26 | exactly one call of the inner parser; a failure passes through, a success is replaced by the attempt's outcome |
| GenericCore.GenericParserCore.MapErrorBody | Sources/ParserCore/Parser.swift:40-45 | exactly one call of the inner parser; only a failure is transformed |
| GenericCore.GenericParserCore.FlatMapBody | Sources/ParserCore/Parser.swift:28-38 | one call of the inner parser, whose failure is the result; after a success, one call of the parser the continuation chooses, from where the first ended, whose outcome is the result |
| GenericCore.GenericParserCore.RuleBody | Sources/ParserCore/Parser.swift:69-74 | exactly one call of the parser the rule names, whose outcome is the result |
| GenericMemoizing.Memoizer.constructor | Sources/ParserCore/Memoizer.swift:10-13 | an empty cache and the given update policy |
| GenericMemoizing.Memoizer.Lookup | Sources/ParserCore/Memoizer.swift:15-19 | returns the cached value for the key |
| GenericMemoizing.Memoizer.Store | Sources/ParserCore/Memoizer.swift:20-29 | keeps and replays an entry stored meanwhile unless the policy prefers the candidate; other keys are untouched |
| GenericDepthLimiting.DepthOf | Sources/ParserCore/DepthLimiter.swift:6 | the key's depth, zero if unrecorded |
| GenericDepthLimiting.Entered | Sources/ParserCore/DepthLimiter.swift:10 | raises the key's depth by one, no other |
| GenericDepthLimiting.Restored | Sources/ParserCore/DepthLimiter.swift:11 | puts back the depth, removing the entry at zero |
| GenericDepthLimiting.EnterRestore | Sources/ParserCore/DepthLimiter.swift:5-14 | entering then restoring gives back the very same dictionary |
| GenericDepthLimiting.DepthLimiter.Enter | Sources/ParserCore/DepthLimiter.swift:5-10 | refused with nothing changed when the depth exceeds the limit |
| GenericDepthLimiting.DepthLimiter.Leave | Sources/ParserCore/DepthLimiter.swift:11 | the deferred write-back |
| Tracer2.Registered2 | Sources/ParserCore2/Tracer.swift:53-60 | after a registration there is always a farthest record, at a position no nearer than before |
| Tracer2.Registered2Properties | Sources/ParserCore2/Tracer.swift:53-60 | the position is the larger one; nearer is ignored; equal appends exactly this entry; farther restarts |
| Tracer2.RegisteredGenerations | Sources/ParserCore2/Tracer.swift:53-60 | the prototype and the current tracer differ exactly on a repeat of the last mismatch at the recorded position |
| Tracer2.Tracer.Enter | Sources/ParserCore2/Tracer.swift:36-42 | pushes or deepens the top call, keeping the stack compressed |
| Tracer2.Tracer.Leave | Sources/ParserCore2/Tracer.swift:44-51 | lowers or pops the top call |
| Tracer2.Tracer.Register | Sources/ParserCore2/Tracer.swift:53-60 | the record becomes `Registered2` of the old one |
| Tracer2.TracedAsWritten | Sources/ParserCore2/Core.swift:29-52 | as written: the struct tracer is copied in and stored back, so after a call it holds the state from before the call with only the call's own failure registered, the stack as before, and nothing changed by a success |
| Tracer2.AsWrittenKeepsOnlyOutermost | Sources/ParserCore2/Tracer.swift:22-34 | from a fresh tracer, as written, a parse leaves no record after a success and only the outermost call's own mismatch after a failure |
| Tracer2.AsWrittenLosesNestedFailure | Sources/ParserCore2/Core.swift:47-59 | a run where a nested failure at offset 3 stays the farthest with a shared tracer, while the written one reports offset 0 |
| Core2.Core.constructor | Sources/ParserCore2/Core.swift:29-34 | the cursor at 0, an empty tracer and no calls recorded |
| Core2.Core.Accept | Sources/ParserCore2/Core.swift:36-45 | a match moves the cursor to its upper bound and yields its symbol |
| Core2.Core.Parse | Sources/ParserCore2/Core.swift:47-59 | corrected: the tracer is shared with nested calls, so the farthest failure never moves back; balanced stack; a mismatch restores the cursor and is registered against the call's stack; the call is appended to the enclosing body's calls |
| Core2.Core.Body | Sources/ParserCore2/Parser.swift:29-31 | for every form, the calls of `parse` the body made, its result and the cursor satisfy that form's step; `empty` succeeds with no call and no movement |
| Core2.Core.EndBody | Sources/ParserCore2/CoreExt.swift:93-101 | no call; succeeds, without moving, exactly at the end, else the end mismatch |
| Core2.Core.WhileBody | Sources/ParserCore2/CoreExt.swift:107-119 | no call; consumes the predicate prefix exactly when it is not empty, else fails in place with the tagged mismatch |
| Core2.Core.PatternBody | Sources/ParserCore2/CoreExt.swift:127-138 | no call; consumes the pattern exactly when the tail starts with it, else fails in place with the pattern mismatch |
| Core2.Core.MaybeBody | Sources/ParserCore2/CoreExt.swift:9-15 | exactly one call of the inner parser; a success holding its symbol or none |
| Core2.Core.Repeat | Sources/ParserCore2/CoreExt.swift:21-24 | calls of the inner parser, each from where the last ended, until one fails; the symbols of the successful calls extend those already found |
| Core2.Core.ManyBody | Sources/ParserCore2/CoreExt.swift:17-27 | calls of the inner parser, chained from the start, until one fails; a success holding the symbols of all but that last call |
| Core2.Core.SomeBody | Sources/ParserCore2/CoreExt.swift:29-42 | as `many`, except that a failing first call's failure is the result |
| Core2.Core.ListBody | Sources/ParserCore2/CoreExt.swift:44-60 | one call of the item; if it fails, no items and the cursor unmoved; else calls of the `separator.flatMap(const(item))` unit, chained, until one fails, and the first item followed by theirs |
| Core2.FollowingItem | Sources/ParserCore2/CoreExt.swift:52 | the unit `list` repeats after its first item is an untagged `flatMap` of the separator |
| Core2.SomeStepNonEmpty | Sources/ParserCore2/CoreExt.swift:29-42 | a `some` step succeeds exactly when its first call does, and then its items start with that call's symbol |
| Core2.Core.OneOfBody | Sources/ParserCore2/CoreExt.swift:68-88 | the candidates are called in order, each from the start, until the first success, which is the result; after all fail, the cursor unmoved and the mismatch naming the tagged alternatives |
| Core2.Core.FlatMapBody | Sources/ParserCore/Parser.swift:28-38 | one call of the inner parser, whose failure is the result; after a success, one call of the parser the continuation chooses, from where the first ended, whose outcome is the result |
| Core2.Core.RuleBody | Sources/ParserCore/Parser.swift:69-74 | exactly one call of the parser the rule names, whose outcome is the result |

## Left out

- Regular expressions (`RegEx.swift`, `RegExCache.swift`, `Core+RegEx.swift`) and `CharacterSet` matching are not part of this model. Their terminals are covered by the predicate form of `subseq(while:)`.
- The `Any`-typed symbols and their casts: all symbols share one datatype, `Symbol`. The cast-failure branches are reachable only through duplicate tags whose symbol types differ. These are the memoizer's "Cache record type mismatch" and `wrap`'s "Type cast error". `Memoizing.Unpack` models the first with an explicit cast parameter; the core methods never take either branch.
- Text rendering of symbols and patterns (`String(reflecting:)`) is a `rendering` parameter. Report texts are modelled down to the joining of lines.
- Clocks, I/O, printing and concurrency: the library has none in its core, apart from the commented-out trace prints.
- Termination: `many`, `some` and `list` loop forever in Swift on an item that succeeds without consuming. In the model every `parse` cluster runs on a `fuel` budget and returns `Stuck` when the budget is spent. The same `Stuck` covers a rule name missing from the grammar, which Swift cannot express.
- `Either`/`Result` closures that `throw`: Swift rethrows, the model has no exceptions.
- `Mismatch.expected`, `Mismatch(tag:expectation:)` with `.text`/`.object`, `Mismatch(tag:reason: .expected(...))` (Core+Subseq.swift:45) and `Optional.unwrappedDescription` are used by the sources but defined in none of the modelled files; `Mismatch.swift:30` declares only `init(tag:_:)`. `Expected` is taken as `WithTag(None, Some(text))`; `.object` and the `reason: .expected(String(reflecting: pattern))` of `subseq(_ pattern:)` both render the pattern through `rendering`, as `Subseq.PatternMismatch(tag, rendering.reflectSlice(pattern))`; `unwrappedDescription` is taken as `Utils.Describe`.
- Positions: Swift's `Index` values are modelled as integer offsets from the start of the source (for the string core, tail lengths are UTF-16 counts, see `CoreEngine.StringCount`). The header of `FarthestMismatch.Report` therefore shows the offset where `FarthestMismatchTracer.swift:63` prints the raw index (a `String.Index` for a string source); only the stack lines go through `offset(...)` in Swift (line 71).
- `ParserCoreExt.swift` builds results with `Either`'s `.right`/`.left`, while `ParserCore.swift` parses into `Result`. The older generation is modelled on `Results.Result` throughout.
- `ParserCore2`'s `Parser.swift` defines no `flatMap`, although `list` uses one. `Core2.Core.FlatMapBody` gives it the semantics of `Sources/ParserCore/Parser.swift`.
- `ParserCore2/Either.swift`, `Utils.swift`, `Match.swift` and `Pipes.swift` duplicate helpers modelled once in `Eithers` and `Utils`. Pipes are not part of this model.
- `DepthLimiter.reserveCapacity` is a performance hint and is omitted.
- CoreEngine.Core.constructor: the tail-length closure is stated only for positions within the source, which are the only ones the core passes.
- CoreEngine.Core.MapBody, CoreEngine.Core.AttemptMapBody, CoreEngine.Core.FlatMapBody, CoreEngine.Core.MapErrorBody: `Parser.swift` declares these combinators for `ParserCoreProtocol` (Parser.swift:3, 48). The current `Core.swift` builds on a `SomeParser` protocol that nothing under `Sources/ParserCore` defines. The model gives the current core these combinators with the semantics of `Parser.swift`.
- CoreEngine.Core.MapErrorBody, GenericCore.GenericParserCore.MapErrorBody: `mapError` calls `.mapLeft`, which no source file defines. It is taken as `Either.mapError` (Either.swift:29-31), which transforms only a failure.
- MemoKeys.StrLess: tags are compared code point by code point, and two tags are one key exactly when they are the same sequence. Swift's `String` comparison and equality use Unicode canonical equivalence, so two canonically equivalent tags with different encodings share a key in Swift but not in the model.
- Core2.Core.Parse: the class keeps one tracer object that the nested calls share, the evidently intended behaviour. The written struct copy, which drops what the nested calls record, is modelled on values only, by `Tracer2.TracedAsWritten`, and is not run through the `Core2` class.
- CoreEngine.Core.Body: the `Parser.swift` conveniences `GenericParser(tag:body)` returning a parser are modelled by the `Rule` form, by name.

## Findings

| source | as written | input that shows it | evidently intended | confidence | as-written member | corrected member |
|---|---|---|---|---|---|---|
| Sources/ParserCore/ParserCore.swift:90-96 | a cache replay moves the cursor to `stack.last.startPosition` plus the cached length. The memoized call has not pushed its own frame yet (ParserCore.swift:42-44), so `stack.last` is the enclosing call's frame | source "ab"; grammar `oneOf(a.flatMap(b).flatMap(c), a.flatMap(b))` with `b` tagged and `c` failing. The second alternative replays `b` (length 1) inside a frame that starts at 0, so the cursor lands at 1 instead of 2 | the cursor moves to the start of the memoized call plus the cached length | medium, not executed | GenericCore.ReplayPositionAsWritten, GenericCore.ReplayFromEnclosingFrame | GenericCore.ReplayPosition, GenericCore.GenericParserCore.WillReturnFromCache |
| Sources/ParserCore/Tracers/Tracing.swift:37-41 | the composite report always returns the joined string, so it is never nil. In the chain of Core.swift it is "" when there are no mismatches, and starts with a blank line otherwise | any core whose parse recorded no mismatch: the composite of the depth limiter's and memoizer's nil reports is `Some("")` | nil when no tracer reports; otherwise the present reports joined | high, not executed | Tracing.CompositeReportAsWritten, Tracing.CompositeReportAsWrittenNeverNil | Tracing.CompositeReport, Tracing.ChainReport, CoreEngine.Core.Report |
| Sources/ParserCore2/Core.swift:29-52 | the tracer is a struct held in a `lazy var`, and `parse` calls its mutating `trace` (Tracer.swift:22-34). The call works on a copy that is stored back when it returns, replacing everything the nested calls of `parse` stored meanwhile. Nested calls also register against a stack without the enclosing calls | a parse at offset 0 that fails after a parse nested inside it failed at offset 3: the record after the run holds offset 0 and the outer mismatch only | one tracer shared by all calls, so the farthest failure (offset 3) is kept and never moves back | medium, not executed | Tracer2.TracedAsWritten, Tracer2.AsWrittenKeepsOnlyOutermost, Tracer2.AsWrittenLosesNestedFailure | Core2.Core.Parse |
