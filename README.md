# Collection conformance checks and the mutable-collection contract

This project models two parts of the Swift standard library.

- **The collection conformance-test generator** in
  `stdlib/private/StdlibCollectionUnittest/CheckCollectionType.swift`. Three
  tier functions, `addCollectionTests`, `addBidirectionalCollectionTests`
  and `addRandomAccessCollectionTests`, register tests on a `TestSuite`.
  Those tests check a collection against literal fixture tables and probe
  how it reacts to misuse.
- **The index, range-check and get/set contract** that the probes exercise,
  from `stdlib/public/core/MutableCollection.swift`.

The collection under test is a reference collection (module `Reference`). It
is a base sequence of `int` elements plus a window `[startIndex, endIndex)`
over it. Positions are `int`s, and a slice keeps its base's positions. A
collection answers each of the three misuse categories the harness probes in
its own way, given by a `Reactions` value:

- creating an out-of-bounds index;
- the element subscript;
- the range subscript.

Each category either traps (`Traps`, what `expectCrashLater()` waits for) or
reports a recoverable failure (`ReportsFailure`, what `expectFailure { … }`
waits for).

## Modules

- `Outcomes`: `Option` and `Outcome`, the result of one collection operation.
- `MutableCollection`:
  - `Range` and the two `_failEarlyRangeCheck` hooks, whose checks only run
    for random-access traversal;
  - the class `SeqCollection`, which has `startIndex`/`endIndex`,
    `successor(of:)`/`formSuccessor`, the element subscript get and set, and
    the default range-subscript getter;
  - the get/set law.
- `Reference`:
  - the collection under test as a value (`View`), with its operations
    `index(_:stepsFrom:)`, both subscripts, `first`, `last`,
    `prefix(upTo:)`, `prefix(through:)` and `suffix(from:)`;
  - the mutable slice `SubSequence`, a class with `removeFirst()`,
    `removeFirst(_:)`, `popFirst()`, `removeLast()`, `removeLast(_:)` and
    `popLast()`.
- `Fixtures`: the fixture structs, `bounds(in:)`, `isEmpty`, and the five
  literal tables, each with the invariant its entries keep.
- `IndexWalker`: `_allIndices(into:in:)`, written as its `while` loop.
- `Resiliency`:
  - the policy (`CollectionMisuseResiliencyChecks`);
  - the three-way dispatch: not registered, `expectFailure`, or
    `expectCrashLater`;
  - how a probe is judged.
- `Probes`: the two sub-slice mode enums and the position or range each mode
  probes.
- `Cases`:
  - the registered tests as data;
  - the first misuse each probe's body commits;
  - the verdict each test should reach against the reference collection.
- `TestBodies`: the bodies of the semantics tests as methods, each proved to
  pass.
- `ProbeBodies`: the bodies of the misuse probes as methods, each proved to
  reach the expected verdict.
- `Suites`:
  - the tests each tier registers, and the `checksAdded` dedup;
  - the `TestSuite` and `ChecksAdded` classes whose methods register tests;
  - the theorem that ties the resiliency policy to the collection's behaviour:
    with out-of-bounds offsets of at least 1, no registered test fails exactly
    when every registered probe waits for the reaction the collection gives.

## Behaviour kept as written

- The `SubSequence.subscript(_: Range)` probes are registered when
  `subscriptRangeOnOutOfBoundsRangesBehavior` is not `.none`. However, they
  choose between `expectCrashLater` and `expectFailure` from
  `subscriptOnOutOfBoundsIndicesBehavior`. `Suites.PolicyFits` states the
  resulting condition. `Suites.SkippingElementProbesMisleadsRangeProbes`
  exhibits a policy under which a range probe fails against a collection that
  traps on every misuse.
- The top-level `subscript(_: Index)` and `subscript(_: Range)` out-of-bounds
  probes first create the out-of-bounds index, and with an offset of 1 or
  more that creation is their first misuse. A trap there ends the body. A
  reported failure does not: the body goes on to read through the stepped
  position. Inside `expectFailure` that read must not trap, so such a probe
  passes only when the collection reports on both the creation and the read.
- The `removeNegative` and `removeTooMany` tests slice an empty window of a
  2-element collection.
- The dedup key is the tier function's own name.
- In-range sub-slice endpoints are drawn from `base.indices`, so a sub-slice
  ending at the base's `endIndex` is never checked.

## Model

All CheckCollectionType.swift paths are under `stdlib/private/StdlibCollectionUnittest/`. All MutableCollection.swift paths are under `stdlib/public/core/`.

| member | source | states |
|---|---|---|
| MutableCollection.MakeRange | stdlib/private/StdlibCollectionUnittest/CheckCollectionType.swift:24-28 | `lower..<upper` returns the range exactly when `lower <= upper`, and traps otherwise |
| MutableCollection.FailEarlyRangeCheckIndex | stdlib/public/core/MutableCollection.swift:67-83 | the index check returns or traps; it is a no-op for forward and bidirectional indices, and when it returns after checking, `bounds` contains the index |
| MutableCollection.FailEarlyRangeCheckRange | stdlib/public/core/MutableCollection.swift:85-106 | the range check returns or traps; it is a no-op for forward and bidirectional indices, and when it returns after checking well-formed ranges, `range` lies inside `bounds` |
| MutableCollection.IndexCheckRejectsOutside | stdlib/public/core/MutableCollection.swift:67-83 | the index check traps exactly for random-access indices outside `bounds`, and `bounds.upperBound` itself is rejected; it never reports a recoverable failure |
| MutableCollection.RangeCheckIsContainment | stdlib/public/core/MutableCollection.swift:85-106 | for well-formed ranges, the range check traps exactly for random-access indices when `range` is not inside the closed interval of `bounds` |
| MutableCollection.EmptyRangeAtEndPassesRangeCheckOnly | stdlib/public/core/MutableCollection.swift:67-106 | the empty range at `bounds.upperBound` passes the range check, but that position fails the index check |
| MutableCollection.SeqCollection.Successor | stdlib/public/core/MutableCollection.swift:108-113 | `successor(of:)` is defined for valid indices other than `endIndex`; it returns the next valid index, and no valid index lies between the two |
| MutableCollection.SeqCollection.FormSuccessor | stdlib/public/core/MutableCollection.swift:115 | `formSuccessor` advances the index to `successor(of:)` |
| MutableCollection.SeqCollection.AdvancedIsOffset | stdlib/public/core/MutableCollection.swift:40-47 | `n` applications of `successor(of:)` from `i` reach `i + n` |
| MutableCollection.SeqCollection.EndReachableFromStart | stdlib/public/core/MutableCollection.swift:40-47 | `endIndex`, and every valid index, is reachable from `startIndex` by repeated `successor(of:)` |
| MutableCollection.SeqCollection.EmptyIffStartIsEnd | stdlib/public/core/MutableCollection.swift:33-38 | the collection is empty exactly when `startIndex == endIndex` |
| MutableCollection.SeqCollection.Set | stdlib/public/core/MutableCollection.swift:139-145 | the setter needs a valid non-end position; it changes that one element and keeps `startIndex` and `endIndex` |
| MutableCollection.SeqCollection.Get | stdlib/public/core/MutableCollection.swift:139-145 | the getter needs a valid non-end position and returns one of the collection's elements; `AssignThenRead` pins which |
| MutableCollection.SeqCollection.Slice | stdlib/public/core/MutableCollection.swift:182-186 | the default range getter never reports; with range checks it returns exactly when `bounds` lies in `startIndex...endIndex`, and the slice shares the storage, has exactly `bounds` and reads each element as the collection does; without range checks it always returns |
| MutableCollection.AssignThenRead | stdlib/public/core/MutableCollection.swift:119-131 | `a[i] = x; let y = a[i]` gives `y == x` |
| Reference.View.IndexOffsetBy | stdlib/private/StdlibCollectionUnittest/CheckCollectionType.swift:441-452 | `index(n, stepsFrom: i)` returns `i + n` exactly when both positions lie in `[startIndex, endIndex]`; otherwise it is the collection's index-creation misuse |
| Reference.View.Successor | stdlib/public/core/MutableCollection.swift:108-113 | the successor of a non-end position is the position one step further |
| Reference.View.Subscript | stdlib/public/core/MutableCollection.swift:139-145 | reading returns the element exactly for positions in `startIndex..<endIndex`; otherwise it is the element-subscript misuse |
| Reference.View.SubscriptRange | stdlib/public/core/MutableCollection.swift:182-186 | slicing returns exactly for ranges inside the window; the slice shares the base and positions and holds the matching elements; otherwise it is the range-subscript misuse |
| Reference.View.Indices | stdlib/private/StdlibCollectionUnittest/CheckCollectionType.swift:826-835 | `indices` spans exactly `count` positions, and a position is in it exactly when the subscript returns there |
| Reference.View.First | stdlib/private/StdlibCollectionUnittest/CheckCollectionType.swift:807-820 | `first` is nil exactly when the collection is empty, and otherwise is its first element |
| Reference.View.Last | stdlib/private/StdlibCollectionUnittest/CheckCollectionType.swift:1160-1173 | `last` is nil exactly when the collection is empty, and otherwise is its last element |
| Reference.View.PrefixUpTo | stdlib/private/StdlibCollectionUnittest/CheckCollectionType.swift:930-938 | `prefix(upTo:)` returns exactly for positions in `[startIndex, endIndex]`, holding the elements before that position |
| Reference.View.PrefixThrough | stdlib/private/StdlibCollectionUnittest/CheckCollectionType.swift:916-924 | `prefix(through:)` returns exactly for element positions, holding the elements up to and including it |
| Reference.View.SuffixFrom | stdlib/private/StdlibCollectionUnittest/CheckCollectionType.swift:944-952 | `suffix(from:)` returns exactly for positions in `[startIndex, endIndex]`, holding the elements from it on |
| Reference.View.ReadAll | stdlib/private/StdlibCollectionUnittest/CheckCollectionType.swift:975 | one read per position, in order: a read returns exactly for a position inside the view, holding the element there, and is otherwise the subscript's misuse; reading every position from `startIndex` in order gives back exactly the view's elements |
| Reference.Make | stdlib/private/StdlibCollectionUnittest/CheckCollectionType.swift:406-408 | `makeWrappedCollection` yields the full window over exactly the given elements, starting at 0 |
| Reference.MakeAgreesWithSeqCollection | stdlib/public/core/MutableCollection.swift:182-186 | the reference collection agrees with a random-access `SeqCollection` on its ends, its element reads, and when and what the range subscript returns |
| Reference.SubSequence.RemoveFirst | stdlib/private/StdlibCollectionUnittest/CheckCollectionType.swift:958-992 | `removeFirst()` traps exactly on an empty slice; otherwise it returns the first element and the slice keeps the rest, with its end unchanged |
| Reference.SubSequence.RemoveFirstN | stdlib/private/StdlibCollectionUnittest/CheckCollectionType.swift:998-1047 | `removeFirst(n)` traps exactly when `n < 0` or `n > count`; otherwise the slice keeps the elements after the first `n` |
| Reference.SubSequence.PopFirst | stdlib/private/StdlibCollectionUnittest/CheckCollectionType.swift:1053-1087 | `popFirst()` is nil exactly on an empty slice, without trapping; otherwise it acts as `removeFirst()` |
| Reference.SubSequence.RemoveLast | stdlib/private/StdlibCollectionUnittest/CheckCollectionType.swift:1179-1217 | `removeLast()` traps exactly on an empty slice; otherwise it returns the last element and the slice keeps the rest, with its start unchanged |
| Reference.SubSequence.RemoveLastN | stdlib/private/StdlibCollectionUnittest/CheckCollectionType.swift:1223-1272 | `removeLast(n)` traps exactly when `n < 0` or `n > count`; otherwise the slice drops the last `n` elements |
| Reference.SubSequence.PopLast | stdlib/private/StdlibCollectionUnittest/CheckCollectionType.swift:1278-1316 | `popLast()` is nil exactly on an empty slice; otherwise it acts as `removeLast()` |
| Reference.SurvivingPositionsReadTheSame | stdlib/private/StdlibCollectionUnittest/CheckCollectionType.swift:973-978 | after narrowing a slice from either end, every position still inside it reads what it read before, so removal does not invalidate indices |
| Fixtures.SubscriptRangeTestsAsWritten | stdlib/private/StdlibCollectionUnittest/CheckCollectionType.swift:111-202 | the table as written has 15 entries; every entry except the one at index 13 keeps its invariant |
| Fixtures.AsWrittenEntryIsInconsistent | stdlib/private/StdlibCollectionUnittest/CheckCollectionType.swift:192-196 | the entry at index 13 breaks its invariant: its bounds select `[4040]`, not `[3030]` |
| Fixtures.SubscriptRangeTests | stdlib/private/StdlibCollectionUnittest/CheckCollectionType.swift:111-202 | each corrected entry has bounds inside its collection, `expected == collection[lower..upper]` and `count == |collection|` |
| Fixtures.CorrectionOnlyChangesExpected | stdlib/private/StdlibCollectionUnittest/CheckCollectionType.swift:111-202 | the correction keeps every collection, bound and count, and changes only `expected` of entry 13 |
| Fixtures.PrefixUpToTests | stdlib/private/StdlibCollectionUnittest/CheckCollectionType.swift:204-220 | every entry expects `collection[..end]`, with `0 <= end <= |collection|` |
| Fixtures.PrefixThroughTests | stdlib/private/StdlibCollectionUnittest/CheckCollectionType.swift:222-238 | every entry expects `collection[..position + 1]`, with `position` an element position |
| Fixtures.SuffixFromTests | stdlib/private/StdlibCollectionUnittest/CheckCollectionType.swift:240-261 | every entry expects `collection[start..]`, with `0 <= start <= |collection|` |
| Fixtures.RemoveFirstTests | stdlib/private/StdlibCollectionUnittest/CheckCollectionType.swift:263-304 | every entry expects `collection[n..]`, with `0 <= n <= |collection|` |
| Fixtures.EmptinessAndEnds | stdlib/private/StdlibCollectionUnittest/CheckCollectionType.swift:15-22 | for a well-formed entry, `isEmpty` is `collection == []`; the collection built from it has the same emptiness and count, and its `first`/`last` are nil exactly when empty and are otherwise `collection[0]`/`collection[count - 1]` |
| Fixtures.BoundsInSlice | stdlib/private/StdlibCollectionUnittest/CheckCollectionType.swift:24-28 | `bounds(in:)` steps the offsets from `startIndex`; the slice it builds starts and ends at those positions, and over the entry's own collection it holds `expected` |
| IndexWalker.AllIndices | stdlib/private/StdlibCollectionUnittest/CheckCollectionType.swift:306-316 | `_allIndices` returns `lower, lower+1, …, upper-1` in order, exactly the positions of the range, and reads back as that range's elements; it requires `upper` to be reachable from `lower` |
| Resiliency.DispatchOn | stdlib/private/StdlibCollectionUnittest/CheckCollectionType.swift:440-451 | a block is registered exactly when its gate is not `.none`; it expects a crash exactly when its choosing setting is `.trap` |
| Resiliency.Judge | stdlib/private/StdlibCollectionUnittest/CheckCollectionType.swift:444-451 | a probe whose body completes fails; a misuse passes exactly when it is the kind waited for |
| Resiliency.JudgeAfterReport | stdlib/private/StdlibCollectionUnittest/CheckCollectionType.swift:480-484 | a body that reported a failure and went on passes exactly when it waited for a recoverable failure and the rest of it did not trap; after a later misuse this is passing on both the report and that misuse |
| Resiliency.JudgeMisuse | stdlib/private/StdlibCollectionUnittest/CheckCollectionType.swift:440-465 | a registered probe of a misuse passes exactly when its choosing setting is `.trap` iff the collection crashes |
| Probes.IndexModeOrdinal | stdlib/private/StdlibCollectionUnittest/CheckCollectionType.swift:318-334 | `_SubSequenceSubscriptOnIndexMode.all` lists every mode |
| Probes.RangeModeOrdinal | stdlib/private/StdlibCollectionUnittest/CheckCollectionType.swift:336-356 | `_SubSequenceSubscriptOnRangeMode.all` lists every mode |
| Probes.IndexProbeFor | stdlib/private/StdlibCollectionUnittest/CheckCollectionType.swift:519-550 | only `inRange` checks reads; a left probe is skipped exactly when `lo == 0` and a right probe exactly when `hi == count`; every probed position lies in `[0, count]` and outside the slice; the left probe is `lo - 1`, the right and `sliceEndIndex` probes are `hi`, and `baseEndIndex` probes `count` |
| Probes.CheckedIndicesAreTheSlice | stdlib/private/StdlibCollectionUnittest/CheckCollectionType.swift:522-535 | the in-range element checks visit exactly the slice's positions |
| Probes.RangeProbeFor | stdlib/private/StdlibCollectionUnittest/CheckCollectionType.swift:642-711 | only `inRange` checks sub-slices; skip conditions per mode (left needs `lo > 0`, right and `baseEndIndex` need `hi < count`, both-sides needs both); every probed range is well formed, lies in `[0, count]` and is not inside `[lo, hi]`; the `Empty` modes probe empty ranges and the others non-empty ones |
| Probes.CheckedSubSlicesStopShortOfBaseEnd | stdlib/private/StdlibCollectionUnittest/CheckCollectionType.swift:644-667 | every checked sub-slice lies in the slice, every `lo <= i <= j <= hi` with `j < count` is checked, and no sub-slice ending at `count` is checked |
| Cases.FirstMisuse | stdlib/private/StdlibCollectionUnittest/CheckCollectionType.swift:440-724 | a probe's first misuse is the reaction of the category it probes: index creation for the index and top-level range probes, the element or range subscript for sub-slice probes; a top-level element probe commits none exactly when its target is an element position, and a sub-slice probe commits one exactly when its mode probes a misuse |
| Cases.ExpectedVerdict | stdlib/private/StdlibCollectionUnittest/CheckCollectionType.swift:472-559 | only tests with bodies outside the model are not modelled; a test that commits no misuse passes; a top-level element or range probe stepping past an end passes exactly when a trapping creation is waited for with `expectCrashLater`, or a reported creation is waited for with `expectFailure` and the read after it reports too |
| Cases.ReportedCreationThenTrappingReadFails | stdlib/private/StdlibCollectionUnittest/CheckCollectionType.swift:480-484 | inside `expectFailure`, a reported creation followed by a trapping read fails the element and range probes, and a reported read lets the element probe pass |
| TestBodies.CheckSliceBounds | stdlib/private/StdlibCollectionUnittest/CheckCollectionType.swift:573-580 | the slice built from `bounds(in:)` starts and ends at the stepped positions exactly when the entry's bounds lie in its collection |
| TestBodies.CheckIsEmpty | stdlib/private/StdlibCollectionUnittest/CheckCollectionType.swift:744-749 | the check passes exactly when `count == 0` iff the collection is empty |
| TestBodies.CheckCount | stdlib/private/StdlibCollectionUnittest/CheckCollectionType.swift:755-760 | the check passes exactly when `count == |collection|` |
| TestBodies.CheckFirst | stdlib/private/StdlibCollectionUnittest/CheckCollectionType.swift:807-820 | the check passes exactly when the entry's emptiness matches its collection |
| TestBodies.CheckLast | stdlib/private/StdlibCollectionUnittest/CheckCollectionType.swift:1160-1173 | the check passes exactly when the entry's emptiness matches, and a non-empty entry's `count - 1` names its last element |
| TestBodies.CheckIndices | stdlib/private/StdlibCollectionUnittest/CheckCollectionType.swift:826-835 | `indices` runs from `startIndex` to `endIndex` |
| TestBodies.RunRangeTable | stdlib/private/StdlibCollectionUnittest/CheckCollectionType.swift:573-760 | the `subscriptRangeTests` semantics tests pass over the table as written, entry 13 included |
| TestBodies.CheckRangeEntry | stdlib/private/StdlibCollectionUnittest/CheckCollectionType.swift:573-760 | each per-entry check of the range table passes on every entry whose bounds lie in its collection and whose count is its length, whatever it expects |
| TestBodies.CheckSliceContents | stdlib/private/StdlibCollectionUnittest/CheckCollectionType.swift:581-590 | comparing the full-extent slice with `expected`, a check the source leaves commented out, would pass exactly on an entry that keeps its invariant |
| TestBodies.CheckPrefixThrough | stdlib/private/StdlibCollectionUnittest/CheckCollectionType.swift:916-924 | one `prefix(through:)` check passes exactly for a well-formed entry |
| TestBodies.CheckPrefixUpTo | stdlib/private/StdlibCollectionUnittest/CheckCollectionType.swift:930-938 | one `prefix(upTo:)` check passes exactly for a well-formed entry |
| TestBodies.CheckSuffixFrom | stdlib/private/StdlibCollectionUnittest/CheckCollectionType.swift:944-952 | one `suffix(from:)` check passes exactly for a well-formed entry |
| TestBodies.RunPrefixThroughSemantics | stdlib/private/StdlibCollectionUnittest/CheckCollectionType.swift:916-924 | `prefix(through:)/semantics` passes |
| TestBodies.RunPrefixUpToSemantics | stdlib/private/StdlibCollectionUnittest/CheckCollectionType.swift:930-938 | `prefix(upTo:)/semantics` passes |
| TestBodies.RunSuffixFromSemantics | stdlib/private/StdlibCollectionUnittest/CheckCollectionType.swift:944-952 | `suffix(from:)/semantics` passes |
| TestBodies.CheckRemoveFirstN | stdlib/private/StdlibCollectionUnittest/CheckCollectionType.swift:998-1026 | the `removeFirst(n)` check (tail, surviving positions, base unchanged) passes exactly for a well-formed entry |
| TestBodies.CheckRemoveFirst | stdlib/private/StdlibCollectionUnittest/CheckCollectionType.swift:958-985 | the `removeFirst()` check passes exactly for a well-formed entry removing one element |
| TestBodies.CheckPopFirst | stdlib/private/StdlibCollectionUnittest/CheckCollectionType.swift:1053-1081 | the `popFirst()` check passes exactly for a well-formed entry removing one element |
| TestBodies.RunRemoveFirstTable | stdlib/private/StdlibCollectionUnittest/CheckCollectionType.swift:998-1026 | the `removeFirstTests` slice semantics tests pass |
| TestBodies.CheckRemoveLastN | stdlib/private/StdlibCollectionUnittest/CheckCollectionType.swift:1223-1251 | the `removeLast(n)` check passes exactly for a well-formed entry |
| TestBodies.CheckRemoveLast | stdlib/private/StdlibCollectionUnittest/CheckCollectionType.swift:1179-1210 | the `removeLast()` check passes exactly for a well-formed entry removing one element |
| TestBodies.CheckPopLast | stdlib/private/StdlibCollectionUnittest/CheckCollectionType.swift:1278-1310 | the `popLast()` check passes exactly for a well-formed entry removing one element |
| TestBodies.RemoveFirstNFromEmptyWindow | stdlib/private/StdlibCollectionUnittest/CheckCollectionType.swift:1028-1047 | `removeFirst(n)` on an empty window traps exactly when `n != 0`, so for `1`, `-1` and `3` |
| TestBodies.RemoveLastNFromEmptyWindow | stdlib/private/StdlibCollectionUnittest/CheckCollectionType.swift:1253-1272 | `removeLast(n)` on an empty window traps exactly when `n != 0` |
| TestBodies.RunEmptyRemoval | stdlib/private/StdlibCollectionUnittest/CheckCollectionType.swift:987-992 | each empty-slice removal test passes: the removals trap and `popFirst()`/`popLast()` return nil |
| ProbeBodies.RunIndexOutOfBounds | stdlib/private/StdlibCollectionUnittest/CheckCollectionType.swift:441-465 | the `Index/OutOfBounds` body reaches the expected verdict |
| ProbeBodies.RunSubscriptIndexOutOfBounds | stdlib/private/StdlibCollectionUnittest/CheckCollectionType.swift:473-501 | the `subscript(_: Index)/OutOfBounds` body, which reads through the stepped position even after a reported creation, reaches the expected verdict |
| ProbeBodies.RunSubscriptRangeOutOfBounds | stdlib/private/StdlibCollectionUnittest/CheckCollectionType.swift:595-623 | the `subscript(_: Range)/OutOfBounds` body, which slices at the stepped position even after a reported creation, reaches the expected verdict |
| ProbeBodies.MakeSlice | stdlib/private/StdlibCollectionUnittest/CheckCollectionType.swift:511-517 | the probed slice shares the base and has exactly the requested bounds |
| ProbeBodies.CheckSliceReads | stdlib/private/StdlibCollectionUnittest/CheckCollectionType.swift:522-535 | every in-range position reads `elements[i]` through both slice and base |
| ProbeBodies.RunSubSequenceSubscriptOnIndex | stdlib/private/StdlibCollectionUnittest/CheckCollectionType.swift:503-562 | each element-subscript sub-slice probe reaches the expected verdict |
| ProbeBodies.CheckSubSliceReads | stdlib/private/StdlibCollectionUnittest/CheckCollectionType.swift:644-667 | every checked sub-slice reads `elements[i + k]` identically through base, slice and sub-slice |
| ProbeBodies.RunSubSequenceSubscriptOnRange | stdlib/private/StdlibCollectionUnittest/CheckCollectionType.swift:625-724 | each range-subscript sub-slice probe reaches the expected verdict |
| Suites.IndexModeCases | stdlib/private/StdlibCollectionUnittest/CheckCollectionType.swift:509-510 | one fixture registers one element-subscript probe for every mode, all distinct, each over that fixture's collection and bounds with the block's expectation |
| Suites.RangeModeCases | stdlib/private/StdlibCollectionUnittest/CheckCollectionType.swift:631-632 | one fixture registers one range-subscript probe for every mode, all distinct, each over that fixture's collection and bounds with the block's expectation |
| Suites.ProbeCasesIgnoreExpected | stdlib/private/StdlibCollectionUnittest/CheckCollectionType.swift:564-566 | two tables that agree on every collection and bound register the same sub-slice probes, whatever they expect |
| Suites.CorrectionRegistersTheSameProbes | stdlib/private/StdlibCollectionUnittest/CheckCollectionType.swift:564-566 | the table as written and the corrected one both fit, and register the same element- and range-subscript probes |
| Suites.IndexProbeCases | stdlib/private/StdlibCollectionUnittest/CheckCollectionType.swift:564-566 | the fixture loop registers five probes per fixture, all expecting the same thing |
| Suites.RangeProbeCases | stdlib/private/StdlibCollectionUnittest/CheckCollectionType.swift:726-728 | the fixture loop registers seven probes per fixture, all expecting the same thing |
| Suites.IndexProbeCasesCover | stdlib/private/StdlibCollectionUnittest/CheckCollectionType.swift:564-566 | every fixture is probed in every element-subscript mode |
| Suites.RangeProbeCasesCover | stdlib/private/StdlibCollectionUnittest/CheckCollectionType.swift:726-728 | every fixture is probed in every range-subscript mode |
| Suites.IndexBlock | stdlib/private/StdlibCollectionUnittest/CheckCollectionType.swift:440-466 | the block is empty exactly when index creation is not checked; it holds only index-creation probes at the configured offset and edge, expecting a crash exactly under `.trap` |
| Suites.SubscriptIndexBlock | stdlib/private/StdlibCollectionUnittest/CheckCollectionType.swift:472-566 | the block is empty exactly when the element setting is `.none`; otherwise it holds two top-level probes and one probe per fixture and mode, all expecting a crash exactly under `.trap` |
| Suites.SubscriptRangeBlock | stdlib/private/StdlibCollectionUnittest/CheckCollectionType.swift:594-728 | the block is empty exactly when the range setting is `.none`; otherwise it holds two top-level probes and one probe per fixture and mode; the top-level ones follow the range setting and the sub-slice ones the element setting |
| Suites.CollectionTests | stdlib/private/StdlibCollectionUnittest/CheckCollectionType.swift:359-1091 | the forward tier's tests are well formed and probe only the right edge |
| Suites.BackRemovalTests | stdlib/private/StdlibCollectionUnittest/CheckCollectionType.swift:1160-1316 | the bidirectional tier's `last` and back-removal tests are well formed and probe nothing |
| Suites.BidirectionalTests | stdlib/private/StdlibCollectionUnittest/CheckCollectionType.swift:1093-1451 | the bidirectional tier's tests probe only the left edge and register no sub-slice probe |
| Suites.RandomAccessTests | stdlib/private/StdlibCollectionUnittest/CheckCollectionType.swift:1506-1534 | the random-access tier registers only tests whose tables lie outside the model |
| Suites.TierTests | stdlib/private/StdlibCollectionUnittest/CheckCollectionType.swift:359-1536 | every tier's tests are well formed; only the forward tier registers sub-slice probes, and the random-access tier no probe at all |
| Suites.Key | stdlib/private/StdlibCollectionUnittest/CheckCollectionType.swift:390-393 | each tier has its own dedup key, its generator's name |
| Suites.Below | stdlib/private/StdlibCollectionUnittest/CheckCollectionType.swift:1128-1139 | each tier delegates to the tier one rank below it |
| Suites.Register | stdlib/private/StdlibCollectionUnittest/CheckCollectionType.swift:390-393 | a tier's name is marked afterwards; a tier whose name is already marked registers nothing and changes nothing, and only then |
| Suites.RegisterMarksWhatItRegisters | stdlib/private/StdlibCollectionUnittest/CheckCollectionType.swift:1123-1139 | the marked set grows by exactly the registered tiers' names and the called tier's name; every registered tier was unmarked and at or below the called tier |
| Suites.RegisterRegistersEachTierOnce | stdlib/private/StdlibCollectionUnittest/CheckCollectionType.swift:1484-1500 | one call registers no tier twice |
| Suites.RegisterFromUnmarkedRegistersTheChain | stdlib/private/StdlibCollectionUnittest/CheckCollectionType.swift:1484-1500 | from a set marking none of them, a call registers every tier up to it, lowest first |
| Suites.RegisterUnmarked | stdlib/private/StdlibCollectionUnittest/CheckCollectionType.swift:390-404 | an unmarked tier marks itself, then registers the lower tiers and itself after them |
| Suites.RegisterIsIdempotent | stdlib/private/StdlibCollectionUnittest/CheckCollectionType.swift:390-392 | calling a tier again with the same set registers nothing |
| Suites.RegisterAllRegistersEachTierOnce | stdlib/private/StdlibCollectionUnittest/CheckCollectionType.swift:1123-1139 | any sequence of calls sharing one set registers each tier at most once, only tiers unmarked at the start, and marks all it registers |
| Suites.TestSuite.AddCollectionTests | stdlib/private/StdlibCollectionUnittest/CheckCollectionType.swift:359-404 | marks the set as `Register` does and appends the registered tiers' tests |
| Suites.TestSuite.AddBidirectionalCollectionTests | stdlib/private/StdlibCollectionUnittest/CheckCollectionType.swift:1093-1139 | marks the set as `Register` does and appends the registered tiers' tests, lower tier first |
| Suites.TestSuite.AddRandomAccessCollectionTests | stdlib/private/StdlibCollectionUnittest/CheckCollectionType.swift:1453-1500 | marks the set as `Register` does and appends the registered tiers' tests, lower tiers first |
| Suites.SuiteForRandomAccessCollection | stdlib/private/StdlibCollectionUnittest/CheckCollectionType.swift:1484-1500 | adding the random-access tier and then the bidirectional tier with one set yields the three tiers' tests exactly once, lowest first |
| Suites.RunTest | stdlib/private/StdlibCollectionUnittest/CheckCollectionType.swift:552-559 | running any registered test against the reference collection gives its expected verdict |
| Suites.IndexProbesPass | stdlib/private/StdlibCollectionUnittest/CheckCollectionType.swift:552-559 | element-subscript sub-slice probes all pass when their expectation matches the element-subscript reaction |
| Suites.RangeProbesPass | stdlib/private/StdlibCollectionUnittest/CheckCollectionType.swift:714-721 | range sub-slice probes all pass when their expectation matches the range-subscript reaction |
| Suites.PolicyFits | stdlib/private/StdlibCollectionUnittest/CheckCollectionType.swift:440-729 | the all-`.none` policy fits every collection; a fitting policy that checks both subscripts needs the collection to crash on an out-of-slice element read exactly when it crashes on an out-of-slice range |
| Suites.IndexBlockPasses | stdlib/private/StdlibCollectionUnittest/CheckCollectionType.swift:440-466 | under a fitting policy the `Index/OutOfBounds` block passes |
| Suites.SubscriptIndexBlockPasses | stdlib/private/StdlibCollectionUnittest/CheckCollectionType.swift:472-567 | under a fitting policy the `subscript(_: Index)` block passes |
| Suites.SubscriptRangeBlockPasses | stdlib/private/StdlibCollectionUnittest/CheckCollectionType.swift:594-729 | under a fitting policy the `subscript(_: Range)` block passes |
| Suites.ForwardSemanticsNeverFail | stdlib/private/StdlibCollectionUnittest/CheckCollectionType.swift:744-1087 | the forward semantics tests never fail |
| Suites.ForwardTierPasses | stdlib/private/StdlibCollectionUnittest/CheckCollectionType.swift:359-1091 | under a fitting policy no test `addCollectionTests` registers fails |
| Suites.BidirectionalTierPasses | stdlib/private/StdlibCollectionUnittest/CheckCollectionType.swift:1093-1451 | under a fitting policy no test `addBidirectionalCollectionTests` registers fails |
| Suites.FittingPolicyPasses | stdlib/private/StdlibCollectionUnittest/CheckCollectionType.swift:1453-1536 | under a fitting policy no tier's tests fail |
| Suites.ProbedFixturesAreListed | stdlib/private/StdlibCollectionUnittest/CheckCollectionType.swift:111-141 | the empty collection and an empty prefix of `[1010, 2020, 3030]` are both `subscriptRangeTests` entries |
| Suites.SubscriptIndexBlockProbes | stdlib/private/StdlibCollectionUnittest/CheckCollectionType.swift:503-566 | when registered, the block probes every fixture in every mode, expecting a crash exactly under `.trap` |
| Suites.SubscriptRangeBlockProbes | stdlib/private/StdlibCollectionUnittest/CheckCollectionType.swift:625-728 | when registered, the block probes every fixture in every mode, and the expectation follows the element-subscript setting |
| Suites.IndexCreationMismatchFails | stdlib/private/StdlibCollectionUnittest/CheckCollectionType.swift:440-452 | when the index-creation setting is registered and disagrees with how the collection answers index creation, `Index/OutOfBounds/Right/NonEmpty` fails |
| Suites.ElementCreationMismatchFails | stdlib/private/StdlibCollectionUnittest/CheckCollectionType.swift:472-486 | when the element setting is registered and disagrees with how the collection answers index creation, `subscript(_: Index)/OutOfBounds/Right/NonEmpty/Get` fails |
| Suites.ElementReadMismatchFails | stdlib/private/StdlibCollectionUnittest/CheckCollectionType.swift:546-559 | when the element setting is registered and disagrees with how the collection answers an out-of-slice read, the empty collection's `baseEndIndex` probe fails |
| Suites.RangeCreationMismatchFails | stdlib/private/StdlibCollectionUnittest/CheckCollectionType.swift:594-608 | when the range setting is registered and disagrees with how the collection answers index creation, `subscript(_: Range)/OutOfBounds/Right/NonEmpty/Get` fails |
| Suites.EmptyPrefixRangeProbeIsRegistered | stdlib/private/StdlibCollectionUnittest/CheckCollectionType.swift:708-728 | a registered range block probes `[0, 3)` past the empty prefix of three elements, expecting what the element setting says |
| Suites.RangeReadMismatchFails | stdlib/private/StdlibCollectionUnittest/CheckCollectionType.swift:708-721 | when the range block is registered and the element setting disagrees with how the collection answers an out-of-slice range, that probe fails |
| Suites.UnfitPolicyFails | stdlib/private/StdlibCollectionUnittest/CheckCollectionType.swift:440-729 | under a policy that does not fit, some `addCollectionTests` test fails |
| Suites.NothingFailsIffPolicyFits | stdlib/private/StdlibCollectionUnittest/CheckCollectionType.swift:440-729 | with offsets of at least 1, every tier passes exactly when the policy fits the collection's reactions |
| Suites.DefaultsPassAgainstATrappingCollection | stdlib/private/StdlibCollectionUnittest/CheckCollectionType.swift:384-386 | with the default `.all` policy and offsets of 1, a collection that traps on every misuse passes every tier |
| Suites.SkippingElementProbesMisleadsRangeProbes | stdlib/private/StdlibCollectionUnittest/CheckCollectionType.swift:714-721 | under `(.trap, .none, .trap)`, a range probe is registered expecting a recoverable failure and fails against an always-trapping collection |
| Suites.TopLevelProbesTripIndexCreation | stdlib/private/StdlibCollectionUnittest/CheckCollectionType.swift:476-479 | with an offset of at least 1, the top-level subscript probes misuse index creation first |

## Left out

- `test/1_stdlib/Optional.swift` is not part of this model. It tests dynamic casts, printing, class identity, and `Optional` operators whose implementation lies elsewhere.
- Test-runner plumbing is not modelled. This covers:
  - `self.test` names and `String(C.Type)`;
  - the process isolation behind `expectCrashLater` and `expectFailure`;
  - `_blackHole`, `expectType`, `SourceLoc` and `SourceLocStack`.

  A test is registered as data, and running it is a verdict.
- Some tests run fixture tables or helpers defined outside the two source files: `findTests`, `dropFirstTests`, `dropLastTests`, `prefixTests`, `suffixTests`, `splitTests`, `removeLastTests`, `addSequenceTests` and `checkSequence`.
  - Those tests are registered in their place, and their verdict is `NotModelled`.
  - The `removeLast` slice bodies are proved for any well-formed entry of the `removeLastTests` shape instead.
  - `addSequenceTests`' own dedup is not modelled.
- `LifetimeTracked` instance counting is not modelled, because it is a runtime allocation observation.
- The generic `where` constraints and the `wrapValue`/`extractValue` boxing are not modelled. Elements and positions are `int`, and index types are not generic.
- The collection's `Index` is an `int` position, so index types whose positions are not integers are not covered.
- Commented-out and FIXME-only coverage is not modelled.
- `_withUnsafeMutableBufferPointerIfSupported` is not modelled, because it works on raw pointers.
- The range-subscript setter (`_writeBackMutableSlice`) and the `MutableSlice` type's own operations are not part of this model. `MutableSlice` is only its base and bounds.
- A collection that reports a misuse while creating an index hands back the stepped position. What a real collection hands back there is not modelled.
- The reference collection checks index creation against its own window on every traversal, so a collection whose `index(_:stepsFrom:)` never checks is not covered.
- The dedup key is the tier function's base name. `#function`'s exact spelling, which includes the argument labels, is not modelled.
- Suites.NothingFailsIffPolicyFits: only proved for out-of-bounds offsets of at least 1. With an offset of 0 the top-level probes commit no misuse and fail whatever the policy.
- IndexWalker.AllIndices: requires `upper` to be reachable from `lower`; the source loops forever otherwise.
- The removal tests' "base unchanged" comparisons (`expectEqualSequence` of the base collection after removing from a slice of it) hold trivially in the model. The base is an immutable value, so a slice that writes through to its base is not modelled.
- MutableCollection.SeqCollection.FormSuccessor: returns the advanced index instead of updating an `inout` variable in place.

## Findings

| source | as written | input that shows it | evidently intended | confidence | as-written member | corrected member |
|---|---|---|---|---|---|---|
| stdlib/private/StdlibCollectionUnittest/CheckCollectionType.swift:192-196 | the "slice the middle part" entry expects `[3030]` for bounds `3..<4` | collection `[1010, 2020, 3030, 4040]`, bounds `3..<4`, which select `[4040]` | `expected: [4040]` (or bounds `2..<3`) | not executed | Fixtures.AsWrittenEntryIsInconsistent | Fixtures.SubscriptRangeTests |

The entry is harmless as the harness stands: no live check compares a slice with `expected`, and the comparison that would catch it is commented out. The registered tests therefore run the table as written, entry 13 included (`TestBodies.RunRangeTable`, `Suites.CollectionTests`). `Suites.CorrectionRegistersTheSameProbes` proves that the correction changes no registered probe. `TestBodies.CheckSliceContents` models the commented-out comparison: it fails on the entry as written and passes on every corrected entry.
