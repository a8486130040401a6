/** The bodies of the harness's tests, run against the reference collection.
    Each fixture-driven test is a loop over its table, as written, around a
    per-entry check. The range table's checks look only at bounds and counts,
    which every entry gets right; the other checks pass exactly on the entries
    that keep their table's invariant, and those tables keep it. So every such
    test passes.
    Misuse probes are judged in the module `ProbeBodies`. */
module TestBodies {
  import opened Outcomes
  import opened MutableCollection
  import opened Reference
  import opened Fixtures
  import opened IndexWalker
  import opened Resiliency
  import opened Probes
  import opened Cases

  /** Reading a run of positions back as a list of successful reads pins the
      list of values down. */
  lemma AllReturnInjective(xs: seq<int>, ys: seq<int>)
    ensures AllReturn(xs) == AllReturn(ys) <==> xs == ys
  {
    if AllReturn(xs) == AllReturn(ys) {
      assert |xs| == |ys|;
      forall k | 0 <= k < |xs| ensures xs[k] == ys[k] {
        assert AllReturn(xs)[k] == Returns(xs[k]);
        assert AllReturn(ys)[k] == Returns(ys[k]);
      }
    }
  }

  /** `var slice = c[c.startIndex..<c.endIndex]`: the full-extent slice of
      the collection built from `elements`. */
  method FullSlice(elements: seq<int>, reactions: Reactions) returns (slice: SubSequence)
    ensures fresh(slice) && slice.Valid()
    ensures slice.Value() == Make(elements, reactions)
  {
    var c := Make(elements, reactions);
    var whole := c.SubscriptRange(Range(c.startIndex, c.endIndex));
    slice := new SubSequence(whole.value);
  }

  // ---------------------------------------------------------------------
  // subscript(_: Range), isEmpty, count, first, last, indices

  /** One entry of `subscript(_: Range)/Get/semantics`: the slice built from
      `bounds(in:)` starts and ends at those bounds. It never looks at
      `expected`. */
  method CheckSliceBounds(t: SubscriptRangeTest, reactions: Reactions) returns (ok: bool)
    ensures ok <==> 0 <= t.bounds.lowerBound <= t.bounds.upperBound <= |t.collection|
  {
    var base := Make(t.collection, reactions);
    var sliceBounds := t.BoundsIn(base);
    if !sliceBounds.Returns? {
      return false;
    }
    var slice := base.SubscriptRange(sliceBounds.value);
    if !slice.Returns? {
      return false;
    }
    ok := sliceBounds.value.lowerBound == slice.value.startIndex
          && sliceBounds.value.upperBound == slice.value.endIndex;
  }

  /** One entry of `isEmpty/semantics`. */
  method CheckIsEmpty(t: SubscriptRangeTest, reactions: Reactions) returns (ok: bool)
    ensures ok <==> (t.count == 0 <==> t.collection == [])
  {
    var c := Make(t.collection, reactions);
    ok := t.IsEmpty() == c.IsEmpty();
  }

  /** One entry of `count/semantics`. */
  method CheckCount(t: SubscriptRangeTest, reactions: Reactions) returns (ok: bool)
    ensures ok <==> t.count == |t.collection|
  {
    var c := Make(t.collection, reactions);
    ok := t.count == c.Count();
  }

  /** One entry of `first`: empty exactly when the entry says so, otherwise
      the collection's first element (reading `collection[0]` of an empty
      collection traps). */
  method CheckFirst(t: SubscriptRangeTest, reactions: Reactions) returns (ok: bool)
    ensures ok <==> (t.count == 0 <==> t.collection == [])
  {
    var c := Make(t.collection, reactions);
    var result := c.First();
    if t.IsEmpty() {
      ok := result.None?;
    } else {
      if |t.collection| == 0 {
        return false;
      }
      ok := result == Some(t.collection[0]);
    }
  }

  /** One entry of `last`: empty exactly when the entry says so, otherwise
      `collection[count - 1]`, which must exist and equal the last element. */
  method CheckLast(t: SubscriptRangeTest, reactions: Reactions) returns (ok: bool)
    ensures ok <==> if t.count == 0 then t.collection == []
                    else 1 <= t.count <= |t.collection| && t.collection[t.count - 1] == t.collection[|t.collection| - 1]
  {
    var c := Make(t.collection, reactions);
    var result := c.Last();
    if t.IsEmpty() {
      ok := result.None?;
    } else {
      if !(0 <= t.count - 1 < |t.collection|) {
        return false;
      }
      ok := result == Some(t.collection[t.count - 1]);
    }
  }

  /** One entry of `indices`: they run from `startIndex` to `endIndex`.
      The reference collection's `indices` are its bounds by definition, so
      this check holds of every entry and says nothing about the fixture. */
  method CheckIndices(t: SubscriptRangeTest, reactions: Reactions) returns (ok: bool)
    ensures ok
  {
    var c := Make(t.collection, reactions);
    var indices := c.Indices();
    ok := c.startIndex == indices.lowerBound && c.endIndex == indices.upperBound;
  }

  /** Which per-entry check a `subscriptRangeTests` loop runs. */
  datatype RangeTableCheck = SliceBounds | IsEmptyCheck | CountCheck | FirstCheck | LastCheck | IndicesCheck

  /** The per-entry checks read an entry's collection, bounds and count but
      never its `expected`, so every shaped entry passes them. */
  method CheckRangeEntry(which: RangeTableCheck, t: SubscriptRangeTest, reactions: Reactions) returns (ok: bool)
    ensures t.Shaped() ==> ok
  {
    match which
    case SliceBounds => ok := CheckSliceBounds(t, reactions);
    case IsEmptyCheck => ok := CheckIsEmpty(t, reactions);
    case CountCheck => ok := CheckCount(t, reactions);
    case FirstCheck => ok := CheckFirst(t, reactions);
    case LastCheck => ok := CheckLast(t, reactions);
    case IndicesCheck => ok := CheckIndices(t, reactions);
  }

  /** `for test in subscriptRangeTests { ... }` around one per-entry check,
      over the table as written, entry 13 included. */
  method RunRangeTable(which: RangeTableCheck, reactions: Reactions) returns (v: Verdict)
    ensures v == Passed
  {
    var tests := SubscriptRangeTestsAsWritten();
    var ok := true;
    for k := 0 to |tests|
      invariant ok
    {
      var passed := CheckRangeEntry(which, tests[k], reactions);
      ok := ok && passed;
    }
    v := if ok then Passed else Failed;
  }

  /** The comparison of the slice's contents against `expected` that the
      `subscript(_: Range)/Get/semantics` test leaves commented out: it
      passes exactly on well-formed entries, so it would fail on entry 13 of
      the table as written and pass on every entry of the corrected one. */
  method CheckSliceContents(t: SubscriptRangeTest, reactions: Reactions) returns (ok: bool)
    ensures ok <==> t.WellFormed()
  {
    if t.count != |t.collection| {
      return false;
    }
    var base := Make(t.collection, reactions);
    var sliceBounds := t.BoundsIn(base);
    if !sliceBounds.Returns? {
      return false;
    }
    var slice := base.SubscriptRange(sliceBounds.value);
    ok := slice.Returns? && slice.value.Elements() == t.expected;
  }

  // ---------------------------------------------------------------------
  // prefix(through:), prefix(upTo:), suffix(from:)

  method CheckPrefixThrough(t: PrefixThroughTest, reactions: Reactions) returns (ok: bool)
    ensures ok <==> t.WellFormed()
  {
    var c := Make(t.collection, reactions);
    var index := c.IndexOffsetBy(t.position, c.startIndex);
    if !index.Returns? {
      return false;
    }
    var result := c.PrefixThrough(index.value);
    ok := result.Returns? && result.value.Elements() == t.expected;
  }

  method CheckPrefixUpTo(t: PrefixUpToTest, reactions: Reactions) returns (ok: bool)
    ensures ok <==> t.WellFormed()
  {
    var c := Make(t.collection, reactions);
    var index := c.IndexOffsetBy(t.end, c.startIndex);
    if !index.Returns? {
      return false;
    }
    var result := c.PrefixUpTo(index.value);
    ok := result.Returns? && result.value.Elements() == t.expected;
  }

  method CheckSuffixFrom(t: SuffixFromTest, reactions: Reactions) returns (ok: bool)
    ensures ok <==> t.WellFormed()
  {
    var c := Make(t.collection, reactions);
    var index := c.IndexOffsetBy(t.start, c.startIndex);
    if !index.Returns? {
      return false;
    }
    var result := c.SuffixFrom(index.value);
    ok := result.Returns? && result.value.Elements() == t.expected;
  }

  method RunPrefixThroughSemantics(reactions: Reactions) returns (v: Verdict)
    ensures v == Passed
  {
    var tests := PrefixThroughTests();
    var ok := true;
    for k := 0 to |tests|
      invariant ok
    {
      var passed := CheckPrefixThrough(tests[k], reactions);
      ok := ok && passed;
    }
    v := if ok then Passed else Failed;
  }

  method RunPrefixUpToSemantics(reactions: Reactions) returns (v: Verdict)
    ensures v == Passed
  {
    var tests := PrefixUpToTests();
    var ok := true;
    for k := 0 to |tests|
      invariant ok
    {
      var passed := CheckPrefixUpTo(tests[k], reactions);
      ok := ok && passed;
    }
    v := if ok then Passed else Failed;
  }

  method RunSuffixFromSemantics(reactions: Reactions) returns (v: Verdict)
    ensures v == Passed
  {
    var tests := SuffixFromTests();
    var ok := true;
    for k := 0 to |tests|
      invariant ok
    {
      var passed := CheckSuffixFrom(tests[k], reactions);
      ok := ok && passed;
    }
    v := if ok then Passed else Failed;
  }

  // ---------------------------------------------------------------------
  // removeFirst(), removeFirst(n), popFirst() on a slice

  /** One entry of `removeFirst(n: Int)/slice/semantics`: snapshot the
      positions from `n` on, remove `n` elements, then the slice holds
      `expectedCollection`, the snapshot positions read it, and the sliced
      collection is unchanged. The collection is an immutable value here and
      the slice holds its own copy of the base, so that last comparison
      cannot fail in this model (here and in the five checks below). */
  method CheckRemoveFirstN(t: RemoveFirstNTest, reactions: Reactions) returns (ok: bool)
    ensures ok <==> t.WellFormed()
  {
    var c := Make(t.collection, reactions);
    var slice := FullSlice(t.collection, reactions);
    var from := slice.Value().IndexOffsetBy(t.numberToRemove, slice.startIndex);
    if !from.Returns? {
      return false;
    }
    var survivingIndices := AllIndices(slice.Value(), Range(from.value, slice.endIndex));
    var removed := slice.RemoveFirstN(t.numberToRemove);
    if !removed.Returns? {
      return false;
    }
    AllReturnInjective(slice.Value().Elements(), t.expectedCollection);
    ok := && slice.Value().Elements() == t.expectedCollection
          && slice.Value().ReadAll(survivingIndices) == AllReturn(t.expectedCollection)
          && c.Elements() == t.collection;
  }

  /** One entry of `removeFirst()/slice/semantics` (entries removing one
      element): as above, and the removed element is the collection's first. */
  method CheckRemoveFirst(t: RemoveFirstNTest, reactions: Reactions) returns (ok: bool)
    requires t.numberToRemove == 1
    ensures ok <==> t.WellFormed()
  {
    var c := Make(t.collection, reactions);
    var slice := FullSlice(t.collection, reactions);
    if slice.startIndex == slice.endIndex {
      // `successor(of: startIndex)` of an empty slice traps.
      return false;
    }
    var survivingIndices := AllIndices(slice.Value(), Range(slice.Value().Successor(slice.startIndex), slice.endIndex));
    var removedElement := slice.RemoveFirst();
    AllReturnInjective(slice.Value().Elements(), t.expectedCollection);
    ok := && removedElement == Returns(t.collection[0])
          && slice.Value().Elements() == t.expectedCollection
          && slice.Value().ReadAll(survivingIndices) == AllReturn(t.expectedCollection)
          && c.Elements() == t.collection;
  }

  /** One entry of `popFirst()/slice/semantics`. */
  method CheckPopFirst(t: RemoveFirstNTest, reactions: Reactions) returns (ok: bool)
    requires t.numberToRemove == 1
    ensures ok <==> t.WellFormed()
  {
    var c := Make(t.collection, reactions);
    var slice := FullSlice(t.collection, reactions);
    if slice.startIndex == slice.endIndex {
      return false;
    }
    var survivingIndices := AllIndices(slice.Value(), Range(slice.Value().Successor(slice.startIndex), slice.endIndex));
    var popped := slice.PopFirst();
    AllReturnInjective(slice.Value().Elements(), t.expectedCollection);
    ok := && popped == Some(t.collection[0])
          && slice.Value().Elements() == t.expectedCollection
          && slice.Value().ReadAll(survivingIndices) == AllReturn(t.expectedCollection)
          && c.Elements() == t.collection;
  }

  /** Which removal a `removeFirstTests` loop checks; `removeFirst()` and
      `popFirst()` only take the entries that remove one element. */
  datatype FrontRemoval = RemoveOne | RemoveN | PopOne

  method RunRemoveFirstTable(which: FrontRemoval, reactions: Reactions) returns (v: Verdict)
    ensures v == Passed
  {
    var tests := RemoveFirstTests();
    var ok := true;
    for k := 0 to |tests|
      invariant ok
    {
      var passed := true;
      match which
      case RemoveN =>
        passed := CheckRemoveFirstN(tests[k], reactions);
      case RemoveOne =>
        if tests[k].numberToRemove == 1 {
          passed := CheckRemoveFirst(tests[k], reactions);
        }
      case PopOne =>
        if tests[k].numberToRemove == 1 {
          passed := CheckPopFirst(tests[k], reactions);
        }
      ok := ok && passed;
    }
    v := if ok then Passed else Failed;
  }

  // ---------------------------------------------------------------------
  // removeLast(), removeLast(n), popLast() on a slice

  /** One entry of `removeLast(n: Int)/slice/semantics`: snapshot the
      positions before the last `n`, remove `n` elements from the back, then
      the slice holds `expectedCollection` and the snapshot reads it. */
  method CheckRemoveLastN(t: RemoveLastNTest, reactions: Reactions) returns (ok: bool)
    ensures ok <==> t.WellFormed()
  {
    var c := Make(t.collection, reactions);
    var slice := FullSlice(t.collection, reactions);
    var upTo := slice.Value().IndexOffsetBy(-t.numberToRemove, slice.endIndex);
    if !upTo.Returns? {
      return false;
    }
    var survivingIndices := AllIndices(slice.Value(), Range(slice.startIndex, upTo.value));
    var removed := slice.RemoveLastN(t.numberToRemove);
    if !removed.Returns? {
      return false;
    }
    AllReturnInjective(slice.Value().Elements(), t.expectedCollection);
    ok := && slice.Value().Elements() == t.expectedCollection
          && slice.Value().ReadAll(survivingIndices) == AllReturn(t.expectedCollection)
          && c.Elements() == t.collection;
  }

  /** One entry of `removeLast()/slice/semantics`. */
  method CheckRemoveLast(t: RemoveLastNTest, reactions: Reactions) returns (ok: bool)
    requires t.numberToRemove == 1
    ensures ok <==> t.WellFormed()
  {
    var c := Make(t.collection, reactions);
    var slice := FullSlice(t.collection, reactions);
    var upTo := slice.Value().IndexOffsetBy(-1, slice.endIndex);
    if !upTo.Returns? {
      return false;
    }
    var survivingIndices := AllIndices(slice.Value(), Range(slice.startIndex, upTo.value));
    var removedElement := slice.RemoveLast();
    AllReturnInjective(slice.Value().Elements(), t.expectedCollection);
    ok := && removedElement == Returns(t.collection[|t.collection| - 1])
          && slice.Value().Elements() == t.expectedCollection
          && slice.Value().ReadAll(survivingIndices) == AllReturn(t.expectedCollection)
          && c.Elements() == t.collection;
  }

  /** One entry of `popLast()/slice/semantics`. */
  method CheckPopLast(t: RemoveLastNTest, reactions: Reactions) returns (ok: bool)
    requires t.numberToRemove == 1
    ensures ok <==> t.WellFormed()
  {
    var c := Make(t.collection, reactions);
    var slice := FullSlice(t.collection, reactions);
    var upTo := slice.Value().IndexOffsetBy(-1, slice.endIndex);
    if !upTo.Returns? {
      return false;
    }
    var survivingIndices := AllIndices(slice.Value(), Range(slice.startIndex, upTo.value));
    var popped := slice.PopLast();
    AllReturnInjective(slice.Value().Elements(), t.expectedCollection);
    ok := && popped == Some(t.collection[|t.collection| - 1])
          && slice.Value().Elements() == t.expectedCollection
          && slice.Value().ReadAll(survivingIndices) == AllReturn(t.expectedCollection)
          && c.Elements() == t.collection;
  }

  // ---------------------------------------------------------------------
  // Removal from an empty slice

  /** `var slice = c[c.startIndex..<c.startIndex]`: the empty slice at the
      start of the collection built from `elements`. */
  method EmptyWindow(elements: seq<int>, reactions: Reactions) returns (slice: SubSequence)
    ensures fresh(slice) && slice.Valid()
    ensures slice.base == elements && slice.startIndex == 0 && slice.endIndex == 0
  {
    var c := Make(elements, reactions);
    var window := c.SubscriptRange(Range(c.startIndex, c.startIndex));
    slice := new SubSequence(window.value);
  }

  /** `removeFirst(n)` on the empty window of any collection traps for every
      `n` but zero: the `removeNegative` and `removeTooMany` probes, which
      slice an empty window of a two-element collection, trap whatever the
      collection holds and would trap just as well for `n == 1`. */
  method RemoveFirstNFromEmptyWindow(elements: seq<int>, n: int, reactions: Reactions) returns (r: Outcome<()>)
    ensures r.Traps? <==> n != 0
    ensures !r.ReportsFailure?
  {
    var slice := EmptyWindow(elements, reactions);
    r := slice.RemoveFirstN(n);
  }

  /** The same for `removeLast(n)`. */
  method RemoveLastNFromEmptyWindow(elements: seq<int>, n: int, reactions: Reactions) returns (r: Outcome<()>)
    ensures r.Traps? <==> n != 0
    ensures !r.ReportsFailure?
  {
    var slice := EmptyWindow(elements, reactions);
    r := slice.RemoveLastN(n);
  }

  /** The empty-slice removal tests: each expects a trap, except `popFirst()`
      and `popLast()`, which expect `nil`. */
  datatype EmptyRemoval =
    | RemoveFirstOne | RemoveFirstOfN | RemoveFirstNegative | RemoveFirstTooMany | PopFirstOne
    | RemoveLastOne | RemoveLastOfN | RemoveLastNegative | RemoveLastTooMany | PopLastOne

  method RunEmptyRemoval(which: EmptyRemoval, reactions: Reactions) returns (v: Verdict)
    ensures v == Passed
  {
    match which
    case RemoveFirstOne =>
      var slice := EmptyWindow([], reactions);
      var r := slice.RemoveFirst();
      v := Judge(CrashLater, r);
    case RemoveFirstOfN =>
      var slice := EmptyWindow([], reactions);
      var r := slice.RemoveFirstN(1);
      v := Judge(CrashLater, r);
    case RemoveFirstNegative =>
      var r := RemoveFirstNFromEmptyWindow([1010, 2020], -1, reactions);
      v := Judge(CrashLater, r);
    case RemoveFirstTooMany =>
      var r := RemoveFirstNFromEmptyWindow([1010, 2020], 3, reactions);
      v := Judge(CrashLater, r);
    case PopFirstOne =>
      var slice := EmptyWindow([], reactions);
      var r := slice.PopFirst();
      v := if r.None? then Passed else Failed;
    case RemoveLastOne =>
      var slice := EmptyWindow([], reactions);
      var r := slice.RemoveLast();
      v := Judge(CrashLater, r);
    case RemoveLastOfN =>
      var slice := EmptyWindow([], reactions);
      var r := slice.RemoveLastN(1);
      v := Judge(CrashLater, r);
    case RemoveLastNegative =>
      var r := RemoveLastNFromEmptyWindow([1010, 2020], -1, reactions);
      v := Judge(CrashLater, r);
    case RemoveLastTooMany =>
      var r := RemoveLastNFromEmptyWindow([1010, 2020], 3, reactions);
      v := Judge(CrashLater, r);
    case PopLastOne =>
      var slice := EmptyWindow([], reactions);
      var r := slice.PopLast();
      v := if r.None? then Passed else Failed;
  }
}
