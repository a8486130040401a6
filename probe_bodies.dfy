/** The bodies of the misuse probes, run against the reference collection.
    Each is proved to reach the verdict `Cases.ExpectedVerdict` assigns it. */
module ProbeBodies {
  import opened Outcomes
  import opened MutableCollection
  import opened Reference
  import opened Resiliency
  import opened Probes
  import opened Cases

  /** The position a top-level probe starts from and the signed step it takes. */
  function StartOf(c: View, edge: Edge): int {
    if edge.Right? then c.endIndex else c.startIndex
  }

  function StepOf(edge: Edge, offset: int): int {
    if edge.Right? then offset else -offset
  }

  /** `Index/OutOfBounds/{Right,Left}/{NonEmpty,Empty}`: create the index
      `offset` steps past an end. */
  method RunIndexOutOfBounds(elements: seq<int>, edge: Edge, offset: int, e: Expectation, reactions: Reactions)
    returns (v: Verdict)
    ensures v == ExpectedVerdict(IndexOutOfBounds(elements, edge, offset, e), reactions)
  {
    var c := Make(elements, reactions);
    var index := StartOf(c, edge);
    v := Judge(e, c.IndexOffsetBy(StepOf(edge, offset), index));
  }

  /** `subscript(_: Index)/OutOfBounds/...`: create that index, then read
      through it. Creating it is already inside the guarded block: a trap
      there ends the body, while a reported failure hands back the stepped
      position and the body goes on to read through it. */
  method RunSubscriptIndexOutOfBounds(elements: seq<int>, edge: Edge, offset: int, e: Expectation, reactions: Reactions)
    returns (v: Verdict)
    ensures v == ExpectedVerdict(SubscriptIndexOutOfBounds(elements, edge, offset, e), reactions)
  {
    var c := Make(elements, reactions);
    var start, step := StartOf(c, edge), StepOf(edge, offset);
    var created := c.IndexOffsetBy(step, start);
    if created.Traps? {
      v := Judge(e, created);
    } else {
      var read := c.Subscript(start + step);
      v := if created.Returns? then Judge(e, read) else JudgeAfterReport(e, read);
    }
  }

  /** `subscript(_: Range)/OutOfBounds/...`: create that index, then slice
      the empty range at it, going on after a reported creation as the
      element probe does. */
  method RunSubscriptRangeOutOfBounds(elements: seq<int>, edge: Edge, offset: int, e: Expectation, reactions: Reactions)
    returns (v: Verdict)
    ensures v == ExpectedVerdict(SubscriptRangeOutOfBounds(elements, edge, offset, e), reactions)
  {
    var c := Make(elements, reactions);
    var start, step := StartOf(c, edge), StepOf(edge, offset);
    var created := c.IndexOffsetBy(step, start);
    if created.Traps? {
      v := Judge(e, created);
    } else {
      var read := c.SubscriptRange(Range(start + step, start + step));
      v := if created.Returns? then Judge(e, read) else JudgeAfterReport(e, read);
    }
  }

  /** The base and slice every sub-slice probe starts from:
      `base[sliceStartIndex..<sliceEndIndex]`, with both positions stepped
      from the base's start. */
  method MakeSlice(elements: seq<int>, bounds: Range, reactions: Reactions) returns (base: View, slice: View)
    requires SliceWithin(|elements|, bounds)
    ensures base == Make(elements, reactions)
    ensures slice.Valid() && slice.base == elements && slice.reactions == reactions
    ensures slice.Bounds() == bounds
  {
    base := Make(elements, reactions);
    var sliceFromLeft := bounds.lowerBound;
    var sliceFromRight := |elements| - bounds.upperBound;
    var sliceStartIndex := base.IndexOffsetBy(sliceFromLeft, base.startIndex).value;
    var sliceEndIndex := base.IndexOffsetBy(|elements| - sliceFromRight, base.startIndex).value;
    slice := base.SubscriptRange(Range(sliceStartIndex, sliceEndIndex)).value;
  }

  /** The `inRange` element checks: every base position in the slice reads
      `elements[i]` through the slice and the same through the base. */
  method CheckSliceReads(elements: seq<int>, bounds: Range, base: View, slice: View) returns (ok: bool)
    requires SliceWithin(|elements|, bounds)
    requires base.Valid() && base.Elements() == elements && base.startIndex == 0
    requires slice.Valid() && slice.base == elements && slice.Bounds() == bounds
    ensures ok
  {
    ok := true;
    for i := 0 to |elements|
      invariant ok
    {
      if IsCheckedIndex(|elements|, bounds, i) {
        var read := slice.Subscript(i);
        if read != Returns(elements[i]) || base.Subscript(i) != read {
          ok := false;
        }
      }
    }
  }

  /** `SubSequence.subscript(_: Index)/Get/<mode>`. */
  method RunSubSequenceSubscriptOnIndex(elements: seq<int>, bounds: Range, mode: SubscriptOnIndexMode, e: Expectation, reactions: Reactions)
    returns (v: Verdict)
    requires SliceWithin(|elements|, bounds)
    ensures v == ExpectedVerdict(SubSequenceSubscriptOnIndex(elements, bounds, mode, e), reactions)
  {
    var base, slice := MakeSlice(elements, bounds, reactions);
    match IndexProbeFor(|elements|, bounds, mode)
    case CheckInRange =>
      var ok := CheckSliceReads(elements, bounds, base, slice);
      v := if ok then Passed else Failed;
    case Skipped =>
      v := Passed;
    case Probe(offset) =>
      var index := base.IndexOffsetBy(offset, base.startIndex).value;
      v := Judge(e, slice.Subscript(index));
  }

  /** The `inRange` sub-slice checks: every checked sub-slice `[i, j)` of the
      slice reads `elements[i + k]` at its `k`-th position, and the base and
      the slice read the same there. */
  method CheckSubSliceReads(elements: seq<int>, bounds: Range, base: View, slice: View) returns (ok: bool)
    requires SliceWithin(|elements|, bounds)
    requires base.Valid() && base.Elements() == elements && base.startIndex == 0
    requires slice.Valid() && slice.base == elements && slice.Bounds() == bounds
    ensures ok
  {
    ok := true;
    for i := 0 to |elements|
      invariant ok
    {
      for j := 0 to |elements|
        invariant ok
      {
        if IsCheckedSubSlice(|elements|, bounds, i, j) {
          var subSlice := slice.SubscriptRange(Range(i, j));
          if !subSlice.Returns? {
            ok := false;
          } else {
            for k := 0 to j - i
              invariant ok
            {
              var index := i + k;
              var read := subSlice.value.Subscript(index);
              if read != Returns(elements[i + k]) || base.Subscript(index) != read || slice.Subscript(index) != read {
                ok := false;
              }
            }
          }
        }
      }
    }
  }

  /** `SubSequence.subscript(_: Range)/Get/<mode>`. */
  method RunSubSequenceSubscriptOnRange(elements: seq<int>, bounds: Range, mode: SubscriptOnRangeMode, e: Expectation, reactions: Reactions)
    returns (v: Verdict)
    requires SliceWithin(|elements|, bounds)
    ensures v == ExpectedVerdict(SubSequenceSubscriptOnRange(elements, bounds, mode, e), reactions)
  {
    var base, slice := MakeSlice(elements, bounds, reactions);
    match RangeProbeFor(|elements|, bounds, mode)
    case CheckSubSlices =>
      var ok := CheckSubSliceReads(elements, bounds, base, slice);
      v := if ok then Passed else Failed;
    case SkippedRange =>
      v := Passed;
    case ProbeRange(r) =>
      v := Judge(e, slice.SubscriptRange(r));
  }
}
