/** The misuse probes the harness runs against a slice `[lo, hi)` of a
    `count`-element base: which position or range each mode reaches for,
    when a mode has nothing to probe, and which in-range reads the `inRange`
    modes compare. Positions are offsets from the base's `startIndex`. */
module Probes {
  import opened MutableCollection

  /** `_SubSequenceSubscriptOnIndexMode`. */
  datatype SubscriptOnIndexMode = InRange | OutOfRangeToTheLeft | OutOfRangeToTheRight | BaseEndIndex | SliceEndIndex

  /** `_SubSequenceSubscriptOnIndexMode.all`, in declaration order. */
  const AllIndexModes: seq<SubscriptOnIndexMode> :=
    [SubscriptOnIndexMode.InRange, OutOfRangeToTheLeft, OutOfRangeToTheRight, SubscriptOnIndexMode.BaseEndIndex, SliceEndIndex]

  /** `_SubSequenceSubscriptOnRangeMode`. */
  datatype SubscriptOnRangeMode =
    | InRange
    | OutOfRangeToTheLeftEmpty
    | OutOfRangeToTheLeftNonEmpty
    | OutOfRangeToTheRightEmpty
    | OutOfRangeToTheRightNonEmpty
    | OutOfRangeBothSides
    | BaseEndIndex

  /** `_SubSequenceSubscriptOnRangeMode.all`, in declaration order. */
  const AllRangeModes: seq<SubscriptOnRangeMode> :=
    [SubscriptOnRangeMode.InRange, OutOfRangeToTheLeftEmpty, OutOfRangeToTheLeftNonEmpty,
     OutOfRangeToTheRightEmpty, OutOfRangeToTheRightNonEmpty, OutOfRangeBothSides,
     SubscriptOnRangeMode.BaseEndIndex]

  /** Where a mode sits in `_SubSequenceSubscriptOnIndexMode.all`: every
      mode is listed. */
  function IndexModeOrdinal(m: SubscriptOnIndexMode): (k: nat)
    ensures k < |AllIndexModes| && AllIndexModes[k] == m
  {
    match m
    case InRange => 0
    case OutOfRangeToTheLeft => 1
    case OutOfRangeToTheRight => 2
    case BaseEndIndex => 3
    case SliceEndIndex => 4
  }

  /** Where a mode sits in `_SubSequenceSubscriptOnRangeMode.all`: every
      mode is listed. */
  function RangeModeOrdinal(m: SubscriptOnRangeMode): (k: nat)
    ensures k < |AllRangeModes| && AllRangeModes[k] == m
  {
    match m
    case InRange => 0
    case OutOfRangeToTheLeftEmpty => 1
    case OutOfRangeToTheLeftNonEmpty => 2
    case OutOfRangeToTheRightEmpty => 3
    case OutOfRangeToTheRightNonEmpty => 4
    case OutOfRangeBothSides => 5
    case BaseEndIndex => 6
  }

  /** The slice a probe runs against: `[lo, hi)` inside `[0, count]`. */
  predicate SliceWithin(count: int, bounds: Range) {
    0 <= bounds.lowerBound <= bounds.upperBound <= count
  }

  /** What an element-subscript probe does in one mode. */
  datatype IndexProbe = CheckInRange | Skipped | Probe(index: int)

  /** The position an element-subscript mode reads through the slice. The
      left probe is `lo - 1` and needs `lo > 0`; the right probe is the
      position `sliceFromRight` steps before the base's end, which is `hi`,
      and needs `hi < count`; the end probes read `count` and `hi`. */
  function IndexProbeFor(count: int, bounds: Range, mode: SubscriptOnIndexMode): (p: IndexProbe)
    requires SliceWithin(count, bounds)
    ensures p.CheckInRange? <==> mode == SubscriptOnIndexMode.InRange
    ensures p.Skipped? <==> (mode == OutOfRangeToTheLeft && bounds.lowerBound == 0)
                            || (mode == OutOfRangeToTheRight && bounds.upperBound == count)
    ensures p.Probe? ==> 0 <= p.index <= count && !bounds.Contains(p.index)
    ensures p.Probe? ==> (p.index == bounds.lowerBound - 1 <==> mode == OutOfRangeToTheLeft)
    ensures mode == SubscriptOnIndexMode.BaseEndIndex ==> p == Probe(count)
    ensures mode == OutOfRangeToTheRight && p.Probe? ==> p.index == bounds.upperBound
    ensures mode == SubscriptOnIndexMode.SliceEndIndex ==> p == Probe(bounds.upperBound)
  {
    var sliceFromLeft := bounds.lowerBound;
    var sliceFromRight := count - bounds.upperBound;
    match mode
    case InRange => CheckInRange
    case OutOfRangeToTheLeft => if sliceFromLeft == 0 then Skipped else Probe(sliceFromLeft - 1)
    case OutOfRangeToTheRight => if sliceFromRight == 0 then Skipped else Probe(count - sliceFromRight)
    case BaseEndIndex => Probe(count)
    case SliceEndIndex => Probe(count - sliceFromRight)
  }

  /** The in-range element checks visit every position `i` of the base whose
      offset lies in `sliceFromLeft..<(count - sliceFromRight)`. */
  predicate IsCheckedIndex(count: int, bounds: Range, i: int) {
    0 <= i < count && bounds.Contains(i)
  }

  /** The in-range checks visit exactly the slice's own positions. */
  lemma CheckedIndicesAreTheSlice(count: int, bounds: Range, i: int)
    requires SliceWithin(count, bounds)
    ensures IsCheckedIndex(count, bounds, i) <==> bounds.Contains(i)
  {
  }

  /** What a range-subscript probe does in one mode. */
  datatype RangeProbe = CheckSubSlices | SkippedRange | ProbeRange(range: Range)

  /** The range a range-subscript mode slices the slice with. */
  function RangeProbeFor(count: int, bounds: Range, mode: SubscriptOnRangeMode): (p: RangeProbe)
    requires SliceWithin(count, bounds)
    ensures p.CheckSubSlices? <==> mode == SubscriptOnRangeMode.InRange
    ensures p.SkippedRange? <==>
              || (mode in {OutOfRangeToTheLeftEmpty, OutOfRangeToTheLeftNonEmpty} && bounds.lowerBound == 0)
              || (mode in {OutOfRangeToTheRightEmpty, OutOfRangeToTheRightNonEmpty, SubscriptOnRangeMode.BaseEndIndex}
                  && bounds.upperBound == count)
              || (mode == OutOfRangeBothSides && (bounds.lowerBound == 0 || bounds.upperBound == count))
    ensures p.ProbeRange? ==> && p.range.Valid()
                              && 0 <= p.range.lowerBound && p.range.upperBound <= count
                              && !(bounds.lowerBound <= p.range.lowerBound && p.range.upperBound <= bounds.upperBound)
    ensures p.ProbeRange? && mode in {OutOfRangeToTheLeftEmpty, OutOfRangeToTheRightEmpty}
            ==> p.range.lowerBound == p.range.upperBound
    ensures p.ProbeRange? && mode in {OutOfRangeToTheLeftNonEmpty, OutOfRangeToTheRightNonEmpty, OutOfRangeBothSides}
            ==> p.range.lowerBound < p.range.upperBound
  {
    var sliceFromLeft := bounds.lowerBound;
    var sliceFromRight := count - bounds.upperBound;
    var sliceStartIndex := sliceFromLeft;
    var sliceEndIndex := count - sliceFromRight;
    match mode
    case InRange => CheckSubSlices
    case OutOfRangeToTheLeftEmpty =>
      if sliceFromLeft == 0 then SkippedRange
      else ProbeRange(Range(sliceFromLeft - 1, sliceFromLeft - 1))
    case OutOfRangeToTheLeftNonEmpty =>
      if sliceFromLeft == 0 then SkippedRange
      else ProbeRange(Range(sliceFromLeft - 1, sliceStartIndex))
    case OutOfRangeToTheRightEmpty =>
      if sliceFromRight == 0 then SkippedRange
      else ProbeRange(Range(count - sliceFromRight + 1, count - sliceFromRight + 1))
    case OutOfRangeToTheRightNonEmpty =>
      if sliceFromRight == 0 then SkippedRange
      else ProbeRange(Range(sliceEndIndex, count - sliceFromRight + 1))
    case OutOfRangeBothSides =>
      if sliceFromLeft == 0 || sliceFromRight == 0 then SkippedRange
      else ProbeRange(Range(sliceFromLeft - 1, count - sliceFromRight + 1))
    case BaseEndIndex =>
      if sliceFromRight == 0 then SkippedRange
      else ProbeRange(Range(sliceEndIndex, count))
  }

  /** The in-range sub-slice checks visit `[i, j)` for positions `i`, `j` of
      `base.indices` (so both below `count`) with `i <= j` and both offsets in
      `sliceFromLeft..<(count - sliceFromRight + 1)`. */
  predicate IsCheckedSubSlice(count: int, bounds: Range, i: int, j: int) {
    && 0 <= i < count && 0 <= j < count
    && i <= j
    && bounds.lowerBound <= i <= bounds.upperBound
    && bounds.lowerBound <= j <= bounds.upperBound
  }

  /** Every checked sub-slice lies within the slice; but because the
      endpoints are drawn from `base.indices`, a sub-slice ending at the
      base's end is never checked, even when the slice itself ends there. */
  lemma CheckedSubSlicesStopShortOfBaseEnd(count: int, bounds: Range, i: int, j: int)
    requires SliceWithin(count, bounds)
    ensures IsCheckedSubSlice(count, bounds, i, j) ==> Range(i, j).Valid() && bounds.lowerBound <= i && j <= bounds.upperBound
    ensures !IsCheckedSubSlice(count, bounds, i, count)
    ensures bounds.lowerBound <= i <= j <= bounds.upperBound && j < count ==> IsCheckedSubSlice(count, bounds, i, j)
  {
  }
}
