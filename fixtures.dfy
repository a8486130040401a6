/** The literal test-data tables of the collection harness and the invariant
    each entry keeps between its input and its expected output. */
module Fixtures {
  import opened Outcomes
  import opened MutableCollection
  import opened Reference

  /** `SubscriptRangeTest`: slicing `collection` to `bounds` (offsets from the
      start) yields `expected`; `count` is the collection's length. */
  datatype SubscriptRangeTest = SubscriptRangeTest(expected: seq<int>, collection: seq<int>, bounds: Range, count: int) {

    /** What the registered tests read of an entry: its bounds lie in its
        collection and `count` is the collection's length. */
    predicate Shaped() {
      && 0 <= bounds.lowerBound <= bounds.upperBound <= |collection|
      && count == |collection|
    }

    /** The entry is shaped and `expected` is what its bounds select. */
    predicate WellFormed() {
      && Shaped()
      && expected == collection[bounds.lowerBound..bounds.upperBound]
    }

    predicate IsEmpty() {
      count == 0
    }

    /** `bounds(in: c)`: the fixture's offsets turned into positions of `c` by
        stepping from `c.startIndex`. */
    function BoundsIn(c: View): Outcome<Range> {
      match c.IndexOffsetBy(bounds.lowerBound, c.startIndex)
      case Returns(lower) =>
        (match c.IndexOffsetBy(bounds.upperBound, c.startIndex)
         case Returns(upper) => MakeRange(lower, upper)
         case other => other.PropagateMisuse())
      case other => other.PropagateMisuse()
    }
  }

  /** `PrefixThroughTest`: `prefix(through:)` the element at offset `position`. */
  datatype PrefixThroughTest = PrefixThroughTest(collection: seq<int>, position: int, expected: seq<int>) {
    predicate WellFormed() {
      0 <= position < |collection| && expected == collection[..position + 1]
    }
  }

  /** `PrefixUpToTest`: `prefix(upTo:)` the position at offset `end`. */
  datatype PrefixUpToTest = PrefixUpToTest(collection: seq<int>, end: int, expected: seq<int>) {
    predicate WellFormed() {
      0 <= end <= |collection| && expected == collection[..end]
    }
  }

  /** `SuffixFromTest`: `suffix(from:)` the position at offset `start`. */
  datatype SuffixFromTest = SuffixFromTest(collection: seq<int>, start: int, expected: seq<int>) {
    predicate WellFormed() {
      0 <= start <= |collection| && expected == collection[start..]
    }
  }

  /** `RemoveFirstNTest`: removing `numberToRemove` elements from the front. */
  datatype RemoveFirstNTest = RemoveFirstNTest(collection: seq<int>, numberToRemove: int, expectedCollection: seq<int>) {
    predicate WellFormed() {
      0 <= numberToRemove <= |collection| && expectedCollection == collection[numberToRemove..]
    }
  }

  /** The shape of a `removeLastTests` entry: removing `numberToRemove`
      elements from the back. */
  datatype RemoveLastNTest = RemoveLastNTest(collection: seq<int>, numberToRemove: int, expectedCollection: seq<int>) {
    predicate WellFormed() {
      0 <= numberToRemove <= |collection| && expectedCollection == collection[..|collection| - numberToRemove]
    }
  }

  /** `subscriptRangeTests` as written. Every entry but one keeps its
      invariant; the entry at index 13 ("slice the middle part") pairs
      `expected: [3030]` with bounds `3..<4` of `[1010, 2020, 3030, 4040]`,
      which select `[4040]`. Every entry, that one included, is shaped. */
  function SubscriptRangeTestsAsWritten(): (tests: seq<SubscriptRangeTest>)
    ensures |tests| == 15
    ensures forall k :: 0 <= k < |tests| && k != 13 ==> tests[k].WellFormed()
    ensures forall k :: 0 <= k < |tests| ==> tests[k].Shaped()
    ensures forall t :: t in tests ==> t.Shaped()
    ensures tests[13].collection == [1010, 2020, 3030, 4040] && tests[13].bounds == Range(3, 4)
    ensures tests[13].expected == [3030]
  {
    [
      // Slice an empty collection.
      SubscriptRangeTest([], [], Range(0, 0), 0),
      // Slice to the full extent.
      SubscriptRangeTest([1010], [1010], Range(0, 1), 1),
      SubscriptRangeTest([1010, 2020, 3030], [1010, 2020, 3030], Range(0, 3), 3),
      SubscriptRangeTest([1010, 2020, 3030, 4040, 5050], [1010, 2020, 3030, 4040, 5050], Range(0, 5), 5),
      // Slice an empty prefix.
      SubscriptRangeTest([], [1010, 2020, 3030], Range(0, 0), 3),
      // Slice a prefix.
      SubscriptRangeTest([1010, 2020], [1010, 2020, 3030], Range(0, 2), 3),
      SubscriptRangeTest([1010, 2020], [1010, 2020, 3030, 4040, 5050], Range(0, 2), 5),
      // Slice an empty suffix.
      SubscriptRangeTest([], [1010, 2020, 3030], Range(3, 3), 3),
      // Slice a suffix.
      SubscriptRangeTest([2020, 3030], [1010, 2020, 3030], Range(1, 3), 3),
      SubscriptRangeTest([4040, 5050], [1010, 2020, 3030, 4040, 5050], Range(3, 5), 5),
      // Slice an empty range in the middle.
      SubscriptRangeTest([], [1010, 2020, 3030], Range(1, 1), 3),
      SubscriptRangeTest([], [1010, 2020, 3030], Range(2, 2), 3),
      // Slice the middle part.
      SubscriptRangeTest([2020], [1010, 2020, 3030], Range(1, 2), 3),
      SubscriptRangeTest([3030], [1010, 2020, 3030, 4040], Range(3, 4), 4),
      SubscriptRangeTest([2020, 3030, 4040], [1010, 2020, 3030, 4040, 5050, 6060], Range(1, 4), 6)
    ]
  }

  /** The entry at index 13 of the table as written breaks its invariant:
      its bounds select `[4040]`, and it expects `[3030]`. */
  lemma AsWrittenEntryIsInconsistent()
    ensures !SubscriptRangeTestsAsWritten()[13].WellFormed()
    ensures SubscriptRangeTestsAsWritten()[13].collection[3..4] == [4040]
  {
    var t := SubscriptRangeTestsAsWritten()[13];
    assert t.collection[3..4][0] == 4040;
  }

  /** `subscriptRangeTests` with the entry at index 13 expecting `[4040]`, the
      element its bounds select: the table the commented-out comparison of
      slice contents against `expected` would need. */
  function SubscriptRangeTests(): (tests: seq<SubscriptRangeTest>)
    ensures |tests| == 15
    ensures forall t :: t in tests ==> t.WellFormed()
  {
    SubscriptRangeTestsAsWritten()[13 := SubscriptRangeTest([4040], [1010, 2020, 3030, 4040], Range(3, 4), 4)]
  }

  /** The correction touches nothing the registered tests read: every entry
      keeps its collection, bounds and count, and only `expected` of entry 13
      differs. */
  lemma CorrectionOnlyChangesExpected()
    ensures |SubscriptRangeTests()| == |SubscriptRangeTestsAsWritten()|
    ensures forall k :: 0 <= k < |SubscriptRangeTests()| ==>
              && SubscriptRangeTests()[k].collection == SubscriptRangeTestsAsWritten()[k].collection
              && SubscriptRangeTests()[k].bounds == SubscriptRangeTestsAsWritten()[k].bounds
              && SubscriptRangeTests()[k].count == SubscriptRangeTestsAsWritten()[k].count
    ensures forall k :: 0 <= k < |SubscriptRangeTests()| && k != 13 ==> SubscriptRangeTests()[k] == SubscriptRangeTestsAsWritten()[k]
  {
  }

  /** `prefixUpToTests`. */
  function PrefixUpToTests(): (tests: seq<PrefixUpToTest>)
    ensures |tests| == 3
    ensures forall t :: t in tests ==> t.WellFormed()
  {
    [
      PrefixUpToTest([], 0, []),
      PrefixUpToTest([1010, 2020, 3030, 4040, 5050], 3, [1010, 2020, 3030]),
      PrefixUpToTest([1010, 2020, 3030, 4040, 5050], 5, [1010, 2020, 3030, 4040, 5050])
    ]
  }

  /** `prefixThroughTests`. */
  function PrefixThroughTests(): (tests: seq<PrefixThroughTest>)
    ensures |tests| == 3
    ensures forall t :: t in tests ==> t.WellFormed()
  {
    [
      PrefixThroughTest([1010, 2020, 3030, 4040, 5050], 0, [1010]),
      PrefixThroughTest([1010, 2020, 3030, 4040, 5050], 2, [1010, 2020, 3030]),
      PrefixThroughTest([1010, 2020, 3030, 4040, 5050], 4, [1010, 2020, 3030, 4040, 5050])
    ]
  }

  /** `suffixFromTests`. */
  function SuffixFromTests(): (tests: seq<SuffixFromTest>)
    ensures |tests| == 4
    ensures forall t :: t in tests ==> t.WellFormed()
  {
    [
      SuffixFromTest([], 0, []),
      SuffixFromTest([1010, 2020, 3030, 4040, 5050], 0, [1010, 2020, 3030, 4040, 5050]),
      SuffixFromTest([1010, 2020, 3030, 4040, 5050], 3, [4040, 5050]),
      SuffixFromTest([1010, 2020, 3030, 4040, 5050], 5, [])
    ]
  }

  /** `removeFirstTests`. */
  function RemoveFirstTests(): (tests: seq<RemoveFirstNTest>)
    ensures |tests| == 8
    ensures forall t :: t in tests ==> t.WellFormed()
  {
    [
      RemoveFirstNTest([1010], 0, [1010]),
      RemoveFirstNTest([1010], 1, []),
      RemoveFirstNTest([1010, 2020, 3030, 4040, 5050], 0, [1010, 2020, 3030, 4040, 5050]),
      RemoveFirstNTest([1010, 2020, 3030, 4040, 5050], 1, [2020, 3030, 4040, 5050]),
      RemoveFirstNTest([1010, 2020, 3030, 4040, 5050], 2, [3030, 4040, 5050]),
      RemoveFirstNTest([1010, 2020, 3030, 4040, 5050], 3, [4040, 5050]),
      RemoveFirstNTest([1010, 2020, 3030, 4040, 5050], 4, [5050]),
      RemoveFirstNTest([1010, 2020, 3030, 4040, 5050], 5, [])
    ]
  }

  /** For a well-formed entry, `isEmpty` holds exactly when the collection
      has no elements, and `first`/`last` of the collection built from it are
      absent exactly then and otherwise its first and last elements. */
  lemma EmptinessAndEnds(t: SubscriptRangeTest, reactions: Reactions)
    requires t.WellFormed()
    ensures t.IsEmpty() <==> t.collection == []
    ensures Make(t.collection, reactions).IsEmpty() == t.IsEmpty()
    ensures Make(t.collection, reactions).Count() == t.count
    ensures t.IsEmpty() ==> Make(t.collection, reactions).First().None?
    ensures !t.IsEmpty() ==> Make(t.collection, reactions).First() == Some(t.collection[0])
    ensures t.IsEmpty() ==> Make(t.collection, reactions).Last().None?
    ensures !t.IsEmpty() ==> Make(t.collection, reactions).Last() == Some(t.collection[t.count - 1])
  {
  }

  /** `bounds(in:)` steps the fixture's offsets from the start of any
      collection at least as long as the fixture's, and the slice built from
      it starts and ends at those positions. Built over the fixture's own
      collection, that slice holds exactly `expected`. */
  lemma BoundsInSlice(t: SubscriptRangeTest, c: View)
    requires t.WellFormed() && c.Valid() && |t.collection| <= c.Count()
    ensures t.BoundsIn(c) == Returns(Range(c.startIndex + t.bounds.lowerBound, c.startIndex + t.bounds.upperBound))
    ensures c.SubscriptRange(t.BoundsIn(c).value).Returns?
    ensures c.SubscriptRange(t.BoundsIn(c).value).value.startIndex == t.BoundsIn(c).value.lowerBound
    ensures c.SubscriptRange(t.BoundsIn(c).value).value.endIndex == t.BoundsIn(c).value.upperBound
    ensures c.Elements() == t.collection ==> c.SubscriptRange(t.BoundsIn(c).value).value.Elements() == t.expected
  {
  }
}
