/** The index, range-check and get/set contract of a mutable collection:
    `startIndex`/`endIndex`, `successor(of:)`/`formSuccessor(_:)`, the element
    subscript, the two `_failEarlyRangeCheck` hooks and the default
    `subscript(bounds:)` getter. Positions and elements are `int`. */
module MutableCollection {
  import opened Outcomes

  /** `Range<Index>`, the half-open interval `lowerBound..<upperBound`. */
  datatype Range = Range(lowerBound: int, upperBound: int) {

    /** Every range formed with `..<` has `lowerBound <= upperBound`. */
    predicate Valid() {
      lowerBound <= upperBound
    }

    /** `Range.contains`: `upperBound` itself is not contained. */
    predicate Contains(i: int) {
      lowerBound <= i < upperBound
    }
  }

  /** `lower..<upper`; the operator traps when `upper < lower`. */
  function MakeRange(lower: int, upper: int): (r: Outcome<Range>)
    ensures r.Returns? <==> lower <= upper
    ensures r.Returns? ==> r.value.Valid() && r.value == Range(lower, upper)
    ensures !r.ReportsFailure?
  {
    if lower <= upper then Returns(Range(lower, upper)) else Traps
  }

  /** The condition `_failEarlyRangeCheck(index:bounds:)` checks. */
  predicate IndexInBounds(index: int, bounds: Range) {
    bounds.Contains(index)
  }

  /** The condition `_failEarlyRangeCheck(range:bounds:)` checks: each bound of
      `range` is contained in `bounds` or equals `bounds.upperBound`. */
  predicate RangeInBounds(range: Range, bounds: Range) {
    && (bounds.Contains(range.lowerBound) || range.lowerBound == bounds.upperBound)
    && (bounds.Contains(range.upperBound) || range.upperBound == bounds.upperBound)
  }

  /** Traversal strength of the index type. The default range checks are
      no-ops for forward and bidirectional indices and real checks for random
      access indices. */
  datatype Traversal = Forward | Bidirectional | RandomAccess

  predicate PerformsRangeChecks(t: Traversal) {
    t == RandomAccess
  }

  /** `_failEarlyRangeCheck(index:bounds:)`: `precondition(bounds.contains(index))`
      when the check is performed, a no-op otherwise. */
  function FailEarlyRangeCheckIndex(t: Traversal, index: int, bounds: Range): (o: Outcome<()>)
    ensures o.Returns? || o.Traps?
    ensures !PerformsRangeChecks(t) ==> o.Returns?
    ensures o.Returns? ==> !PerformsRangeChecks(t) || bounds.Contains(index)
  {
    if PerformsRangeChecks(t) && !IndexInBounds(index, bounds) then Traps else Returns(())
  }

  /** `_failEarlyRangeCheck(range:bounds:)`: the two endpoint preconditions when
      the check is performed, a no-op otherwise. */
  function FailEarlyRangeCheckRange(t: Traversal, range: Range, bounds: Range): (o: Outcome<()>)
    ensures o.Returns? || o.Traps?
    ensures !PerformsRangeChecks(t) ==> o.Returns?
    ensures o.Returns? && PerformsRangeChecks(t) && range.Valid() && bounds.Valid()
            ==> bounds.lowerBound <= range.lowerBound && range.upperBound <= bounds.upperBound
  {
    if PerformsRangeChecks(t) && !RangeInBounds(range, bounds) then Traps else Returns(())
  }

  /** The index check never reports a recoverable failure; a performed check
      rejects exactly the positions outside `bounds`, `bounds.upperBound`
      included, and a skipped check rejects nothing. */
  lemma IndexCheckRejectsOutside(t: Traversal, index: int, bounds: Range)
    ensures FailEarlyRangeCheckIndex(t, index, bounds) != ReportsFailure
    ensures FailEarlyRangeCheckIndex(t, index, bounds) == Traps
            <==> t == RandomAccess && (index < bounds.lowerBound || bounds.upperBound <= index)
    ensures t == RandomAccess ==> FailEarlyRangeCheckIndex(t, bounds.upperBound, bounds) == Traps
  {
  }

  /** For well-formed ranges the performed range check accepts exactly the
      ranges contained in the closed interval `[bounds.lowerBound, bounds.upperBound]`. */
  lemma RangeCheckIsContainment(t: Traversal, range: Range, bounds: Range)
    requires range.Valid() && bounds.Valid()
    ensures FailEarlyRangeCheckRange(t, range, bounds) != ReportsFailure
    ensures FailEarlyRangeCheckRange(t, range, bounds) == Traps
            <==> t == RandomAccess
                 && !(bounds.lowerBound <= range.lowerBound && range.upperBound <= bounds.upperBound)
  {
  }

  /** The range check admits `bounds.upperBound` as an endpoint, the index check
      does not: the empty range at the end passes one and its position fails
      the other. */
  lemma EmptyRangeAtEndPassesRangeCheckOnly(bounds: Range)
    requires bounds.Valid()
    ensures FailEarlyRangeCheckRange(RandomAccess, Range(bounds.upperBound, bounds.upperBound), bounds) == Returns(())
    ensures FailEarlyRangeCheckIndex(RandomAccess, bounds.upperBound, bounds) == Traps
  {
  }

  /** `MutableSlice(base:bounds:)`: a view that shares its base's storage and
      its base's positions. */
  datatype MutableSlice = MutableSlice(base: seq<int>, bounds: Range) {

    function StartIndex(): int {
      bounds.lowerBound
    }

    function EndIndex(): int {
      bounds.upperBound
    }

    predicate WithinBase() {
      0 <= bounds.lowerBound <= bounds.upperBound <= |base|
    }

    function Elements(): seq<int>
      requires WithinBase()
    {
      base[bounds.lowerBound..bounds.upperBound]
    }
  }

  /** A mutable collection whose storage is a sequence of elements. */
  class SeqCollection {
    var elements: seq<int>
    const traversal: Traversal

    constructor (elements: seq<int>, traversal: Traversal)
      ensures this.elements == elements && this.traversal == traversal
    {
      this.elements := elements;
      this.traversal := traversal;
    }

    /** The position of the first element in a non-empty collection. */
    function StartIndex(): int
      reads this
    {
      0
    }

    /** The "past the end" position. */
    function EndIndex(): int
      reads this
    {
      |elements|
    }

    /** Valid indices: the position of every element and `endIndex`. */
    predicate IsValidIndex(i: int)
      reads this
    {
      StartIndex() <= i <= EndIndex()
    }

    /** `successor(of:)`: the next valid index; `i` must have one, so it is
        a valid index other than `endIndex`. */
    function Successor(i: int): (j: int)
      reads this
      requires IsValidIndex(i) && i != EndIndex()
      ensures IsValidIndex(j) && i < j
      ensures forall k :: i < k < j ==> !IsValidIndex(k)
    {
      i + 1
    }

    /** `formSuccessor(_:)`: advances an `inout` index in place to its successor. */
    method FormSuccessor(i: int) returns (next: int)
      requires IsValidIndex(i) && i != EndIndex()
      ensures next == Successor(i)
    {
      next := i + 1;
    }

    /** `n` applications of `successor(of:)` starting at `i`. */
    function Advanced(i: int, n: nat): int
      reads this
      requires IsValidIndex(i) && i + n <= EndIndex()
      decreases n
    {
      if n == 0 then i else Advanced(Successor(i), n - 1)
    }

    lemma {:induction false} AdvancedIsOffset(i: int, n: nat)
      requires IsValidIndex(i) && i + n <= EndIndex()
      ensures Advanced(i, n) == i + n
      decreases n
    {
      if n != 0 {
        AdvancedIsOffset(Successor(i), n - 1);
      }
    }

    /** `endIndex` is reachable from `startIndex` by zero or more applications
        of `successor(of:)`, one per element, and so is every valid index. */
    lemma EndReachableFromStart(i: int)
      requires IsValidIndex(i)
      ensures Advanced(StartIndex(), |elements|) == EndIndex()
      ensures Advanced(StartIndex(), i - StartIndex()) == i
    {
      AdvancedIsOffset(StartIndex(), |elements|);
      AdvancedIsOffset(StartIndex(), i - StartIndex());
    }

    /** In an empty collection `startIndex == endIndex`, and only there. */
    lemma EmptyIffStartIsEnd()
      ensures elements == [] <==> StartIndex() == EndIndex()
    {
    }

    /** The element subscript getter: `position` must be a valid index other
        than `endIndex`, and the value read is one of the stored elements;
        `Set` and `AssignThenRead` say which one. */
    function Get(position: int): (x: int)
      reads this
      requires IsValidIndex(position) && position != EndIndex()
      ensures x in elements
    {
      elements[position]
    }

    /** The element subscript setter. */
    method Set(position: int, x: int)
      requires IsValidIndex(position) && position != EndIndex()
      modifies this
      ensures elements == old(elements)[position := x]
      ensures StartIndex() == old(StartIndex()) && EndIndex() == old(EndIndex())
      ensures Get(position) == x
      ensures forall p :: IsValidIndex(p) && p != EndIndex() && p != position ==> Get(p) == old(Get(p))
    {
      elements := elements[position := x];
    }

    /** The default `subscript(bounds:)` getter: `_failEarlyRangeCheck` of
        `bounds` against `startIndex..<endIndex`, then a slice over `self`
        with exactly those bounds. */
    function Slice(bounds: Range): (r: Outcome<MutableSlice>)
      reads this
      requires bounds.Valid()
      ensures !r.ReportsFailure?
      ensures r.Returns? ==> r.value.base == elements && r.value.StartIndex() == bounds.lowerBound
                             && r.value.EndIndex() == bounds.upperBound
      ensures PerformsRangeChecks(traversal)
              ==> (r.Returns? <==> StartIndex() <= bounds.lowerBound && bounds.upperBound <= EndIndex())
      ensures PerformsRangeChecks(traversal) && r.Returns?
              ==> r.value.WithinBase()
                  && forall p :: bounds.Contains(p) ==> r.value.Elements()[p - bounds.lowerBound] == Get(p)
      ensures !PerformsRangeChecks(traversal) ==> r.Returns?
    {
      var whole := Range(StartIndex(), EndIndex());
      if FailEarlyRangeCheckRange(traversal, bounds, whole).Returns?
      then Returns(MutableSlice(elements, bounds))
      else Traps
    }
  }

  /** The get/set law: `a[i] = x; let y = a[i]` is `a[i] = x; let y = x`. */
  method AssignThenRead(a: SeqCollection, i: int, x: int) returns (y: int)
    requires a.IsValidIndex(i) && i != a.EndIndex()
    modifies a
    ensures y == x
    ensures a.elements == old(a.elements)[i := x]
  {
    a.Set(i, x);
    y := a.Get(i);
  }
}
