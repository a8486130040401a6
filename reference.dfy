/** The collection under test, as the conformance harness sees it: a base
    sequence of elements and a window `[startIndex, endIndex)` over it.
    `makeWrappedCollection` yields the full window; slicing narrows the
    window and keeps the base's positions, so a position of a slice is a
    position of its base. Misuse (an out-of-bounds index, subscript or range)
    either traps or reports a recoverable failure, per category. */
module Reference {
  import opened Outcomes
  import opened MutableCollection

  /** How a collection answers one kind of misuse. */
  datatype Reaction = Crash | Report

  /** One reaction per misuse category the harness probes: creating an
      out-of-bounds index, the element subscript, and the range subscript. */
  datatype Reactions = Reactions(creatingIndex: Reaction, subscriptIndex: Reaction, subscriptRange: Reaction)

  const AllCrash := Reactions(Crash, Crash, Crash)

  function Misuse<T>(r: Reaction): (o: Outcome<T>)
    ensures o.IsMisuse() && (o.Traps? <==> r == Crash)
  {
    if r == Crash then Traps else ReportsFailure
  }

  datatype View = View(base: seq<int>, startIndex: int, endIndex: int, reactions: Reactions) {

    predicate Valid() {
      0 <= startIndex <= endIndex <= |base|
    }

    function Bounds(): Range {
      Range(startIndex, endIndex)
    }

    function Elements(): seq<int>
      requires Valid()
    {
      base[startIndex..endIndex]
    }

    function Count(): int {
      endIndex - startIndex
    }

    predicate IsEmpty() {
      startIndex == endIndex
    }

    /** `index(n, stepsFrom: i)`: the position `n` steps from `i`; both must
        lie in `[startIndex, endIndex]`. */
    function IndexOffsetBy(n: int, i: int): (r: Outcome<int>)
      ensures r.Returns? <==> startIndex <= i <= endIndex && startIndex <= i + n <= endIndex
      ensures r.Returns? ==> r.value - i == n
      ensures r.IsMisuse() ==> r == Misuse(reactions.creatingIndex)
    {
      if startIndex <= i <= endIndex && startIndex <= i + n <= endIndex
      then Returns(i + n)
      else Misuse(reactions.creatingIndex)
    }

    /** `successor(of:)`, defined for every position but `endIndex`. */
    function Successor(i: int): (j: int)
      requires startIndex <= i < endIndex
      ensures IndexOffsetBy(1, i) == Returns(j)
    {
      i + 1
    }

    /** `self[i]`: the position must be contained in `startIndex..<endIndex`. */
    function Subscript(i: int): (r: Outcome<int>)
      requires Valid()
      ensures r.Returns? <==> startIndex <= i < endIndex
      ensures r.Returns? ==> r.value == base[i] && r.value == Elements()[i - startIndex]
      ensures r.IsMisuse() ==> r == Misuse(reactions.subscriptIndex)
    {
      if IndexInBounds(i, Bounds()) then Returns(base[i]) else Misuse(reactions.subscriptIndex)
    }

    /** `self[range]`: the range check of `_failEarlyRangeCheck(range:bounds:)`,
        then a slice sharing this view's base and positions. */
    function SubscriptRange(r: Range): (o: Outcome<View>)
      requires Valid() && r.Valid()
      ensures o.Returns? <==> startIndex <= r.lowerBound && r.upperBound <= endIndex
      ensures o.Returns? ==> && o.value.Valid()
                             && o.value.base == base && o.value.reactions == reactions
                             && o.value.Bounds() == r
                             && o.value.Elements() == Elements()[r.lowerBound - startIndex..r.upperBound - startIndex]
      ensures o.IsMisuse() ==> o == Misuse(reactions.subscriptRange)
    {
      RangeCheckIsContainment(RandomAccess, r, Bounds());
      if RangeInBounds(r, Bounds())
      then Returns(View(base, r.lowerBound, r.upperBound, reactions))
      else Misuse(reactions.subscriptRange)
    }

    /** `indices`: the positions from `startIndex` to `endIndex`, one per
        element; exactly the positions the element subscript reads. */
    function Indices(): (r: Range)
      requires Valid()
      ensures r.upperBound - r.lowerBound == Count() == |Elements()|
      ensures forall i :: r.Contains(i) <==> Subscript(i).Returns?
    {
      Bounds()
    }

    /** `first`: absent exactly when the view is empty. */
    function First(): (r: Option<int>)
      requires Valid()
      ensures r.None? <==> Elements() == []
      ensures r.Some? ==> r.value == Elements()[0]
    {
      if IsEmpty() then None else Some(base[startIndex])
    }

    /** `last`: absent exactly when the view is empty. */
    function Last(): (r: Option<int>)
      requires Valid()
      ensures r.None? <==> Elements() == []
      ensures r.Some? ==> r.value == Elements()[|Elements()| - 1]
    {
      if IsEmpty() then None else Some(base[endIndex - 1])
    }

    /** `prefix(upTo: end)`: `self[startIndex..<end]`. */
    function PrefixUpTo(end: int): (o: Outcome<View>)
      requires Valid()
      ensures o.Returns? <==> startIndex <= end <= endIndex
      ensures o.Returns? ==> o.value.Valid() && o.value.Elements() == Elements()[..end - startIndex]
    {
      match MakeRange(startIndex, end)
      case Returns(r) => SubscriptRange(r)
      case _ => Traps
    }

    /** `prefix(through: position)`: `prefix(upTo: index(after: position))`. */
    function PrefixThrough(position: int): (o: Outcome<View>)
      requires Valid()
      ensures o.Returns? <==> startIndex <= position < endIndex
      ensures o.Returns? ==> o.value.Valid() && o.value.Elements() == Elements()[..position - startIndex + 1]
    {
      match IndexOffsetBy(1, position)
      case Returns(after) => PrefixUpTo(after)
      case _ => Misuse(reactions.creatingIndex)
    }

    /** `suffix(from: start)`: `self[start..<endIndex]`. */
    function SuffixFrom(start: int): (o: Outcome<View>)
      requires Valid()
      ensures o.Returns? <==> startIndex <= start <= endIndex
      ensures o.Returns? ==> o.value.Valid() && o.value.Elements() == Elements()[start - startIndex..]
    {
      match MakeRange(start, endIndex)
      case Returns(r) => SubscriptRange(r)
      case _ => Traps
    }

    /** Reads every position of `positions` through this view: a read
        succeeds exactly at the view's element positions and yields the
        element there, any other read is the element-subscript misuse, and
        reading the view's positions in order yields its elements. */
    function ReadAll(positions: seq<int>): (r: seq<Outcome<int>>)
      requires Valid()
      ensures |r| == |positions|
      ensures forall k :: 0 <= k < |r| ==> (r[k].Returns? <==> startIndex <= positions[k] < endIndex)
      ensures forall k :: 0 <= k < |r| && r[k].Returns? ==> r[k].value == Elements()[positions[k] - startIndex]
      ensures forall k :: 0 <= k < |r| && !r[k].Returns? ==> r[k] == Misuse(reactions.subscriptIndex)
      ensures |positions| == Count() && (forall k :: 0 <= k < |positions| ==> positions[k] == startIndex + k)
              ==> r == AllReturn(Elements())
    {
      seq(|positions|, k requires 0 <= k < |positions| => Subscript(positions[k]))
    }
  }

  /** `makeWrappedCollection`: the full window over `elements`. */
  function Make(elements: seq<int>, reactions: Reactions): (c: View)
    ensures c.Valid() && c.Elements() == elements && c.startIndex == 0 && c.Count() == |elements|
    ensures c.reactions == reactions
  {
    View(elements, 0, |elements|, reactions)
  }

  /** The values of `xs`, each as a successful read. */
  function AllReturn(xs: seq<int>): (r: seq<Outcome<int>>)
    ensures |r| == |xs| && forall k :: 0 <= k < |r| ==> r[k] == Returns(xs[k])
  {
    seq(|xs|, k requires 0 <= k < |xs| => Returns(xs[k]))
  }

  /** A collection built over the elements of a `SeqCollection` with random
      access indices agrees with it on positions, element reads and the
      range subscript. */
  lemma MakeAgreesWithSeqCollection(a: SeqCollection, reactions: Reactions, p: int, bounds: Range)
    requires a.traversal == RandomAccess && bounds.Valid()
    ensures Make(a.elements, reactions).startIndex == a.StartIndex()
    ensures Make(a.elements, reactions).endIndex == a.EndIndex()
    ensures a.IsValidIndex(p) && p != a.EndIndex() ==> Make(a.elements, reactions).Subscript(p) == Returns(a.Get(p))
    ensures Make(a.elements, reactions).SubscriptRange(bounds).Returns? <==> a.Slice(bounds).Returns?
    ensures a.Slice(bounds).Returns?
            ==> a.Slice(bounds).value.Elements() == Make(a.elements, reactions).SubscriptRange(bounds).value.Elements()
  {
  }

  /** A slice the harness mutates in place (`var slice = c[...]`): it shares
      the sliced collection's storage, which it never writes, and narrows its
      own window. */
  class SubSequence {
    const base: seq<int>
    const reactions: Reactions
    var startIndex: int
    var endIndex: int

    ghost predicate Valid()
      reads this
    {
      0 <= startIndex <= endIndex <= |base|
    }

    /** The slice's current value. */
    function Value(): (v: View)
      reads this
      ensures v.base == base && v.startIndex == startIndex && v.endIndex == endIndex
    {
      View(base, startIndex, endIndex, reactions)
    }

    constructor (v: View)
      requires v.Valid()
      ensures Valid() && Value() == v
    {
      base, reactions := v.base, v.reactions;
      startIndex, endIndex := v.startIndex, v.endIndex;
    }

    /** `removeFirst()`: traps on an empty slice; otherwise returns the first
        element and drops it. */
    method RemoveFirst() returns (r: Outcome<int>)
      requires Valid()
      modifies this
      ensures Valid() && endIndex == old(endIndex)
      ensures !r.ReportsFailure?
      ensures r.Traps? <==> old(Value().IsEmpty())
      ensures r.Traps? ==> startIndex == old(startIndex)
      ensures r.Returns? ==> && startIndex == old(startIndex) + 1
                             && r.value == old(Value().Elements())[0]
                             && Value().Elements() == old(Value().Elements())[1..]
    {
      if startIndex == endIndex {
        return Traps;
      }
      r := Returns(base[startIndex]);
      startIndex := startIndex + 1;
    }

    /** `removeFirst(n)`: traps unless `0 <= n <= count`; otherwise drops the
        first `n` elements (`n == 0` changes nothing). */
    method RemoveFirstN(n: int) returns (r: Outcome<()>)
      requires Valid()
      modifies this
      ensures Valid() && endIndex == old(endIndex)
      ensures !r.ReportsFailure?
      ensures r.Traps? <==> n < 0 || old(Value().Count()) < n
      ensures r.Traps? ==> startIndex == old(startIndex)
      ensures r.Returns? ==> && startIndex == old(startIndex) + n
                             && Value().Elements() == old(Value().Elements())[n..]
    {
      if n < 0 || endIndex - startIndex < n {
        return Traps;
      }
      startIndex := startIndex + n;
      r := Returns(());
    }

    /** `popFirst()`: `nil` on an empty slice, never a trap; otherwise as
        `removeFirst()`. */
    method PopFirst() returns (r: Option<int>)
      requires Valid()
      modifies this
      ensures Valid() && endIndex == old(endIndex)
      ensures r.None? <==> old(Value().IsEmpty())
      ensures r.None? ==> startIndex == old(startIndex)
      ensures r.Some? ==> && startIndex == old(startIndex) + 1
                          && r.value == old(Value().Elements())[0]
                          && Value().Elements() == old(Value().Elements())[1..]
    {
      if startIndex == endIndex {
        return None;
      }
      r := Some(base[startIndex]);
      startIndex := startIndex + 1;
    }

    /** `removeLast()`: traps on an empty slice; otherwise returns the last
        element and drops it. */
    method RemoveLast() returns (r: Outcome<int>)
      requires Valid()
      modifies this
      ensures Valid() && startIndex == old(startIndex)
      ensures !r.ReportsFailure?
      ensures r.Traps? <==> old(Value().IsEmpty())
      ensures r.Traps? ==> endIndex == old(endIndex)
      ensures r.Returns? ==> && endIndex == old(endIndex) - 1
                             && r.value == old(Value().Elements())[old(Value().Count()) - 1]
                             && Value().Elements() == old(Value().Elements())[..old(Value().Count()) - 1]
    {
      if startIndex == endIndex {
        return Traps;
      }
      assert base[startIndex..endIndex - 1] == base[startIndex..endIndex][..endIndex - 1 - startIndex];
      r := Returns(base[endIndex - 1]);
      endIndex := endIndex - 1;
    }

    /** `removeLast(n)`: traps unless `0 <= n <= count`; otherwise drops the
        last `n` elements (`n == 0` changes nothing). */
    method RemoveLastN(n: int) returns (r: Outcome<()>)
      requires Valid()
      modifies this
      ensures Valid() && startIndex == old(startIndex)
      ensures !r.ReportsFailure?
      ensures r.Traps? <==> n < 0 || old(Value().Count()) < n
      ensures r.Traps? ==> endIndex == old(endIndex)
      ensures r.Returns? ==> && endIndex == old(endIndex) - n
                             && Value().Elements() == old(Value().Elements())[..old(Value().Count()) - n]
    {
      if n < 0 || endIndex - startIndex < n {
        return Traps;
      }
      assert base[startIndex..endIndex - n] == base[startIndex..endIndex][..endIndex - n - startIndex];
      endIndex := endIndex - n;
      r := Returns(());
    }

    /** `popLast()`: `nil` on an empty slice, never a trap; otherwise as
        `removeLast()`. */
    method PopLast() returns (r: Option<int>)
      requires Valid()
      modifies this
      ensures Valid() && startIndex == old(startIndex)
      ensures r.None? <==> old(Value().IsEmpty())
      ensures r.None? ==> endIndex == old(endIndex)
      ensures r.Some? ==> && endIndex == old(endIndex) - 1
                          && r.value == old(Value().Elements())[old(Value().Count()) - 1]
                          && Value().Elements() == old(Value().Elements())[..old(Value().Count()) - 1]
    {
      if startIndex == endIndex {
        return None;
      }
      assert base[startIndex..endIndex - 1] == base[startIndex..endIndex][..endIndex - 1 - startIndex];
      r := Some(base[endIndex - 1]);
      endIndex := endIndex - 1;
    }
  }

  /** Removal from either end keeps positions valid: every position still
      inside the narrowed window reads what it read before. */
  lemma SurvivingPositionsReadTheSame(before: View, after: View)
    requires before.Valid() && after.Valid() && after.base == before.base
    requires before.startIndex <= after.startIndex && after.endIndex <= before.endIndex
    ensures forall i :: after.startIndex <= i < after.endIndex ==> after.Subscript(i) == before.Subscript(i)
  {
  }
}
