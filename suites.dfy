/** The three composing tier generators, `addCollectionTests`,
    `addBidirectionalCollectionTests` and `addRandomAccessCollectionTests`:
    which tests each registers under a configuration, how the shared
    `checksAdded` set keeps a tier from registering twice, and which policies
    let every registered test pass against a reference collection. */
module Suites {
  import opened Outcomes
  import opened MutableCollection
  import opened Reference
  import opened Fixtures
  import opened Resiliency
  import opened Probes
  import opened Cases
  import opened TestBodies
  import opened ProbeBodies

  /** The parameters every tier function takes besides the collection
      constructors. */
  datatype Config = Config(resiliencyChecks: ResiliencyChecks, outOfBoundsIndexOffset: int, outOfBoundsSubscriptOffset: int)

  /** The defaults: `.all`, and both offsets `1`. */
  const DefaultConfig := Config(All, 1, 1)

  // ---------------------------------------------------------------------
  // Sub-slice probe generation

  /** Every fixture's slice fits inside its collection. */
  predicate SlicesFit(fixtures: seq<SubscriptRangeTest>) {
    forall t :: t in fixtures ==> SliceWithin(|t.collection|, t.bounds)
  }

  /** `testSubSequenceSubscriptOnIndex` of one fixture: one test per mode,
      so every mode is probed once, on the fixture's collection and bounds,
      waiting for `e`, and no test is registered twice. */
  function IndexModeCases(t: SubscriptRangeTest, e: Expectation): (cases: seq<TestCase>)
    ensures |cases| == |AllIndexModes|
    ensures forall m :: SubSequenceSubscriptOnIndex(t.collection, t.bounds, m, e) in cases
    ensures forall tc :: tc in cases ==> && tc.SubSequenceSubscriptOnIndex?
                                         && tc.elements == t.collection && tc.bounds == t.bounds && tc.expectation == e
    ensures forall i, j :: 0 <= i < j < |cases| ==> cases[i] != cases[j]
  {
    var cases := seq(|AllIndexModes|, k requires 0 <= k < |AllIndexModes| => SubSequenceSubscriptOnIndex(t.collection, t.bounds, AllIndexModes[k], e));
    assert forall m :: cases[IndexModeOrdinal(m)] == SubSequenceSubscriptOnIndex(t.collection, t.bounds, m, e);
    cases
  }

  /** `testSubSequenceSubscriptOnRange` of one fixture: one test per mode,
      so every mode is probed once, on the fixture's collection and bounds,
      waiting for `e`, and no test is registered twice. */
  function RangeModeCases(t: SubscriptRangeTest, e: Expectation): (cases: seq<TestCase>)
    ensures |cases| == |AllRangeModes|
    ensures forall m :: SubSequenceSubscriptOnRange(t.collection, t.bounds, m, e) in cases
    ensures forall tc :: tc in cases ==> && tc.SubSequenceSubscriptOnRange?
                                         && tc.elements == t.collection && tc.bounds == t.bounds && tc.expectation == e
    ensures forall i, j :: 0 <= i < j < |cases| ==> cases[i] != cases[j]
  {
    var cases := seq(|AllRangeModes|, k requires 0 <= k < |AllRangeModes| => SubSequenceSubscriptOnRange(t.collection, t.bounds, AllRangeModes[k], e));
    assert forall m :: cases[RangeModeOrdinal(m)] == SubSequenceSubscriptOnRange(t.collection, t.bounds, m, e);
    cases
  }

  /** `for test in subscriptRangeTests { testSubSequenceSubscriptOnIndex(...) }`:
      one test for each fixture and each mode, all waiting for `e`, and
      nothing else. */
  function IndexProbeCases(fixtures: seq<SubscriptRangeTest>, e: Expectation): (cases: seq<TestCase>)
    requires SlicesFit(fixtures)
    ensures |cases| == |AllIndexModes| * |fixtures|
    ensures forall tc :: tc in cases ==> && tc.SubSequenceSubscriptOnIndex? && tc.expectation == e && tc.WellFormed()
  {
    if fixtures == [] then []
    else
      IndexModeCases(fixtures[0], e) + IndexProbeCases(fixtures[1..], e)
  }

  /** The same for `testSubSequenceSubscriptOnRange`. */
  function RangeProbeCases(fixtures: seq<SubscriptRangeTest>, e: Expectation): (cases: seq<TestCase>)
    requires SlicesFit(fixtures)
    ensures |cases| == |AllRangeModes| * |fixtures|
    ensures forall tc :: tc in cases ==> && tc.SubSequenceSubscriptOnRange? && tc.expectation == e && tc.WellFormed()
  {
    if fixtures == [] then []
    else
      RangeModeCases(fixtures[0], e) + RangeProbeCases(fixtures[1..], e)
  }

  /** Every fixture is probed in every element-subscript mode. */
  lemma {:induction false} IndexProbeCasesCover(fixtures: seq<SubscriptRangeTest>, e: Expectation, t: SubscriptRangeTest, m: SubscriptOnIndexMode)
    requires SlicesFit(fixtures) && t in fixtures
    ensures SubSequenceSubscriptOnIndex(t.collection, t.bounds, m, e) in IndexProbeCases(fixtures, e)
    decreases |fixtures|
  {
    if t == fixtures[0] {
      assert IndexModeCases(t, e)[IndexModeOrdinal(m)] == SubSequenceSubscriptOnIndex(t.collection, t.bounds, m, e);
    } else {
      IndexProbeCasesCover(fixtures[1..], e, t, m);
    }
  }

  /** Every fixture is probed in every range-subscript mode. */
  lemma {:induction false} RangeProbeCasesCover(fixtures: seq<SubscriptRangeTest>, e: Expectation, t: SubscriptRangeTest, m: SubscriptOnRangeMode)
    requires SlicesFit(fixtures) && t in fixtures
    ensures SubSequenceSubscriptOnRange(t.collection, t.bounds, m, e) in RangeProbeCases(fixtures, e)
    decreases |fixtures|
  {
    if t == fixtures[0] {
      assert RangeModeCases(t, e)[RangeModeOrdinal(m)] == SubSequenceSubscriptOnRange(t.collection, t.bounds, m, e);
    } else {
      RangeProbeCasesCover(fixtures[1..], e, t, m);
    }
  }

  /** Probe generation reads each fixture's collection and bounds and nothing
      else: tables that agree on those register the same probes. */
  lemma {:induction false} ProbeCasesIgnoreExpected(a: seq<SubscriptRangeTest>, b: seq<SubscriptRangeTest>, e: Expectation)
    requires SlicesFit(a) && SlicesFit(b) && |a| == |b|
    requires forall k :: 0 <= k < |a| ==> a[k].collection == b[k].collection && a[k].bounds == b[k].bounds
    ensures IndexProbeCases(a, e) == IndexProbeCases(b, e)
    ensures RangeProbeCases(a, e) == RangeProbeCases(b, e)
    decreases |a|
  {
    if a != [] {
      ProbeCasesIgnoreExpected(a[1..], b[1..], e);
      assert IndexModeCases(a[0], e) == IndexModeCases(b[0], e);
      assert RangeModeCases(a[0], e) == RangeModeCases(b[0], e);
    }
  }

  /** The table as written and the corrected one register the same
      sub-slice probes. */
  lemma CorrectionRegistersTheSameProbes(e: Expectation)
    ensures SlicesFit(SubscriptRangeTestsAsWritten()) && SlicesFit(SubscriptRangeTests())
    ensures IndexProbeCases(SubscriptRangeTestsAsWritten(), e) == IndexProbeCases(SubscriptRangeTests(), e)
    ensures RangeProbeCases(SubscriptRangeTestsAsWritten(), e) == RangeProbeCases(SubscriptRangeTests(), e)
  {
    TablesFit();
    CorrectionOnlyChangesExpected();
    ProbeCasesIgnoreExpected(SubscriptRangeTestsAsWritten(), SubscriptRangeTests(), e);
  }

  /** Both versions of `subscriptRangeTests` can drive the probes. */
  lemma TablesFit()
    ensures SlicesFit(SubscriptRangeTestsAsWritten()) && SlicesFit(SubscriptRangeTests())
  {
  }

  // ---------------------------------------------------------------------
  // The misuse blocks

  /** The `Index` block of one edge: registered unless creating
      out-of-bounds indices is skipped; a three-element and an empty
      collection. */
  function IndexBlock(config: Config, edge: Edge): (cases: seq<TestCase>)
    ensures var setting := config.resiliencyChecks.creatingOutOfBoundsIndicesBehavior;
            && (cases == [] <==> setting.Skip?)
            && forall tc :: tc in cases ==> && tc.IndexOutOfBounds? && tc.offset == config.outOfBoundsIndexOffset
                                            && (tc.expectation.CrashLater? <==> setting.Trap?)
    ensures ProbesEdge(cases, edge)
  {
    var checks := config.resiliencyChecks;
    match DispatchOn(checks.creatingOutOfBoundsIndicesBehavior, checks.creatingOutOfBoundsIndicesBehavior)
    case NotRegistered => []
    case Registered(e) =>
      [IndexOutOfBounds([1010, 2020, 3030], edge, config.outOfBoundsIndexOffset, e),
       IndexOutOfBounds([], edge, config.outOfBoundsIndexOffset, e)]
  }

  /** The `subscript(_: Index)` block of one edge. It also holds one
      sub-slice element probe per fixture and mode, the `inRange` checks
      included; only the forward tier passes fixtures. */
  function SubscriptIndexBlock(config: Config, edge: Edge, fixtures: seq<SubscriptRangeTest>): (cases: seq<TestCase>)
    requires SlicesFit(fixtures)
    ensures var setting := config.resiliencyChecks.subscriptOnOutOfBoundsIndicesBehavior;
            && (cases == [] <==> setting.Skip?)
            && (!setting.Skip? ==> |cases| == 2 + |AllIndexModes| * |fixtures|)
            && forall tc :: tc in cases ==> && (tc.SubscriptIndexOutOfBounds? || tc.SubSequenceSubscriptOnIndex?)
                                            && (tc.expectation.CrashLater? <==> setting.Trap?)
    ensures ProbesEdge(cases, edge)
  {
    var checks := config.resiliencyChecks;
    match DispatchOn(checks.subscriptOnOutOfBoundsIndicesBehavior, checks.subscriptOnOutOfBoundsIndicesBehavior)
    case NotRegistered => []
    case Registered(e) =>
      [SubscriptIndexOutOfBounds([1010, 2020, 3030], edge, config.outOfBoundsSubscriptOffset, e),
       SubscriptIndexOutOfBounds([], edge, config.outOfBoundsSubscriptOffset, e)]
      + IndexProbeCases(fixtures, e)
  }

  /** The `subscript(_: Range)` block of one edge, registered unless range
      probes are skipped. Its top-level probes wait for what the range setting
      says; its sub-slice probes wait for what the element-subscript setting
      says. */
  function SubscriptRangeBlock(config: Config, edge: Edge, fixtures: seq<SubscriptRangeTest>): (cases: seq<TestCase>)
    requires SlicesFit(fixtures)
    ensures var checks := config.resiliencyChecks;
            && (cases == [] <==> checks.subscriptRangeOnOutOfBoundsRangesBehavior.Skip?)
            && (!checks.subscriptRangeOnOutOfBoundsRangesBehavior.Skip? ==> |cases| == 2 + |AllRangeModes| * |fixtures|)
            && forall tc :: tc in cases ==> && (tc.SubscriptRangeOutOfBounds? || tc.SubSequenceSubscriptOnRange?)
                                            && (tc.SubscriptRangeOutOfBounds? ==>
                                                  (tc.expectation.CrashLater? <==> checks.subscriptRangeOnOutOfBoundsRangesBehavior.Trap?))
                                            && (tc.SubSequenceSubscriptOnRange? ==>
                                                  (tc.expectation.CrashLater? <==> checks.subscriptOnOutOfBoundsIndicesBehavior.Trap?))
    ensures ProbesEdge(cases, edge)
  {
    var checks := config.resiliencyChecks;
    match DispatchOn(checks.subscriptRangeOnOutOfBoundsRangesBehavior, checks.subscriptRangeOnOutOfBoundsRangesBehavior)
    case NotRegistered => []
    case Registered(e) =>
      [SubscriptRangeOutOfBounds([1010, 2020, 3030], edge, config.outOfBoundsSubscriptOffset, e),
       SubscriptRangeOutOfBounds([], edge, config.outOfBoundsSubscriptOffset, e)]
      + RangeProbeCases(fixtures, DispatchOn(checks.subscriptRangeOnOutOfBoundsRangesBehavior,
                                             checks.subscriptOnOutOfBoundsIndicesBehavior).expectation)
  }

  // ---------------------------------------------------------------------
  // The tiers' own tests, in registration order

  /** What `addCollectionTests` registers after `addSequenceTests`. */
  function CollectionTests(config: Config): (cases: seq<TestCase>)
    ensures ProbesEdge(cases, Right)
  {
    var table := SubscriptRangeTestsAsWritten();
    var head := [External(GenerateSemantics)] + IndexBlock(config, Right);
    var withIndex := head + SubscriptIndexBlock(config, Right, table);
    var withSemantics := withIndex + [SubscriptRangeSemantics];
    var withRange := withSemantics + SubscriptRangeBlock(config, Right, table);
    ProbesEdgeConcat(head, SubscriptIndexBlock(config, Right, table), Right);
    ProbesEdgeConcat(withIndex, [SubscriptRangeSemantics], Right);
    ProbesEdgeConcat(withSemantics, SubscriptRangeBlock(config, Right, table), Right);
    ProbesEdgeConcat(withRange, ForwardSemanticsTests(), Right);
    withRange + ForwardSemanticsTests()
  }

  /** Every test in `cases` is well formed, and every top-level probe among
      them steps past the `edge` end. */
  predicate ProbesEdge(cases: seq<TestCase>, edge: Edge) {
    forall tc :: tc in cases ==> tc.WellFormed() && (tc.IsTopLevelProbe() ==> tc.edge == edge)
  }

  lemma ProbesEdgeConcat(a: seq<TestCase>, b: seq<TestCase>, edge: Edge)
    requires ProbesEdge(a, edge) && ProbesEdge(b, edge)
    ensures ProbesEdge(a + b, edge)
  {
  }

  /** The forward tier's tests after its misuse blocks: no probe among them. */
  function ForwardSemanticsTests(): (cases: seq<TestCase>)
    ensures forall tc :: tc in cases ==> tc.WellFormed() && !tc.IsProbe()
  {
    ForwardQueryTests() + ForwardCutTests() + FrontRemovalTests()
  }

  /** `isEmpty`, `count`, `index(of:)`, `index(where:)`, `first`, `indices`. */
  function ForwardQueryTests(): (cases: seq<TestCase>)
    ensures forall tc :: tc in cases ==> tc.WellFormed() && !tc.IsProbe()
  {
    [IsEmptySemantics, CountSemantics,
     External(IndexOfSemantics), External(IndexWhereSemantics),
     FirstSemantics, IndicesSemantics]
  }

  /** `dropFirst` through `split`, then `prefix(through:)`, `prefix(upTo:)`
      and `suffix(from:)`. */
  function ForwardCutTests(): (cases: seq<TestCase>)
    ensures forall tc :: tc in cases ==> tc.WellFormed() && !tc.IsProbe()
  {
    [External(DropFirstSemantics), External(DropLastSemantics),
     External(PrefixSemantics), External(SuffixSemantics), External(SplitSemantics),
     PrefixThroughSemantics, PrefixUpToSemantics, SuffixFromSemantics]
  }

  /** The `removeFirst`, `removeFirst(n)` and `popFirst` tests on slices. */
  function FrontRemovalTests(): (cases: seq<TestCase>)
    ensures forall tc :: tc in cases ==> tc.WellFormed() && !tc.IsProbe()
  {
    [RemoveFirstSemantics, RemoveFirstEmpty,
     RemoveFirstNSemantics, RemoveFirstNEmpty, RemoveFirstNNegative, RemoveFirstNTooMany,
     PopFirstSemantics, PopFirstEmpty]
  }

  /** What `addBidirectionalCollectionTests` registers after the forward tier. */
  function BidirectionalTests(config: Config): (cases: seq<TestCase>)
    ensures ProbesEdge(cases, Left)
    ensures forall tc :: tc in cases ==> !tc.SubSequenceSubscriptOnIndex? && !tc.SubSequenceSubscriptOnRange?
  {
    var backRemoval := BackRemovalTests();
    var withIndex := backRemoval + IndexBlock(config, Left);
    var withSubscript := withIndex + SubscriptIndexBlock(config, Left, []);
    var withRange := withSubscript + SubscriptRangeBlock(config, Left, []);
    var cuts := [External(DropLastSemantics), External(SuffixSemantics)];
    ProbesEdgeConcat(backRemoval, IndexBlock(config, Left), Left);
    ProbesEdgeConcat(withIndex, SubscriptIndexBlock(config, Left, []), Left);
    ProbesEdgeConcat(withSubscript, SubscriptRangeBlock(config, Left, []), Left);
    ProbesEdgeConcat(withRange, cuts, Left);
    withRange + cuts
  }

  /** `last`, then the `removeLast()`, `removeLast(n)` and `popLast()` tests
      on slices: no probe among them. */
  function BackRemovalTests(): (cases: seq<TestCase>)
    ensures forall tc :: tc in cases ==> tc.WellFormed() && !tc.IsProbe()
  {
    [LastSemantics,
     External(RemoveLastSliceSemantics), RemoveLastEmpty,
     External(RemoveLastNSliceSemantics), RemoveLastNEmpty, RemoveLastNNegative, RemoveLastNTooMany,
     External(PopLastSliceSemantics), PopLastEmpty]
  }

  /** What `addRandomAccessCollectionTests` registers after the
      bidirectional tier. */
  function RandomAccessTests(): (cases: seq<TestCase>)
    ensures forall tc :: tc in cases ==> tc.External?
  {
    [External(PrefixSemantics), External(SuffixSemantics)]
  }

  datatype Tier = CollectionTier | BidirectionalTier | RandomAccessTier

  /** A tier's own block; the forward tier's starts with `addSequenceTests`. */
  function TierTests(t: Tier, config: Config): (cases: seq<TestCase>)
    ensures forall tc :: tc in cases ==> tc.WellFormed()
    ensures t != CollectionTier ==> forall tc :: tc in cases ==> !tc.SubSequenceSubscriptOnIndex? && !tc.SubSequenceSubscriptOnRange?
    ensures t == RandomAccessTier ==> forall tc :: tc in cases ==> !tc.IsProbe()
  {
    match t
    case CollectionTier => [External(AddSequenceTests)] + CollectionTests(config)
    case BidirectionalTier => BidirectionalTests(config)
    case RandomAccessTier => RandomAccessTests()
  }

  // ---------------------------------------------------------------------
  // Registration through the shared `checksAdded` set

  /** `#function` of a tier's generator: the key it records in
      `checksAdded`. It names the generator, not the collection type. */
  function Key(t: Tier): (k: string)
    ensures k == "addCollectionTests" <==> t == CollectionTier
    ensures k == "addBidirectionalCollectionTests" <==> t == BidirectionalTier
    ensures k == "addRandomAccessCollectionTests" <==> t == RandomAccessTier
  {
    match t
    case CollectionTier => "addCollectionTests"
    case BidirectionalTier => "addBidirectionalCollectionTests"
    case RandomAccessTier => "addRandomAccessCollectionTests"
  }

  /** The generator a tier's generator calls first. */
  function Below(t: Tier): (b: Option<Tier>)
    ensures b.Some? ==> Rank(b.value) + 1 == Rank(t)
  {
    match t
    case CollectionTier => None
    case BidirectionalTier => Some(CollectionTier)
    case RandomAccessTier => Some(BidirectionalTier)
  }

  /** How many tiers a tier builds on. */
  function Rank(t: Tier): nat {
    match t
    case CollectionTier => 0
    case BidirectionalTier => 1
    case RandomAccessTier => 2
  }

  /** The tiers a generator builds on, then itself, in registration order. */
  function TiersUpTo(t: Tier): seq<Tier> {
    match t
    case CollectionTier => [CollectionTier]
    case BidirectionalTier => [CollectionTier, BidirectionalTier]
    case RandomAccessTier => [CollectionTier, BidirectionalTier, RandomAccessTier]
  }

  predicate NoDuplicates(tiers: seq<Tier>) {
    forall i, j :: 0 <= i < j < |tiers| ==> tiers[i] != tiers[j]
  }

  /** The keys of the given tiers. */
  function KeysOf(tiers: seq<Tier>): set<string>
    decreases |tiers|
  {
    if tiers == [] then {} else KeysOf(tiers[..|tiers| - 1]) + {Key(tiers[|tiers| - 1])}
  }

  /** One call of tier `t`'s generator against the shared set `added`: the
      set afterwards and the tiers whose own tests it registers, in order.
      A generator whose key is already present returns at once; otherwise it
      inserts its key, calls the generator below it, and then registers its
      own tests. Every tier at or below `t` is marked afterwards, and only
      tiers that were not marked before are registered, each once. */
  function Register(added: set<string>, t: Tier): (r: (set<string>, seq<Tier>))
    ensures Key(t) in r.0
    ensures Key(t) in added <==> r == (added, [])
    decreases Rank(t)
  {
    if Key(t) in added then (added, [])
    else
      var marked := added + {Key(t)};
      match Below(t)
      case None => (marked, [t])
      case Some(lower) =>
        var below := Register(marked, lower);
        (below.0, below.1 + [t])
  }

  /** After a generator call, the set holds what it held before and the key
      of every tier registered, plus the generator's own key; and each
      registered tier is one that was not marked, at or below the
      generator. */
  lemma {:induction false} RegisterMarksWhatItRegisters(added: set<string>, t: Tier)
    ensures Register(added, t).0 == added + KeysOf(Register(added, t).1) + {Key(t)}
    ensures forall u :: u in Register(added, t).1 ==> Key(u) !in added && Rank(u) <= Rank(t)
    decreases Rank(t)
  {
    if Key(t) !in added && Below(t).Some? {
      var marked := added + {Key(t)};
      var below := Register(marked, Below(t).value);
      RegisterMarksWhatItRegisters(marked, Below(t).value);
      RegisterUnmarked(added, t);
      assert (below.1 + [t])[..|below.1|] == below.1;
    }
  }

  /** No generator call registers a tier twice. */
  lemma {:induction false} RegisterRegistersEachTierOnce(added: set<string>, t: Tier)
    ensures NoDuplicates(Register(added, t).1)
    decreases Rank(t)
  {
    if Key(t) !in added && Below(t).Some? {
      var marked := added + {Key(t)};
      var below := Register(marked, Below(t).value);
      RegisterRegistersEachTierOnce(marked, Below(t).value);
      RegisterMarksWhatItRegisters(marked, Below(t).value);
      RegisterUnmarked(added, t);
      assert t !in below.1;
    }
  }

  /** When no tier at or below a generator is marked, the generator
      registers the whole chain below it, lowest first, then itself. */
  lemma {:induction false} RegisterFromUnmarkedRegistersTheChain(added: set<string>, t: Tier)
    requires forall u :: Rank(u) <= Rank(t) ==> Key(u) !in added
    ensures Register(added, t).1 == TiersUpTo(t)
    decreases Rank(t)
  {
    RegisterUnmarked(added, t);
    if Below(t).Some? {
      var lower := Below(t).value;
      var marked := added + {Key(t)};
      assert forall u :: Rank(u) <= Rank(lower) ==> Key(u) !in marked;
      RegisterFromUnmarkedRegistersTheChain(marked, lower);
    }
  }

  /** What a generator whose key is not yet marked registers: what the
      generator below it registers once the key is marked, then itself. */
  lemma RegisterUnmarked(added: set<string>, t: Tier)
    requires Key(t) !in added
    ensures Register(added, t).1
            == (if Below(t).Some? then Register(added + {Key(t)}, Below(t).value).1 else []) + [t]
    ensures Register(added, t).0
            == (if Below(t).Some? then Register(added + {Key(t)}, Below(t).value).0 else added + {Key(t)})
  {
  }

  /** Calling a generator a second time with the same set registers nothing
      and leaves the set as it is. */
  lemma RegisterIsIdempotent(added: set<string>, t: Tier)
    ensures Register(Register(added, t).0, t) == (Register(added, t).0, [])
  {
  }

  /** Several generator calls in a row, sharing one set. */
  function RegisterAll(added: set<string>, calls: seq<Tier>): (r: (set<string>, seq<Tier>))
    decreases |calls|
  {
    if calls == [] then (added, [])
    else
      var first := Register(added, calls[0]);
      var rest := RegisterAll(first.0, calls[1..]);
      (rest.0, first.1 + rest.1)
  }

  /** However many generator calls share a set, no tier is registered twice,
      none already marked is registered again, and every registered tier is
      marked afterwards. */
  lemma {:induction false} RegisterAllRegistersEachTierOnce(added: set<string>, calls: seq<Tier>)
    ensures NoDuplicates(RegisterAll(added, calls).1)
    ensures forall u :: u in RegisterAll(added, calls).1 ==> Key(u) !in added && Key(u) in RegisterAll(added, calls).0
    ensures added <= RegisterAll(added, calls).0
    decreases |calls|
  {
    if calls != [] {
      var first := Register(added, calls[0]);
      var rest := RegisterAll(first.0, calls[1..]);
      RegisterMarksWhatItRegisters(added, calls[0]);
      RegisterRegistersEachTierOnce(added, calls[0]);
      RegisterAllRegistersEachTierOnce(first.0, calls[1..]);
      assert forall u :: u in first.1 ==> Key(u) in first.0;
      NoDuplicatesConcat(first.1, rest.1);
    }
  }

  /** Two duplicate-free lists with no tier in common join into one. */
  lemma NoDuplicatesConcat(a: seq<Tier>, b: seq<Tier>)
    requires NoDuplicates(a) && NoDuplicates(b)
    requires forall u :: u in a ==> u !in b
    ensures NoDuplicates(a + b)
  {
    forall i, j | 0 <= i < j < |a + b| ensures (a + b)[i] != (a + b)[j] {
      if i < |a| <= j {
        assert (a + b)[i] in a && (a + b)[j] in b;
      }
    }
  }

  /** The tests a sequence of registered tiers adds, in order. */
  function TestsOf(tiers: seq<Tier>, config: Config): seq<TestCase>
    decreases |tiers|
  {
    if tiers == [] then []
    else TestsOf(tiers[..|tiers| - 1], config) + TierTests(tiers[|tiers| - 1], config)
  }

  lemma TestsOfAppend(tiers: seq<Tier>, t: Tier, config: Config)
    ensures TestsOf(tiers + [t], config) == TestsOf(tiers, config) + TierTests(t, config)
  {
    assert (tiers + [t])[..|tiers|] == tiers;
  }

  lemma TestsOfSingle(t: Tier, config: Config)
    ensures TestsOf([t], config) == TierTests(t, config)
  {
    TestsOfAppend([], t, config);
    EmptyConcat(TierTests(t, config));
  }

  lemma EmptyConcat(x: seq<TestCase>)
    ensures [] + x == x && x + [] == x
  {
  }

  lemma ConcatAssociates(a: seq<TestCase>, b: seq<TestCase>, c: seq<TestCase>)
    ensures a + b + c == a + (b + c)
  {
  }

  /** `Box<Set<String>>`: the set of generator keys the tier functions share. */
  class ChecksAdded {
    var value: set<string>

    constructor (value: set<string>)
      ensures this.value == value
    {
      this.value := value;
    }
  }

  /** The test suite the generators add to. */
  class TestSuite {
    var tests: seq<TestCase>

    constructor ()
      ensures tests == []
    {
      tests := [];
    }

    /** Registers tier `t`'s own tests after what the suite holds. */
    method AppendTierTests(t: Tier, config: Config)
      modifies this
      ensures tests == old(tests) + TierTests(t, config)
    {
      tests := tests + TierTests(t, config);
    }

    /** `addCollectionTests`: return if its key is marked, otherwise mark
        it and register the forward tier's tests. */
    method AddCollectionTests(config: Config, checksAdded: ChecksAdded)
      modifies this, checksAdded
      ensures checksAdded.value == Register(old(checksAdded.value), CollectionTier).0
      ensures tests == old(tests) + TestsOf(Register(old(checksAdded.value), CollectionTier).1, config)
    {
      var added := checksAdded.value;
      if Key(CollectionTier) in added {
        return;
      }
      RegisterUnmarked(added, CollectionTier);
      checksAdded.value := added + {Key(CollectionTier)};
      AppendTierTests(CollectionTier, config);
      TestsOfSingle(CollectionTier, config);
    }

    /** `addBidirectionalCollectionTests`: return if its key is marked,
        otherwise mark it, run `addCollectionTests`, and register the
        bidirectional tier's tests. */
    method AddBidirectionalCollectionTests(config: Config, checksAdded: ChecksAdded)
      modifies this, checksAdded
      ensures checksAdded.value == Register(old(checksAdded.value), BidirectionalTier).0
      ensures tests == old(tests) + TestsOf(Register(old(checksAdded.value), BidirectionalTier).1, config)
    {
      var added := checksAdded.value;
      if Key(BidirectionalTier) in added {
        return;
      }
      RegisterUnmarked(added, BidirectionalTier);
      checksAdded.value := added + {Key(BidirectionalTier)};
      ghost var lower := Register(added + {Key(BidirectionalTier)}, CollectionTier).1;
      AddCollectionTests(config, checksAdded);
      AppendTierTests(BidirectionalTier, config);
      TestsOfAppend(lower, BidirectionalTier, config);
      ConcatAssociates(old(tests), TestsOf(lower, config), TierTests(BidirectionalTier, config));
    }

    /** `addRandomAccessCollectionTests`: return if its key is marked,
        otherwise mark it, run `addBidirectionalCollectionTests`, and
        register the random-access tier's tests. */
    method AddRandomAccessCollectionTests(config: Config, checksAdded: ChecksAdded)
      modifies this, checksAdded
      ensures checksAdded.value == Register(old(checksAdded.value), RandomAccessTier).0
      ensures tests == old(tests) + TestsOf(Register(old(checksAdded.value), RandomAccessTier).1, config)
    {
      var added := checksAdded.value;
      if Key(RandomAccessTier) in added {
        return;
      }
      RegisterUnmarked(added, RandomAccessTier);
      checksAdded.value := added + {Key(RandomAccessTier)};
      ghost var lower := Register(added + {Key(RandomAccessTier)}, BidirectionalTier).1;
      AddBidirectionalCollectionTests(config, checksAdded);
      AppendTierTests(RandomAccessTier, config);
      TestsOfAppend(lower, RandomAccessTier, config);
      ConcatAssociates(old(tests), TestsOf(lower, config), TierTests(RandomAccessTier, config));
    }
  }

  /** A random-access collection's suite: `addRandomAccessCollectionTests`
      into a fresh set, then `addBidirectionalCollectionTests` with the same
      set, as a caller adding both would. The second call adds nothing, and
      the suite holds the three tiers' tests, lowest first. */
  method SuiteForRandomAccessCollection(config: Config) returns (tests: seq<TestCase>)
    ensures tests == TestsOf(TiersUpTo(RandomAccessTier), config)
  {
    var checksAdded := new ChecksAdded({});
    var suite := new TestSuite();
    suite.AddRandomAccessCollectionTests(config, checksAdded);
    RegisterFromUnmarkedRegistersTheChain({}, RandomAccessTier);
    EmptyConcat(TestsOf(TiersUpTo(RandomAccessTier), config));
    RegisterMarksWhatItRegisters({}, RandomAccessTier);
    assert Key(BidirectionalTier) in KeysOf(TiersUpTo(RandomAccessTier)) by {
      assert TiersUpTo(RandomAccessTier)[..2] == TiersUpTo(BidirectionalTier);
    }
    ghost var first := suite.tests;
    suite.AddBidirectionalCollectionTests(config, checksAdded);
    EmptyConcat(first);
    tests := suite.tests;
  }

  // ---------------------------------------------------------------------
  // Running a test

  /** Runs one registered test's body against the reference collection. */
  method RunTest(tc: TestCase, reactions: Reactions) returns (v: Verdict)
    requires tc.WellFormed()
    ensures v == ExpectedVerdict(tc, reactions)
  {
    match tc
    case External(_) => v := NotModelled;
    case IndexOutOfBounds(elements, edge, offset, e) =>
      v := RunIndexOutOfBounds(elements, edge, offset, e, reactions);
    case SubscriptIndexOutOfBounds(elements, edge, offset, e) =>
      v := RunSubscriptIndexOutOfBounds(elements, edge, offset, e, reactions);
    case SubscriptRangeOutOfBounds(elements, edge, offset, e) =>
      v := RunSubscriptRangeOutOfBounds(elements, edge, offset, e, reactions);
    case SubSequenceSubscriptOnIndex(elements, bounds, mode, e) =>
      v := RunSubSequenceSubscriptOnIndex(elements, bounds, mode, e, reactions);
    case SubSequenceSubscriptOnRange(elements, bounds, mode, e) =>
      v := RunSubSequenceSubscriptOnRange(elements, bounds, mode, e, reactions);
    case SubscriptRangeSemantics => v := RunRangeTable(SliceBounds, reactions);
    case IsEmptySemantics => v := RunRangeTable(IsEmptyCheck, reactions);
    case CountSemantics => v := RunRangeTable(CountCheck, reactions);
    case FirstSemantics => v := RunRangeTable(FirstCheck, reactions);
    case IndicesSemantics => v := RunRangeTable(IndicesCheck, reactions);
    case LastSemantics => v := RunRangeTable(LastCheck, reactions);
    case PrefixThroughSemantics => v := RunPrefixThroughSemantics(reactions);
    case PrefixUpToSemantics => v := RunPrefixUpToSemantics(reactions);
    case SuffixFromSemantics => v := RunSuffixFromSemantics(reactions);
    case RemoveFirstSemantics => v := RunRemoveFirstTable(RemoveOne, reactions);
    case RemoveFirstNSemantics => v := RunRemoveFirstTable(RemoveN, reactions);
    case PopFirstSemantics => v := RunRemoveFirstTable(PopOne, reactions);
    case RemoveFirstEmpty => v := RunEmptyRemoval(RemoveFirstOne, reactions);
    case RemoveFirstNEmpty => v := RunEmptyRemoval(RemoveFirstOfN, reactions);
    case RemoveFirstNNegative => v := RunEmptyRemoval(RemoveFirstNegative, reactions);
    case RemoveFirstNTooMany => v := RunEmptyRemoval(RemoveFirstTooMany, reactions);
    case PopFirstEmpty => v := RunEmptyRemoval(PopFirstOne, reactions);
    case RemoveLastEmpty => v := RunEmptyRemoval(RemoveLastOne, reactions);
    case RemoveLastNEmpty => v := RunEmptyRemoval(RemoveLastOfN, reactions);
    case RemoveLastNNegative => v := RunEmptyRemoval(RemoveLastNegative, reactions);
    case RemoveLastNTooMany => v := RunEmptyRemoval(RemoveLastTooMany, reactions);
    case PopLastEmpty => v := RunEmptyRemoval(PopLastOne, reactions);
  }

  // ---------------------------------------------------------------------
  // Which policies every registered test passes under

  /** A setting agrees with how the collection answers a misuse when it
      waits for a trap exactly when the collection traps. */
  predicate Agrees(b: FailureBehavior, r: Reaction) {
    b.Trap? <==> r.Crash?
  }

  /** Each registered probe block waits for the reaction its first misuse
      draws. The top-level element and range probes step past an end before
      they read, so they draw the index-creation reaction; the sub-slice
      range probes take their expectation from the element-subscript
      setting. A top-level probe that waits for a reported creation goes on
      to read; the sub-slice clauses already require that read to report. */
  predicate PolicyFits(checks: ResiliencyChecks, reactions: Reactions)
    ensures checks == ResiliencyChecks(Skip, Skip, Skip) ==> PolicyFits(checks, reactions)
    ensures PolicyFits(checks, reactions)
            && !checks.subscriptOnOutOfBoundsIndicesBehavior.Skip?
            && !checks.subscriptRangeOnOutOfBoundsRangesBehavior.Skip?
            ==> (reactions.subscriptIndex.Crash? <==> reactions.subscriptRange.Crash?)
  {
    && (!checks.creatingOutOfBoundsIndicesBehavior.Skip?
        ==> Agrees(checks.creatingOutOfBoundsIndicesBehavior, reactions.creatingIndex))
    && (!checks.subscriptOnOutOfBoundsIndicesBehavior.Skip?
        ==> && Agrees(checks.subscriptOnOutOfBoundsIndicesBehavior, reactions.creatingIndex)
            && Agrees(checks.subscriptOnOutOfBoundsIndicesBehavior, reactions.subscriptIndex))
    && (!checks.subscriptRangeOnOutOfBoundsRangesBehavior.Skip?
        ==> && Agrees(checks.subscriptRangeOnOutOfBoundsRangesBehavior, reactions.creatingIndex)
            && Agrees(checks.subscriptOnOutOfBoundsIndicesBehavior, reactions.subscriptRange))
  }

  /** Every test in `cases` is well formed and passes. */
  predicate AllPass(cases: seq<TestCase>, reactions: Reactions) {
    forall tc :: tc in cases ==> tc.WellFormed() && ExpectedVerdict(tc, reactions) == Passed
  }

  /** No registered test of `t` fails. */
  predicate TierPasses(config: Config, reactions: Reactions, t: Tier) {
    NoneFail(TierTests(t, config), reactions)
  }

  /** Every test in `cases` is well formed and none fails. */
  predicate NoneFail(cases: seq<TestCase>, reactions: Reactions) {
    forall tc :: tc in cases ==> tc.WellFormed() && ExpectedVerdict(tc, reactions) != Failed
  }

  lemma NoneFailConcat(a: seq<TestCase>, b: seq<TestCase>, reactions: Reactions)
    requires NoneFail(a, reactions) && NoneFail(b, reactions)
    ensures NoneFail(a + b, reactions)
  {
  }

  /** Offsets of at least one step reach past the ends. */
  predicate OffsetsReachOut(config: Config) {
    config.outOfBoundsIndexOffset >= 1 && config.outOfBoundsSubscriptOffset >= 1
  }

  lemma AllPassConcat(a: seq<TestCase>, b: seq<TestCase>, reactions: Reactions)
    requires AllPass(a, reactions) && AllPass(b, reactions)
    ensures AllPass(a + b, reactions)
  {
  }

  /** Sub-slice element probes pass when what they wait for is what the
      collection does on an out-of-slice read. */
  lemma IndexProbesPass(fixtures: seq<SubscriptRangeTest>, e: Expectation, reactions: Reactions)
    requires SlicesFit(fixtures)
    requires e.CrashLater? <==> reactions.subscriptIndex.Crash?
    ensures AllPass(IndexProbeCases(fixtures, e), reactions)
  {
  }

  /** The same for sub-slice range probes and out-of-slice ranges. */
  lemma RangeProbesPass(fixtures: seq<SubscriptRangeTest>, e: Expectation, reactions: Reactions)
    requires SlicesFit(fixtures)
    requires e.CrashLater? <==> reactions.subscriptRange.Crash?
    ensures AllPass(RangeProbeCases(fixtures, e), reactions)
  {
  }

  lemma IndexBlockPasses(config: Config, reactions: Reactions, edge: Edge)
    requires OffsetsReachOut(config) && PolicyFits(config.resiliencyChecks, reactions)
    ensures AllPass(IndexBlock(config, edge), reactions)
  {
  }

  lemma SubscriptIndexBlockPasses(config: Config, reactions: Reactions, edge: Edge, fixtures: seq<SubscriptRangeTest>)
    requires SlicesFit(fixtures)
    requires OffsetsReachOut(config) && PolicyFits(config.resiliencyChecks, reactions)
    ensures AllPass(SubscriptIndexBlock(config, edge, fixtures), reactions)
  {
    var setting := config.resiliencyChecks.subscriptOnOutOfBoundsIndicesBehavior;
    match DispatchOn(setting, setting)
    case NotRegistered =>
    case Registered(e) =>
      var top := [SubscriptIndexOutOfBounds([1010, 2020, 3030], edge, config.outOfBoundsSubscriptOffset, e),
                  SubscriptIndexOutOfBounds([], edge, config.outOfBoundsSubscriptOffset, e)];
      assert AllPass(top, reactions) by {
        TopLevelProbesTripIndexCreation([1010, 2020, 3030], edge, config.outOfBoundsSubscriptOffset, e, reactions);
        TopLevelProbesTripIndexCreation([], edge, config.outOfBoundsSubscriptOffset, e, reactions);
      }
      IndexProbesPass(fixtures, e, reactions);
      AllPassConcat(top, IndexProbeCases(fixtures, e), reactions);
  }

  lemma SubscriptRangeBlockPasses(config: Config, reactions: Reactions, edge: Edge, fixtures: seq<SubscriptRangeTest>)
    requires SlicesFit(fixtures)
    requires OffsetsReachOut(config) && PolicyFits(config.resiliencyChecks, reactions)
    ensures AllPass(SubscriptRangeBlock(config, edge, fixtures), reactions)
  {
    var checks := config.resiliencyChecks;
    var setting := checks.subscriptRangeOnOutOfBoundsRangesBehavior;
    match DispatchOn(setting, setting)
    case NotRegistered =>
    case Registered(e) =>
      var top := [SubscriptRangeOutOfBounds([1010, 2020, 3030], edge, config.outOfBoundsSubscriptOffset, e),
                  SubscriptRangeOutOfBounds([], edge, config.outOfBoundsSubscriptOffset, e)];
      assert AllPass(top, reactions);
      var inner := DispatchOn(setting, checks.subscriptOnOutOfBoundsIndicesBehavior).expectation;
      RangeProbesPass(fixtures, inner, reactions);
      AllPassConcat(top, RangeProbeCases(fixtures, inner), reactions);
  }

  /** A test that probes no misuse never fails. */
  lemma NonProbesNeverFail(cases: seq<TestCase>, reactions: Reactions)
    requires forall tc :: tc in cases ==> !tc.IsProbe()
    ensures NoneFail(cases, reactions)
  {
  }

  /** The forward tier's misuse blocks, with the semantics test between
      them, never fail under a fitting policy, whatever fixtures they probe. */
  lemma ForwardBlocksPass(config: Config, reactions: Reactions, fixtures: seq<SubscriptRangeTest>)
    requires SlicesFit(fixtures)
    requires OffsetsReachOut(config) && PolicyFits(config.resiliencyChecks, reactions)
    ensures NoneFail([External(GenerateSemantics)] + IndexBlock(config, Right)
                     + SubscriptIndexBlock(config, Right, fixtures) + [SubscriptRangeSemantics]
                     + SubscriptRangeBlock(config, Right, fixtures), reactions)
  {
    var head := [External(GenerateSemantics)];
    var withIndex := head + IndexBlock(config, Right);
    var withSubscript := withIndex + SubscriptIndexBlock(config, Right, fixtures);
    var withSemantics := withSubscript + [SubscriptRangeSemantics];
    assert NoneFail(withIndex, reactions) by {
      IndexBlockPasses(config, reactions, Right);
      NoneFailConcat(head, IndexBlock(config, Right), reactions);
    }
    assert NoneFail(withSubscript, reactions) by {
      SubscriptIndexBlockPasses(config, reactions, Right, fixtures);
      NoneFailConcat(withIndex, SubscriptIndexBlock(config, Right, fixtures), reactions);
    }
    assert NoneFail(withSemantics, reactions) by {
      NoneFailConcat(withSubscript, [SubscriptRangeSemantics], reactions);
    }
    SubscriptRangeBlockPasses(config, reactions, Right, fixtures);
    NoneFailConcat(withSemantics, SubscriptRangeBlock(config, Right, fixtures), reactions);
  }

  lemma ForwardSemanticsNeverFail(reactions: Reactions)
    ensures NoneFail(ForwardSemanticsTests(), reactions)
  {
    NonProbesNeverFail(ForwardQueryTests(), reactions);
    NonProbesNeverFail(ForwardCutTests(), reactions);
    NonProbesNeverFail(FrontRemovalTests(), reactions);
    NoneFailConcat(ForwardQueryTests(), ForwardCutTests(), reactions);
    NoneFailConcat(ForwardQueryTests() + ForwardCutTests(), FrontRemovalTests(), reactions);
  }

  /** Under a fitting policy no registered test of the forward tier fails. */
  lemma ForwardTierPasses(config: Config, reactions: Reactions)
    requires OffsetsReachOut(config) && PolicyFits(config.resiliencyChecks, reactions)
    ensures TierPasses(config, reactions, CollectionTier)
  {
    var fixtures := SubscriptRangeTestsAsWritten();
    var blocks := [External(GenerateSemantics)] + IndexBlock(config, Right)
                  + SubscriptIndexBlock(config, Right, fixtures) + [SubscriptRangeSemantics]
                  + SubscriptRangeBlock(config, Right, fixtures);
    ForwardBlocksPass(config, reactions, fixtures);
    ForwardSemanticsNeverFail(reactions);
    NoneFailConcat(blocks, ForwardSemanticsTests(), reactions);
    NoneFailConcat([External(AddSequenceTests)], CollectionTests(config), reactions);
  }

  /** Under a fitting policy no registered test of the bidirectional tier fails. */
  lemma BidirectionalTierPasses(config: Config, reactions: Reactions)
    requires OffsetsReachOut(config) && PolicyFits(config.resiliencyChecks, reactions)
    ensures TierPasses(config, reactions, BidirectionalTier)
  {
    var backRemoval := BackRemovalTests();
    var withIndex := backRemoval + IndexBlock(config, Left);
    var withSubscript := withIndex + SubscriptIndexBlock(config, Left, []);
    var withRange := withSubscript + SubscriptRangeBlock(config, Left, []);
    var cuts := [External(DropLastSemantics), External(SuffixSemantics)];
    assert NoneFail(withIndex, reactions) by {
      NonProbesNeverFail(backRemoval, reactions);
      IndexBlockPasses(config, reactions, Left);
      NoneFailConcat(backRemoval, IndexBlock(config, Left), reactions);
    }
    assert NoneFail(withSubscript, reactions) by {
      SubscriptIndexBlockPasses(config, reactions, Left, []);
      NoneFailConcat(withIndex, SubscriptIndexBlock(config, Left, []), reactions);
    }
    assert NoneFail(withRange, reactions) by {
      SubscriptRangeBlockPasses(config, reactions, Left, []);
      NoneFailConcat(withSubscript, SubscriptRangeBlock(config, Left, []), reactions);
    }
    NonProbesNeverFail(cuts, reactions);
    NoneFailConcat(withRange, cuts, reactions);
    assert BidirectionalTests(config) == withRange + cuts;
  }

  /** Under a fitting policy no registered test of any tier fails. */
  lemma FittingPolicyPasses(config: Config, reactions: Reactions, t: Tier)
    requires OffsetsReachOut(config) && PolicyFits(config.resiliencyChecks, reactions)
    ensures TierPasses(config, reactions, t)
  {
    match t
    case CollectionTier => ForwardTierPasses(config, reactions);
    case BidirectionalTier => BidirectionalTierPasses(config, reactions);
    case RandomAccessTier => NonProbesNeverFail(RandomAccessTests(), reactions);
  }

  /** Two fixtures the converse needs: the empty collection, and the empty
      prefix of three elements, whose slice ends before the base's end. */
  lemma ProbedFixturesAreListed()
    ensures SubscriptRangeTest([], [], Range(0, 0), 0) in SubscriptRangeTestsAsWritten()
    ensures SubscriptRangeTest([], [1010, 2020, 3030], Range(0, 0), 3) in SubscriptRangeTestsAsWritten()
  {
    assert SubscriptRangeTestsAsWritten()[0] == SubscriptRangeTest([], [], Range(0, 0), 0);
    assert SubscriptRangeTestsAsWritten()[4] == SubscriptRangeTest([], [1010, 2020, 3030], Range(0, 0), 3);
  }

  /** A registered element-subscript block probes every fixture in every mode. */
  lemma SubscriptIndexBlockProbes(config: Config, edge: Edge, fixtures: seq<SubscriptRangeTest>, t: SubscriptRangeTest, m: SubscriptOnIndexMode)
    requires SlicesFit(fixtures) && t in fixtures
    requires !config.resiliencyChecks.subscriptOnOutOfBoundsIndicesBehavior.Skip?
    ensures var setting := config.resiliencyChecks.subscriptOnOutOfBoundsIndicesBehavior;
            SubSequenceSubscriptOnIndex(t.collection, t.bounds, m, DispatchOn(setting, setting).expectation)
              in SubscriptIndexBlock(config, edge, fixtures)
  {
    var setting := config.resiliencyChecks.subscriptOnOutOfBoundsIndicesBehavior;
    IndexProbeCasesCover(fixtures, DispatchOn(setting, setting).expectation, t, m);
  }

  /** A registered range-subscript block probes every fixture in every mode,
      waiting for what the element-subscript setting says. */
  lemma SubscriptRangeBlockProbes(config: Config, edge: Edge, fixtures: seq<SubscriptRangeTest>, t: SubscriptRangeTest, m: SubscriptOnRangeMode)
    requires SlicesFit(fixtures) && t in fixtures
    requires !config.resiliencyChecks.subscriptRangeOnOutOfBoundsRangesBehavior.Skip?
    ensures var checks := config.resiliencyChecks;
            var e := DispatchOn(checks.subscriptRangeOnOutOfBoundsRangesBehavior, checks.subscriptOnOutOfBoundsIndicesBehavior).expectation;
            SubSequenceSubscriptOnRange(t.collection, t.bounds, m, e) in SubscriptRangeBlock(config, edge, fixtures)
  {
    var checks := config.resiliencyChecks;
    var e := DispatchOn(checks.subscriptRangeOnOutOfBoundsRangesBehavior, checks.subscriptOnOutOfBoundsIndicesBehavior).expectation;
    RangeProbeCasesCover(fixtures, e, t, m);
  }

  /** A test of one of the forward tier's misuse blocks is registered by it. */
  lemma InForwardTier(config: Config, tc: TestCase)
    requires || tc in IndexBlock(config, Right)
             || tc in SubscriptIndexBlock(config, Right, SubscriptRangeTestsAsWritten())
             || tc in SubscriptRangeBlock(config, Right, SubscriptRangeTestsAsWritten())
    ensures tc in TierTests(CollectionTier, config)
  {
  }

  /** `Index/OutOfBounds/Right/NonEmpty` fails when its setting disagrees
      with how the collection answers index creation. */
  lemma IndexCreationMismatchFails(config: Config, reactions: Reactions)
    requires OffsetsReachOut(config)
    requires var creating := config.resiliencyChecks.creatingOutOfBoundsIndicesBehavior;
             !creating.Skip? && !Agrees(creating, reactions.creatingIndex)
    ensures !TierPasses(config, reactions, CollectionTier)
  {
    var creating := config.resiliencyChecks.creatingOutOfBoundsIndicesBehavior;
    var failing := IndexOutOfBounds([1010, 2020, 3030], Right, config.outOfBoundsIndexOffset, DispatchOn(creating, creating).expectation);
    assert ExpectedVerdict(failing, reactions) == Failed;
    assert failing in IndexBlock(config, Right);
    InForwardTier(config, failing);
  }

  /** `subscript(_: Index)/OutOfBounds/Right/NonEmpty/Get` fails when the
      element setting disagrees with how the collection answers index
      creation, the first misuse that probe commits. */
  lemma ElementCreationMismatchFails(config: Config, reactions: Reactions)
    requires OffsetsReachOut(config)
    requires var element := config.resiliencyChecks.subscriptOnOutOfBoundsIndicesBehavior;
             !element.Skip? && !Agrees(element, reactions.creatingIndex)
    ensures !TierPasses(config, reactions, CollectionTier)
  {
    var element := config.resiliencyChecks.subscriptOnOutOfBoundsIndicesBehavior;
    var failing := SubscriptIndexOutOfBounds([1010, 2020, 3030], Right, config.outOfBoundsSubscriptOffset, DispatchOn(element, element).expectation);
    assert ExpectedVerdict(failing, reactions) == Failed;
    assert failing in SubscriptIndexBlock(config, Right, SubscriptRangeTestsAsWritten());
    InForwardTier(config, failing);
  }

  /** The `baseEndIndex` element probe of the empty collection fails when the
      element setting disagrees with how the collection answers an
      out-of-slice read. */
  lemma ElementReadMismatchFails(config: Config, reactions: Reactions)
    requires var element := config.resiliencyChecks.subscriptOnOutOfBoundsIndicesBehavior;
             !element.Skip? && !Agrees(element, reactions.subscriptIndex)
    ensures !TierPasses(config, reactions, CollectionTier)
  {
    var element := config.resiliencyChecks.subscriptOnOutOfBoundsIndicesBehavior;
    var failing := SubSequenceSubscriptOnIndex([], Range(0, 0), SubscriptOnIndexMode.BaseEndIndex, DispatchOn(element, element).expectation);
    assert ExpectedVerdict(failing, reactions) == Failed;
    assert failing in SubscriptIndexBlock(config, Right, SubscriptRangeTestsAsWritten()) by {
      ProbedFixturesAreListed();
      SubscriptIndexBlockProbes(config, Right, SubscriptRangeTestsAsWritten(), SubscriptRangeTest([], [], Range(0, 0), 0), SubscriptOnIndexMode.BaseEndIndex);
    }
    InForwardTier(config, failing);
  }

  /** `subscript(_: Range)/OutOfBounds/Right/NonEmpty/Get` fails when the
      range setting disagrees with how the collection answers index creation. */
  lemma RangeCreationMismatchFails(config: Config, reactions: Reactions)
    requires OffsetsReachOut(config)
    requires var range := config.resiliencyChecks.subscriptRangeOnOutOfBoundsRangesBehavior;
             !range.Skip? && !Agrees(range, reactions.creatingIndex)
    ensures !TierPasses(config, reactions, CollectionTier)
  {
    var range := config.resiliencyChecks.subscriptRangeOnOutOfBoundsRangesBehavior;
    var failing := SubscriptRangeOutOfBounds([1010, 2020, 3030], Right, config.outOfBoundsSubscriptOffset, DispatchOn(range, range).expectation);
    assert ExpectedVerdict(failing, reactions) == Failed;
    assert failing in SubscriptRangeBlock(config, Right, SubscriptRangeTestsAsWritten());
    InForwardTier(config, failing);
  }

  /** A registered forward range block probes the empty prefix `[0, 0)` of
      three elements in `baseEndIndex` mode, waiting for what the
      element-subscript setting says. */
  lemma EmptyPrefixRangeProbeIsRegistered(config: Config)
    requires !config.resiliencyChecks.subscriptRangeOnOutOfBoundsRangesBehavior.Skip?
    ensures var checks := config.resiliencyChecks;
            var e := DispatchOn(checks.subscriptRangeOnOutOfBoundsRangesBehavior, checks.subscriptOnOutOfBoundsIndicesBehavior).expectation;
            SubSequenceSubscriptOnRange([1010, 2020, 3030], Range(0, 0), SubscriptOnRangeMode.BaseEndIndex, e)
              in TierTests(CollectionTier, config)
  {
    var checks := config.resiliencyChecks;
    var e := DispatchOn(checks.subscriptRangeOnOutOfBoundsRangesBehavior, checks.subscriptOnOutOfBoundsIndicesBehavior).expectation;
    var probe := SubSequenceSubscriptOnRange([1010, 2020, 3030], Range(0, 0), SubscriptOnRangeMode.BaseEndIndex, e);
    assert probe in SubscriptRangeBlock(config, Right, SubscriptRangeTestsAsWritten()) by {
      ProbedFixturesAreListed();
      SubscriptRangeBlockProbes(config, Right, SubscriptRangeTestsAsWritten(), SubscriptRangeTest([], [1010, 2020, 3030], Range(0, 0), 3), SubscriptOnRangeMode.BaseEndIndex);
    }
    InForwardTier(config, probe);
  }

  /** The `baseEndIndex` range probe of the empty prefix of three elements
      probes `[0, 3)`, past its slice `[0, 0)`; it fails when the element
      setting, which chooses its expectation, disagrees with how the
      collection answers an out-of-slice range. */
  lemma RangeReadMismatchFails(config: Config, reactions: Reactions)
    requires var checks := config.resiliencyChecks;
             && !checks.subscriptRangeOnOutOfBoundsRangesBehavior.Skip?
             && !Agrees(checks.subscriptOnOutOfBoundsIndicesBehavior, reactions.subscriptRange)
    ensures !TierPasses(config, reactions, CollectionTier)
  {
    var checks := config.resiliencyChecks;
    var e := DispatchOn(checks.subscriptRangeOnOutOfBoundsRangesBehavior, checks.subscriptOnOutOfBoundsIndicesBehavior).expectation;
    var failing := SubSequenceSubscriptOnRange([1010, 2020, 3030], Range(0, 0), SubscriptOnRangeMode.BaseEndIndex, e);
    assert ExpectedVerdict(failing, reactions) == Failed;
    EmptyPrefixRangeProbeIsRegistered(config);
  }

  /** Under a policy that does not fit, some test of the forward tier fails. */
  lemma UnfitPolicyFails(config: Config, reactions: Reactions)
    requires OffsetsReachOut(config) && !PolicyFits(config.resiliencyChecks, reactions)
    ensures !TierPasses(config, reactions, CollectionTier)
  {
    var checks := config.resiliencyChecks;
    var creating := checks.creatingOutOfBoundsIndicesBehavior;
    var element := checks.subscriptOnOutOfBoundsIndicesBehavior;
    var range := checks.subscriptRangeOnOutOfBoundsRangesBehavior;
    if !creating.Skip? && !Agrees(creating, reactions.creatingIndex) {
      IndexCreationMismatchFails(config, reactions);
    } else if !element.Skip? && !Agrees(element, reactions.creatingIndex) {
      ElementCreationMismatchFails(config, reactions);
    } else if !element.Skip? && !Agrees(element, reactions.subscriptIndex) {
      ElementReadMismatchFails(config, reactions);
    } else if !range.Skip? && !Agrees(range, reactions.creatingIndex) {
      RangeCreationMismatchFails(config, reactions);
    } else {
      RangeReadMismatchFails(config, reactions);
    }
  }

  /** Under offsets that reach past the ends, every registered test of every
      tier passes (or is not modelled) exactly when the policy fits the
      collection. */
  lemma NothingFailsIffPolicyFits(config: Config, reactions: Reactions)
    requires OffsetsReachOut(config)
    ensures PolicyFits(config.resiliencyChecks, reactions)
            <==> forall t :: TierPasses(config, reactions, t)
  {
    if PolicyFits(config.resiliencyChecks, reactions) {
      forall t ensures TierPasses(config, reactions, t) {
        FittingPolicyPasses(config, reactions, t);
      }
    } else {
      UnfitPolicyFails(config, reactions);
    }
  }

  /** The defaults fit a collection that traps on every misuse. */
  lemma DefaultsPassAgainstATrappingCollection()
    ensures forall t :: TierPasses(DefaultConfig, AllCrash, t)
  {
    NothingFailsIffPolicyFits(DefaultConfig, AllCrash);
  }

  /** Skipping the element-subscript probes also switches the sub-slice range
      probes, which stay registered, to waiting for a recoverable failure:
      against a collection that traps on every misuse, the policy "creating
      and range misuse trap, element probes skipped" fails a range probe. */
  lemma SkippingElementProbesMisleadsRangeProbes()
    ensures var config := Config(ResiliencyChecks(Trap, Skip, Trap), 1, 1);
            var probe := SubSequenceSubscriptOnRange([1010, 2020, 3030], Range(0, 0), SubscriptOnRangeMode.BaseEndIndex, RecoverableFailure);
            && probe in TierTests(CollectionTier, config)
            && ExpectedVerdict(probe, AllCrash) == Failed
  {
    var config := Config(ResiliencyChecks(Trap, Skip, Trap), 1, 1);
    var probe := SubSequenceSubscriptOnRange([1010, 2020, 3030], Range(0, 0), SubscriptOnRangeMode.BaseEndIndex, RecoverableFailure);
    assert ExpectedVerdict(probe, AllCrash) == Failed by {
      assert RangeProbeFor(3, Range(0, 0), SubscriptOnRangeMode.BaseEndIndex) == ProbeRange(Range(0, 3));
    }
    EmptyPrefixRangeProbeIsRegistered(config);
  }

  /** A top-level element or range probe that steps at least one position
      past an end misuses index creation before it reads. */
  lemma TopLevelProbesTripIndexCreation(elements: seq<int>, edge: Edge, offset: int, e: Expectation, reactions: Reactions)
    requires offset >= 1
    ensures FirstMisuse(SubscriptIndexOutOfBounds(elements, edge, offset, e), reactions) == Some(reactions.creatingIndex)
    ensures FirstMisuse(SubscriptRangeOutOfBounds(elements, edge, offset, e), reactions) == Some(reactions.creatingIndex)
  {
  }
}
