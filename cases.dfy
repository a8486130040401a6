/** The tests the conformance harness registers, and the verdict each one
    should reach against a reference collection: semantics tests pass, a
    misuse probe passes exactly when the first misuse its body commits is
    answered the way the probe waits for (and, after a reported index
    creation, the read that follows does not trap), and tests whose bodies use tables or
    helpers outside this model are `NotModelled`. */
module Cases {
  import opened Outcomes
  import opened MutableCollection
  import opened Reference
  import opened Resiliency
  import opened Probes

  /** Where a top-level misuse probe steps from: `Right` probes step
      `offset` forward from `endIndex`, `Left` probes `offset` backward from
      `startIndex`. */
  datatype Edge = Right | Left

  /** Registered tests whose bodies run tables or helpers outside this model:
      `addSequenceTests`, `generate()/semantics`, `index(of:)/semantics`,
      `index(where:)/semantics`, `dropFirst/semantics`, `dropLast/semantics`,
      `prefix/semantics`, `suffix/semantics`, `split/semantics`, and the
      `removeLast()`, `removeLast(n: Int)` and `popLast()` slice semantics
      tests. */
  datatype ExternalTest =
    | AddSequenceTests | GenerateSemantics | IndexOfSemantics | IndexWhereSemantics
    | DropFirstSemantics | DropLastSemantics | PrefixSemantics | SuffixSemantics | SplitSemantics
    | RemoveLastSliceSemantics | RemoveLastNSliceSemantics | PopLastSliceSemantics

  datatype TestCase =
    | External(test: ExternalTest)
    | IndexOutOfBounds(elements: seq<int>, edge: Edge, offset: int, expectation: Expectation)
    | SubscriptIndexOutOfBounds(elements: seq<int>, edge: Edge, offset: int, expectation: Expectation)
    | SubscriptRangeOutOfBounds(elements: seq<int>, edge: Edge, offset: int, expectation: Expectation)
    | SubSequenceSubscriptOnIndex(elements: seq<int>, bounds: Range, indexMode: SubscriptOnIndexMode, expectation: Expectation)
    | SubSequenceSubscriptOnRange(elements: seq<int>, bounds: Range, rangeMode: SubscriptOnRangeMode, expectation: Expectation)
    | SubscriptRangeSemantics
    | IsEmptySemantics
    | CountSemantics
    | FirstSemantics
    | IndicesSemantics
    | PrefixThroughSemantics
    | PrefixUpToSemantics
    | SuffixFromSemantics
    | RemoveFirstSemantics
    | RemoveFirstEmpty
    | RemoveFirstNSemantics
    | RemoveFirstNEmpty
    | RemoveFirstNNegative
    | RemoveFirstNTooMany
    | PopFirstSemantics
    | PopFirstEmpty
    | LastSemantics
    | RemoveLastEmpty
    | RemoveLastNEmpty
    | RemoveLastNNegative
    | RemoveLastNTooMany
    | PopLastEmpty
  {
    /** Sub-slice probes are only ever built from a slice that fits its base. */
    predicate WellFormed() {
      (SubSequenceSubscriptOnIndex? || SubSequenceSubscriptOnRange?) ==> SliceWithin(|elements|, bounds)
    }

    /** The probes that step past an end of a whole collection. */
    predicate IsTopLevelProbe() {
      IndexOutOfBounds? || SubscriptIndexOutOfBounds? || SubscriptRangeOutOfBounds?
    }

    predicate IsProbe() {
      || IndexOutOfBounds? || SubscriptIndexOutOfBounds? || SubscriptRangeOutOfBounds?
      || SubSequenceSubscriptOnIndex? || SubSequenceSubscriptOnRange?
    }
  }

  /** The position a top-level probe steps to. */
  function Target(elements: seq<int>, edge: Edge, offset: int): int {
    if edge.Right? then |elements| + offset else 0 - offset
  }

  /** The misuse category a probe's body runs into first, as the reaction the
      collection gives it, or `None` when the body commits no misuse. */
  function FirstMisuse(tc: TestCase, reactions: Reactions): (m: Option<Reaction>)
    requires tc.WellFormed() && tc.IsProbe()
    ensures tc.IndexOutOfBounds? || tc.SubscriptRangeOutOfBounds? ==> m.None? || m == Some(reactions.creatingIndex)
    ensures tc.SubscriptIndexOutOfBounds? ==> (m.None? <==> 0 <= Target(tc.elements, tc.edge, tc.offset) < |tc.elements|)
    ensures tc.SubSequenceSubscriptOnIndex? ==> m.None? || m == Some(reactions.subscriptIndex)
    ensures tc.SubSequenceSubscriptOnRange? ==> m.None? || m == Some(reactions.subscriptRange)
    ensures tc.SubSequenceSubscriptOnIndex? || tc.SubSequenceSubscriptOnRange? ==> (m.Some? <==> ProbesMisuse(tc))
  {
    match tc
    case IndexOutOfBounds(elements, edge, offset, _) =>
      var t := Target(elements, edge, offset);
      if 0 <= t <= |elements| then None else Some(reactions.creatingIndex)
    case SubscriptIndexOutOfBounds(elements, edge, offset, _) =>
      var t := Target(elements, edge, offset);
      if !(0 <= t <= |elements|) then Some(reactions.creatingIndex)
      else if t == |elements| then Some(reactions.subscriptIndex)
      else None
    case SubscriptRangeOutOfBounds(elements, edge, offset, _) =>
      var t := Target(elements, edge, offset);
      if 0 <= t <= |elements| then None else Some(reactions.creatingIndex)
    case SubSequenceSubscriptOnIndex(elements, bounds, mode, _) =>
      if IndexProbeFor(|elements|, bounds, mode).Probe? then Some(reactions.subscriptIndex) else None
    case SubSequenceSubscriptOnRange(elements, bounds, mode, _) =>
      if RangeProbeFor(|elements|, bounds, mode).ProbeRange? then Some(reactions.subscriptRange) else None
  }

  /** A top-level element or range probe whose index creation misuses goes
      on reading through the stepped position: the reaction that read draws. */
  function ReadAfterCreation(tc: TestCase, reactions: Reactions): Option<Reaction> {
    match tc
    case SubscriptIndexOutOfBounds(elements, edge, offset, _) =>
      if 0 <= Target(elements, edge, offset) <= |elements| then None else Some(reactions.subscriptIndex)
    case SubscriptRangeOutOfBounds(elements, edge, offset, _) =>
      if 0 <= Target(elements, edge, offset) <= |elements| then None else Some(reactions.subscriptRange)
    case _ => None
  }

  /** Whether a probe reaches a misuse at all; an `inRange` mode or a mode
      with nothing to probe returns before it. */
  predicate ProbesMisuse(tc: TestCase)
    requires tc.WellFormed()
  {
    && tc.IsProbe()
    && (tc.SubSequenceSubscriptOnIndex? ==> IndexProbeFor(|tc.elements|, tc.bounds, tc.indexMode).Probe?)
    && (tc.SubSequenceSubscriptOnRange? ==> RangeProbeFor(|tc.elements|, tc.bounds, tc.rangeMode).ProbeRange?)
  }

  /** The verdict the harness should report for `tc` against a reference
      collection answering misuse with `reactions`. */
  function ExpectedVerdict(tc: TestCase, reactions: Reactions): (v: Verdict)
    requires tc.WellFormed()
    ensures v == NotModelled <==> tc.External?
    ensures !tc.External? && !ProbesMisuse(tc) ==> v == Passed
    ensures tc.SubscriptIndexOutOfBounds? && !(0 <= Target(tc.elements, tc.edge, tc.offset) <= |tc.elements|)
            ==> (v == Passed <==> if reactions.creatingIndex.Crash? then tc.expectation.CrashLater?
                                  else tc.expectation.RecoverableFailure? && reactions.subscriptIndex.Report?)
    ensures tc.SubscriptRangeOutOfBounds? && !(0 <= Target(tc.elements, tc.edge, tc.offset) <= |tc.elements|)
            ==> (v == Passed <==> if reactions.creatingIndex.Crash? then tc.expectation.CrashLater?
                                  else tc.expectation.RecoverableFailure? && reactions.subscriptRange.Report?)
  {
    if tc.External? then NotModelled
    else if !ProbesMisuse(tc) then Passed
    else match FirstMisuse(tc, reactions)
      case None => Failed
      case Some(r) =>
        if r.Crash? != tc.expectation.CrashLater? then Failed
        else if r.Report? && ReadAfterCreation(tc, reactions) == Some(Crash) then Failed
        else Passed
  }

  /** A reported index creation does not end a top-level probe: inside
      `expectFailure` the read through the stepped position still runs, and a
      collection that traps on that read fails the probe. */
  lemma ReportedCreationThenTrappingReadFails()
    ensures ExpectedVerdict(SubscriptIndexOutOfBounds([1010, 2020, 3030], Right, 1, RecoverableFailure), Reactions(Report, Crash, Crash)) == Failed
    ensures ExpectedVerdict(SubscriptRangeOutOfBounds([1010, 2020, 3030], Right, 1, RecoverableFailure), Reactions(Report, Crash, Crash)) == Failed
    ensures ExpectedVerdict(SubscriptIndexOutOfBounds([1010, 2020, 3030], Right, 1, RecoverableFailure), Reactions(Report, Report, Crash)) == Passed
  {
  }
}
