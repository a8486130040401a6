/** The misuse-resiliency policy of the conformance harness and the
    three-way dispatch it drives: a probe is not registered, registered to
    expect a recoverable failure (`expectFailure { ... }`), or registered to
    expect a trap (`expectCrashLater()`). */
module Resiliency {
  import opened Outcomes
  import opened Reference

  /** One policy setting: `.trap`, `.expectFailure` or `.none` (here `Skip`). */
  datatype FailureBehavior = Trap | ExpectFailure | Skip

  /** `CollectionMisuseResiliencyChecks`: one setting per misuse category. */
  datatype ResiliencyChecks = ResiliencyChecks(
    creatingOutOfBoundsIndicesBehavior: FailureBehavior,
    subscriptOnOutOfBoundsIndicesBehavior: FailureBehavior,
    subscriptRangeOnOutOfBoundsRangesBehavior: FailureBehavior)

  /** `.all`, the default: every category is expected to trap. */
  const All := ResiliencyChecks(Trap, Trap, Trap)

  /** What a registered probe waits for. */
  datatype Expectation = CrashLater | RecoverableFailure

  /** Whether a probe block is registered, and what it then expects. */
  datatype Dispatch = NotRegistered | Registered(expectation: Expectation)

  /** `if gate != .none { ... if choice == .trap { expectCrashLater() ... }
      else { expectFailure { ... } } }`. The block's registration and its
      expectation may read two different settings. */
  function DispatchOn(gate: FailureBehavior, choice: FailureBehavior): (d: Dispatch)
    ensures d.NotRegistered? <==> gate.Skip?
    ensures d.Registered? ==> (d.expectation.CrashLater? <==> choice.Trap?)
    ensures gate == choice && d.Registered? ==> (d.expectation.RecoverableFailure? <==> gate.ExpectFailure?)
  {
    if gate.Skip? then NotRegistered
    else if choice.Trap? then Registered(CrashLater)
    else Registered(RecoverableFailure)
  }

  /** What one test reports. `NotModelled` marks tests whose body runs fixture
      tables or helpers this model does not hold. */
  datatype Verdict = Passed | Failed | NotModelled

  /** The verdict of a probe that waited for `e` while its body produced `o`:
      a probe passes only when a misuse happens and it is the kind waited for;
      a body that completes normally fails the probe. */
  function Judge<T>(e: Expectation, o: Outcome<T>): (v: Verdict)
    ensures v != NotModelled
    ensures o.Returns? ==> v == Failed
    ensures o.IsMisuse() ==> (v == Passed <==> (o.Traps? <==> e.CrashLater?))
  {
    match o
    case Returns(_) => Failed
    case Traps => if e.CrashLater? then Passed else Failed
    case ReportsFailure => if e.RecoverableFailure? then Passed else Failed
  }

  /** The verdict of a probe whose body reported a recoverable failure and
      then went on to produce `o`. Inside `expectFailure { ... }` the report
      is what the probe waits for, so it passes unless the rest of the body
      traps; after `expectCrashLater()` the report alone fails it. */
  function JudgeAfterReport<T>(e: Expectation, o: Outcome<T>): (v: Verdict)
    ensures v != NotModelled
    ensures v == Passed <==> e.RecoverableFailure? && !o.Traps?
    ensures o.IsMisuse() ==> (v == Passed <==> Judge<T>(e, ReportsFailure) == Passed && Judge(e, o) == Passed)
  {
    if e.RecoverableFailure? && !o.Traps? then Passed else Failed
  }

  /** A registered probe of a misuse the collection answers with `r` passes
      exactly when the setting that chose its expectation agrees with `r`. */
  lemma JudgeMisuse(gate: FailureBehavior, choice: FailureBehavior, r: Reaction)
    requires !gate.Skip?
    ensures Judge(DispatchOn(gate, choice).expectation, Misuse<()>(r)) == Passed <==> (choice.Trap? <==> r.Crash?)
  {
  }
}
