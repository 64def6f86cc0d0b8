/** The failure classifier (MEIZEX_AIR failure_classifier.py): it collects signals from a rejected
    validation and names one primary failure class and the secondary ones. */
module FailureClassifier {
  import opened Common
  import opened Ordering
  import opened Text
  import V = AcceptanceValidator

  datatype FailureClass =
    | CapabilityFailure | ConfigurationMismatch | DependencyFailure | ToolFailure | ToolCallLoop | BudgetExceeded
    | ContextSaturation | Contradiction | FalseCompletion | InvalidOutput | EvidenceStarvation | UnverifiableCompletion
    | TaskDrift | TaskRetentionFailure | PathGuessing | SilentStall | UnknownFailure

  /** Most authoritative first. */
  const PRECEDENCE: seq<FailureClass> := [
    CapabilityFailure, ConfigurationMismatch, DependencyFailure, ToolFailure, ToolCallLoop, BudgetExceeded,
    ContextSaturation, Contradiction, FalseCompletion, InvalidOutput, EvidenceStarvation, UnverifiableCompletion,
    TaskDrift, TaskRetentionFailure, PathGuessing, SilentStall, UnknownFailure ]

  datatype Strength = Unresolved | WeakSignal | StrongSignal | Deterministic

  datatype Signal = Signal(id: string, status: Option<V.Status>, strength: Strength)

  type Signals = map<FailureClass, seq<Signal>>

  datatype Classification = Classification(
    primary: Option<FailureClass>, secondary: seq<FailureClass>, signals: Signals, strength: Option<Strength>, toolAtFault: bool)

  // ---------------------------------------------------------------- signals

  function Add(m: Signals, c: FailureClass, s: Signal): Signals { m[c := (if c in m then m[c] else []) + [s]] }

  /** The class an executor's own outcome names, if it names one. */
  function Explicit(outcome: Option<V.Outcome>): Option<FailureClass> {
    match outcome
    case Some(TaskDrift) => Some(TaskDrift)
    case Some(BudgetExceeded) => Some(BudgetExceeded)
    case Some(ToolFailure) => Some(ToolFailure)
    case Some(Contradiction) => Some(Contradiction)
    case Some(CapabilityFailure) => Some(CapabilityFailure)
    case Some(InvalidOutput) => Some(InvalidOutput)
    case _ => None
  }

  /** The class of a required check that did not pass. Identity and status checks have none. */
  function ClassOf(c: V.Check): Option<FailureClass> {
    if c.id == V.DEPENDENCY_STATE then Some(DependencyFailure)
    else if c.status.Unverifiable? then Some(UnverifiableCompletion)
    else if Contains("evidence", Lower(c.id)) then Some(EvidenceStarvation)
    else if "ACCEPTANCE::" <= c.id || "OUTPUT_CONTRACT::" <= c.id then Some(InvalidOutput)
    else None
  }

  predicate Blocks(c: V.Check) { c.required && !c.status.Pass? }

  function AddCheck(m: Signals, c: V.Check): Signals {
    if Blocks(c) && ClassOf(c).Some? then Add(m, ClassOf(c).value, Signal("VALIDATION::" + c.id, Some(c.status), Deterministic)) else m
  }

  function FromChecks(m: Signals, checks: seq<V.Check>): Signals {
    if checks == [] then m else AddCheck(FromChecks(m, checks[..|checks| - 1]), checks[|checks| - 1])
  }

  function ExplicitSignals(cp: V.Checkpoint): Signals {
    match Explicit(cp.outcome)
    case None => map[]
    case Some(c) => map[c := [Signal("CHECKPOINT_FAILURE_CLASS", None, Deterministic)]]
  }

  predicate SelfReportRejected(cp: V.Checkpoint, v: V.Validation) { cp.outcome == Some(V.Passed) && !v.accepted && v.failed != [] }

  function Detect(cp: V.Checkpoint, v: V.Validation, truncated: bool): Signals {
    var fromChecks := FromChecks(ExplicitSignals(cp), v.checks);
    var withSelfReport :=
      if SelfReportRejected(cp, v) then Add(fromChecks, FalseCompletion, Signal("SELF_REPORTED_PASS_REJECTED", None, StrongSignal))
      else fromChecks;
    if truncated then Add(withSelfReport, ContextSaturation, Signal("CONTEXT_TRUNCATION_APPLIED", None, WeakSignal)) else withSelfReport
  }

  /** `_detect_signals`. `truncated` says that context metadata was given and reports a truncation. */
  method DetectSignals(cp: V.Checkpoint, v: V.Validation, truncated: bool) returns (byClass: Signals)
    ensures byClass == Detect(cp, v, truncated)
  {
    byClass := map[];
    var mapped := Explicit(cp.outcome);
    if mapped.Some? {
      byClass := Add(byClass, mapped.value, Signal("CHECKPOINT_FAILURE_CLASS", None, Deterministic));
    }
    assert byClass == ExplicitSignals(cp) by {
      var s := Signal("CHECKPOINT_FAILURE_CLASS", None, Deterministic);
      assert [] + [s] == [s];
    }
    for i := 0 to |v.checks|
      invariant byClass == FromChecks(ExplicitSignals(cp), v.checks[..i])
    {
      assert v.checks[..i + 1][..i] == v.checks[..i];
      var check := v.checks[i];
      if !check.required || check.status.Pass? {
        continue;
      }
      var signal := Signal("VALIDATION::" + check.id, Some(check.status), Deterministic);
      if check.id == V.DEPENDENCY_STATE {
        byClass := Add(byClass, DependencyFailure, signal);
        continue;
      }
      if check.status.Unverifiable? {
        byClass := Add(byClass, UnverifiableCompletion, signal);
        continue;
      }
      if Contains("evidence", Lower(check.id)) {
        byClass := Add(byClass, EvidenceStarvation, signal);
        continue;
      }
      if "ACCEPTANCE::" <= check.id || "OUTPUT_CONTRACT::" <= check.id {
        byClass := Add(byClass, InvalidOutput, signal);
      }
    }
    assert v.checks[..|v.checks|] == v.checks;
    if cp.outcome == Some(V.Passed) && !v.accepted && v.failed != [] {
      byClass := Add(byClass, FalseCompletion, Signal("SELF_REPORTED_PASS_REJECTED", None, StrongSignal));
    }
    if truncated {
      byClass := Add(byClass, ContextSaturation, Signal("CONTEXT_TRUNCATION_APPLIED", None, WeakSignal));
    }
  }

  /** The executor's own outcome names this class. */
  ghost predicate OutcomeNames(c: FailureClass, outcome: Option<V.Outcome>) {
    || (c.TaskDrift? && outcome == Some(V.Outcome.TaskDrift))
    || (c.BudgetExceeded? && outcome == Some(V.Outcome.BudgetExceeded))
    || (c.ToolFailure? && outcome == Some(V.Outcome.ToolFailure))
    || (c.Contradiction? && outcome == Some(V.Outcome.Contradiction))
    || (c.CapabilityFailure? && outcome == Some(V.Outcome.CapabilityFailure))
    || (c.InvalidOutput? && outcome == Some(V.Outcome.InvalidOutput))
  }

  ghost predicate SpeaksOfEvidence(id: string) { exists i :: StandsAt("evidence", Lower(id), i) }

  /** A required check that did not pass is evidence of this class: the dependency check of a failed
      dependency, any other undecided check of an unverifiable completion, a check of evidence of
      starvation, and any other criterion or output key of an invalid output. */
  ghost predicate Accuses(k: V.Check, c: FailureClass) {
    && k.required && k.status != V.Pass
    && if k.id == "DEPENDENCY_STATE" then c.DependencyFailure?
       else if k.status == V.Unverifiable then c.UnverifiableCompletion?
       else if SpeaksOfEvidence(k.id) then c.EvidenceStarvation?
       else c.InvalidOutput? && ("ACCEPTANCE::" <= k.id || "OUTPUT_CONTRACT::" <= k.id)
  }

  lemma AccusesReads(k: V.Check, c: FailureClass)
    ensures Blocks(k) && ClassOf(k) == Some(c) <==> Accuses(k, c)
  {
    hide Contains, Lower;
    ContainsExactly("evidence", Lower(k.id));
  }

  /** What each class is evidence of. */
  ghost predicate Cause(c: FailureClass, cp: V.Checkpoint, v: V.Validation, truncated: bool) {
    || OutcomeNames(c, cp.outcome)
    || (exists k :: k in v.checks && Accuses(k, c))
    || (c.FalseCompletion? && cp.outcome == Some(V.Passed) && !v.accepted && v.failed != [])
    || (c.ContextSaturation? && truncated)
  }

  /** Every list of signals is non-empty and made of real evidence. */
  ghost predicate Sourced(m: Signals) {
    forall c :: c in m ==> m[c] != [] && forall s :: s in m[c] ==> !s.strength.Unresolved?
  }

  lemma {:induction false} FromChecksExact(m: Signals, checks: seq<V.Check>)
    ensures forall c :: c in FromChecks(m, checks) <==> c in m || exists k :: k in checks && Blocks(k) && ClassOf(k) == Some(c)
    ensures Sourced(m) ==> Sourced(FromChecks(m, checks))
  {
    hide ClassOf;
    if checks != [] {
      var n := |checks| - 1;
      assert checks == checks[..n] + [checks[n]];
      FromChecksExact(m, checks[..n]);
      AddCheckExact(FromChecks(m, checks[..n]), checks[n]);
      hide FromChecks, AddCheck, Blocks, Sourced;
      assert forall k :: k in checks <==> k in checks[..n] || k == checks[n];
    }
  }

  lemma AddCheckExact(m: Signals, k: V.Check)
    ensures forall c :: c in AddCheck(m, k) <==> c in m || (Blocks(k) && ClassOf(k) == Some(c))
    ensures Sourced(m) ==> Sourced(AddCheck(m, k))
  {
    hide ClassOf;
  }

  /** A class is detected exactly when its cause is there, always with evidence. */
  lemma DetectedExactly(cp: V.Checkpoint, v: V.Validation, truncated: bool)
    ensures forall c :: c in Detect(cp, v, truncated) <==> Cause(c, cp, v, truncated)
    ensures Sourced(Detect(cp, v, truncated))
  {
    CheckedExactly(cp, v.checks);
    DetectAdds(cp, v, truncated);
    hide FromChecks, Accuses, Detect, Sourced, ExplicitSignals, OutcomeNames;
  }

  lemma CheckedExactly(cp: V.Checkpoint, checks: seq<V.Check>)
    ensures forall c :: c in FromChecks(ExplicitSignals(cp), checks) <==> OutcomeNames(c, cp.outcome) || exists k :: k in checks && Accuses(k, c)
    ensures Sourced(FromChecks(ExplicitSignals(cp), checks))
  {
    FromChecksExact(ExplicitSignals(cp), checks);
    ExplicitExactly(cp);
    forall k, c ensures Blocks(k) && ClassOf(k) == Some(c) <==> Accuses(k, c) { AccusesReads(k, c); }
    hide FromChecks, ClassOf, Accuses, Blocks, ExplicitSignals, OutcomeNames, Sourced;
  }

  lemma ExplicitExactly(cp: V.Checkpoint)
    ensures forall c :: c in ExplicitSignals(cp) <==> OutcomeNames(c, cp.outcome)
    ensures Sourced(ExplicitSignals(cp))
  {
  }

  lemma DetectAdds(cp: V.Checkpoint, v: V.Validation, truncated: bool)
    requires Sourced(FromChecks(ExplicitSignals(cp), v.checks))
    ensures Sourced(Detect(cp, v, truncated))
    ensures forall c :: c in Detect(cp, v, truncated) <==>
              || c in FromChecks(ExplicitSignals(cp), v.checks)
              || (c.FalseCompletion? && cp.outcome == Some(V.Passed) && !v.accepted && v.failed != [])
              || (c.ContextSaturation? && truncated)
  {
    hide FromChecks, ExplicitSignals;
  }

  // ---------------------------------------------------------------- classification

  function Among(m: Signals): FailureClass -> bool { (c: FailureClass) => c in m }

  /** The classes of a map, most authoritative first. */
  function Present(m: Signals): seq<FailureClass> { Filter(PRECEDENCE, Among(m)) }

  function Stronger(a: Strength, b: Strength): Strength {
    if a.Unresolved? || (a.WeakSignal? && !b.Unresolved?) || (a.StrongSignal? && b.Deterministic?) then b else a
  }

  function MaxStrength(signals: seq<Signal>): Strength {
    if signals == [] then Unresolved else Stronger(MaxStrength(signals[..|signals| - 1]), signals[|signals| - 1].strength)
  }

  function Classify(cp: V.Checkpoint, v: V.Validation, truncated: bool): Classification {
    if v.accepted then Classification(None, [], map[], None, false)
    else
      var detected := Detect(cp, v, truncated);
      var byClass := if detected == map[] then map[UnknownFailure := []] else detected;
      var present := Present(byClass);
      if present == [] then Classification(None, [], byClass, None, false)
      else
        Classification(Some(present[0]), present[1..], byClass,
                       Some(MaxStrength(if present[0] in byClass then byClass[present[0]] else [])), present[0].ToolFailure?)
  }

  /** The classes of a classification. */
  function Classes(f: Classification): seq<FailureClass> { if f.primary.None? then [] else [f.primary.value] + f.secondary }

  lemma PrecedenceComplete(c: FailureClass)
    ensures c in PRECEDENCE
  {
    var p := PRECEDENCE;
    assert p[0] == CapabilityFailure && p[1] == ConfigurationMismatch && p[2] == DependencyFailure && p[3] == ToolFailure;
    assert p[4] == ToolCallLoop && p[5] == BudgetExceeded && p[6] == ContextSaturation && p[7] == Contradiction;
    assert p[8] == FalseCompletion && p[9] == InvalidOutput && p[10] == EvidenceStarvation && p[11] == UnverifiableCompletion;
    assert p[12] == TaskDrift && p[13] == TaskRetentionFailure && p[14] == PathGuessing && p[15] == SilentStall && p[16] == UnknownFailure;
  }

  lemma PresentExactly(m: Signals)
    ensures forall c :: c in Present(m) <==> c in m
  {
    forall c: FailureClass ensures c in PRECEDENCE { PrecedenceComplete(c); }
    PresentAmong(PRECEDENCE, m);
  }

  lemma PresentAmong(order: seq<FailureClass>, m: Signals)
    requires forall c :: c in order
    ensures forall c :: c in Filter(order, Among(m)) <==> c in m
  {
    hide Filter;
    FilterMembers(order, Among(m));
  }

  lemma {:induction false} EvidenceHasStrength(signals: seq<Signal>)
    requires signals != [] && forall s :: s in signals ==> !s.strength.Unresolved?
    ensures !MaxStrength(signals).Unresolved?
  {
    var n := |signals| - 1;
    assert signals[n] in signals;
    if n > 0 {
      assert forall s :: s in signals[..n] ==> s in signals;
      EvidenceHasStrength(signals[..n]);
    }
  }

  /** A rejected validation always has a primary class; its classes are exactly the detected ones, or
      UNKNOWN_FAILURE alone when nothing was detected, and only then is the strength UNRESOLVED. */
  lemma ClassificationExact(cp: V.Checkpoint, v: V.Validation, truncated: bool)
    ensures var f := Classify(cp, v, truncated);
            && (f.primary.None? <==> v.accepted)
            && (!v.accepted ==>
                  && (forall c :: c in Classes(f) <==>
                        if Detect(cp, v, truncated) == map[] then c == UnknownFailure else Cause(c, cp, v, truncated))
                  && (f.strength == Some(Unresolved) <==> Detect(cp, v, truncated) == map[])
                  && (f.primary == Some(UnknownFailure) <==> Detect(cp, v, truncated) == map[]))
  {
    hide Detect, Present, Cause, MaxStrength;
    if !v.accepted {
      var detected := Detect(cp, v, truncated);
      var byClass := if detected == map[] then map[UnknownFailure := []] else detected;
      PresentExactly(byClass);
      DetectedExactly(cp, v, truncated);
      NeverUnknown(cp, v, truncated);
      NoStrength();
      var present := Present(byClass);
      if detected == map[] {
        assert UnknownFailure in byClass;
      } else {
        var c :| c in detected;
        assert c in present;
      }
      assert present == [present[0]] + present[1..];
      assert present[0] in present;
      if detected != map[] {
        EvidenceHasStrength(byClass[present[0]]);
      }
    }
  }

  lemma NoStrength()
    ensures MaxStrength([]).Unresolved?
  {
  }

  lemma NeverUnknown(cp: V.Checkpoint, v: V.Validation, truncated: bool)
    ensures UnknownFailure !in Detect(cp, v, truncated)
  {
    DetectedExactly(cp, v, truncated);
  }

  /** The classes that are defined but for which no signal exists yet. */
  predicate Unsupported(c: FailureClass) { c in {ConfigurationMismatch, ToolCallLoop, TaskRetentionFailure, PathGuessing, SilentStall} }

  lemma CauseIsSupported(c: FailureClass, cp: V.Checkpoint, v: V.Validation, truncated: bool)
    ensures Cause(c, cp, v, truncated) ==> !Unsupported(c)
    ensures Cause(TaskDrift, cp, v, truncated) <==> cp.outcome == Some(V.Outcome.TaskDrift)
  {
  }

  /** No unsupported class is ever emitted, and TASK_DRIFT exactly on the executor's own word. */
  lemma OnlySupportedClasses(cp: V.Checkpoint, v: V.Validation, truncated: bool)
    ensures forall c :: c in Classes(Classify(cp, v, truncated)) ==> !Unsupported(c)
    ensures TaskDrift in Classes(Classify(cp, v, truncated)) <==> !v.accepted && cp.outcome == Some(V.Outcome.TaskDrift)
  {
    ClassificationExact(cp, v, truncated);
    DetectedExactly(cp, v, truncated);
    forall c ensures Cause(c, cp, v, truncated) ==> !Unsupported(c) { CauseIsSupported(c, cp, v, truncated); }
    CauseIsSupported(TaskDrift, cp, v, truncated);
    hide Classify, Detect, Cause;
  }

  /** The primary class is the most authoritative of the classes. */
  lemma PrimaryIsFirst(cp: V.Checkpoint, v: V.Validation, truncated: bool, c: FailureClass)
    requires !v.accepted && c in Classes(Classify(cp, v, truncated))
    ensures Rank(Classify(cp, v, truncated).primary.value) <= Rank(c)
  {
    var detected := Detect(cp, v, truncated);
    var byClass := if detected == map[] then map[UnknownFailure := []] else detected;
    PresentAscends(byClass);
    hide Detect, Present;
    var present := Present(byClass);
    assert present == [present[0]] + present[1..];
    var k :| 0 <= k < |present| && present[k] == c;
  }

  lemma PresentAscends(m: Signals)
    ensures Ascending(Present(m))
  {
    RanksAscend();
    FilterKeepsOrder(PRECEDENCE, Among(m));
  }

  /** The position of a class in the precedence. */
  function Rank(c: FailureClass): (r: nat)
    ensures r < |PRECEDENCE| && PRECEDENCE[r] == c
  {
    match c
    case CapabilityFailure => 0
    case ConfigurationMismatch => 1
    case DependencyFailure => 2
    case ToolFailure => 3
    case ToolCallLoop => 4
    case BudgetExceeded => 5
    case ContextSaturation => 6
    case Contradiction => 7
    case FalseCompletion => 8
    case InvalidOutput => 9
    case EvidenceStarvation => 10
    case UnverifiableCompletion => 11
    case TaskDrift => 12
    case TaskRetentionFailure => 13
    case PathGuessing => 14
    case SilentStall => 15
    case UnknownFailure => 16
  }

  ghost predicate Ascending(xs: seq<FailureClass>) { forall i, j :: 0 <= i < j < |xs| ==> Rank(xs[i]) < Rank(xs[j]) }

  lemma RanksAscend()
    ensures Ascending(PRECEDENCE)
  {
    forall i | 0 <= i < |PRECEDENCE| ensures Rank(PRECEDENCE[i]) == i {
      assert i in {0, 1, 2, 3, 4, 5, 6, 7, 8, 9, 10, 11, 12, 13, 14, 15, 16};
    }
  }

  lemma {:induction false} FilterKeepsOrder(xs: seq<FailureClass>, p: FailureClass -> bool)
    ensures Ascending(xs) ==> Ascending(Filter(xs, p))
  {
    if xs != [] && Ascending(xs) {
      var n := |xs| - 1;
      FilterKeepsOrder(xs[..n], p);
      FilterMembers(xs[..n], p);
      var init := Filter(xs[..n], p);
      forall i | 0 <= i < |init| ensures Rank(init[i]) < Rank(xs[n]) {
        assert init[i] in init;
        var k :| 0 <= k < n && xs[k] == init[i];
      }
    }
  }
}
