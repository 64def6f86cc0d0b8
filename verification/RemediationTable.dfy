/** What the remediation policy answers, read off the sprint, the checkpoint and the evidence: the
    table of answers action by action, the order of the actions, the strength of the evidence, and
    the whole way from a checkpoint to the answer. */
module RemediationTable {
  import opened Common
  import opened Ordering
  import opened FailureClassifier
  import opened RemediationPolicy
  import V = AcceptanceValidator

  // ---------------------------------------------------------------- the table

  /** The actions, the most restrictive first. */
  const SEVERITY: seq<Action> := [Hitl, Halt, EscalateProfile, Repartition, RetryReducedScope, RequestEvidence, RetrySame, NoAction]

  /** Action `a` stands before `b` in that list. */
  ghost predicate Stricter(a: Action, b: Action) { exists i, j :: 0 <= i < j < |SEVERITY| && SEVERITY[i] == a && SEVERITY[j] == b }

  lemma SeverityAt(i: nat)
    requires i < 8
    ensures |SEVERITY| == 8 && Restriction(SEVERITY[i]) == i
  {
    var s := SEVERITY;
    assert s[0] == Hitl && s[1] == Halt && s[2] == EscalateProfile && s[3] == Repartition;
    assert s[4] == RetryReducedScope && s[5] == RequestEvidence && s[6] == RetrySame && s[7] == NoAction;
  }

  lemma SeverityReads(a: Action, b: Action)
    ensures Restriction(a) < Restriction(b) <==> Stricter(a, b)
  {
    SeverityOf(a);
    SeverityOf(b);
    hide Restriction, SEVERITY;
    forall i: nat | i < 8 ensures |SEVERITY| == 8 && Restriction(SEVERITY[i]) == i { SeverityAt(i); }
  }

  lemma SeverityOf(a: Action)
    ensures Restriction(a) < 8 == |SEVERITY| && SEVERITY[Restriction(a)] == a
  {
    SeverityAt(Restriction(a));
    RestrictionInjective(a, SEVERITY[Restriction(a)]);
  }

  /** What each action is the answer to. `undecided` says that the dependencies could not be judged. */
  ghost predicate Demands(c: FailureClass, undecided: bool, same: nat, policy: Policy, a: Action) {
    var spent := same >= policy.maxSameRetry;
    var heavy := c.BudgetExceeded? || c.ContextSaturation?;
    match a
    case NoAction => false
    case RetrySame =>
      (!spent && (c.ToolFailure? || c.FalseCompletion? || c.TaskDrift? || c.SilentStall?)) || (c.InvalidOutput? && same == 0)
    case RetryReducedScope =>
      || c.PathGuessing?
      || (heavy && !policy.partitioningNotPossible && !spent)
      || (c.InvalidOutput? && same > 0 && same == policy.maxSameRetry)
      || (c.TaskDrift? && spent)
      || (c.TaskRetentionFailure? && !spent)
    case Repartition =>
      spent && (c.ToolCallLoop? || c.Contradiction? || c.TaskRetentionFailure? || (heavy && !policy.partitioningNotPossible))
    case RequestEvidence =>
      c.EvidenceStarvation? || (c.DependencyFailure? && undecided) || (!spent && (c.Contradiction? || c.UnverifiableCompletion?))
    case EscalateProfile => (c.CapabilityFailure? || c.ConfigurationMismatch?) && policy.target != ""
    case Halt =>
      || (c.ConfigurationMismatch? && policy.target == "")
      || (c.DependencyFailure? && !undecided)
      || (c.ToolCallLoop? && !spent)
      || (c.InvalidOutput? && same > 0 && same != policy.maxSameRetry)
    case Hitl =>
      || c.UnknownFailure?
      || (c.CapabilityFailure? && policy.target == "")
      || (heavy && policy.partitioningNotPossible)
      || (spent && (c.ToolFailure? || c.FalseCompletion? || c.UnverifiableCompletion? || c.SilentStall?))
  }

  /** Every class has one answer, and it is the one whose entry it meets. */
  lemma BaselineReads(c: FailureClass, dependency: Option<V.Status>, same: nat, policy: Policy, a: Action)
    ensures Baseline(c, dependency, same, policy) == a <==> Demands(c, dependency == Some(V.Unverifiable), same, policy, a)
  {
  }

  /** An action answers a classification exactly when a class present demands it and every other
      demand is less strict. */
  lemma ActionReads(f: Classification, taskLocked: bool, same: nat, policy: Policy, a: Action)
    requires f.primary.Some?
    ensures var undecided := DependencyStatus(f.signals) == Some(V.Unverifiable);
            Decide(f, taskLocked, same, policy).action == a <==>
            && (exists c :: c in Classes(f) && Demands(c, undecided, same, policy, a))
            && (forall c, b :: c in Classes(f) && Demands(c, undecided, same, policy, b) ==> b == a || Stricter(a, b))
  {
    hide Decide, Baseline, Demands, Stricter, Classes, Restriction;
    var d, dep := Decide(f, taskLocked, same, policy), DependencyStatus(f.signals);
    PrimaryPresent(f);
    MostRestrictiveWins(f, taskLocked, same, policy, f.primary.value);
    BaselineReads(d.winner.value, dep, same, policy, d.action);
    forall c, b | c in Classes(f) && Demands(c, dep == Some(V.Unverifiable), same, policy, b)
      ensures b == d.action || Stricter(d.action, b)
    {
      MostRestrictiveWins(f, taskLocked, same, policy, c);
      BaselineReads(c, dep, same, policy, b);
      RestrictionInjective(d.action, b);
      SeverityReads(d.action, b);
    }
    SeverityReads(a, d.action);
    SeverityReads(d.action, a);
  }

  lemma PrimaryPresent(f: Classification)
    requires f.primary.Some?
    ensures f.primary.value in Classes(f)
  {
  }

  // ---------------------------------------------------------------- the evidence

  /** Signals of checks and outcomes only. */
  ghost predicate Certainly(m: Signals) {
    && FalseCompletion !in m && ContextSaturation !in m
    && forall c :: c in m ==> m[c] != [] && AllCertain(m[c])
  }

  ghost predicate AllCertain(signals: seq<Signal>) { forall s :: s in signals ==> s.strength.Deterministic? }

  lemma AddIsCertain(m: Signals, k: V.Check)
    requires Certainly(m)
    ensures Certainly(AddCheck(m, k))
  {
    hide Text.Contains, Text.Lower;
  }

  lemma {:induction false} ChecksAreCertain(m: Signals, checks: seq<V.Check>)
    requires Certainly(m)
    ensures Certainly(FromChecks(m, checks))
  {
    hide AddCheck, Certainly;
    if checks != [] {
      ChecksAreCertain(m, checks[..|checks| - 1]);
      AddIsCertain(FromChecks(m, checks[..|checks| - 1]), checks[|checks| - 1]);
    }
  }

  lemma {:induction false} CertainStrength(signals: seq<Signal>)
    requires signals != [] && AllCertain(signals)
    ensures MaxStrength(signals).Deterministic?
  {
    var n := |signals| - 1;
    assert signals[n] in signals;
    if n > 0 {
      assert forall s :: s in signals[..n] ==> s in signals;
      CertainStrength(signals[..n]);
    }
  }

  lemma SingleStrength(s: Signal)
    ensures MaxStrength([s]) == s.strength
  {
    assert [s][..0] == [];
    assert MaxStrength([]) == Unresolved;
  }

  lemma DetectedStrength(cp: V.Checkpoint, v: V.Validation, truncated: bool, c: FailureClass)
    requires c in Detect(cp, v, truncated)
    ensures MaxStrength(Detect(cp, v, truncated)[c]) ==
            if c.FalseCompletion? then StrongSignal else if c.ContextSaturation? then WeakSignal else Deterministic
  {
    var base := FromChecks(ExplicitSignals(cp), v.checks);
    assert Certainly(base) by { ChecksAreCertain(ExplicitSignals(cp), v.checks); }
    hide FromChecks, MaxStrength, AllCertain, ExplicitSignals;
    var detected := Detect(cp, v, truncated);
    if c.FalseCompletion? {
      SingleStrength(Signal("SELF_REPORTED_PASS_REJECTED", None, StrongSignal));
      assert detected[c] == [Signal("SELF_REPORTED_PASS_REJECTED", None, StrongSignal)];
    } else if c.ContextSaturation? {
      SingleStrength(Signal("CONTEXT_TRUNCATION_APPLIED", None, WeakSignal));
      assert detected[c] == [Signal("CONTEXT_TRUNCATION_APPLIED", None, WeakSignal)];
    } else {
      assert detected[c] == base[c];
      CertainStrength(base[c]);
    }
  }

  /** How strong the evidence for the primary class is: a check or the outcome is certain, a rejected
      claim of success strong, a truncated context weak, and without any it stays unresolved. */
  lemma StrengthReads(cp: V.Checkpoint, v: V.Validation, truncated: bool)
    requires !v.accepted
    ensures var f := Classify(cp, v, truncated);
            f.primary.Some? && f.strength == Some(
              if f.primary.value.UnknownFailure? then Unresolved
              else if f.primary.value.FalseCompletion? then StrongSignal
              else if f.primary.value.ContextSaturation? then WeakSignal
              else Deterministic)
  {
    ClassificationExact(cp, v, truncated);
    hide Detect, Present, Cause, MaxStrength;
    var f, detected := Classify(cp, v, truncated), Detect(cp, v, truncated);
    if detected != map[] {
      PresentExactly(detected);
      assert f.primary.value in Present(detected);
      DetectedStrength(cp, v, truncated, f.primary.value);
    }
  }

  /** What a decision asks for follows from its action. */
  lemma DecisionReads(f: Classification, taskLocked: bool, same: nat, policy: Policy)
    requires f.primary.Some?
    ensures var d := Decide(f, taskLocked, same, policy);
            && d.winner.Some?
            && (d.spendsRetry <==> d.action == RetrySame || d.action == RetryReducedScope)
            && (d.repartition <==> d.action == Repartition) && (d.needsHuman <==> d.action == Hitl)
            && d.target == (if d.action == EscalateProfile then Some(policy.target) else None)
            && (d.reinforcesTaskLock <==> taskLocked && d.action == RetrySame && d.winner == Some(TaskDrift))
            && (f.strength == Some(FailureClassifier.Deterministic) <==> d.strength == Certain)
            && (f.strength == Some(StrongSignal) <==> d.strength == StrongPolicyMatch)
            && (f.strength == Some(WeakSignal) <==> d.strength == WeakPolicyMatch)
  {
    hide Baseline, MinBy;
    assert Classes(f) != [];
  }

  /** How sure the decision about a rejected checkpoint is follows from its primary class. */
  lemma CertaintyReads(cp: V.Checkpoint, v: V.Validation, truncated: bool, taskLocked: bool, same: nat, policy: Policy)
    requires !v.accepted
    ensures var f := Classify(cp, v, truncated);
            var d := Decide(f, taskLocked, same, policy);
            && f.primary.Some?
            && (d.strength == Abstain <==> f.primary == Some(UnknownFailure))
            && (d.strength == StrongPolicyMatch <==> f.primary == Some(FalseCompletion))
            && (d.strength == WeakPolicyMatch <==> f.primary == Some(ContextSaturation))
  {
    hide *;
    StrengthReads(cp, v, truncated);
    DecisionReads(Classify(cp, v, truncated), taskLocked, same, policy);
  }

  // ---------------------------------------------------------------- the dependency check

  /** Each signal of a failed dependency carries the status of a dependency check that blocked. */
  ghost predicate DependencySourced(m: Signals, checks: seq<V.Check>) {
    DependencyFailure in m ==> m[DependencyFailure] != [] && forall s :: s in m[DependencyFailure] ==> SourcedIn(s, checks)
  }

  ghost predicate SourcedIn(s: Signal, checks: seq<V.Check>) {
    exists k :: k in checks && k.id == "DEPENDENCY_STATE" && k.required && k.status != V.Pass && s.status == Some(k.status)
  }

  lemma {:induction false} DependencySignals(m: Signals, checks: seq<V.Check>)
    requires DependencyFailure !in m
    ensures DependencySourced(FromChecks(m, checks), checks)
  {
    if checks != [] {
      var n := |checks| - 1;
      DependencySignals(m, checks[..n]);
      hide FromChecks, AddCheck;
      DependencySignal(FromChecks(m, checks[..n]), checks[..n], checks[n]);
      assert checks[..n] + [checks[n]] == checks;
    }
  }

  lemma DependencySignal(m: Signals, checks: seq<V.Check>, k: V.Check)
    requires DependencySourced(m, checks)
    ensures DependencySourced(AddCheck(m, k), checks + [k])
  {
    hide Text.Contains, Text.Lower, SourcedIn;
    forall s ensures SourcedIn(s, checks) ==> SourcedIn(s, checks + [k]) { SourceKept(s, checks, k); }
    if Blocks(k) && k.id == "DEPENDENCY_STATE" {
      assert SourcedIn(Signal("VALIDATION::" + k.id, Some(k.status), Deterministic), checks + [k]) by { SourceAdded(checks, k); }
    }
  }

  lemma SourceKept(s: Signal, checks: seq<V.Check>, k: V.Check)
    ensures SourcedIn(s, checks) ==> SourcedIn(s, checks + [k])
  {
  }

  lemma SourceAdded(checks: seq<V.Check>, k: V.Check)
    requires Blocks(k) && k.id == "DEPENDENCY_STATE"
    ensures SourcedIn(Signal("VALIDATION::" + k.id, Some(k.status), Deterministic), checks + [k])
  {
    assert k in checks + [k];
  }

  lemma OnlyDependencyId(t: string)
    ensures "ACCEPTANCE::" + t != "DEPENDENCY_STATE" && "OUTPUT_CONTRACT::" + t != "DEPENDENCY_STATE"
  {
    assert ("ACCEPTANCE::" + t)[0] == 'A' && ("OUTPUT_CONTRACT::" + t)[0] == 'O' && "DEPENDENCY_STATE"[0] == 'D';
  }

  /** The one check with that id is the dependency check. */
  lemma DependencyCheckAlone(sprint: V.Sprint, cp: V.Checkpoint, supplied: Option<seq<V.Checkpoint>>, rules: V.Rules, k: V.Check)
    requires k.id == "DEPENDENCY_STATE"
    ensures k in V.Validate(sprint, cp, supplied, rules).checks <==>
            && sprint.dependencies != [] && k.required
            && k.status == if supplied.None? then V.Unverifiable else if V.DependenciesPassed(sprint, supplied) then V.Pass else V.Fail
  {
    hide V.Validate, V.DependenciesPassed;
    V.ValidationReads(sprint, cp, supplied, rules, k);
    OtherStructuralIds(k, sprint, cp, supplied);
    hide V.StructuralCheck;
    forall t ensures !V.CriterionJudged(k, sprint, cp, rules, t) && !V.OutputJudged(k, sprint, cp, rules, t) { OnlyDependencyId(t); }
  }

  lemma OtherStructuralIds(k: V.Check, sprint: V.Sprint, cp: V.Checkpoint, supplied: Option<seq<V.Checkpoint>>)
    requires k.id == "DEPENDENCY_STATE"
    ensures V.StructuralCheck(k, sprint, cp, supplied) <==>
            && sprint.dependencies != [] && k.required
            && k.status == if supplied.None? then V.Unverifiable else if V.DependenciesPassed(sprint, supplied) then V.Pass else V.Fail
  {
    hide V.DependenciesPassed;
    assert k.id[0] == 'D';
    assert "IDENTITY_MISSION_MATCH"[0] == 'I' && "IDENTITY_SPRINT_MATCH"[0] == 'I' && "CHECKPOINT_STATUS_VALID"[0] == 'C';
    assert "EXECUTION_OUTCOME_PASS"[0] == 'E' && "TASK_LOCK_PRESERVED"[0] == 'T' && "BUDGET_CONTRACT"[0] == 'B';
    assert "FINDING_EVIDENCE_ASSOCIATION"[0] == 'F';
  }

  /** The dependency answer asks for evidence exactly when no checkpoints were supplied to judge by. */
  lemma DependencyStatusReads(
    sprint: V.Sprint, cp: V.Checkpoint, supplied: Option<seq<V.Checkpoint>>, rules: V.Rules, truncated: bool)
    ensures var m := Detect(cp, V.Validate(sprint, cp, supplied, rules), truncated);
            DependencyFailure in m ==> DependencyStatus(m) == Some(if supplied.None? then V.Unverifiable else V.Fail)
  {
    var v := V.Validate(sprint, cp, supplied, rules);
    var base := FromChecks(ExplicitSignals(cp), v.checks);
    DependencySignals(ExplicitSignals(cp), v.checks);
    hide FromChecks, V.Validate, SourcedIn, ExplicitSignals;
    var m := Detect(cp, v, truncated);
    if DependencyFailure in m {
      assert m[DependencyFailure] == base[DependencyFailure];
      var s := base[DependencyFailure][0];
      assert s in base[DependencyFailure];
      SourceStatus(s, sprint, cp, supplied, rules);
    }
  }

  lemma SourceStatus(s: Signal, sprint: V.Sprint, cp: V.Checkpoint, supplied: Option<seq<V.Checkpoint>>, rules: V.Rules)
    requires SourcedIn(s, V.Validate(sprint, cp, supplied, rules).checks)
    ensures s.status == Some(if supplied.None? then V.Unverifiable else V.Fail)
  {
    hide V.Validate, V.DependenciesPassed;
    var k :| k in V.Validate(sprint, cp, supplied, rules).checks && k.id == "DEPENDENCY_STATE" && k.required && k.status != V.Pass
             && s.status == Some(k.status);
    DependencyCheckAlone(sprint, cp, supplied, rules, k);
  }

  // ---------------------------------------------------------------- from the checkpoint to the answer

  /** The classes a rejected checkpoint is evidence of, the unknown one when it is evidence of none. */
  ghost predicate Shown(c: FailureClass, cp: V.Checkpoint, v: V.Validation, truncated: bool) {
    if exists x :: Cause(x, cp, v, truncated) then Cause(c, cp, v, truncated) else c.UnknownFailure?
  }

  /** What a rejected checkpoint is answered: an action that a class shown demands, every other
      demand being less strict. */
  lemma {:induction false} AnswerReads(
    sprint: V.Sprint, cp: V.Checkpoint, supplied: Option<seq<V.Checkpoint>>, rules: V.Rules, truncated: bool, same: nat, policy: Policy, a: Action)
    requires !V.MeetsContract(sprint, cp, supplied, rules)
    ensures var v := V.Validate(sprint, cp, supplied, rules);
            Remediate(sprint, cp, supplied, rules, truncated, same, policy).action == a <==>
            && (exists c :: Shown(c, cp, v, truncated) && Demands(c, supplied.None?, same, policy, a))
            && (forall c, b :: Shown(c, cp, v, truncated) && Demands(c, supplied.None?, same, policy, b) ==> b == a || Stricter(a, b))
  {
    hide *;
    var v := V.Validate(sprint, cp, supplied, rules);
    V.AcceptedExactly(sprint, cp, supplied, rules);
    ClassificationExact(cp, v, truncated);
    var f := Classify(cp, v, truncated);
    RemediateIsDecide(sprint, cp, supplied, rules, truncated, same, policy);
    ActionReads(f, sprint.taskLocked, same, policy, a);
    forall c ensures c in Classes(f) <==> Shown(c, cp, v, truncated) { ShownReads(c, cp, v, truncated); }
    forall c, b | c in Classes(f)
      ensures Demands(c, DependencyStatus(f.signals) == Some(V.Unverifiable), same, policy, b) == Demands(c, supplied.None?, same, policy, b)
    {
      SameDemand(sprint, cp, supplied, rules, truncated, same, policy, c, b);
    }
  }

  lemma RemediateIsDecide(
    sprint: V.Sprint, cp: V.Checkpoint, supplied: Option<seq<V.Checkpoint>>, rules: V.Rules, truncated: bool, same: nat, policy: Policy)
    ensures Remediate(sprint, cp, supplied, rules, truncated, same, policy)
            == Decide(Classify(cp, V.Validate(sprint, cp, supplied, rules), truncated), sprint.taskLocked, same, policy)
  {
    hide Decide, Classify, V.Validate;
  }

  lemma ShownReads(c: FailureClass, cp: V.Checkpoint, v: V.Validation, truncated: bool)
    requires !v.accepted
    ensures c in Classes(Classify(cp, v, truncated)) <==> Shown(c, cp, v, truncated)
  {
    ClassificationExact(cp, v, truncated);
    DetectedExactly(cp, v, truncated);
    hide Classify, Detect, Cause, Classes;
    if x :| Cause(x, cp, v, truncated) {
      assert x in Detect(cp, v, truncated);
    }
  }

  /** The status of the dependency check matters only where the dependencies are what failed. */
  lemma SameDemand(
    sprint: V.Sprint, cp: V.Checkpoint, supplied: Option<seq<V.Checkpoint>>, rules: V.Rules, truncated: bool, same: nat, policy: Policy,
    c: FailureClass, b: Action)
    requires var v := V.Validate(sprint, cp, supplied, rules); !v.accepted && c in Classes(Classify(cp, v, truncated))
    ensures var f := Classify(cp, V.Validate(sprint, cp, supplied, rules), truncated);
            Demands(c, DependencyStatus(f.signals) == Some(V.Unverifiable), same, policy, b) == Demands(c, supplied.None?, same, policy, b)
  {
    var v := V.Validate(sprint, cp, supplied, rules);
    if c.DependencyFailure? {
      hide V.Validate, Detect, Cause, Present, Demands, DependencyStatus;
      ClassificationExact(cp, v, truncated);
      DetectedExactly(cp, v, truncated);
      DependencyStatusReads(sprint, cp, supplied, rules, truncated);
    } else {
      hide V.Validate, Classify, Classes, DependencyStatus;
    }
  }
}
