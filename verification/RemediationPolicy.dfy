/** The remediation policy (MEIZEX_AIR remediation_policy.py): a baseline action per failure class,
    the most restrictive of which wins, on top of validation and classification. */
module RemediationPolicy {
  import opened Common
  import opened Ordering
  import opened FailureClassifier
  import V = AcceptanceValidator

  datatype Action = NoAction | RetrySame | RetryReducedScope | Repartition | RequestEvidence | EscalateProfile | Halt | Hitl

  /** Position in the action precedence: smaller is more restrictive. */
  function Restriction(a: Action): nat {
    match a
    case Hitl => 0
    case Halt => 1
    case EscalateProfile => 2
    case Repartition => 3
    case RetryReducedScope => 4
    case RequestEvidence => 5
    case RetrySame => 6
    case NoAction => 7
  }

  datatype Policy = Policy(target: string, partitioningNotPossible: bool, maxSameRetry: nat)

  datatype DecisionStrength = Certain | StrongPolicyMatch | WeakPolicyMatch | Abstain

  datatype Decision = Decision(
    action: Action, winner: Option<FailureClass>, strength: DecisionStrength, spendsRetry: bool, repartition: bool,
    target: Option<string>, reinforcesTaskLock: bool, needsHuman: bool)

  // ---------------------------------------------------------------- baseline

  /** The status of the dependency check, when it blocked. */
  function DependencyStatus(signals: Signals): Option<V.Status> {
    if DependencyFailure in signals && signals[DependencyFailure] != [] then signals[DependencyFailure][0].status else None
  }

  /** `_baseline_action_for_class`: `same` prior attempts in a row had the same primary failure. */
  function Baseline(c: FailureClass, dependency: Option<V.Status>, same: nat, policy: Policy): Action {
    var repeated := same >= policy.maxSameRetry;
    match c
    case CapabilityFailure => if policy.target != "" then EscalateProfile else Hitl
    case ConfigurationMismatch => if policy.target != "" then EscalateProfile else Halt
    case DependencyFailure => if dependency == Some(V.Unverifiable) then RequestEvidence else Halt
    case ToolFailure => if repeated then Hitl else RetrySame
    case ToolCallLoop => if repeated then Repartition else Halt
    case BudgetExceeded => if policy.partitioningNotPossible then Hitl else if repeated then Repartition else RetryReducedScope
    case ContextSaturation => if policy.partitioningNotPossible then Hitl else if repeated then Repartition else RetryReducedScope
    case Contradiction => if repeated then Repartition else RequestEvidence
    case FalseCompletion => if repeated then Hitl else RetrySame
    case InvalidOutput => if same == 0 then RetrySame else if same == policy.maxSameRetry then RetryReducedScope else Halt
    case EvidenceStarvation => RequestEvidence
    case UnverifiableCompletion => if repeated then Hitl else RequestEvidence
    case TaskDrift => if repeated then RetryReducedScope else RetrySame
    case TaskRetentionFailure => if repeated then Repartition else RetryReducedScope
    case PathGuessing => RetryReducedScope
    case SilentStall => if repeated then Hitl else RetrySame
    case UnknownFailure => Hitl
  }

  // ---------------------------------------------------------------- decision

  function Key(dependency: Option<V.Status>, same: nat, policy: Policy): FailureClass -> seq<int> {
    (c: FailureClass) => [Restriction(Baseline(c, dependency, same, policy)), Rank(c)]
  }

  /** `min(xs, key=key)`: the first of the least. */
  function MinBy<T>(xs: seq<T>, key: T -> seq<int>): T
    requires xs != []
  {
    if |xs| == 1 then xs[0]
    else
      var m := MinBy(xs[..|xs| - 1], key);
      if Leq(key(m), key(xs[|xs| - 1])) then m else xs[|xs| - 1]
  }

  lemma {:induction false} MinByLeast<T>(xs: seq<T>, key: T -> seq<int>)
    requires xs != []
    ensures MinBy(xs, key) in xs && forall x :: x in xs ==> Leq(key(MinBy(xs, key)), key(x))
  {
    var n := |xs| - 1;
    assert xs == xs[..n] + [xs[n]];
    LeqTotal(key(xs[n]), key(xs[n]));
    if n > 0 {
      MinByLeast(xs[..n], key);
      var m := MinBy(xs[..n], key);
      LeqTotal(key(m), key(xs[n]));
      forall x | x in xs[..n] ensures Leq(key(MinBy(xs, key)), key(x)) {
        if !Leq(key(m), key(xs[n])) { LeqTransitive(key(xs[n]), key(m), key(x)); }
      }
    }
  }

  function DecisionStrengthOf(s: Strength): DecisionStrength {
    match s
    case Deterministic => Certain
    case StrongSignal => StrongPolicyMatch
    case WeakSignal => WeakPolicyMatch
    case Unresolved => Abstain
  }

  function Decide(f: Classification, taskLocked: bool, same: nat, policy: Policy): Decision {
    var classes := Classes(f);
    if classes == [] then Decision(NoAction, None, Certain, false, false, None, false, false)
    else
      var dependency := DependencyStatus(f.signals);
      var w := MinBy(classes, Key(dependency, same, policy));
      var a := Baseline(w, dependency, same, policy);
      Decision(a, Some(w), DecisionStrengthOf(if f.strength.Some? then f.strength.value else Unresolved),
               a in {RetrySame, RetryReducedScope}, a.Repartition?, if a.EscalateProfile? then Some(policy.target) else None,
               a.RetrySame? && w.TaskDrift? && taskLocked, a.Hitl?)
  }

  lemma LeqPair(a: int, b: int, c: int, d: int)
    ensures Leq([a, b], [c, d]) <==> a < c || (a == c && b <= d)
  {
    assert [a, b][1..] == [b] && [c, d][1..] == [d];
    assert [b][1..] == [] && [d][1..] == [];
    assert Leq([], []);
    assert Leq([b], [d]) <==> b < d || (b == d && Leq([b][1..], [d][1..]));
  }

  /** The action is the baseline of some class present and no class present demands a more
      restrictive one; among those that demand it, the most authoritative class is named. */
  lemma MostRestrictiveWins(f: Classification, taskLocked: bool, same: nat, policy: Policy, c: FailureClass)
    requires c in Classes(f)
    ensures var d, dep := Decide(f, taskLocked, same, policy), DependencyStatus(f.signals);
            && d.winner.Some? && d.winner.value in Classes(f) && d.action == Baseline(d.winner.value, dep, same, policy)
            && Restriction(d.action) <= Restriction(Baseline(c, dep, same, policy))
            && (d.action == Baseline(c, dep, same, policy) ==> Rank(d.winner.value) <= Rank(c))
  {
    var dep := DependencyStatus(f.signals);
    MinByLeast(Classes(f), Key(dep, same, policy));
    var w := MinBy(Classes(f), Key(dep, same, policy));
    assert Leq(Key(dep, same, policy)(w), Key(dep, same, policy)(c));
    LeqPair(Restriction(Baseline(w, dep, same, policy)), Rank(w), Restriction(Baseline(c, dep, same, policy)), Rank(c));
  }

  lemma RestrictionInjective(a: Action, b: Action)
    ensures Restriction(a) == Restriction(b) ==> a == b
  {
  }

  /** Detecting more classes never makes the action less restrictive. */
  lemma {:induction false} MoreClassesMoreRestrictive(f: Classification, g: Classification, taskLocked: bool, same: nat, policy: Policy)
    requires forall c :: c in Classes(f) ==> c in Classes(g)
    requires DependencyFailure in Classes(f) ==> DependencyStatus(f.signals) == DependencyStatus(g.signals)
    ensures Restriction(Decide(g, taskLocked, same, policy).action) <= Restriction(Decide(f, taskLocked, same, policy).action)
  {
    if Classes(f) != [] {
      MostRestrictiveWins(f, taskLocked, same, policy, Classes(f)[0]);
      var w := Decide(f, taskLocked, same, policy).winner.value;
      MostRestrictiveWins(g, taskLocked, same, policy, w);
      BaselineStatus(w, DependencyStatus(f.signals), DependencyStatus(g.signals), same, policy);
      hide Decide, Baseline, Classes, DependencyStatus, Restriction;
    } else {
      hide Baseline, MinBy, Classes, DependencyStatus;
    }
  }

  /** The status of the dependency check matters to one class only. */
  lemma BaselineStatus(c: FailureClass, a: Option<V.Status>, b: Option<V.Status>, same: nat, policy: Policy)
    requires c.DependencyFailure? ==> a == b
    ensures Baseline(c, a, same, policy) == Baseline(c, b, same, policy)
  {
  }

  /** Escalation only ever targets the profile the caller authorised. */
  lemma EscalationIsAuthorised(f: Classification, taskLocked: bool, same: nat, policy: Policy)
    ensures var d := Decide(f, taskLocked, same, policy);
            && (d.action.EscalateProfile? ==> policy.target != "" && d.target == Some(policy.target))
            && (!d.action.EscalateProfile? ==> d.target == None)
  {
  }

  // ---------------------------------------------------------------- validate, classify, decide

  function Remediate(
    sprint: V.Sprint, cp: V.Checkpoint, supplied: Option<seq<V.Checkpoint>>, rules: V.Rules, truncated: bool, same: nat, policy: Policy)
    : Decision
  {
    Decide(Classify(cp, V.Validate(sprint, cp, supplied, rules), truncated), sprint.taskLocked, same, policy)
  }

  lemma BaselineIsAnAction(c: FailureClass, dependency: Option<V.Status>, same: nat, policy: Policy)
    ensures !Baseline(c, dependency, same, policy).NoAction?
  {
  }

  /** Nothing is done exactly when the checkpoint meets the sprint's contract. */
  lemma {:induction false} NoActionExactly(
    sprint: V.Sprint, cp: V.Checkpoint, supplied: Option<seq<V.Checkpoint>>, rules: V.Rules, truncated: bool, same: nat, policy: Policy)
    ensures Remediate(sprint, cp, supplied, rules, truncated, same, policy).action.NoAction? <==> V.MeetsContract(sprint, cp, supplied, rules)
  {
    var v := V.Validate(sprint, cp, supplied, rules);
    V.AcceptedExactly(sprint, cp, supplied, rules);
    ClassificationExact(cp, v, truncated);
    hide Classify, V.Validate, V.MeetsContract, Baseline, Detect, Cause;
    var f := Classify(cp, v, truncated);
    if f.primary.Some? {
      MostRestrictiveWins(f, sprint.taskLocked, same, policy, f.primary.value);
      BaselineIsAnAction(Decide(f, sprint.taskLocked, same, policy).winner.value, DependencyStatus(f.signals), same, policy);
    }
  }

  /** The policy abstains exactly when a rejected checkpoint shows no signal at all, and then it asks a human. */
  lemma {:induction false} AbstainsExactly(
    sprint: V.Sprint, cp: V.Checkpoint, supplied: Option<seq<V.Checkpoint>>, rules: V.Rules, truncated: bool, same: nat, policy: Policy)
    ensures var v, d := V.Validate(sprint, cp, supplied, rules), Remediate(sprint, cp, supplied, rules, truncated, same, policy);
            && (d.strength.Abstain? <==> !v.accepted && Detect(cp, v, truncated) == map[])
            && (d.strength.Abstain? ==> d.action.Hitl? && d.needsHuman)
  {
    var v := V.Validate(sprint, cp, supplied, rules);
    ClassificationExact(cp, v, truncated);
    hide Classify, V.Validate, Detect, Cause;
    var f := Classify(cp, v, truncated);
    if f.primary == Some(UnknownFailure) {
      MostRestrictiveWins(f, sprint.taskLocked, same, policy, UnknownFailure);
    } else if f.primary.Some? {
      assert f.strength != Some(Unresolved);
      StrengthPresent(cp, v, truncated);
    }
  }

  lemma StrengthPresent(cp: V.Checkpoint, v: V.Validation, truncated: bool)
    ensures Classify(cp, v, truncated).primary.Some? ==> Classify(cp, v, truncated).strength.Some?
  {
    hide Detect, Present;
  }

  // ---------------------------------------------------------------- repeated failures

  /** The classes whose first answer is a plain retry. */
  predicate Retryable(c: FailureClass) { c in {ToolFailure, FalseCompletion, InvalidOutput, TaskDrift, SilentStall} }

  predicate RetryAllowed(c: FailureClass, same: nat, policy: Policy) {
    Retryable(c) && if c.InvalidOutput? then same == 0 else same < policy.maxSameRetry
  }

  lemma BaselineRetry(c: FailureClass, dependency: Option<V.Status>, same: nat, policy: Policy)
    ensures Restriction(Baseline(c, dependency, same, policy)) <= 6
    ensures Restriction(Baseline(c, dependency, same, policy)) == 6 <==> RetryAllowed(c, same, policy)
  {
  }

  /** A plain retry is issued exactly when every class present still allows one. */
  lemma RetrySameExactly(f: Classification, taskLocked: bool, same: nat, policy: Policy)
    ensures Decide(f, taskLocked, same, policy).action.RetrySame? <==>
            f.primary.Some? && forall c :: c in Classes(f) ==> RetryAllowed(c, same, policy)
  {
    var d, dep := Decide(f, taskLocked, same, policy), DependencyStatus(f.signals);
    if f.primary.Some? {
      assert f.primary.value in Classes(f);
      MostRestrictiveWins(f, taskLocked, same, policy, f.primary.value);
      var w := d.winner.value;
      BaselineRetry(w, dep, same, policy);
      hide Decide, Baseline, RetryAllowed, Classes;
      RestrictionInjective(d.action, RetrySame);
      if d.action.RetrySame? {
        forall c | c in Classes(f) ensures RetryAllowed(c, same, policy) {
          MostRestrictiveWins(f, taskLocked, same, policy, c);
          BaselineRetry(c, dep, same, policy);
        }
      }
    }
  }

  /** The decisions of a run of consecutive failures with one primary class: the k-th sees k earlier ones. */
  function RunOf(run: seq<Classification>, taskLocked: bool, policy: Policy): (ds: seq<Decision>)
    ensures |ds| == |run|
  {
    seq(|run|, k requires 0 <= k < |run| => Decide(run[k], taskLocked, k, policy))
  }

  function CountRetries(ds: seq<Decision>): nat {
    if ds == [] then 0 else CountRetries(ds[..|ds| - 1]) + if ds[|ds| - 1].action.RetrySame? then 1 else 0
  }

  lemma {:induction false} CountBounded(ds: seq<Decision>, bound: nat)
    requires forall k :: bound <= k < |ds| ==> !ds[k].action.RetrySame?
    ensures CountRetries(ds) <= bound && CountRetries(ds) <= |ds|
  {
    if ds != [] {
      CountBounded(ds[..|ds| - 1], bound);
    }
  }

  /** A run of consecutive failures is answered by a plain retry at most `max(1, max_same_retry)`
      times, whatever secondary classes come and go. */
  lemma RetriesAreBounded(run: seq<Classification>, taskLocked: bool, policy: Policy)
    ensures CountRetries(RunOf(run, taskLocked, policy)) <= if policy.maxSameRetry == 0 then 1 else policy.maxSameRetry
  {
    var ds := RunOf(run, taskLocked, policy);
    var bound := if policy.maxSameRetry == 0 then 1 else policy.maxSameRetry;
    forall k | bound <= k < |ds| ensures !ds[k].action.RetrySame? {
      RetrySameExactly(run[k], taskLocked, k, policy);
      if run[k].primary.Some? {
        assert run[k].primary.value in Classes(run[k]);
      }
    }
    CountBounded(ds, bound);
  }

  /** A ceiling of zero retries is kept exactly by the runs whose first failure is not INVALID_OUTPUT alone. */
  lemma ZeroCeilingExactly(run: seq<Classification>, taskLocked: bool, policy: Policy)
    requires policy.maxSameRetry == 0
    ensures CountRetries(RunOf(run, taskLocked, policy)) == 0 <==>
            (run == [] || run[0].primary.None? || exists c :: c in Classes(run[0]) && !c.InvalidOutput?)
  {
    var ds := RunOf(run, taskLocked, policy);
    forall k | 1 <= k < |ds| ensures !ds[k].action.RetrySame? {
      RetrySameExactly(run[k], taskLocked, k, policy);
      if run[k].primary.Some? {
        assert run[k].primary.value in Classes(run[k]);
      }
    }
    if run != [] {
      RetrySameExactly(run[0], taskLocked, 0, policy);
      FirstOnly(ds);
    }
  }

  lemma {:induction false} FirstOnly(ds: seq<Decision>)
    requires ds != [] && forall k :: 1 <= k < |ds| ==> !ds[k].action.RetrySame?
    ensures CountRetries(ds) == if ds[0].action.RetrySame? then 1 else 0
  {
    var init := ds[..|ds| - 1];
    if init != [] {
      FirstOnly(init);
    } else {
      assert CountRetries(init) == 0;
    }
  }

  /** Past the ceiling no retry of either kind is left, except for two classes: repeated drift keeps
      being answered with a reduced scope, and so does path guessing. */
  lemma CircuitBreakerExactly(c: FailureClass, dependency: Option<V.Status>, policy: Policy)
    ensures (forall same: nat :: same > policy.maxSameRetry ==> Baseline(c, dependency, same, policy) !in {RetrySame, RetryReducedScope})
       <==> c !in {TaskDrift, PathGuessing}
  {
    if c in {TaskDrift, PathGuessing} {
      assert Baseline(c, dependency, policy.maxSameRetry + 1, policy) == RetryReducedScope;
    }
  }

  lemma BaselinePastCeiling(c: FailureClass, dependency: Option<V.Status>, same: nat, policy: Policy)
    requires same > policy.maxSameRetry
    ensures Restriction(Baseline(c, dependency, same, policy)) <= 5
    ensures Restriction(Baseline(c, dependency, same, policy)) == 4 <==> c in {TaskDrift, PathGuessing}
    ensures Restriction(Baseline(c, dependency, same, policy)) == 5 <==>
            c.EvidenceStarvation? || (c.DependencyFailure? && dependency == Some(V.Unverifiable))
  {
  }

  /** Past the ceiling a decision still retries exactly when drift or path guessing is present and
      nothing beside it but missing evidence. */
  lemma RetryPastCeilingExactly(f: Classification, taskLocked: bool, same: nat, policy: Policy)
    requires same > policy.maxSameRetry && f.primary.Some?
    ensures Decide(f, taskLocked, same, policy).action in {RetrySame, RetryReducedScope} <==>
            && (exists c :: c in Classes(f) && c in {TaskDrift, PathGuessing})
            && (forall c :: c in Classes(f) ==> c in {TaskDrift, PathGuessing, EvidenceStarvation}
                                                || (c.DependencyFailure? && DependencyStatus(f.signals) == Some(V.Unverifiable)))
  {
    var d, dep := Decide(f, taskLocked, same, policy), DependencyStatus(f.signals);
    assert f.primary.value in Classes(f);
    forall c | c in Classes(f)
      ensures d.winner.Some? && d.winner.value in Classes(f) && d.action == Baseline(d.winner.value, dep, same, policy)
      ensures Restriction(d.action) <= Restriction(Baseline(c, dep, same, policy))
      ensures Restriction(Baseline(c, dep, same, policy)) <= 5
      ensures Restriction(Baseline(c, dep, same, policy)) == 4 <==> c in {TaskDrift, PathGuessing}
      ensures Restriction(Baseline(c, dep, same, policy)) == 5 <==> c.EvidenceStarvation? || (c.DependencyFailure? && dep == Some(V.Unverifiable))
    {
      MostRestrictiveWins(f, taskLocked, same, policy, c);
      BaselinePastCeiling(c, dep, same, policy);
    }
    RestrictionInjective(d.action, RetryReducedScope);
    RestrictionInjective(d.action, RetrySame);
    hide Decide, Baseline, Classes;
  }

  /** One more repetition never relaxes the action, except just below the ceiling for two classes:
      INVALID_OUTPUT after its first repetition, and TOOL_CALL_LOOP. */
  lemma LadderExactly(c: FailureClass, dependency: Option<V.Status>, same: nat, policy: Policy)
    ensures Restriction(Baseline(c, dependency, same + 1, policy)) <= Restriction(Baseline(c, dependency, same, policy))
       <==> !(same + 1 == policy.maxSameRetry && (c.ToolCallLoop? || (c.InvalidOutput? && same >= 1)))
  {
  }

  /** Past the first failures the class is answered by stopping or by a human. */
  predicate HardAtCeiling(c: FailureClass, dependency: Option<V.Status>, policy: Policy) {
    Restriction(Baseline(c, dependency, policy.maxSameRetry, policy)) <= 1
  }

  /** The two classes whose answer softens when the ceiling is reached. */
  predicate Softens(c: FailureClass, same: nat) { c.ToolCallLoop? || (c.InvalidOutput? && same >= 1) }

  lemma StepOfLadder(c: FailureClass, dependency: Option<V.Status>, same: nat, policy: Policy)
    ensures Softens(c, same) && same + 1 == policy.maxSameRetry ==> Baseline(c, dependency, same, policy).Halt?
    ensures !(Softens(c, same) && same + 1 == policy.maxSameRetry) ==>
              Restriction(Baseline(c, dependency, same + 1, policy)) <= Restriction(Baseline(c, dependency, same, policy))
  {
  }

  lemma SoftensAtCeiling(f: Classification, taskLocked: bool, same: nat, policy: Policy, c: FailureClass)
    requires c in Classes(f) && Softens(c, same) && same + 1 == policy.maxSameRetry
    requires forall x :: x in Classes(f) ==> !HardAtCeiling(x, DependencyStatus(f.signals), policy)
    ensures Restriction(Decide(f, taskLocked, same, policy).action) <= 1 < Restriction(Decide(f, taskLocked, same + 1, policy).action)
  {
    var dep := DependencyStatus(f.signals);
    StepOfLadder(c, dep, same, policy);
    MostRestrictiveWins(f, taskLocked, same, policy, c);
    MostRestrictiveWins(f, taskLocked, same + 1, policy, c);
    hide Decide, Baseline, Softens, Classes, DependencyStatus;
    assert !HardAtCeiling(Decide(f, taskLocked, same + 1, policy).winner.value, dep, policy);
  }

  lemma OnlySofteningRelaxes(f: Classification, taskLocked: bool, same: nat, policy: Policy)
    requires Restriction(Decide(f, taskLocked, same + 1, policy).action) > Restriction(Decide(f, taskLocked, same, policy).action)
    ensures same + 1 == policy.maxSameRetry && (exists c :: c in Classes(f) && Softens(c, same))
    ensures Decide(f, taskLocked, same, policy).action.Halt?
  {
    if Classes(f) != [] {
      MostRestrictiveWins(f, taskLocked, same, policy, Classes(f)[0]);
      var w := Decide(f, taskLocked, same, policy).winner.value;
      StepOfLadder(w, DependencyStatus(f.signals), same, policy);
      MostRestrictiveWins(f, taskLocked, same + 1, policy, w);
      hide Decide, Baseline, Softens, Classes;
    }
  }

  lemma HardStaysHard(f: Classification, taskLocked: bool, same: nat, policy: Policy, c: FailureClass)
    requires c in Classes(f) && HardAtCeiling(c, DependencyStatus(f.signals), policy) && same + 1 == policy.maxSameRetry
    ensures Restriction(Decide(f, taskLocked, same + 1, policy).action) <= 1
  {
    MostRestrictiveWins(f, taskLocked, same + 1, policy, c);
    hide Decide, Baseline, Classes;
  }

  /** One more repetition relaxes a whole decision exactly when it reaches the ceiling, a softening
      class is present, and no class is answered by stopping or by a human there. */
  lemma DecisionLadderExactly(f: Classification, taskLocked: bool, same: nat, policy: Policy)
    ensures Restriction(Decide(f, taskLocked, same + 1, policy).action) > Restriction(Decide(f, taskLocked, same, policy).action)
       <==> && same + 1 == policy.maxSameRetry
            && (exists c :: c in Classes(f) && Softens(c, same))
            && (forall c :: c in Classes(f) ==> !HardAtCeiling(c, DependencyStatus(f.signals), policy))
  {
    hide Decide, Baseline, Softens, Classes, HardAtCeiling, DependencyStatus;
    if Restriction(Decide(f, taskLocked, same + 1, policy).action) > Restriction(Decide(f, taskLocked, same, policy).action) {
      OnlySofteningRelaxes(f, taskLocked, same, policy);
      forall c | c in Classes(f) ensures !HardAtCeiling(c, DependencyStatus(f.signals), policy) {
        if HardAtCeiling(c, DependencyStatus(f.signals), policy) { HardStaysHard(f, taskLocked, same, policy, c); }
      }
    }
    if c :| same + 1 == policy.maxSameRetry && c in Classes(f) && Softens(c, same)
            && forall x :: x in Classes(f) ==> !HardAtCeiling(x, DependencyStatus(f.signals), policy) {
      SoftensAtCeiling(f, taskLocked, same, policy, c);
    }
  }

  /** A run of drift alone: one answer per ceiling, then reduced scope for ever. */
  lemma RepeatedDrift(f: Classification, taskLocked: bool, same: nat, policy: Policy)
    requires f.primary == Some(TaskDrift) && f.secondary == []
    ensures Decide(f, taskLocked, same, policy).action == if same < policy.maxSameRetry then RetrySame else RetryReducedScope
    ensures Decide(f, taskLocked, same, policy).reinforcesTaskLock <==> taskLocked && same < policy.maxSameRetry
  {
    MostRestrictiveWins(f, taskLocked, same, policy, TaskDrift);
  }

  // ---------------------------------------------------------------- the same, for whole checkpoints

  /** `c` is the one thing the evidence says. */
  ghost predicate SoleCause(c: FailureClass, cp: V.Checkpoint, v: V.Validation, truncated: bool) {
    forall x :: Cause(x, cp, v, truncated) <==> x == c
  }

  lemma {:induction false} SoleCauseIsClass(c: FailureClass, cp: V.Checkpoint, v: V.Validation, truncated: bool)
    requires !v.accepted && !c.UnknownFailure?
    ensures (forall x :: x in Classes(Classify(cp, v, truncated)) <==> x == c) <==> SoleCause(c, cp, v, truncated)
  {
    ClassificationExact(cp, v, truncated);
    DetectedExactly(cp, v, truncated);
    hide Classify, Detect, Cause;
    if SoleCause(c, cp, v, truncated) {
      assert c in Detect(cp, v, truncated);
    }
    if Detect(cp, v, truncated) == map[] {
      assert UnknownFailure in Classes(Classify(cp, v, truncated));
    }
  }

  /** With a ceiling of zero, a checkpoint is answered by a plain retry exactly when it fails its
      contract and the evidence says INVALID_OUTPUT and nothing else. */
  lemma {:induction false} ZeroCeilingBrokenExactly(
    sprint: V.Sprint, cp: V.Checkpoint, supplied: Option<seq<V.Checkpoint>>, rules: V.Rules, truncated: bool, same: nat, policy: Policy)
    requires policy.maxSameRetry == 0
    ensures Remediate(sprint, cp, supplied, rules, truncated, same, policy).action.RetrySame? <==>
            && same == 0 && !V.MeetsContract(sprint, cp, supplied, rules)
            && SoleCause(InvalidOutput, cp, V.Validate(sprint, cp, supplied, rules), truncated)
  {
    var v := V.Validate(sprint, cp, supplied, rules);
    V.AcceptedExactly(sprint, cp, supplied, rules);
    ClassificationExact(cp, v, truncated);
    hide V.Validate, V.MeetsContract, Classify, Decide, SoleCause, Detect, Cause;
    var f := Classify(cp, v, truncated);
    RetrySameExactly(f, sprint.taskLocked, same, policy);
    if !v.accepted {
      assert f.primary.value in Classes(f);
      SoleCauseIsClass(InvalidOutput, cp, v, truncated);
    }
  }

  lemma {:induction false} NoLetterNoWord(s: string)
    requires 'v' !in s
    ensures !Text.Contains("evidence", s)
  {
    if |s| >= |"evidence"| {
      assert "evidence"[1] == 'v';
      assert s[..8][1] in s;
      NoLetterNoWord(s[1..]);
    }
  }

  lemma LowerKeepsLetters(s: string)
    requires 'V' !in s && 'v' !in s
    ensures 'v' !in Text.Lower(s)
  {
    forall i | 0 <= i < |s| ensures Text.Lower(s)[i] != 'v' { assert s[i] in s; }
  }

  lemma OutcomeIdLetters()
    ensures var id := "EXECUTION_OUTCOME_PASS"; 'V' !in id && 'v' !in id && id[0] == 'E'
  {
  }

  lemma OtherIds(id: string)
    requires id != "" && id[0] == 'E'
    ensures id != V.DEPENDENCY_STATE && !("ACCEPTANCE::" <= id) && !("OUTPUT_CONTRACT::" <= id)
  {
    assert V.DEPENDENCY_STATE[0] == 'D' && "ACCEPTANCE::"[0] == 'A' && "OUTPUT_CONTRACT::"[0] == 'O';
  }

  lemma OutcomeCheckHasNoClass(status: V.Status)
    requires !status.Unverifiable?
    ensures ClassOf(V.Check("EXECUTION_OUTCOME_PASS", status, true)).None?
  {
    hide Text.Contains, Text.Lower;
    OutcomeIdLetters();
    OtherIds("EXECUTION_OUTCOME_PASS");
    LowerKeepsLetters("EXECUTION_OUTCOME_PASS");
    NoLetterNoWord(Text.Lower("EXECUTION_OUTCOME_PASS"));
  }

  /** Everything the sprint demands is there except the outcome. */
  ghost predicate OnlyOutcomeFails(sprint: V.Sprint, cp: V.Checkpoint, supplied: Option<seq<V.Checkpoint>>, rules: V.Rules) {
    cp.outcome != Some(V.Passed) && V.MeetsContract(sprint, cp.(outcome := Some(V.Passed)), supplied, rules)
  }

  lemma OutcomeIsOneCheck(sprint: V.Sprint, cp: V.Checkpoint, supplied: Option<seq<V.Checkpoint>>, rules: V.Rules, o: Option<V.Outcome>)
    ensures var checks := V.Checks(sprint, cp, supplied, rules);
            |checks| > 3 && V.Checks(sprint, cp.(outcome := o), supplied, rules)
                            == checks[3 := V.Check("EXECUTION_OUTCOME_PASS", V.Graded(o == Some(V.Passed)), true)]
  {
    var other := cp.(outcome := o);
    StructuralOutcome(sprint, cp, supplied, o);
    OutcomeChangesNoText(sprint, cp, rules, o);
    hide V.StructuralChecks, V.CriterionCheck, V.OutputCheck, SortStrings, Map;
    var checks, named := V.StructuralChecks(sprint, cp, supplied), Map(SortStrings(sprint.criteria), V.CriterionCheck(rules, cp));
    ReplaceInFront(checks, named, Map(SortStrings(sprint.outputKeys), V.OutputCheck(rules, cp)), 3,
                   V.Check("EXECUTION_OUTCOME_PASS", V.Graded(o == Some(V.Passed)), true));
  }

  lemma ReplaceInFront<T>(a: seq<T>, b: seq<T>, c: seq<T>, i: nat, x: T)
    requires i < |a|
    ensures (a + b + c)[i := x] == a[i := x] + b + c
  {
  }

  lemma OutcomeChangesNoText(sprint: V.Sprint, cp: V.Checkpoint, rules: V.Rules, o: Option<V.Outcome>)
    ensures var other, criteria, keys := cp.(outcome := o), SortStrings(sprint.criteria), SortStrings(sprint.outputKeys);
            && Map(criteria, V.CriterionCheck(rules, cp)) == Map(criteria, V.CriterionCheck(rules, other))
            && Map(keys, V.OutputCheck(rules, cp)) == Map(keys, V.OutputCheck(rules, other))
  {
    hide SortStrings, Map;
    var other := cp.(outcome := o);
    forall t ensures V.CriterionCheck(rules, cp)(t) == V.CriterionCheck(rules, other)(t) && V.OutputCheck(rules, cp)(t) == V.OutputCheck(rules, other)(t) {
      SameGrades(rules, cp, o, t);
    }
    SameChecks(SortStrings(sprint.criteria), V.CriterionCheck(rules, cp), V.CriterionCheck(rules, other));
    SameChecks(SortStrings(sprint.outputKeys), V.OutputCheck(rules, cp), V.OutputCheck(rules, other));
  }

  lemma StructuralOutcome(sprint: V.Sprint, cp: V.Checkpoint, supplied: Option<seq<V.Checkpoint>>, o: Option<V.Outcome>)
    ensures var checks := V.StructuralChecks(sprint, cp, supplied);
            |checks| > 3 && V.StructuralChecks(sprint, cp.(outcome := o), supplied)
                            == checks[3 := V.Check("EXECUTION_OUTCOME_PASS", V.Graded(o == Some(V.Passed)), true)]
  {
    hide V.DependencyCheck;
  }

  lemma SameGrades(rules: V.Rules, cp: V.Checkpoint, o: Option<V.Outcome>, t: string)
    ensures V.Satisfied(rules.recognise(t).criterion, cp) == V.Satisfied(rules.recognise(t).criterion, cp.(outcome := o))
    ensures forall f :: V.FieldOf(f, cp) == V.FieldOf(f, cp.(outcome := o))
  {
  }

  lemma SameChecks(texts: seq<string>, f: string -> V.Check, g: string -> V.Check)
    requires forall t :: f(t) == g(t)
    ensures Map(texts, f) == Map(texts, g)
  {
  }

  lemma OnlyOutcomeBlocks(sprint: V.Sprint, cp: V.Checkpoint, supplied: Option<seq<V.Checkpoint>>, rules: V.Rules)
    requires OnlyOutcomeFails(sprint, cp, supplied, rules)
    ensures forall k :: k in V.Validate(sprint, cp, supplied, rules).checks && Blocks(k) ==> k == V.Check("EXECUTION_OUTCOME_PASS", V.Fail, true)
  {
    var passed := cp.(outcome := Some(V.Passed));
    V.AcceptedExactly(sprint, passed, supplied, rules);
    V.AcceptedMeansRequiredPass(sprint, passed, supplied, rules);
    OutcomeIsOneCheck(sprint, passed, supplied, rules, cp.outcome);
    assert passed.(outcome := cp.outcome) == cp;
    hide V.Checks, V.MeetsContract, Filter, Map;
    var a, b := V.Checks(sprint, passed, supplied, rules), V.Checks(sprint, cp, supplied, rules);
    forall i | 0 <= i < |b| && i != 3 ensures !Blocks(b[i]) {
      assert b[i] == a[i] && a[i] in a;
    }
  }

  lemma SoleOutcome(cp: V.Checkpoint, v: V.Validation, c: FailureClass)
    requires Explicit(cp.outcome) == Some(c)
    requires forall k :: k in v.checks && Blocks(k) ==> k == V.Check("EXECUTION_OUTCOME_PASS", V.Fail, true)
    ensures SoleCause(c, cp, v, false)
  {
    hide *;
    forall k, x | k in v.checks ensures !Accuses(k, x) {
      OutcomeCheckHasNoClass(V.Fail);
      AccusesReads(k, x);
    }
    SoleByOutcome(cp, v, c);
  }

  lemma SoleByOutcome(cp: V.Checkpoint, v: V.Validation, c: FailureClass)
    requires Explicit(cp.outcome) == Some(c)
    requires forall k, x :: k in v.checks ==> !Accuses(k, x)
    ensures SoleCause(c, cp, v, false)
  {
    hide Accuses;
  }

  /** A checkpoint that fails by its outcome alone is classified by that outcome alone. */
  lemma {:induction false} OutcomeAloneDecides(
    sprint: V.Sprint, cp: V.Checkpoint, supplied: Option<seq<V.Checkpoint>>, rules: V.Rules, c: FailureClass)
    requires OnlyOutcomeFails(sprint, cp, supplied, rules) && Explicit(cp.outcome) == Some(c)
    ensures var f := Classify(cp, V.Validate(sprint, cp, supplied, rules), false);
            f.primary.Some? && forall x :: x in Classes(f) <==> x == c
  {
    hide *;
    var v := V.Validate(sprint, cp, supplied, rules);
    OnlyOutcomeBlocks(sprint, cp, supplied, rules);
    V.AcceptedExactly(sprint, cp, supplied, rules);
    OutcomeIsDemanded(sprint, cp, supplied, rules);
    ExplicitIsKnown(cp.outcome);
    ClassificationExact(cp, v, false);
    SoleOutcome(cp, v, c);
    SoleCauseIsClass(c, cp, v, false);
  }

  lemma OutcomeIsDemanded(sprint: V.Sprint, cp: V.Checkpoint, supplied: Option<seq<V.Checkpoint>>, rules: V.Rules)
    ensures OnlyOutcomeFails(sprint, cp, supplied, rules) ==> !V.MeetsContract(sprint, cp, supplied, rules)
    ensures V.MeetsContract(sprint, cp, supplied, rules) ==> cp.outcome == Some(V.Passed)
  {
  }

  /** Such a checkpoint is answered by the baseline of its outcome's class, whatever the sprint. */
  lemma OutcomeAloneAnswer(
    sprint: V.Sprint, cp: V.Checkpoint, supplied: Option<seq<V.Checkpoint>>, rules: V.Rules, same: nat, policy: Policy, c: FailureClass)
    requires OnlyOutcomeFails(sprint, cp, supplied, rules) && Explicit(cp.outcome) == Some(c)
    ensures Remediate(sprint, cp, supplied, rules, false, same, policy).action == Baseline(c, None, same, policy)
  {
    OutcomeAloneDecides(sprint, cp, supplied, rules, c);
    ExplicitIsNoDependency(cp.outcome, same, policy);
    hide OnlyOutcomeFails, Classify, V.Validate, Baseline, Explicit;
    var f := Classify(cp, V.Validate(sprint, cp, supplied, rules), false);
    MostRestrictiveWins(f, sprint.taskLocked, same, policy, c);
  }

  lemma ExplicitIsKnown(o: Option<V.Outcome>)
    ensures Explicit(o) != Some(UnknownFailure)
  {
  }

  lemma ExplicitIsNoDependency(o: Option<V.Outcome>, same: nat, policy: Policy)
    ensures Explicit(o).Some? ==> forall d :: Baseline(Explicit(o).value, d, same, policy) == Baseline(Explicit(o).value, None, same, policy)
  {
  }

  // The smallest sprint there is, with one criterion, and a checkpoint of it that reports an outcome.

  const CRITERION := "no open questions"

  const SMALL_SPRINT := V.Sprint("mission", "sprint", false, [], [CRITERION], [])

  function SmallCheckpoint(outcome: V.Outcome): V.Checkpoint {
    V.Checkpoint("mission", "sprint", false, Some(outcome), [], [], [], [], [])
  }

  /** The recogniser knows the criterion, as `_NO_OPEN_QUESTIONS_RE` does. */
  predicate KnowsOpenQuestions(rules: V.Rules) { rules.recognise(CRITERION) == V.Recognised(V.NoOpenQuestions, false) }

  lemma SmallFailsByOutcome(outcome: V.Outcome, supplied: Option<seq<V.Checkpoint>>, rules: V.Rules)
    requires KnowsOpenQuestions(rules) && !outcome.Passed?
    ensures OnlyOutcomeFails(SMALL_SPRINT, SmallCheckpoint(outcome), supplied, rules)
  {
  }

  /** What is decided about the small checkpoint. */
  function SmallDecision(outcome: V.Outcome, supplied: Option<seq<V.Checkpoint>>, rules: V.Rules, same: nat, policy: Policy): Decision {
    Remediate(SMALL_SPRINT, SmallCheckpoint(outcome), supplied, rules, false, same, policy)
  }

  lemma SmallAnswer(outcome: V.Outcome, supplied: Option<seq<V.Checkpoint>>, rules: V.Rules, same: nat, policy: Policy, c: FailureClass)
    requires KnowsOpenQuestions(rules) && Explicit(Some(outcome)) == Some(c)
    ensures SmallDecision(outcome, supplied, rules, same, policy).action == Baseline(c, None, same, policy)
  {
    hide Remediate, Baseline;
    SmallFailsByOutcome(outcome, supplied, rules);
    OutcomeAloneAnswer(SMALL_SPRINT, SmallCheckpoint(outcome), supplied, rules, same, policy, c);
  }

  /** A checkpoint for which the zero ceiling is broken. */
  lemma ZeroCeilingIsBroken(supplied: Option<seq<V.Checkpoint>>, rules: V.Rules, policy: Policy)
    requires KnowsOpenQuestions(rules) && policy.maxSameRetry == 0
    ensures SmallDecision(V.InvalidOutput, supplied, rules, 0, policy).action.RetrySame?
  {
    hide SmallDecision;
    SmallAnswer(V.InvalidOutput, supplied, rules, 0, policy, InvalidOutput);
  }

  /** A checkpoint for which one more repetition relaxes the answer, from halting to another attempt. */
  lemma LadderIsRelaxed(supplied: Option<seq<V.Checkpoint>>, rules: V.Rules, policy: Policy)
    requires KnowsOpenQuestions(rules) && policy.maxSameRetry >= 2
    ensures SmallDecision(V.InvalidOutput, supplied, rules, policy.maxSameRetry - 1, policy).action.Halt?
    ensures SmallDecision(V.InvalidOutput, supplied, rules, policy.maxSameRetry, policy).action.RetryReducedScope?
  {
    hide SmallDecision;
    SmallAnswer(V.InvalidOutput, supplied, rules, policy.maxSameRetry - 1, policy, InvalidOutput);
    SmallAnswer(V.InvalidOutput, supplied, rules, policy.maxSameRetry, policy, InvalidOutput);
  }

  /** A checkpoint that is attempted again after any number of failures. */
  lemma BreakerIsEvaded(supplied: Option<seq<V.Checkpoint>>, rules: V.Rules, policy: Policy, same: nat)
    requires KnowsOpenQuestions(rules) && same >= policy.maxSameRetry
    ensures SmallDecision(V.Outcome.TaskDrift, supplied, rules, same, policy).action.RetryReducedScope?
  {
    hide SmallDecision;
    SmallAnswer(V.Outcome.TaskDrift, supplied, rules, same, policy, TaskDrift);
  }
}
