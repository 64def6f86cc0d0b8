/** The acceptance validator (MEIZEX_AIR acceptance_validator.py): it turns a sprint's criteria into
    checks of a candidate checkpoint. How a criterion's or a contract key's text is recognised is an
    arbitrary function; what a recognised one demands is modelled. */
module AcceptanceValidator {
  import opened Common
  import opened Ordering

  datatype Status = Pass | Fail | Unverifiable

  datatype Outcome =
    | Pending | Passed | Incomplete | Unsupported | TaskDrift | BudgetExceeded | ToolFailure | Contradiction
    | CapabilityFailure | InvalidOutput

  datatype Sprint = Sprint(
    missionId: string, sprintId: string, taskLocked: bool, dependencies: seq<string>, criteria: seq<string>, outputKeys: seq<string>)

  datatype Checkpoint = Checkpoint(
    missionId: string, sprintId: string, rejected: bool, outcome: Option<Outcome>, findings: seq<string>,
    confirmedPaths: seq<string>, evidenceRefs: seq<string>, openQuestions: seq<string>, unresolved: seq<string>)

  datatype Criterion = MinFindings(n: nat) | NoOpenQuestions | RequiresEvidence | RequiresConfirmedPaths | Unrecognised

  datatype Recognised = Recognised(criterion: Criterion, optional: bool)

  datatype Field = Findings | ConfirmedPaths | EvidenceRefs

  datatype Rules = Rules(recognise: string -> Recognised, field: string -> Option<Field>)

  datatype Check = Check(id: string, status: Status, required: bool)

  datatype Validation = Validation(accepted: bool, checks: seq<Check>, failed: seq<string>, warnings: seq<string>)

  // ---------------------------------------------------------------- single checks

  predicate Satisfied(c: Criterion, cp: Checkpoint) {
    match c
    case MinFindings(n) => |cp.findings| >= n
    case NoOpenQuestions => cp.openQuestions == [] && cp.unresolved == []
    case RequiresEvidence => cp.evidenceRefs != []
    case RequiresConfirmedPaths => cp.confirmedPaths != []
    case Unrecognised => false
  }

  function Graded(ok: bool): Status { if ok then Pass else Fail }

  function CriterionCheck(rules: Rules, cp: Checkpoint): string -> Check {
    (text: string) =>
      var r := rules.recognise(text);
      Check("ACCEPTANCE::" + text, if r.criterion.Unrecognised? then Unverifiable else Graded(Satisfied(r.criterion, cp)), !r.optional)
  }

  function FieldOf(f: Field, cp: Checkpoint): seq<string> {
    match f case Findings => cp.findings case ConfirmedPaths => cp.confirmedPaths case EvidenceRefs => cp.evidenceRefs
  }

  function OutputCheck(rules: Rules, cp: Checkpoint): string -> Check {
    (key: string) =>
      var f := rules.field(key);
      Check("OUTPUT_CONTRACT::" + key, if f.None? then Unverifiable else Graded(FieldOf(f.value, cp) != []), true)
  }

  /** The supplied checkpoints by sprint id, a later one replacing an earlier one. */
  function BySprint(cps: seq<Checkpoint>, wanted: seq<string>): map<string, Checkpoint> {
    if cps == [] then map[]
    else
      var cp, before := cps[|cps| - 1], BySprint(cps[..|cps| - 1], wanted);
      if cp.sprintId in wanted then before[cp.sprintId := cp] else before
  }

  const DEPENDENCY_STATE := "DEPENDENCY_STATE"

  function DependencyCheck(sprint: Sprint, supplied: Option<seq<Checkpoint>>): seq<Check> {
    if sprint.dependencies == [] then []
    else if supplied.None? then [Check(DEPENDENCY_STATE, Unverifiable, true)]
    else
      var found := BySprint(supplied.value, sprint.dependencies);
      var missing := exists d :: d in sprint.dependencies && d !in found;
      var notPassed := exists d :: d in found && found[d].outcome != Some(Passed);
      [Check(DEPENDENCY_STATE, Graded(!missing && !notPassed), true)]
  }

  /** The last supplied checkpoint of a sprint. */
  function LastFor(cps: seq<Checkpoint>, id: string): Option<Checkpoint> {
    if cps == [] then None
    else if cps[|cps| - 1].sprintId == id then Some(cps[|cps| - 1])
    else LastFor(cps[..|cps| - 1], id)
  }

  /** The last of the checkpoints that belong to the sprint passed. */
  ghost predicate LastPassed(cps: seq<Checkpoint>, id: string) {
    exists i :: 0 <= i < |cps| && cps[i].sprintId == id && cps[i].outcome == Some(Passed) && NoneAfter(cps, id, i)
  }

  ghost predicate NoneAfter(cps: seq<Checkpoint>, id: string, i: nat) { forall j :: i < j < |cps| ==> cps[j].sprintId != id }

  lemma {:induction false} LastForReads(cps: seq<Checkpoint>, id: string)
    ensures LastPassed(cps, id) <==> LastFor(cps, id).Some? && LastFor(cps, id).value.outcome == Some(Passed)
  {
    if cps != [] {
      var n := |cps| - 1;
      var init := cps[..n];
      LastForReads(init, id);
      if cps[n].sprintId == id {
        assert NoneAfter(cps, id, n);
      } else {
        assert forall i: nat :: i < n ==> NoneAfter(cps, id, i) == NoneAfter(init, id, i);
      }
    }
  }

  ghost predicate DependenciesPassed(sprint: Sprint, supplied: Option<seq<Checkpoint>>) {
    sprint.dependencies != [] ==>
      supplied.Some? && forall d :: d in sprint.dependencies ==> LastPassed(supplied.value, d)
  }

  lemma {:induction false} BySprintIsLast(cps: seq<Checkpoint>, wanted: seq<string>)
    ensures forall d :: d in BySprint(cps, wanted) <==> d in wanted && LastFor(cps, d).Some?
    ensures forall d :: d in BySprint(cps, wanted) ==> LastFor(cps, d) == Some(BySprint(cps, wanted)[d])
  {
    if cps != [] {
      BySprintIsLast(cps[..|cps| - 1], wanted);
    }
  }

  /** The dependency check passes exactly when every declared dependency's last supplied checkpoint passed. */
  lemma DependencyCheckExact(sprint: Sprint, supplied: Option<seq<Checkpoint>>)
    ensures (forall c :: c in DependencyCheck(sprint, supplied) ==> c.status.Pass?) <==> DependenciesPassed(sprint, supplied)
  {
    hide LastPassed;
    if supplied.Some? {
      BySprintIsLast(supplied.value, sprint.dependencies);
      forall d ensures LastPassed(supplied.value, d) <==> LastFor(supplied.value, d).Some? && LastFor(supplied.value, d).value.outcome == Some(Passed) {
        LastForReads(supplied.value, d);
      }
    }
    if sprint.dependencies != [] {
      assert DependencyCheck(sprint, supplied)[0] in DependencyCheck(sprint, supplied);
    }
  }

  // ---------------------------------------------------------------- the validation

  function FixedChecks(sprint: Sprint, cp: Checkpoint): seq<Check> {
    [ Check("IDENTITY_MISSION_MATCH", Graded(cp.missionId == sprint.missionId), true),
      Check("IDENTITY_SPRINT_MATCH", Graded(cp.sprintId == sprint.sprintId), true),
      Check("CHECKPOINT_STATUS_VALID", Graded(!cp.rejected), true),
      Check("EXECUTION_OUTCOME_PASS", Graded(cp.outcome == Some(Passed)), true) ]
  }

  function StructuralChecks(sprint: Sprint, cp: Checkpoint, supplied: Option<seq<Checkpoint>>): seq<Check> {
    FixedChecks(sprint, cp)
    + (if sprint.taskLocked then [Check("TASK_LOCK_PRESERVED", Unverifiable, false)] else [])
    + DependencyCheck(sprint, supplied)
    + [Check("BUDGET_CONTRACT", Unverifiable, false), Check("FINDING_EVIDENCE_ASSOCIATION", Unverifiable, false)]
  }

  function Checks(sprint: Sprint, cp: Checkpoint, supplied: Option<seq<Checkpoint>>, rules: Rules): seq<Check> {
    StructuralChecks(sprint, cp, supplied)
    + Map(SortStrings(sprint.criteria), CriterionCheck(rules, cp))
    + Map(SortStrings(sprint.outputKeys), OutputCheck(rules, cp))
  }

  function Blocking(): Check -> bool { (c: Check) => !c.status.Pass? && c.required }

  function Warning(): Check -> bool { (c: Check) => !c.status.Pass? && !c.required }

  function IdOf(): Check -> string { (c: Check) => c.id }

  function Validate(sprint: Sprint, cp: Checkpoint, supplied: Option<seq<Checkpoint>>, rules: Rules): Validation {
    var checks := Checks(sprint, cp, supplied, rules);
    var failed := Map(Filter(checks, Blocking()), IdOf());
    Validation(failed == [], checks, failed, Map(Filter(checks, Warning()), IdOf()))
  }

  lemma IdsStep(xs: seq<Check>, i: nat, p: Check -> bool)
    requires i < |xs|
    ensures Map(Filter(xs[..i + 1], p), IdOf()) == Map(Filter(xs[..i], p), IdOf()) + if p(xs[i]) then [xs[i].id] else []
  {
    FilterStep(xs, i, p);
  }

  /** `validate_checkpoint`. */
  method ValidateCheckpoint(sprint: Sprint, cp: Checkpoint, supplied: Option<seq<Checkpoint>>, rules: Rules) returns (v: Validation)
    ensures v == Validate(sprint, cp, supplied, rules)
  {
    hide Filter, SortStrings, Map, StructuralChecks, CriterionCheck, OutputCheck;
    var checks := StructuralChecks(sprint, cp, supplied);
    ghost var structural := checks;
    var criteria, keys := SortStrings(sprint.criteria), SortStrings(sprint.outputKeys);
    for i := 0 to |criteria|
      invariant checks == structural + Map(criteria, CriterionCheck(rules, cp))[..i]
    {
      TakeOneMore(Map(criteria, CriterionCheck(rules, cp)), i);
      checks := checks + [CriterionCheck(rules, cp)(criteria[i])];
    }
    ghost var judged := checks;
    for i := 0 to |keys|
      invariant checks == judged + Map(keys, OutputCheck(rules, cp))[..i]
    {
      TakeOneMore(Map(keys, OutputCheck(rules, cp)), i);
      checks := checks + [OutputCheck(rules, cp)(keys[i])];
    }
    assert checks == Checks(sprint, cp, supplied, rules);
    var failed, warnings := Sift(checks);
    v := Validation(failed == [], checks, failed, warnings);
  }

  /** The last loop: blocking checks and warnings, in check order. */
  method Sift(checks: seq<Check>) returns (failed: seq<string>, warnings: seq<string>)
    ensures failed == Map(Filter(checks, Blocking()), IdOf()) && warnings == Map(Filter(checks, Warning()), IdOf())
  {
    hide Filter;
    failed, warnings := [], [];
    assert Filter(checks[..0], Blocking()) == [] && Filter(checks[..0], Warning()) == [] by {
      FilterMembers(checks[..0], Blocking());
      FilterMembers(checks[..0], Warning());
    }
    for i := 0 to |checks|
      invariant failed == Map(Filter(checks[..i], Blocking()), IdOf())
      invariant warnings == Map(Filter(checks[..i], Warning()), IdOf())
    {
      IdsStep(checks, i, Blocking());
      IdsStep(checks, i, Warning());
      if checks[i].status.Pass? {
        continue;
      }
      if checks[i].required {
        failed := failed + [checks[i].id];
      } else {
        warnings := warnings + [checks[i].id];
      }
    }
    assert checks[..|checks|] == checks;
  }

  // ---------------------------------------------------------------- what acceptance means

  lemma {:induction false} AcceptedMeansRequiredPass(sprint: Sprint, cp: Checkpoint, supplied: Option<seq<Checkpoint>>, rules: Rules)
    ensures var v := Validate(sprint, cp, supplied, rules);
            && (v.accepted <==> v.failed == [])
            && (v.accepted <==> forall c :: c in v.checks && c.required ==> c.status.Pass?)
  {
    hide Checks;
    var checks := Checks(sprint, cp, supplied, rules);
    FilterMembers(checks, Blocking());
    var blocked := Filter(checks, Blocking());
    if blocked != [] {
      assert blocked[0] in blocked;
    }
  }

  /** What a recognised criterion demands, and that one of unknown meaning is never met. */
  ghost predicate CriterionMet(c: Criterion, cp: Checkpoint) {
    && !c.Unrecognised?
    && (c.MinFindings? ==> c.n <= |cp.findings|)
    && (c.NoOpenQuestions? ==> cp.openQuestions == [] && cp.unresolved == [])
    && (c.RequiresEvidence? ==> cp.evidenceRefs != [])
    && (c.RequiresConfirmedPaths? ==> cp.confirmedPaths != [])
  }

  /** A key of the output contract is one of the three known ones, and that list is not empty. */
  ghost predicate OutputPresent(f: Option<Field>, cp: Checkpoint) {
    || (f == Some(Findings) && cp.findings != [])
    || (f == Some(ConfirmedPaths) && cp.confirmedPaths != [])
    || (f == Some(EvidenceRefs) && cp.evidenceRefs != [])
  }

  /** What a sprint demands of a checkpoint, in the terms of the sprint and the checkpoint. */
  ghost predicate MeetsContract(sprint: Sprint, cp: Checkpoint, supplied: Option<seq<Checkpoint>>, rules: Rules) {
    && cp.missionId == sprint.missionId && cp.sprintId == sprint.sprintId && !cp.rejected && cp.outcome == Some(Passed)
    && DependenciesPassed(sprint, supplied)
    && (forall t :: t in sprint.criteria ==> rules.recognise(t).optional || CriterionMet(rules.recognise(t).criterion, cp))
    && (forall k :: k in sprint.outputKeys ==> OutputPresent(rules.field(k), cp))
  }

  /** What the check of a criterion says: its id, whether it blocks, and its three statuses. */
  lemma CriterionCheckReads(rules: Rules, cp: Checkpoint, t: string)
    ensures var k, r := CriterionCheck(rules, cp)(t), rules.recognise(t);
            && k.id == "ACCEPTANCE::" + t && (k.required <==> !r.optional)
            && (k.status == Unverifiable <==> r.criterion.Unrecognised?)
            && (k.status == Pass <==> CriterionMet(r.criterion, cp))
  {
  }

  lemma OutputCheckReads(rules: Rules, cp: Checkpoint, t: string)
    ensures var k := OutputCheck(rules, cp)(t);
            && k.id == "OUTPUT_CONTRACT::" + t && k.required
            && (k.status == Unverifiable <==> rules.field(t).None?)
            && (k.status == Pass <==> OutputPresent(rules.field(t), cp))
  {
  }

  lemma MappedPass(texts: seq<string>, f: string -> Check)
    ensures (forall c :: c in Map(SortStrings(texts), f) && c.required ==> c.status.Pass?)
       <==> (forall t :: t in texts && f(t).required ==> f(t).status.Pass?)
  {
    hide SortStrings;
    var sorted := SortStrings(texts);
    forall t ensures t in sorted <==> t in texts { SortedMember(texts, t); }
    var checks := Map(sorted, f);
    forall t | t in sorted ensures f(t) in checks {
      var i :| 0 <= i < |sorted| && sorted[i] == t;
      assert checks[i] == f(t);
    }
    forall c | c in checks ensures exists t :: t in sorted && f(t) == c {
      var i :| 0 <= i < |checks| && checks[i] == c;
      assert f(sorted[i]) == c;
    }
  }

  lemma SortedMember(texts: seq<string>, t: string)
    ensures t in SortStrings(texts) <==> t in texts
  {
    SortByMembers(texts, Codes, t);
  }

  /** A checkpoint is accepted exactly when it meets the sprint's contract: text that is not
      recognised is never satisfied, and a dependency without a supplied checkpoint never passes. */
  lemma {:induction false} AcceptedExactly(sprint: Sprint, cp: Checkpoint, supplied: Option<seq<Checkpoint>>, rules: Rules)
    ensures Validate(sprint, cp, supplied, rules).accepted <==> MeetsContract(sprint, cp, supplied, rules)
  {
    AcceptedMeansRequiredPass(sprint, cp, supplied, rules);
    MappedPass(sprint.criteria, CriterionCheck(rules, cp));
    MappedPass(sprint.outputKeys, OutputCheck(rules, cp));
    StructuralPass(sprint, cp, supplied);
    forall t ensures CriterionCheck(rules, cp)(t).required <==> !rules.recognise(t).optional
             ensures CriterionCheck(rules, cp)(t).status.Pass? <==> CriterionMet(rules.recognise(t).criterion, cp)
    {
      CriterionCheckReads(rules, cp, t);
    }
    forall k ensures OutputCheck(rules, cp)(k).required && (OutputCheck(rules, cp)(k).status.Pass? <==> OutputPresent(rules.field(k), cp)) {
      OutputCheckReads(rules, cp, k);
    }
    hide StructuralChecks, Map, SortStrings, Filter, CriterionCheck, OutputCheck, CriterionMet, OutputPresent, DependenciesPassed;
    var a := StructuralChecks(sprint, cp, supplied);
    var b := Map(SortStrings(sprint.criteria), CriterionCheck(rules, cp));
    var d := Map(SortStrings(sprint.outputKeys), OutputCheck(rules, cp));
    assert forall c :: c in Checks(sprint, cp, supplied, rules) <==> c in a || c in b || c in d;
  }

  lemma StructuralPass(sprint: Sprint, cp: Checkpoint, supplied: Option<seq<Checkpoint>>)
    ensures (forall c :: c in StructuralChecks(sprint, cp, supplied) && c.required ==> c.status.Pass?) <==>
            && cp.missionId == sprint.missionId && cp.sprintId == sprint.sprintId && !cp.rejected && cp.outcome == Some(Passed)
            && DependenciesPassed(sprint, supplied)
  {
    DependencyCheckExact(sprint, supplied);
    hide DependencyCheck, DependenciesPassed;
    var s := StructuralChecks(sprint, cp, supplied);
    assert s[0] in s && s[1] in s && s[2] in s && s[3] in s;
    forall c | c in DependencyCheck(sprint, supplied) ensures c in s && c.required { DependencyRequired(sprint, supplied); }
  }

  /** The checks that do not depend on any text, one by one. Two of them cannot be decided from a
      checkpoint and never block, and the task lock is a third where the sprint asks for it. */
  ghost predicate StructuralCheck(k: Check, sprint: Sprint, cp: Checkpoint, supplied: Option<seq<Checkpoint>>) {
    || (k.id == "IDENTITY_MISSION_MATCH" && k.required && k.status == if cp.missionId == sprint.missionId then Pass else Fail)
    || (k.id == "IDENTITY_SPRINT_MATCH" && k.required && k.status == if cp.sprintId == sprint.sprintId then Pass else Fail)
    || (k.id == "CHECKPOINT_STATUS_VALID" && k.required && k.status == if cp.rejected then Fail else Pass)
    || (k.id == "EXECUTION_OUTCOME_PASS" && k.required && k.status == if cp.outcome == Some(Passed) then Pass else Fail)
    || (sprint.taskLocked && k == Check("TASK_LOCK_PRESERVED", Unverifiable, false))
    || (sprint.dependencies != [] && k.id == "DEPENDENCY_STATE" && k.required
        && k.status == if supplied.None? then Unverifiable else if DependenciesPassed(sprint, supplied) then Pass else Fail)
    || k == Check("BUDGET_CONTRACT", Unverifiable, false)
    || k == Check("FINDING_EVIDENCE_ASSOCIATION", Unverifiable, false)
  }

  lemma DependencyCheckReads(sprint: Sprint, supplied: Option<seq<Checkpoint>>, k: Check)
    ensures k in DependencyCheck(sprint, supplied) <==>
            && sprint.dependencies != [] && k.id == "DEPENDENCY_STATE" && k.required
            && k.status == if supplied.None? then Unverifiable else if DependenciesPassed(sprint, supplied) then Pass else Fail
  {
    hide DependenciesPassed, BySprint;
    DependencyCheckExact(sprint, supplied);
    if sprint.dependencies != [] {
      var d := DependencyCheck(sprint, supplied);
      assert |d| == 1 && d[0] in d && d == [d[0]];
      assert supplied.None? ==> d[0].status == Unverifiable;
      assert k in d <==> k == d[0];
    }
  }

  lemma StructuralReads(sprint: Sprint, cp: Checkpoint, supplied: Option<seq<Checkpoint>>, k: Check)
    ensures k in StructuralChecks(sprint, cp, supplied) <==> StructuralCheck(k, sprint, cp, supplied)
  {
    hide DependencyCheck, DependenciesPassed;
    DependencyCheckReads(sprint, supplied, k);
    FixedReads(sprint, cp, k);
    hide FixedChecks;
  }

  lemma FixedReads(sprint: Sprint, cp: Checkpoint, k: Check)
    ensures k in FixedChecks(sprint, cp) <==>
            || (k.id == "IDENTITY_MISSION_MATCH" && k.required && k.status == if cp.missionId == sprint.missionId then Pass else Fail)
            || (k.id == "IDENTITY_SPRINT_MATCH" && k.required && k.status == if cp.sprintId == sprint.sprintId then Pass else Fail)
            || (k.id == "CHECKPOINT_STATUS_VALID" && k.required && k.status == if cp.rejected then Fail else Pass)
            || (k.id == "EXECUTION_OUTCOME_PASS" && k.required && k.status == if cp.outcome == Some(Passed) then Pass else Fail)
  {
  }

  /** A check of the validation that stems from one of the sprint's criteria. */
  ghost predicate CriterionJudged(k: Check, sprint: Sprint, cp: Checkpoint, rules: Rules, t: string) {
    var r := rules.recognise(t);
    && t in sprint.criteria && k.id == "ACCEPTANCE::" + t && (k.required <==> !r.optional)
    && k.status == if r.criterion.Unrecognised? then Unverifiable else if CriterionMet(r.criterion, cp) then Pass else Fail
  }

  /** A check of the validation that stems from one of its output keys. */
  ghost predicate OutputJudged(k: Check, sprint: Sprint, cp: Checkpoint, rules: Rules, t: string) {
    && t in sprint.outputKeys && k.id == "OUTPUT_CONTRACT::" + t && k.required
    && k.status == if rules.field(t).None? then Unverifiable else if OutputPresent(rules.field(t), cp) then Pass else Fail
  }

  lemma MappedReads(texts: seq<string>, f: string -> Check, k: Check)
    ensures k in Map(SortStrings(texts), f) <==> exists t :: t in texts && f(t) == k
  {
    hide SortStrings;
    var sorted := SortStrings(texts);
    var checks := Map(sorted, f);
    if k in checks {
      var i :| 0 <= i < |checks| && checks[i] == k;
      SortedMember(texts, sorted[i]);
      assert sorted[i] in sorted && f(sorted[i]) == k;
    }
    if t :| t in texts && f(t) == k {
      SortedMember(texts, t);
      var i :| 0 <= i < |sorted| && sorted[i] == t;
      assert checks[i] == k;
    }
  }

  /** The checks of a validation are exactly these. */
  lemma ValidationReads(sprint: Sprint, cp: Checkpoint, supplied: Option<seq<Checkpoint>>, rules: Rules, k: Check)
    ensures k in Validate(sprint, cp, supplied, rules).checks <==>
            || StructuralCheck(k, sprint, cp, supplied)
            || (exists t :: CriterionJudged(k, sprint, cp, rules, t))
            || (exists t :: OutputJudged(k, sprint, cp, rules, t))
  {
    hide StructuralChecks, StructuralCheck, SortStrings, Map, Filter, CriterionCheck, OutputCheck, CriterionMet, OutputPresent;
    StructuralReads(sprint, cp, supplied, k);
    var f, g := CriterionCheck(rules, cp), OutputCheck(rules, cp);
    MappedReads(sprint.criteria, f, k);
    MappedReads(sprint.outputKeys, g, k);
    forall t ensures t in sprint.criteria && f(t) == k <==> CriterionJudged(k, sprint, cp, rules, t) { CriterionCheckReads(rules, cp, t); }
    forall t ensures t in sprint.outputKeys && g(t) == k <==> OutputJudged(k, sprint, cp, rules, t) { OutputCheckReads(rules, cp, t); }
    var checks := Checks(sprint, cp, supplied, rules);
    assert k in checks <==> k in StructuralChecks(sprint, cp, supplied) || k in Map(SortStrings(sprint.criteria), f) || k in Map(SortStrings(sprint.outputKeys), g);
  }

  /** What blocks is named as failed, and what else did not pass as a warning. */
  lemma FailuresRead(sprint: Sprint, cp: Checkpoint, supplied: Option<seq<Checkpoint>>, rules: Rules, id: string)
    ensures var v := Validate(sprint, cp, supplied, rules);
            && (id in v.failed <==> exists k :: k in v.checks && k.required && k.status != Pass && k.id == id)
            && (id in v.warnings <==> exists k :: k in v.checks && !k.required && k.status != Pass && k.id == id)
  {
    hide Checks;
    var checks := Checks(sprint, cp, supplied, rules);
    NamedReads(checks, Blocking(), id);
    NamedReads(checks, Warning(), id);
  }

  lemma NamedReads(checks: seq<Check>, p: Check -> bool, id: string)
    ensures id in Map(Filter(checks, p), IdOf()) <==> exists k :: k in checks && p(k) && k.id == id
  {
    hide Filter;
    FilterMembers(checks, p);
    var kept := Filter(checks, p);
    var ids := Map(kept, IdOf());
    if id in ids {
      var i :| 0 <= i < |ids| && ids[i] == id;
      assert kept[i] in kept && kept[i].id == id;
    }
    if k :| k in checks && p(k) && k.id == id {
      var i :| 0 <= i < |kept| && kept[i] == k;
      assert ids[i] == id;
    }
  }

  lemma DependencyRequired(sprint: Sprint, supplied: Option<seq<Checkpoint>>)
    ensures forall c :: c in DependencyCheck(sprint, supplied) ==> c.required && c.id == DEPENDENCY_STATE
    ensures |DependencyCheck(sprint, supplied)| <= 1
  {
  }

  /** Two sprints that list the same criteria and keys in different orders validate alike. */
  lemma {:induction false} ValidationOrderFree(a: Sprint, b: Sprint, cp: Checkpoint, supplied: Option<seq<Checkpoint>>, rules: Rules)
    requires multiset(a.criteria) == multiset(b.criteria) && multiset(a.outputKeys) == multiset(b.outputKeys)
    requires a.(criteria := [], outputKeys := []) == b.(criteria := [], outputKeys := [])
    ensures Validate(a, cp, supplied, rules) == Validate(b, cp, supplied, rules)
  {
    SortStringsOrderFree(a.criteria, b.criteria);
    SortStringsOrderFree(a.outputKeys, b.outputKeys);
    hide SortStrings, Filter, Map;
    assert StructuralChecks(a, cp, supplied) == StructuralChecks(b, cp, supplied);
  }
}
