/** The capability router (capabilities/router.py, ranking.py, executor_compat.py): it filters the
    registry per requirement, ranks the candidates and emits a plan, and its plan is what the
    dispatcher runs. Registry lookup and evidence levels are arbitrary functions. */
module CapabilityRouter {
  import opened Common
  import opened Ordering
  import opened Text
  import D = Dispatcher

  datatype Level = Validated | Observed | Declared | FoundNotTested

  datatype Location = Local | Grid | Cloud

  datatype Resource = Resource(
    id: string, kind: string, runtime: string, modalities: seq<string>, local: bool, cloudRequired: bool,
    location: Option<Location>, hardware: map<string, string>, boundary: D.Boundary)

  /** The empty string stands for an absent modality or preferred kind, as the code takes both by their truth value. */
  datatype Requirement = Requirement(
    capability: string, required: bool, modality: string, cloudAllowed: bool, deterministicPreferred: bool,
    preferredKind: string, minimumLevel: string)

  datatype Profile = Profile(
    localOnly: bool, cloudAllowed: bool, gridAllowed: bool, minimumLevel: string, allowedKinds: Option<seq<string>>,
    hardware: map<string, string>)

  datatype Registry = Registry(find: string -> seq<Resource>, level: (Resource, string) -> Level)

  datatype Reason =
    | GridForbidden | CloudForbidden | KindForbidden | HardwareNotMet | ModalityIncompatible
    | ValidationNotMet | NoCompatibleExecutor

  datatype Exclusion = Exclusion(resourceId: string, capability: string, reason: Reason)

  datatype Candidate = Candidate(
    resourceId: string, kind: string, level: Level, local: bool, cloudRequired: bool, available: bool,
    costTier: int, qualityTier: int, rank: nat, boundary: D.Boundary)

  // ---------------------------------------------------------------- executor contracts

  predicate RuntimeAvailable(runtime: string) {
    var lowered := Lower(runtime);
    !(Contains("unbound", lowered) || Contains("not loaded", lowered) || Contains("cache only", lowered))
  }

  predicate DeterministicCompatible(kind: string, id: string) { kind == "tool" && Contains("mrw-deterministic-router", id) }

  predicate McpCompatible(kind: string, id: string) { kind == "mcp" || Contains("mcp", Lower(id)) }

  predicate LlmCompatible(kind: string) { kind in ["slm", "llm", "vlm"] }

  predicate ExecutorCompatible(kind: string, id: string, boundary: D.Boundary) {
    DeterministicCompatible(kind, id) || McpCompatible(kind, id) || LlmCompatible(kind) || boundary.OutOfProcess?
  }

  ghost predicate Handles(e: D.Executor, contract: D.Step -> bool, boundaryAware: bool) {
    e.boundaryAware == boundaryAware && forall s :: e.canHandle(s) == contract(s)
  }

  function Deterministic(): D.Step -> bool { (s: D.Step) => DeterministicCompatible(s.kind, s.resource) }
  function Mcp(): D.Step -> bool { (s: D.Step) => McpCompatible(s.kind, s.resource) }
  function Llm(): D.Step -> bool { (s: D.Step) => LlmCompatible(s.kind) }
  function Process(): D.Step -> bool { (s: D.Step) => s.boundary.OutOfProcess? }

  /** The four standard executors are registered, in any order and possibly repeatedly, and no other. */
  ghost predicate StandardExecutors(executors: seq<D.Executor>) {
    && (exists e :: e in executors && Handles(e, Deterministic(), false))
    && (exists e :: e in executors && Handles(e, Mcp(), false))
    && (exists e :: e in executors && Handles(e, Llm(), false))
    && (exists e :: e in executors && Handles(e, Process(), true))
    && (forall e :: e in executors ==> Handles(e, Deterministic(), false) || Handles(e, Mcp(), false) || Handles(e, Llm(), false)
                                       || Handles(e, Process(), true))
  }

  lemma RegisteredAccepts(executors: seq<D.Executor>, step: D.Step, contract: D.Step -> bool, boundaryAware: bool)
    requires exists e :: e in executors && Handles(e, contract, boundaryAware)
    requires contract(step) && (step.boundary.OutOfProcess? ==> boundaryAware)
    ensures D.SelectExecutor(executors, step).Some?
  {
    var e :| e in executors && Handles(e, contract, boundaryAware);
    var k :| 0 <= k < |executors| && executors[k] == e;
    assert e.canHandle(step);
    D.SelectedExecutorRespectsBoundary(executors, step);
  }

  lemma {:induction false} SelectedIsRegistered(executors: seq<D.Executor>, step: D.Step)
    requires D.SelectExecutor(executors, step).Some?
    ensures D.SelectExecutor(executors, step).value in executors
  {
    if executors[0] != D.SelectExecutor(executors, step).value {
      SelectedIsRegistered(executors[1..], step);
    }
  }

  /** The router's gate and the dispatcher's choice agree: a step finds an executor exactly when the
      gate lets it through, its process boundary included. */
  lemma GateMatchesDispatcher(executors: seq<D.Executor>, step: D.Step)
    requires StandardExecutors(executors)
    ensures D.SelectExecutor(executors, step).Some? <==> ExecutorCompatible(step.kind, step.resource, step.boundary)
  {
    D.SelectedExecutorRespectsBoundary(executors, step);
    if step.boundary.OutOfProcess? {
      RegisteredAccepts(executors, step, Process(), true);
    } else if DeterministicCompatible(step.kind, step.resource) {
      RegisteredAccepts(executors, step, Deterministic(), false);
    } else if McpCompatible(step.kind, step.resource) {
      RegisteredAccepts(executors, step, Mcp(), false);
    } else if LlmCompatible(step.kind) {
      RegisteredAccepts(executors, step, Llm(), false);
    } else {
      var e := D.SelectExecutor(executors, step);
      if e.Some? {
        SelectedIsRegistered(executors, step);
      }
    }
  }

  // ---------------------------------------------------------------- policy

  /** The profile's minimum level replaces the requirement's in the two cases the code names. */
  function Policy(req: Requirement, profile: Option<Profile>): string {
    if profile.Some? && profile.value.minimumLevel != ""
       && (profile.value.minimumLevel == "VALIDATED_REQUIRED" || req.minimumLevel == "FOUND_NOT_TESTED_ALLOWED")
       && req.minimumLevel != "VALIDATED_REQUIRED"
    then profile.value.minimumLevel else req.minimumLevel
  }

  function Preference(level: Level): nat {
    match level case Validated => 0 case Observed => 1 case Declared => 2 case FoundNotTested => 3
  }

  function Threshold(policy: string): nat {
    if policy == "VALIDATED_REQUIRED" then 0 else if policy == "OBSERVED_OR_BETTER" then 1 else 3
  }

  predicate Meets(level: Level, policy: string) { Preference(level) <= Threshold(policy) }

  const POLICIES := ["FOUND_NOT_TESTED_ALLOWED", "OBSERVED_OR_BETTER", "VALIDATED_REQUIRED"]

  /** The combined policy is the stricter of the two, whatever text the profile carries. */
  lemma StricterPolicyWins(req: Requirement, profile: Option<Profile>, level: Level)
    requires req.minimumLevel in POLICIES
    ensures Meets(level, Policy(req, profile))
       <==> Meets(level, req.minimumLevel) && (profile.Some? ==> Meets(level, profile.value.minimumLevel))
  {
    assert POLICIES[0][0] != POLICIES[1][0] && POLICIES[1][0] != POLICIES[2][0] && POLICIES[0][0] != POLICIES[2][0];
  }

  predicate CloudAllowed(req: Requirement, profile: Option<Profile>) {
    req.cloudAllowed && (profile.Some? ==> !profile.value.localOnly && profile.value.cloudAllowed)
  }

  predicate GridAllowed(profile: Option<Profile>) { profile.Some? && profile.value.gridAllowed }

  predicate KindAllowed(kind: string, profile: Option<Profile>) {
    profile.Some? && profile.value.allowedKinds.Some? ==> kind in profile.value.allowedKinds.value
  }

  predicate Constrained(profile: Option<Profile>) { profile.Some? && profile.value.hardware != map[] }

  predicate HardwareMet(wanted: map<string, string>, offered: map<string, string>) {
    forall k :: k in wanted ==> k in offered && offered[k] == wanted[k]
  }

  /** The `if`/`elif` chain of `_resolve_candidates`: only the first test that applies is made. */
  function Excluded(r: Resource, level: Level, req: Requirement, profile: Option<Profile>): Option<Reason> {
    match r.location
    case Some(Grid) => if GridAllowed(profile) then None else Some(GridForbidden)
    case Some(Cloud) => if CloudAllowed(req, profile) then None else Some(CloudForbidden)
    case Some(Local) => None
    case None =>
      if !CloudAllowed(req, profile) && (r.cloudRequired || !r.local) then Some(CloudForbidden)
      else if !KindAllowed(r.kind, profile) then Some(KindForbidden)
      else if Constrained(profile) then if HardwareMet(profile.value.hardware, r.hardware) then None else Some(HardwareNotMet)
      else if req.modality != "" && req.modality !in r.modalities then Some(ModalityIncompatible)
      else if !Meets(level, Policy(req, profile)) then Some(ValidationNotMet)
      else if !ExecutorCompatible(r.kind, r.id, r.boundary) then Some(NoCompatibleExecutor)
      else None
  }

  // ---------------------------------------------------------------- what the chain guards, exactly

  /** The evidence, modality and executor tests are only made for resources without a location under
      a profile without hardware constraints. */
  predicate GatesReached(location: Option<Location>, profile: Option<Profile>) { location.None? && !Constrained(profile) }

  /** Where they are made, admission means every documented gate holds. */
  lemma GuardedAdmission(r: Resource, level: Level, req: Requirement, profile: Option<Profile>)
    requires GatesReached(r.location, profile)
    ensures Excluded(r, level, req, profile).None? <==>
            && (r.cloudRequired || !r.local ==> CloudAllowed(req, profile))
            && KindAllowed(r.kind, profile)
            && (req.modality != "" ==> req.modality in r.modalities)
            && Meets(level, Policy(req, profile))
            && ExecutorCompatible(r.kind, r.id, r.boundary)
  {
  }

  /** Some resource at this location is admitted without those tests being made. */
  predicate Evades(location: Option<Location>, req: Requirement, profile: Option<Profile>) {
    match location
    case Some(Grid) => GridAllowed(profile)
    case Some(Cloud) => CloudAllowed(req, profile)
    case Some(Local) => true
    case None => Constrained(profile) && profile.value.allowedKinds != Some([])
  }

  /** A kind a resource at this location may have that no executor contract claims by kind alone. */
  predicate EvadesExecutors(location: Option<Location>, req: Requirement, profile: Option<Profile>) {
    && Evades(location, req, profile)
    && (location.None? && profile.value.allowedKinds.Some? ==>
          exists k :: k in profile.value.allowedKinds.value && k != "mcp" && !LlmCompatible(k))
  }

  function Bare(kind: string, location: Option<Location>, profile: Option<Profile>): Resource {
    Resource("", kind, "", [], true, false, location, if profile.Some? then profile.value.hardware else map[], D.InProcess)
  }

  function AnyKind(location: Option<Location>, profile: Option<Profile>): string {
    if location.None? && profile.Some? && profile.value.allowedKinds.Some? && profile.value.allowedKinds.value != []
    then profile.value.allowedKinds.value[0] else ""
  }

  /** The validation policy fails closed exactly where the chain reaches its test, or demands nothing. */
  lemma ValidationGateExact(location: Option<Location>, req: Requirement, profile: Option<Profile>)
    ensures (forall r: Resource, level: Level :: r.location == location && Excluded(r, level, req, profile).None? ==> Meets(level, Policy(req, profile)))
       <==> !Evades(location, req, profile) || Threshold(Policy(req, profile)) == 3
  {
    if Evades(location, req, profile) {
      var r := Bare(AnyKind(location, profile), location, profile);
      assert Excluded(r, FoundNotTested, req, profile).None?;
    }
  }

  lemma ModalityGateExact(location: Option<Location>, req: Requirement, profile: Option<Profile>)
    ensures (forall r: Resource, level: Level :: r.location == location && Excluded(r, level, req, profile).None? ==>
                                req.modality == "" || req.modality in r.modalities)
       <==> !Evades(location, req, profile) || req.modality == ""
  {
    if Evades(location, req, profile) {
      var r := Bare(AnyKind(location, profile), location, profile);
      assert Excluded(r, FoundNotTested, req, profile).None?;
    }
  }

  lemma EmptyIdUnclaimed(kind: string)
    requires kind != "mcp" && !LlmCompatible(kind)
    ensures !ExecutorCompatible(kind, "", D.InProcess)
  {
  }

  /** No admitted resource is left without an executor exactly where the chain reaches that test. */
  lemma ExecutorGateExact(location: Option<Location>, req: Requirement, profile: Option<Profile>)
    ensures (forall r: Resource, level: Level :: r.location == location && Excluded(r, level, req, profile).None? ==>
                                ExecutorCompatible(r.kind, r.id, r.boundary))
       <==> !EvadesExecutors(location, req, profile)
  {
    if EvadesExecutors(location, req, profile) {
      var kind := "";
      if location.None? && profile.value.allowedKinds.Some? {
        kind :| kind in profile.value.allowedKinds.value && kind != "mcp" && !LlmCompatible(kind);
      }
      EmptyIdUnclaimed(kind);
      var r := Bare(kind, location, profile);
      assert Excluded(r, FoundNotTested, req, profile).None?;
    }
  }

  /** A concrete case: a resource marked local is admitted without evidence, modality or executor. */
  lemma LocalResourceEvades(req: Requirement)
    requires req.minimumLevel == "VALIDATED_REQUIRED" && req.modality == "audio"
    ensures var r := Resource("a", "library", "", [], true, false, Some(Local), map[], D.InProcess);
            && Excluded(r, FoundNotTested, req, None).None?
            && req.modality !in r.modalities && !Meets(FoundNotTested, Policy(req, None)) && !ExecutorCompatible(r.kind, r.id, r.boundary)
  {
    assert Lower("a") == "a";
  }

  // ---------------------------------------------------------------- ranking

  function CostTier(kind: string): int {
    if kind == "slm" then 1 else if kind in ["llm", "vlm", "api"] then 3 else 2
  }

  function QualityTier(kind: string): int { if kind in ["llm", "vlm", "api"] then 3 else 2 }

  function EconomyKey(c: Candidate, economy: string): seq<int> {
    if economy == "economical" then [c.costTier, -c.qualityTier]
    else if economy == "maximum" then [-c.qualityTier, c.costTier]
    else [if c.qualityTier >= 2 then c.qualityTier - 2 else 2 - c.qualityTier, c.costTier]
  }

  function RankKey(c: Candidate, req: Requirement, economy: string): seq<int> {
    [ Preference(c.level),
      if req.deterministicPreferred then 0 else 1,
      if req.preferredKind != "" && c.kind == req.preferredKind then 0 else 1,
      if c.kind in ["detector", "parser", "tool", "embedding", "library", "mcp"] then 0 else 1,
      if c.local && !c.cloudRequired then 0 else 1,
      if c.available then 0 else 1 ]
    + EconomyKey(c, economy) + Codes(c.resourceId)
  }

  function By(req: Requirement, economy: string): Candidate -> seq<int> { (c: Candidate) => RankKey(c, req, economy) }

  function IsAvailable(): Candidate -> bool { (c: Candidate) => c.available }

  function Ranked(req: Requirement, candidates: seq<Candidate>, economy: string): (r: seq<Candidate>)
    ensures |r| == |SortBy(candidates, By(req, economy))|
  {
    var sorted := SortBy(candidates, By(req, economy));
    seq(|sorted|, i requires 0 <= i < |sorted| => sorted[i].(rank := i))
  }

  /** Sorts, then numbers the candidates in place. */
  method Rank(req: Requirement, candidates: seq<Candidate>, economy: string) returns (ranked: seq<Candidate>)
    ensures ranked == Ranked(req, candidates, economy)
  {
    ghost var sorted := SortBy(candidates, By(req, economy));
    ranked := SortBy(candidates, By(req, economy));
    for index := 0 to |ranked|
      invariant |ranked| == |sorted|
      invariant forall j :: 0 <= j < index ==> ranked[j] == sorted[j].(rank := j)
      invariant forall j :: index <= j < |ranked| ==> ranked[j] == sorted[j]
    {
      ranked := ranked[index := ranked[index].(rank := index)];
    }
  }

  // ---------------------------------------------------------------- candidates of a requirement

  datatype Setting = Setting(registry: Registry, profile: Option<Profile>, economy: string)

  function ToCandidate(r: Resource, level: Level): Candidate {
    Candidate(r.id, r.kind, level, r.local, r.cloudRequired, RuntimeAvailable(r.runtime), CostTier(r.kind), QualityTier(r.kind), 0, r.boundary)
  }

  function Verdict(r: Resource, req: Requirement, s: Setting): Option<Reason> {
    Excluded(r, s.registry.level(r, req.capability), req, s.profile)
  }

  function CandidatesOf(rs: seq<Resource>, req: Requirement, s: Setting): seq<Candidate> {
    if rs == [] then []
    else
      var r := rs[|rs| - 1];
      CandidatesOf(rs[..|rs| - 1], req, s)
      + if Verdict(r, req, s).None? then [ToCandidate(r, s.registry.level(r, req.capability))] else []
  }

  function ExclusionsOf(rs: seq<Resource>, req: Requirement, s: Setting): seq<Exclusion> {
    if rs == [] then []
    else
      var r := rs[|rs| - 1];
      ExclusionsOf(rs[..|rs| - 1], req, s)
      + match Verdict(r, req, s) case None => [] case Some(reason) => [Exclusion(r.id, req.capability, reason)]
  }

  function Pool(req: Requirement, s: Setting): seq<Candidate> { CandidatesOf(s.registry.find(req.capability), req, s) }

  function Removed(req: Requirement, s: Setting): seq<Exclusion> { ExclusionsOf(s.registry.find(req.capability), req, s) }

  function RankedPool(req: Requirement, s: Setting): seq<Candidate> { Ranked(req, Pool(req, s), s.economy) }

  /** The best candidate whose runtime is present. */
  function Choice(req: Requirement, s: Setting): Option<Candidate> { FirstWhere(RankedPool(req, s), IsAvailable()) }

  method ResolveCandidates(req: Requirement, s: Setting) returns (candidates: seq<Candidate>, exclusions: seq<Exclusion>)
    ensures candidates == Pool(req, s) && exclusions == Removed(req, s)
  {
    var resources := s.registry.find(req.capability);
    candidates, exclusions := [], [];
    for i := 0 to |resources|
      invariant candidates == CandidatesOf(resources[..i], req, s)
      invariant exclusions == ExclusionsOf(resources[..i], req, s)
    {
      assert resources[..i + 1][..i] == resources[..i];
      var r := resources[i];
      var level := s.registry.level(r, req.capability);
      var reason := Excluded(r, level, req, s.profile);
      if reason.Some? {
        exclusions := exclusions + [Exclusion(r.id, req.capability, reason.value)];
        continue;
      }
      candidates := candidates + [ToCandidate(r, level)];
    }
    assert resources[..|resources|] == resources;
  }

  lemma {:induction false} CandidateOrigin(rs: seq<Resource>, req: Requirement, s: Setting, c: Candidate)
    requires c in CandidatesOf(rs, req, s)
    ensures exists r :: r in rs && Verdict(r, req, s).None? && c == ToCandidate(r, s.registry.level(r, req.capability))
  {
    var r, init := rs[|rs| - 1], rs[..|rs| - 1];
    if c in CandidatesOf(init, req, s) {
      CandidateOrigin(init, req, s, c);
    } else {
      assert r in rs;
    }
  }

  lemma {:induction false} RenumberedFirst(sorted: seq<Candidate>, numbered: seq<Candidate>)
    requires |sorted| == |numbered| && forall i :: 0 <= i < |sorted| ==> numbered[i] == sorted[i].(rank := numbered[i].rank)
    ensures FirstWhere(sorted, IsAvailable()).None? == FirstWhere(numbered, IsAvailable()).None?
    ensures var a, b := FirstWhere(sorted, IsAvailable()), FirstWhere(numbered, IsAvailable());
            a.Some? ==> b.value == a.value.(rank := b.value.rank)
  {
    if sorted != [] {
      RenumberedFirst(sorted[1..], numbered[1..]);
    }
  }

  /** The choice is the earliest, in registry order, of the least available candidates under the
      rank key; there is none exactly when no candidate is available. */
  lemma ChoiceIsBestAvailable(req: Requirement, s: Setting)
    ensures Choice(req, s).None? <==> forall c :: c in Pool(req, s) ==> !c.available
    ensures Choice(req, s).Some? ==>
              var c := Choice(req, s).value;
              exists i :: EarliestLeast(Pool(req, s), i, By(req, s.economy), IsAvailable()) && c == Pool(req, s)[i].(rank := c.rank)
  {
    var sorted := SortBy(Pool(req, s), By(req, s.economy));
    RenumberedFirst(sorted, RankedPool(req, s));
    FirstOfSorted(Pool(req, s), By(req, s.economy), IsAvailable());
  }

  /** No available candidate has better evidence than the choice. */
  lemma ChoiceHasBestEvidence(req: Requirement, s: Setting, c: Candidate)
    requires c in Pool(req, s) && c.available
    ensures Choice(req, s).Some? && Preference(Choice(req, s).value.level) <= Preference(c.level)
  {
    ChoiceIsBestAvailable(req, s);
    var i :| EarliestLeast(Pool(req, s), i, By(req, s.economy), IsAvailable())
             && Choice(req, s).value == Pool(req, s)[i].(rank := Choice(req, s).value.rank);
    var j :| 0 <= j < |Pool(req, s)| && Pool(req, s)[j] == c;
    assert Leq(By(req, s.economy)(Pool(req, s)[i]), By(req, s.economy)(c));
  }

  // ---------------------------------------------------------------- the route

  const VALIDATED_UNAVAILABLE := "validated_candidate_unavailable"
  const BEST_UNAVAILABLE := "best_known_candidate_unavailable"

  datatype Planned = Planned(step: D.Step, bestKnown: string, degradation: Option<string>)

  datatype Progress = Progress(
    steps: seq<Planned>, selected: seq<string>, preferred: seq<string>, degradations: seq<string>,
    unroutable: bool, noExecutor: bool, exclusions: seq<Exclusion>)

  datatype RouteResult = RouteResult(
    plan: seq<Planned>, selected: seq<string>, preferred: seq<string>, degradations: seq<string>,
    llmRequired: bool, status: D.RouteStatus, exclusions: seq<Exclusion>)

  function DegradationReason(preferred: Candidate): string {
    if preferred.level.Validated? then VALIDATED_UNAVAILABLE else BEST_UNAVAILABLE
  }

  /** A required capability whose every resource is removed, one of them for want of an executor. */
  predicate LacksExecutor(req: Requirement, s: Setting) {
    req.required && Pool(req, s) == [] && exists e :: e in Removed(req, s) && e.reason.NoCompatibleExecutor?
  }

  /** Any other required capability without an available candidate. */
  predicate LacksResource(req: Requirement, s: Setting) {
    req.required && Choice(req, s).None? && !LacksExecutor(req, s)
  }

  predicate Degrades(req: Requirement, s: Setting) {
    Choice(req, s).Some? && RankedPool(req, s) != [] && Choice(req, s).value.resourceId != RankedPool(req, s)[0].resourceId
  }

  /** What one requirement contributes to the route. */
  datatype Outcome = Outcome(planned: Option<Planned>, lacksExecutor: bool, lacksResource: bool, removed: seq<Exclusion>)

  function OutcomeOf(req: Requirement, s: Setting): Outcome {
    var ranked, choice := RankedPool(req, s), Choice(req, s);
    Outcome(
      if choice.None? || ranked == [] then None
      else Some(Planned(D.Step(req.capability, choice.value.resourceId, choice.value.kind, choice.value.boundary, None), ranked[0].resourceId,
                        if Degrades(req, s) then Some(DegradationReason(ranked[0])) else None)),
      LacksExecutor(req, s), LacksResource(req, s), Removed(req, s))
  }

  function Outcomes(reqs: seq<Requirement>, s: Setting): (r: seq<Outcome>)
    ensures |r| == |reqs| && forall i :: 0 <= i < |reqs| ==> r[i] == OutcomeOf(reqs[i], s)
  {
    seq(|reqs|, i requires 0 <= i < |reqs| => OutcomeOf(reqs[i], s))
  }

  function Push<T(==)>(xs: seq<T>, x: T): seq<T> { if x in xs then xs else xs + [x] }

  function Advance(p: Progress, o: Outcome): Progress {
    var q := p.(exclusions := p.exclusions + o.removed, noExecutor := p.noExecutor || o.lacksExecutor,
                unroutable := p.unroutable || o.lacksResource);
    match o.planned
    case None => q
    case Some(x) =>
      var d := q.(degradations := if x.degradation.Some? then Push(q.degradations, x.degradation.value) else q.degradations);
      if x.step.resource in d.selected then d
      else d.(steps := d.steps + [x], selected := d.selected + [x.step.resource], preferred := d.preferred + [x.bestKnown])
  }

  function Walk(os: seq<Outcome>): Progress {
    if os == [] then Progress([], [], [], [], false, false, []) else Advance(Walk(os[..|os| - 1]), os[|os| - 1])
  }

  predicate LlmStep(p: Planned) { p.step.kind in ["llm", "slm", "vlm", "api"] }

  function Finish(p: Progress): RouteResult {
    if p.noExecutor then RouteResult([], [], [], [], false, D.NoExecutableResource, p.exclusions)
    else if p.unroutable then RouteResult([], [], [], [], false, D.NoEligibleResource, p.exclusions)
    else
      RouteResult(p.steps, p.selected, p.preferred, p.degradations, exists x :: x in p.steps && LlmStep(x),
                  if p.degradations != [] then D.Degraded else if p.steps != [] then D.Normal else D.NoEligibleResource, p.exclusions)
  }

  function RouteOf(reqs: seq<Requirement>, s: Setting): RouteResult { Finish(Walk(Outcomes(reqs, s))) }

  /** One pass of the requirement loop. */
  method Consider(p: Progress, req: Requirement, s: Setting) returns (q: Progress)
    ensures q == Advance(p, OutcomeOf(req, s))
  {
    var candidates, removed := ResolveCandidates(req, s);
    q := p.(exclusions := p.exclusions + removed);
    var ranked := Rank(req, candidates, s.economy);
    SortByPermutes(candidates, By(req, s.economy));
    if ranked == [] {
      if req.required {
        if exists e :: e in removed && e.reason.NoCompatibleExecutor? {
          q := q.(noExecutor := true);
        } else {
          q := q.(unroutable := true);
        }
      }
      return;
    }
    var best := ranked[0];
    var available := FirstWhere(ranked, IsAvailable());
    if available.None? {
      if req.required {
        q := q.(unroutable := true);
      }
      return;
    }
    var chosen := available.value;
    var degradation: Option<string> := None;
    if chosen.resourceId != best.resourceId {
      degradation := Some(DegradationReason(best));
      if degradation.value !in q.degradations {
        q := q.(degradations := q.degradations + [degradation.value]);
      }
    }
    if chosen.resourceId !in q.selected {
      var step := D.Step(req.capability, chosen.resourceId, chosen.kind, chosen.boundary, None);
      q := q.(selected := q.selected + [chosen.resourceId], steps := q.steps + [Planned(step, best.resourceId, degradation)],
              preferred := q.preferred + [best.resourceId]);
    }
  }

  /** `route` for the requirements derived from a mission. */
  method RouteMission(reqs: seq<Requirement>, s: Setting) returns (result: RouteResult)
    ensures result == RouteOf(reqs, s)
  {
    hide OutcomeOf, Advance;
    ghost var os := Outcomes(reqs, s);
    var p := Progress([], [], [], [], false, false, []);
    for i := 0 to |reqs|
      invariant p == Walk(os[..i])
    {
      assert os[..i + 1][..i] == os[..i];
      p := Consider(p, reqs[i], s);
    }
    assert os[..|reqs|] == os;
    var status: D.RouteStatus;
    if p.noExecutor {
      p := p.(steps := [], selected := [], preferred := [], degradations := []);
      status := D.NoExecutableResource;
    } else if p.unroutable {
      p := p.(steps := [], selected := [], preferred := [], degradations := []);
      status := D.NoEligibleResource;
    } else if p.degradations != [] {
      status := D.Degraded;
    } else if p.steps != [] {
      status := D.Normal;
    } else {
      status := D.NoEligibleResource;
    }
    result := RouteResult(p.steps, p.selected, p.preferred, p.degradations, exists x :: x in p.steps && LlmStep(x), status, p.exclusions);
  }

  // ---------------------------------------------------------------- walking any outcomes

  predicate Takes(o: Outcome, id: string) { o.planned.Some? && o.planned.value.step.resource == id }

  predicate Degraded(o: Outcome) { o.planned.Some? && o.planned.value.degradation.Some? }

  /** The flags record exactly the failing requirements. */
  lemma {:induction false} WalkFlags(os: seq<Outcome>)
    ensures Walk(os).noExecutor <==> exists i :: 0 <= i < |os| && os[i].lacksExecutor
    ensures Walk(os).unroutable <==> exists i :: 0 <= i < |os| && os[i].lacksResource
    ensures Walk(os).degradations != [] <==> exists i :: 0 <= i < |os| && Degraded(os[i])
  {
    if os != [] {
      var n := |os| - 1;
      WalkFlags(os[..n]);
      AdvanceFlags(Walk(os[..n]), os[n]);
      hide Advance, Degraded;
      assert forall i :: 0 <= i < n ==> os[..n][i] == os[i];
    }
  }

  lemma AdvanceFlags(p: Progress, o: Outcome)
    ensures Advance(p, o).noExecutor == (p.noExecutor || o.lacksExecutor)
    ensures Advance(p, o).unroutable == (p.unroutable || o.lacksResource)
    ensures Advance(p, o).degradations != [] <==> p.degradations != [] || Degraded(o)
  {
  }

  /** Step `k` is what requirement `i` chose, and no earlier requirement chose that resource. */
  ghost predicate FirstTaken(os: seq<Outcome>, p: Progress, k: nat, i: int) {
    && k < |p.steps| == |p.selected| == |p.preferred| && 0 <= i < |os|
    && os[i].planned == Some(p.steps[k])
    && p.selected[k] == p.steps[k].step.resource && p.preferred[k] == p.steps[k].bestKnown
    && forall j :: 0 <= j < i ==> !Takes(os[j], p.selected[k])
  }

  ghost predicate HasFirstTaker(os: seq<Outcome>, p: Progress, k: nat) { exists i :: FirstTaken(os, p, k, i) }

  lemma {:induction false} WalkSelected(os: seq<Outcome>)
    ensures var p := Walk(os);
            && |p.steps| == |p.selected| == |p.preferred|
            && NoDuplicates(p.selected)
            && (forall i :: 0 <= i < |os| && os[i].planned.Some? ==> os[i].planned.value.step.resource in p.selected)
  {
    if os != [] {
      var n := |os| - 1;
      WalkSelected(os[..n]);
      assert forall i :: 0 <= i < n ==> os[..n][i] == os[i];
    }
  }

  lemma {:induction false} WalkTakers(os: seq<Outcome>)
    ensures forall k: nat :: k < |Walk(os).steps| ==> HasFirstTaker(os, Walk(os), k)
  {
    if os != [] {
      var n := |os| - 1;
      var init := os[..n];
      WalkTakers(init);
      WalkSelected(init);
      var before, p := Walk(init), Walk(os);
      assert forall i :: 0 <= i < n ==> init[i] == os[i];
      forall k: nat | k < |p.steps| ensures HasFirstTaker(os, p, k) {
        if k < |before.steps| {
          assert HasFirstTaker(init, before, k);
          var i :| FirstTaken(init, before, k, i);
          assert FirstTaken(os, p, k, i);
        } else {
          assert FirstTaken(os, p, k, n);
        }
      }
    }
  }

  // ---------------------------------------------------------------- what a route means

  lemma OutcomeMeaning(req: Requirement, s: Setting)
    ensures var o := OutcomeOf(req, s);
            && (o.planned.Some? <==> Choice(req, s).Some?)
            && (Degraded(o) <==> Degrades(req, s))
            && (o.lacksExecutor || o.lacksResource <==> req.required && Choice(req, s).None?)
            && o.lacksExecutor == LacksExecutor(req, s)
    ensures Choice(req, s).Some? ==> Choice(req, s).value in RankedPool(req, s)
  {
    FirstWhereMember(RankedPool(req, s), IsAvailable());
    SortByPermutes(Pool(req, s), By(req, s.economy));
  }

  ghost predicate AllRouted(reqs: seq<Requirement>, s: Setting) {
    forall i :: 0 <= i < |reqs| && reqs[i].required ==> Choice(reqs[i], s).Some?
  }

  /** What each status says about the requirements, whatever order they were walked in. */
  lemma StatusMeaning(reqs: seq<Requirement>, s: Setting)
    ensures RouteOf(reqs, s).status.NoExecutableResource? <==> exists i :: 0 <= i < |reqs| && LacksExecutor(reqs[i], s)
    ensures RouteOf(reqs, s).status in {D.Normal, D.Degraded} <==>
            AllRouted(reqs, s) && exists i :: 0 <= i < |reqs| && Choice(reqs[i], s).Some?
    ensures RouteOf(reqs, s).status.Degraded? <==> AllRouted(reqs, s) && exists i :: 0 <= i < |reqs| && Degrades(reqs[i], s)
  {
    hide OutcomeOf, Choice, LacksExecutor, LacksResource, Degrades, Walk, Degraded;
    var os := Outcomes(reqs, s);
    WalkFlags(os);
    WalkSelected(os);
    WalkTakers(os);
    forall i | 0 <= i < |reqs| ensures os[i] == OutcomeOf(reqs[i], s) { OutcomeMeaning(reqs[i], s); }
    forall i | 0 <= i < |reqs|
      ensures os[i].planned.Some? <==> Choice(reqs[i], s).Some?
      ensures Degraded(os[i]) <==> Degrades(reqs[i], s)
      ensures os[i].lacksExecutor || os[i].lacksResource <==> reqs[i].required && Choice(reqs[i], s).None?
      ensures os[i].lacksExecutor == LacksExecutor(reqs[i], s)
    {
      OutcomeMeaning(reqs[i], s);
    }
    var p := Walk(os);
    if p.steps != [] {
      assert HasFirstTaker(os, p, 0);
    }
    assert p.steps != [] <==> exists i :: 0 <= i < |reqs| && Choice(reqs[i], s).Some?;
    if p.degradations != [] {
      var i :| 0 <= i < |os| && Degraded(os[i]);
      DegradedPlanned(os[i]);
    }
  }

  lemma DegradedPlanned(o: Outcome)
    ensures Degraded(o) ==> o.planned.Some?
  {
  }

  /** A plan is emitted exactly for a NORMAL or DEGRADED route, with distinct resources; it then
      holds the choice of every required requirement, and every step is the choice of the first
      requirement that chose its resource. */
  lemma PlanIsComplete(reqs: seq<Requirement>, s: Setting)
    ensures var r := RouteOf(reqs, s);
            && (r.plan != [] <==> r.status in {D.Normal, D.Degraded})
            && |r.plan| == |r.selected| && NoDuplicates(r.selected)
            && (forall k :: 0 <= k < |r.plan| ==> r.plan[k].step.resource == r.selected[k])
            && (r.plan != [] ==>
                  && (forall i :: 0 <= i < |reqs| && reqs[i].required ==>
                        Choice(reqs[i], s).Some? && Choice(reqs[i], s).value.resourceId in r.selected)
                  && (forall k: nat :: k < |r.plan| ==> HasFirstTaker(Outcomes(reqs, s), Walk(Outcomes(reqs, s)), k)))
  {
    hide Choice, LacksExecutor, LacksResource, Degrades, Walk, RankedPool, Removed;
    StatusMeaning(reqs, s);
    var os := Outcomes(reqs, s);
    var p := Walk(os);
    WalkSelected(os);
    WalkTakers(os);
    WalkFlags(os);
    forall k: nat | k < |p.steps| ensures p.steps[k].step.resource == p.selected[k] {
      assert HasFirstTaker(os, p, k);
    }
    if p.steps != [] {
      assert HasFirstTaker(os, p, 0);
    }
    forall i | 0 <= i < |reqs| && Choice(reqs[i], s).Some? ensures Choice(reqs[i], s).value.resourceId in p.selected {
      OutcomeMeaning(reqs[i], s);
      assert os[i].planned.value.step.resource in p.selected;
    }
    if p.degradations != [] {
      var i :| 0 <= i < |os| && Degraded(os[i]);
      assert os[i].planned.Some?;
    }
  }

  /** Every step of every plan uses a resource whose runtime is present and that the filter admitted
      for the requirement the step serves, guarded or not. */
  lemma PlanIsAvailable(reqs: seq<Requirement>, s: Setting, k: nat)
    requires k < |RouteOf(reqs, s).plan|
    ensures exists i, r ::
      && 0 <= i < |reqs| && r in s.registry.find(reqs[i].capability) && Verdict(r, reqs[i], s).None?
      && r.id == RouteOf(reqs, s).plan[k].step.resource && RuntimeAvailable(r.runtime)
  {
    hide Choice, Walk, RankedPool, Removed, Verdict, ToCandidate;
    var os := Outcomes(reqs, s);
    WalkTakers(os);
    assert HasFirstTaker(os, Walk(os), k);
    var i :| FirstTaken(os, Walk(os), k, i);
    OutcomeMeaning(reqs[i], s);
    var r := ChoiceIsAdmitted(reqs[i], s);
  }

  lemma ChoiceIsAdmitted(req: Requirement, s: Setting) returns (r: Resource)
    requires Choice(req, s).Some?
    ensures r in s.registry.find(req.capability) && Verdict(r, req, s).None? && r.id == Choice(req, s).value.resourceId
    ensures RuntimeAvailable(r.runtime)
    ensures var c := Choice(req, s).value; c.available && c == ToCandidate(r, s.registry.level(r, req.capability)).(rank := c.rank)
  {
    var c := Choice(req, s).value;
    ChoiceIsBestAvailable(req, s);
    var j :| EarliestLeast(Pool(req, s), j, By(req, s.economy), IsAvailable()) && c == Pool(req, s)[j].(rank := c.rank);
    CandidateOrigin(s.registry.find(req.capability), req, s, Pool(req, s)[j]);
    r :| r in s.registry.find(req.capability) && Verdict(r, req, s).None?
         && Pool(req, s)[j] == ToCandidate(r, s.registry.level(r, req.capability));
  }

  /** An admitted, available candidate of a requirement whose resources the chain guards. */
  lemma ChoiceIsExecutable(req: Requirement, s: Setting)
    requires Choice(req, s).Some?
    requires forall r :: r in s.registry.find(req.capability) ==> GatesReached(r.location, s.profile)
    ensures var c := Choice(req, s).value;
            c.available && Meets(c.level, Policy(req, s.profile)) && ExecutorCompatible(c.kind, c.resourceId, c.boundary)
  {
    var r := ChoiceIsAdmitted(req, s);
    GuardedAdmission(r, s.registry.level(r, req.capability), req, s.profile);
  }

  /** Where every looked-up resource is one the chain guards, the dispatcher finds an executor for
      every step of every plan, and the step is an available choice that meets its requirement's policy. */
  lemma PlanIsExecutable(reqs: seq<Requirement>, s: Setting, executors: seq<D.Executor>, k: nat)
    requires StandardExecutors(executors) && k < |RouteOf(reqs, s).plan|
    requires forall i, r :: 0 <= i < |reqs| && r in s.registry.find(reqs[i].capability) ==> GatesReached(r.location, s.profile)
    ensures var step := RouteOf(reqs, s).plan[k].step;
            && D.SelectExecutor(executors, step).Some?
            && exists i :: 0 <= i < |reqs| && Choice(reqs[i], s).Some? && Choice(reqs[i], s).value.resourceId == step.resource
                           && Choice(reqs[i], s).value.available && Meets(Choice(reqs[i], s).value.level, Policy(reqs[i], s.profile))
  {
    hide Choice, Policy, Meets, Walk, StandardExecutors, ExecutorCompatible, D.SelectExecutor, RankedPool, Removed;
    var os := Outcomes(reqs, s);
    WalkTakers(os);
    var p := Walk(os);
    assert HasFirstTaker(os, p, k);
    var i :| FirstTaken(os, p, k, i);
    OutcomeMeaning(reqs[i], s);
    ChoiceIsExecutable(reqs[i], s);
    GateMatchesDispatcher(executors, p.steps[k].step);
  }
}
