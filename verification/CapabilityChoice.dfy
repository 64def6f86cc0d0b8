/** What the capability router's choice means on the fields of the resources: the order of the
    candidates criterion by criterion, what each removal says, and what a plan may contain. Nothing
    here is stated through the sort key or the filter of the router. */
module CapabilityChoice {
  import opened Common
  import opened Ordering
  import opened Text
  import opened CapabilityRouter
  import D = Dispatcher

  // ---------------------------------------------------------------- the criteria

  /** VALIDATED before OBSERVED before DECLARED before FOUND_NOT_TESTED. */
  predicate BetterEvidence(a: Level, b: Level) {
    || (a.Validated? && !b.Validated?)
    || (a.Observed? && (b.Declared? || b.FoundNotTested?))
    || (a.Declared? && b.FoundNotTested?)
  }

  predicate PreferredKind(kind: string, req: Requirement) { req.preferredKind != "" && kind == req.preferredKind }

  predicate Specialized(kind: string) {
    kind == "detector" || kind == "parser" || kind == "tool" || kind == "embedding" || kind == "library" || kind == "mcp"
  }

  predicate RunsLocally(c: Candidate) { c.local && !c.cloudRequired }

  /** The large models cost most and answer best. */
  predicate Large(kind: string) { kind == "llm" || kind == "vlm" || kind == "api" }

  predicate Cheaper(a: string, b: string) { (a == "slm" && b != "slm") || (!Large(a) && Large(b)) }

  predicate SameCost(a: string, b: string) { (a == "slm" <==> b == "slm") && (Large(a) <==> Large(b)) }

  /** Under "maximum" a large model comes first, then the cheaper kind; otherwise only the cost matters. */
  predicate MoreEconomic(a: string, b: string, economy: string) {
    if economy == "maximum" then (Large(a) && !Large(b)) || (!Large(a) && !Large(b) && a == "slm" && b != "slm")
    else Cheaper(a, b)
  }

  /** Candidate `a` is ahead of `b` on the first criterion on which they differ. */
  ghost predicate Beats(a: Candidate, b: Candidate, req: Requirement, economy: string) {
    || BetterEvidence(a.level, b.level)
    || (a.level == b.level &&
          (|| (PreferredKind(a.kind, req) && !PreferredKind(b.kind, req))
           || ((PreferredKind(a.kind, req) <==> PreferredKind(b.kind, req)) &&
                 (|| (Specialized(a.kind) && !Specialized(b.kind))
                  || ((Specialized(a.kind) <==> Specialized(b.kind)) && BeatsOnPlace(a, b, economy))))))
  }

  ghost predicate BeatsOnPlace(a: Candidate, b: Candidate, economy: string) {
    || (RunsLocally(a) && !RunsLocally(b))
    || ((RunsLocally(a) <==> RunsLocally(b)) &&
          (|| (a.available && !b.available)
           || ((a.available <==> b.available) &&
                 (|| MoreEconomic(a.kind, b.kind, economy)
                  || (SameCost(a.kind, b.kind) && TextBefore(a.resourceId, b.resourceId))))))
  }

  /** The tiers a candidate carries are those of its kind. */
  predicate Tiered(c: Candidate) { c.costTier == CostTier(c.kind) && c.qualityTier == QualityTier(c.kind) }

  /** Small language models cost least and large ones most; only the large ones are of the upper quality. */
  lemma TiersRead(r: Resource, level: Level)
    ensures var c := ToCandidate(r, level);
            && (c.costTier == 1 <==> r.kind == "slm") && (c.costTier == 3 <==> Large(r.kind)) && 1 <= c.costTier <= 3
            && (c.qualityTier == 3 <==> Large(r.kind)) && 2 <= c.qualityTier <= 3
  {
    assert "slm"[0] == 's' && "llm"[0] == 'l' && "vlm"[0] == 'v' && "api"[0] == 'a';
  }

  // ---------------------------------------------------------------- the sort key is this order

  lemma EconomyOrder(a: Candidate, b: Candidate, economy: string)
    requires Tiered(a) && Tiered(b)
    ensures var x, y := EconomyKey(a, economy), EconomyKey(b, economy);
            && |x| == |y| == 2
            && ((x[0] < y[0] || (x[0] == y[0] && x[1] < y[1])) <==> MoreEconomic(a.kind, b.kind, economy))
            && (x == y <==> SameCost(a.kind, b.kind))
  {
    assert "slm"[0] == 's' && "llm"[0] == 'l' && "vlm"[0] == 'v' && "api"[0] == 'a';
  }

  lemma PlaceOrder(a: Candidate, b: Candidate, economy: string)
    requires Tiered(a) && Tiered(b)
    ensures Leq(PlaceKey(a, economy), PlaceKey(b, economy)) <==> !BeatsOnPlace(b, a, economy)
  {
    hide MoreEconomic, EconomyKey, TextBefore, Leq, Tiered;
    EconomyOrder(a, b, economy);
    EconomyOrder(b, a, economy);
    TextOrder(a.resourceId, b.resourceId);
    var x, y := EconomyKey(a, economy), EconomyKey(b, economy);
    var p, q := Codes(a.resourceId), Codes(b.resourceId);
    LeqStep(x[1], p, y[1], q);
    LeqStep(x[0], [x[1]] + p, y[0], [y[1]] + q);
    assert x + p == [x[0]] + ([x[1]] + p) && y + q == [y[0]] + ([y[1]] + q);
    LeqStep(if a.available then 0 else 1, x + p, if b.available then 0 else 1, y + q);
    LeqStep(if RunsLocally(a) then 0 else 1, [if a.available then 0 else 1] + (x + p),
            if RunsLocally(b) then 0 else 1, [if b.available then 0 else 1] + (y + q));
  }

  function PlaceKey(c: Candidate, economy: string): seq<int> {
    [if RunsLocally(c) then 0 else 1] + ([if c.available then 0 else 1] + (EconomyKey(c, economy) + Codes(c.resourceId)))
  }

  lemma KeyReads(c: Candidate, req: Requirement, economy: string)
    ensures RankKey(c, req, economy) ==
            [Preference(c.level)] + ([if req.deterministicPreferred then 0 else 1] + ([if PreferredKind(c.kind, req) then 0 else 1]
            + ([if Specialized(c.kind) then 0 else 1] + PlaceKey(c, economy))))
  {
    hide EconomyKey;
  }

  /** The sort key orders candidates exactly as the criteria do. */
  lemma KeyIsOrder(a: Candidate, b: Candidate, req: Requirement, economy: string)
    requires Tiered(a) && Tiered(b)
    ensures Leq(RankKey(a, req, economy), RankKey(b, req, economy)) <==> !Beats(b, a, req, economy)
  {
    hide RankKey, PlaceKey, BeatsOnPlace, Leq, Tiered, Specialized, PreferredKind;
    KeyReads(a, req, economy);
    KeyReads(b, req, economy);
    PlaceOrder(a, b, economy);
    PlaceOrder(b, a, economy);
    var p, q := PlaceKey(a, economy), PlaceKey(b, economy);
    var u, v := [if Specialized(a.kind) then 0 else 1] + p, [if Specialized(b.kind) then 0 else 1] + q;
    var w, z := [if PreferredKind(a.kind, req) then 0 else 1] + u, [if PreferredKind(b.kind, req) then 0 else 1] + v;
    var d := if req.deterministicPreferred then 0 else 1;
    LeqStep(if Specialized(a.kind) then 0 else 1, p, if Specialized(b.kind) then 0 else 1, q);
    LeqStep(if PreferredKind(a.kind, req) then 0 else 1, u, if PreferredKind(b.kind, req) then 0 else 1, v);
    LeqStep(d, w, d, z);
    LeqStep(Preference(a.level), [d] + w, Preference(b.level), [d] + z);
  }

  lemma CandidatesTiered(req: Requirement, s: Setting, c: Candidate)
    requires c in Pool(req, s)
    ensures Tiered(c)
  {
    CandidateOrigin(s.registry.find(req.capability), req, s, c);
  }

  /** No available candidate is ahead of the choice on the first criterion on which they differ. */
  lemma NothingBeatsChoice(req: Requirement, s: Setting, c: Candidate)
    requires c in Pool(req, s) && c.available
    ensures Choice(req, s).Some? && Choice(req, s).value.available
    ensures !Beats(c, Choice(req, s).value, req, s.economy)
  {
    hide Choice, RankKey, Beats, Pool, Tiered;
    ChoiceIsBestAvailable(req, s);
    var i :| EarliestLeast(Pool(req, s), i, By(req, s.economy), IsAvailable())
             && Choice(req, s).value == Pool(req, s)[i].(rank := Choice(req, s).value.rank);
    var best := Pool(req, s)[i];
    var j :| 0 <= j < |Pool(req, s)| && Pool(req, s)[j] == c;
    assert Leq(By(req, s.economy)(best), By(req, s.economy)(c));
    CandidatesTiered(req, s, best);
    CandidatesTiered(req, s, c);
    KeyIsOrder(best, c, req, s.economy);
    RankIsNoCriterion(c, best, Choice(req, s).value.rank, req, s.economy);
  }

  lemma RankIsNoCriterion(c: Candidate, best: Candidate, rank: nat, req: Requirement, economy: string)
    ensures Beats(c, best.(rank := rank), req, economy) == Beats(c, best, req, economy)
  {
  }

  /** In the whole ranking no candidate is ahead of one placed before it, and each carries its place. */
  lemma RankingIsOrder(req: Requirement, s: Setting, i: nat, j: nat)
    requires i < j < |RankedPool(req, s)|
    ensures !Beats(RankedPool(req, s)[j], RankedPool(req, s)[i], req, s.economy)
    ensures RankedPool(req, s)[i].rank == i && RankedPool(req, s)[j].rank == j
  {
    hide RankKey, Beats, Pool, Tiered;
    var sorted := SortBy(Pool(req, s), By(req, s.economy));
    SortBySorts(Pool(req, s), By(req, s.economy));
    var a, b := sorted[i], sorted[j];
    SortByMembers(Pool(req, s), By(req, s.economy), a);
    SortByMembers(Pool(req, s), By(req, s.economy), b);
    assert Leq(By(req, s.economy)(a), By(req, s.economy)(b));
    CandidatesTiered(req, s, a);
    CandidatesTiered(req, s, b);
    KeyIsOrder(a, b, req, s.economy);
    RanksAreNoCriterion(a, i, b, j, req, s.economy);
  }

  lemma RanksAreNoCriterion(a: Candidate, i: nat, b: Candidate, j: nat, req: Requirement, economy: string)
    ensures Beats(b.(rank := j), a.(rank := i), req, economy) == Beats(b, a, req, economy)
  {
  }

  // ---------------------------------------------------------------- removal

  /** What admits a resource that runs, or may run, in the cloud. */
  predicate CloudOpen(req: Requirement, profile: Option<Profile>) {
    req.cloudAllowed && match profile case None => true case Some(p) => !p.localOnly && p.cloudAllowed
  }

  /** Evidence that satisfies a policy, level by level; any other policy text demands nothing. */
  predicate Satisfies(level: Level, policy: string) {
    && (policy == "VALIDATED_REQUIRED" ==> level.Validated?)
    && (policy == "OBSERVED_OR_BETTER" ==> level.Validated? || level.Observed?)
  }

  lemma MeetsReads(level: Level, policy: string)
    ensures Meets(level, policy) <==> Satisfies(level, policy)
  {
  }

  /** No phrase that marks a runtime as absent stands in its description. */
  ghost predicate Present(runtime: string) {
    forall i ::
      && !StandsAt("unbound", Lower(runtime), i)
      && !StandsAt("not loaded", Lower(runtime), i)
      && !StandsAt("cache only", Lower(runtime), i)
  }

  lemma RuntimeReads(runtime: string)
    ensures RuntimeAvailable(runtime) <==> Present(runtime)
  {
    hide StandsAt, Contains, Lower;
    ContainsExactly("unbound", Lower(runtime));
    ContainsExactly("not loaded", Lower(runtime));
    ContainsExactly("cache only", Lower(runtime));
  }

  /** An executor contract that claims the resource. */
  ghost predicate Claimed(r: Resource) {
    || (r.kind == "tool" && exists i :: StandsAt("mrw-deterministic-router", r.id, i))
    || r.kind == "mcp" || (exists i :: StandsAt("mcp", Lower(r.id), i))
    || r.kind == "slm" || r.kind == "llm" || r.kind == "vlm"
    || r.boundary.OutOfProcess?
  }

  lemma CompatibleReads(r: Resource)
    ensures ExecutorCompatible(r.kind, r.id, r.boundary) <==> Claimed(r)
  {
    hide StandsAt, Contains, Lower;
    ContainsExactly("mrw-deterministic-router", r.id);
    ContainsExactly("mcp", Lower(r.id));
  }

  /** The constraint that is met alike by every key the profile names. */
  ghost predicate Hardware(r: Resource, profile: Option<Profile>) {
    profile.Some? ==> forall k :: k in profile.value.hardware ==> k in r.hardware && r.hardware[k] == profile.value.hardware[k]
  }

  ghost predicate KindListed(r: Resource, profile: Option<Profile>) {
    profile.None? || profile.value.allowedKinds.None? || r.kind in profile.value.allowedKinds.value
  }

  /** The text of the policy in force: the profile's where it replaces the requirement's. */
  ghost predicate PolicyIs(policy: string, req: Requirement, profile: Option<Profile>) {
    var replaced := profile.Some? && profile.value.minimumLevel != "" && req.minimumLevel != "VALIDATED_REQUIRED"
                    && (req.minimumLevel == "FOUND_NOT_TESTED_ALLOWED" || profile.value.minimumLevel == "VALIDATED_REQUIRED");
    policy == if replaced then profile.value.minimumLevel else req.minimumLevel
  }

  /** What each removal says of a resource, location by location, and what admission says. */
  lemma RemovalReads(r: Resource, level: Level, req: Requirement, profile: Option<Profile>, policy: string)
    requires PolicyIs(policy, req, profile)
    ensures var x := Excluded(r, level, req, profile);
            var anywhere := r.location.None? && (!(r.cloudRequired || !r.local) || CloudOpen(req, profile));
            var listed := anywhere && KindListed(r, profile);
            var checked := listed && (profile.None? || profile.value.hardware == map[]);
            var heard := checked && (req.modality == "" || req.modality in r.modalities);
            && (x == Some(GridForbidden) <==> r.location == Some(Grid) && (profile.None? || !profile.value.gridAllowed))
            && (x == Some(CloudForbidden) <==>
                  !CloudOpen(req, profile) && (r.location == Some(Cloud) || (r.location.None? && (r.cloudRequired || !r.local))))
            && (x == Some(KindForbidden) <==> anywhere && !KindListed(r, profile))
            && (x == Some(HardwareNotMet) <==> listed && !Hardware(r, profile))
            && (x == Some(ModalityIncompatible) <==> checked && !heard)
            && (x == Some(ValidationNotMet) <==> heard && !Satisfies(level, policy))
            && (x == Some(NoCompatibleExecutor) <==> heard && Satisfies(level, policy) && !Claimed(r))
  {
    hide Satisfies, Meets, Claimed, ExecutorCompatible;
    MeetsReads(level, policy);
    CompatibleReads(r);
    assert policy == Policy(req, profile);
  }

  // ---------------------------------------------------------------- plans

  /** Nothing in the resource's place is forbidden to the requirement. */
  ghost predicate PlaceOpen(r: Resource, req: Requirement, profile: Option<Profile>) {
    && (r.location == Some(Grid) ==> profile.Some? && profile.value.gridAllowed)
    && (r.location == Some(Cloud) || (r.location.None? && (r.cloudRequired || !r.local)) ==>
          && req.cloudAllowed
          && (profile.Some? ==> !profile.value.localOnly && profile.value.cloudAllowed))
    && (r.location.None? ==> KindListed(r, profile) && Hardware(r, profile))
  }

  lemma AdmissionOpens(r: Resource, level: Level, req: Requirement, profile: Option<Profile>)
    requires Excluded(r, level, req, profile).None?
    ensures PlaceOpen(r, req, profile)
  {
  }

  /** What a plan step says: the resource chosen for one requirement, that requirement's capability,
      the best known resource, and why the two differ where they do. */
  ghost predicate StepReads(x: Planned, req: Requirement, s: Setting, r: Resource) {
    && x.step.capability == req.capability && x.step.invocation.None?
    && r in s.registry.find(req.capability)
    && x.step.resource == r.id && x.step.kind == r.kind && x.step.boundary == r.boundary
    && PlaceOpen(r, req, s.profile)
    && Present(r.runtime)
    && RankedPool(req, s) != []
    && var best := RankedPool(req, s)[0];
       && x.bestKnown == best.resourceId
       && (x.degradation.None? <==> best.resourceId == r.id)
       && (x.degradation.Some? ==>
             x.degradation.value == if best.level.Validated? then "validated_candidate_unavailable" else "best_known_candidate_unavailable")
  }

  lemma OutcomeReads(req: Requirement, s: Setting)
    requires OutcomeOf(req, s).planned.Some?
    ensures exists r :: StepReads(OutcomeOf(req, s).planned.value, req, s, r)
  {
    hide Choice, RankedPool, Verdict, Present, LacksExecutor, LacksResource, RuntimeAvailable, CostTier, QualityTier, PlaceOpen;
    var r := ChoiceIsAdmitted(req, s);
    RuntimeReads(r.runtime);
    AdmittedIsOpen(r, req, s);
    assert StepReads(OutcomeOf(req, s).planned.value, req, s, r);
  }

  lemma AdmittedIsOpen(r: Resource, req: Requirement, s: Setting)
    requires Verdict(r, req, s).None?
    ensures PlaceOpen(r, req, s.profile)
  {
    AdmissionOpens(r, s.registry.level(r, req.capability), req, s.profile);
  }

  /** Every step of every plan runs a resource found for a requirement's capability, whose runtime
      is present and whose place the requirement and the profile allow: nothing in the cloud under a
      local-only profile, nothing on the grid without leave. */
  lemma PlanReads(reqs: seq<Requirement>, s: Setting, k: nat)
    requires k < |RouteOf(reqs, s).plan|
    ensures exists i, r :: 0 <= i < |reqs| && StepReads(RouteOf(reqs, s).plan[k], reqs[i], s, r)
  {
    hide OutcomeOf, Walk, StepReads;
    var os := Outcomes(reqs, s);
    WalkTakers(os);
    assert HasFirstTaker(os, Walk(os), k);
    var i :| FirstTaken(os, Walk(os), k, i);
    OutcomeReads(reqs[i], s);
    var r :| StepReads(OutcomeOf(reqs[i], s).planned.value, reqs[i], s, r);
    assert StepReads(RouteOf(reqs, s).plan[k], reqs[i], s, r);
  }

  predicate IsModel(kind: string) { kind == "llm" || kind == "slm" || kind == "vlm" || kind == "api" }

  /** The route says that it needs a language model exactly when a step of its plan is one. */
  lemma ModelNeedReads(reqs: seq<Requirement>, s: Setting)
    ensures RouteOf(reqs, s).llmRequired <==> exists x :: x in RouteOf(reqs, s).plan && IsModel(x.step.kind)
  {
    hide Walk, Outcomes;
    var p := Walk(Outcomes(reqs, s));
    assert forall x: Planned :: LlmStep(x) <==> IsModel(x.step.kind);
  }

  // ---------------------------------------------------------------- what else a route reports

  lemma {:induction false} WalkCollects(os: seq<Outcome>)
    ensures forall x :: x in Walk(os).exclusions <==> exists i :: 0 <= i < |os| && x in os[i].removed
    ensures forall d :: d in Walk(os).degradations <==> exists i :: 0 <= i < |os| && GivesReason(os[i], d)
  {
    if os != [] {
      var n := |os| - 1;
      WalkCollects(os[..n]);
      AdvanceCollects(Walk(os[..n]), os[n]);
      hide Advance, GivesReason;
      assert forall i :: 0 <= i < n ==> os[..n][i] == os[i];
    }
  }

  ghost predicate GivesReason(o: Outcome, d: string) { o.planned.Some? && o.planned.value.degradation == Some(d) }

  lemma AdvanceCollects(p: Progress, o: Outcome)
    ensures forall x :: x in Advance(p, o).exclusions <==> x in p.exclusions || x in o.removed
    ensures forall d :: d in Advance(p, o).degradations <==> d in p.degradations || GivesReason(o, d)
  {
  }

  lemma {:induction false} ExclusionsAre(rs: seq<Resource>, req: Requirement, s: Setting, x: Exclusion)
    ensures x in ExclusionsOf(rs, req, s) <==>
            exists r :: r in rs && Verdict(r, req, s) == Some(x.reason) && x.resourceId == r.id && x.capability == req.capability
  {
    if rs != [] {
      var n := |rs| - 1;
      ExclusionsAre(rs[..n], req, s, x);
      assert rs == rs[..n] + [rs[n]];
      hide Verdict;
    }
  }

  /** The route reports exactly the removed resources, each with its reason and the capability it was
      looked up for, whatever its status. */
  lemma ExclusionsRead(reqs: seq<Requirement>, s: Setting, x: Exclusion)
    ensures x in RouteOf(reqs, s).exclusions <==>
            exists i, r :: 0 <= i < |reqs| && r in s.registry.find(reqs[i].capability) && Verdict(r, reqs[i], s) == Some(x.reason)
                           && x.resourceId == r.id && x.capability == reqs[i].capability
  {
    var os := Outcomes(reqs, s);
    WalkCollects(os);
    forall i | 0 <= i < |reqs|
      ensures x in os[i].removed <==>
              exists r :: r in s.registry.find(reqs[i].capability) && Verdict(r, reqs[i], s) == Some(x.reason)
                          && x.resourceId == r.id && x.capability == reqs[i].capability
    {
      RemovedAre(reqs[i], s, x);
    }
    hide Walk, Outcomes, Verdict;
    assert RouteOf(reqs, s).exclusions == Walk(os).exclusions;
  }

  lemma RemovedAre(req: Requirement, s: Setting, x: Exclusion)
    ensures x in OutcomeOf(req, s).removed <==>
            exists r :: r in s.registry.find(req.capability) && Verdict(r, req, s) == Some(x.reason) && x.resourceId == r.id && x.capability == req.capability
  {
    ExclusionsAre(s.registry.find(req.capability), req, s, x);
    hide ExclusionsOf, Verdict;
  }

  /** The reasons for running with less than the best known resource, where there is a plan. */
  lemma DegradationsRead(reqs: seq<Requirement>, s: Setting, d: string)
    requires RouteOf(reqs, s).plan != []
    ensures d in RouteOf(reqs, s).degradations <==> exists i :: 0 <= i < |reqs| && SettlesFor(reqs[i], s, d)
  {
    hide OutcomeOf, Walk, SettlesFor;
    var os := Outcomes(reqs, s);
    WalkCollects(os);
    forall i | 0 <= i < |reqs| ensures GivesReason(os[i], d) <==> SettlesFor(reqs[i], s, d) { ReasonGiven(reqs[i], s, d); }
    hide GivesReason;
  }

  ghost predicate SettlesFor(req: Requirement, s: Setting, d: string) {
    && Choice(req, s).Some? && RankedPool(req, s) != []
    && var best := RankedPool(req, s)[0];
       && best.resourceId != Choice(req, s).value.resourceId
       && d == if best.level.Validated? then "validated_candidate_unavailable" else "best_known_candidate_unavailable"
  }

  lemma ReasonGiven(req: Requirement, s: Setting, d: string)
    ensures GivesReason(OutcomeOf(req, s), d) <==> SettlesFor(req, s, d)
  {
    hide Choice, RankedPool, Removed, LacksExecutor, LacksResource;
  }
}
