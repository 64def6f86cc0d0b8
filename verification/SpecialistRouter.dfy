/** The specialist router (MEIZEX_AIR specialist_router.py): it filters a registry of specialists
    with a list of reasons each, ranks the eligible ones and selects one, or falls back to a human. */
module SpecialistRouter {
  import opened Common
  import opened Ordering

  datatype Kind =
    | DeterministicPython | LocalLlm | CloudLlm | Harness | Mcp | Api | Cli | Filesystem | StructuredAutomation | Human

  datatype Mode = Local | Hybrid | Cloud

  datatype CloudPolicy = Yes | No | Conditional

  datatype Rejection =
    | MissingCapability | ToolingUnsupported | NetworkForbidden | DataPolicyForbidden | ResourceMismatch | ProfileMismatch
    | HumanApprovalRequired | Unavailable | ProbabilisticReasoningRequired | KindForbidden

  datatype Requirements = Requirements(
    probabilistic: bool, capabilities: seq<string>, requiresNetwork: bool, cloudPolicy: CloudPolicy, dataClass: string,
    modes: Option<seq<Mode>>, minimumContext: Option<nat>, freshness: bool, structuredOutput: bool, toolCalling: bool,
    fileRead: bool, fileWrite: bool, humanApproval: bool, preferred: seq<Kind>, forbidden: seq<Kind>)

  datatype Specialist = Specialist(
    id: string, kind: Kind, capabilities: seq<string>, profileRef: Option<string>, available: bool, scope: Mode,
    dataClasses: seq<string>, tools: bool, structuredOutput: bool, freshness: bool,
    costRank: nat, latencyRank: nat, priority: int)

  datatype Profile = Profile(hasGpu: Option<bool>, gpuLayers: int, capacity: Option<int>)

  /** What a routing call is given beside the registry. */
  datatype Query = Query(req: Requirements, target: Option<string>, profiles: map<string, Profile>, allowHitl: bool)

  datatype HardwareFit = Pass | Unknown | Fail

  function HardwarePreflight(p: Profile): (fit: HardwareFit)
    ensures !fit.Fail? && (fit == Unknown <==> p.hasGpu == None)
  {
    if p.hasGpu.None? then Unknown else Pass
  }

  predicate ContextFits(capacity: Option<int>, required: nat) { capacity.Some? && required <= capacity.value }

  // ---------------------------------------------------------------- eligibility

  function Resolved(q: Query, s: Specialist): Option<Profile> {
    if s.profileRef.Some? && s.profileRef.value != "" && s.profileRef.value in q.profiles
    then Some(q.profiles[s.profileRef.value]) else None
  }

  /** What each reason means. */
  predicate Cause(reason: Rejection, q: Query, s: Specialist) {
    var req, human := q.req, s.kind.Human?;
    match reason
    case KindForbidden => s.kind in req.forbidden
    case HumanApprovalRequired => req.humanApproval && !human
    case ProbabilisticReasoningRequired => req.probabilistic && s.kind.DeterministicPython?
    case MissingCapability =>
      !human && ((exists c :: c in req.capabilities && c !in s.capabilities) || (req.structuredOutput && !s.structuredOutput)
                 || (req.freshness && !s.freshness) || ((req.fileRead || req.fileWrite) && "FILE_MUTATION" !in s.capabilities))
    case ToolingUnsupported => !human && req.toolCalling && !s.tools
    case NetworkForbidden =>
      (req.cloudPolicy.No? && !s.scope.Local?) || (req.requiresNetwork && s.scope.Local? && "NETWORK_ACCESS" !in s.capabilities)
    case DataPolicyForbidden => req.dataClass !in s.dataClasses
    case ProfileMismatch =>
      (req.modes.Some? && s.scope !in req.modes.value) || (q.target.Some? && s.profileRef != q.target)
    case ResourceMismatch =>
      && req.minimumContext.Some?
      && s.profileRef.Some? && s.profileRef.value != "" && s.profileRef.value in q.profiles
      && var capacity := q.profiles[s.profileRef.value].capacity;
         capacity.None? || capacity.value < req.minimumContext.value
    case Unavailable => !s.available
  }

  ghost predicate Eligible(q: Query, s: Specialist) { forall r :: !Cause(r, q, s) }

  function FirstSeen<T(==)>(xs: seq<T>): seq<T> {
    if xs == [] then []
    else
      var init := FirstSeen(xs[..|xs| - 1]);
      if xs[|xs| - 1] in init then init else init + [xs[|xs| - 1]]
  }

  lemma {:induction false} FirstSeenMembers<T>(xs: seq<T>)
    ensures (forall x :: x in FirstSeen(xs) <==> x in xs) && NoDuplicates(FirstSeen(xs))
  {
    if xs != [] {
      FirstSeenMembers(xs[..|xs| - 1]);
      assert xs == xs[..|xs| - 1] + [xs[|xs| - 1]];
    }
  }

  function When(c: bool, r: Rejection): seq<Rejection> { if c then [r] else [] }

  function TechnicalReasons(req: Requirements, s: Specialist): seq<Rejection> {
    if s.kind.Human? then []
    else
      When(exists c :: c in req.capabilities && c !in s.capabilities, MissingCapability)
      + When(req.toolCalling && !s.tools, ToolingUnsupported)
      + When(req.structuredOutput && !s.structuredOutput, MissingCapability)
      + When(req.freshness && !s.freshness, MissingCapability)
      + When((req.fileRead || req.fileWrite) && "FILE_MUTATION" !in s.capabilities, MissingCapability)
  }

  function KindReasons(req: Requirements, s: Specialist): seq<Rejection> {
    When(s.kind in req.forbidden, KindForbidden)
    + When(req.humanApproval && !s.kind.Human?, HumanApprovalRequired)
    + When(req.probabilistic && s.kind.DeterministicPython?, ProbabilisticReasoningRequired)
  }

  function PolicyReasons(q: Query, s: Specialist): seq<Rejection> {
    var req := q.req;
    When(req.cloudPolicy.No? && s.scope in {Hybrid, Cloud}, NetworkForbidden)
    + When(req.requiresNetwork && s.scope.Local? && "NETWORK_ACCESS" !in s.capabilities, NetworkForbidden)
    + When(req.dataClass !in s.dataClasses, DataPolicyForbidden)
    + When(req.modes.Some? && s.scope !in req.modes.value, ProfileMismatch)
    + When(q.target.Some? && s.profileRef != q.target, ProfileMismatch)
  }

  function ProfileReasons(q: Query, s: Specialist): seq<Rejection> {
    var p := Resolved(q, s);
    if p.None? then []
    else
      When(HardwarePreflight(p.value).Fail?, ResourceMismatch)
      + When(q.req.minimumContext.Some? && !ContextFits(p.value.capacity, q.req.minimumContext.value), ResourceMismatch)
  }

  /** The reasons in the order their checks are made, a reason possibly more than once. */
  function RawReasons(q: Query, s: Specialist): seq<Rejection> {
    KindReasons(q.req, s) + TechnicalReasons(q.req, s) + PolicyReasons(q, s) + ProfileReasons(q, s) + When(!s.available, Unavailable)
  }

  function Reasons(q: Query, s: Specialist): seq<Rejection> { FirstSeen(RawReasons(q, s)) }

  /** `_eligibility_reasons`: the checks, then the pass that keeps each reason's first occurrence. */
  method EligibilityReasons(q: Query, s: Specialist) returns (ordered: seq<Rejection>)
    ensures ordered == Reasons(q, s)
  {
    hide RawReasons;
    var reasons := RawReasons(q, s);
    var seen: set<Rejection> := {};
    ordered := [];
    for i := 0 to |reasons|
      invariant ordered == FirstSeen(reasons[..i])
      invariant forall r :: r in seen <==> r in ordered
    {
      assert reasons[..i + 1][..i] == reasons[..i];
      if reasons[i] !in seen {
        seen := seen + {reasons[i]};
        ordered := ordered + [reasons[i]];
      }
    }
    assert reasons[..|reasons|] == reasons;
  }

  lemma TechnicalExact(q: Query, s: Specialist, r: Rejection)
    ensures r in TechnicalReasons(q.req, s) <==> (r.MissingCapability? || r.ToolingUnsupported?) && Cause(r, q, s)
  {
  }

  lemma KindExact(q: Query, s: Specialist, r: Rejection)
    ensures r in KindReasons(q.req, s) <==>
            (r.KindForbidden? || r.HumanApprovalRequired? || r.ProbabilisticReasoningRequired?) && Cause(r, q, s)
  {
  }

  lemma PolicyExact(q: Query, s: Specialist, r: Rejection)
    ensures r in PolicyReasons(q, s) <==> (r.NetworkForbidden? || r.DataPolicyForbidden? || r.ProfileMismatch?) && Cause(r, q, s)
  {
    assert s.scope in {Hybrid, Cloud} <==> !s.scope.Local?;
  }

  lemma ProfileExact(q: Query, s: Specialist, r: Rejection)
    ensures r in ProfileReasons(q, s) <==> r.ResourceMismatch? && Cause(r, q, s)
  {
  }

  lemma RawExact(q: Query, s: Specialist, r: Rejection)
    ensures r in RawReasons(q, s) <==> Cause(r, q, s)
  {
    KindExact(q, s, r);
    TechnicalExact(q, s, r);
    PolicyExact(q, s, r);
    ProfileExact(q, s, r);
    hide KindReasons, TechnicalReasons, PolicyReasons, ProfileReasons;
  }

  /** Each reason is listed, once, exactly when its cause holds: an empty list is eligibility. */
  lemma ReasonsExact(q: Query, s: Specialist)
    ensures forall r :: r in Reasons(q, s) <==> Cause(r, q, s)
    ensures NoDuplicates(Reasons(q, s))
    ensures Reasons(q, s) == [] <==> Eligible(q, s)
  {
    FirstSeenMembers(RawReasons(q, s));
    hide RawReasons, Cause, FirstSeen;
    forall r ensures r in RawReasons(q, s) <==> Cause(r, q, s) { RawExact(q, s, r); }
    if Reasons(q, s) != [] {
      assert Reasons(q, s)[0] in Reasons(q, s);
    }
  }

  // ---------------------------------------------------------------- ranking

  /** Every criterion but the id. */
  function Criteria(req: Requirements, s: Specialist): (c: seq<int>)
    ensures |c| == 5
  {
    [ if !req.probabilistic && !s.kind.DeterministicPython? then 1 else 0,
      if s.kind in req.preferred then 0 else 1,
      s.priority, s.costRank, s.latencyRank ]
  }

  function By(req: Requirements): Specialist -> seq<int> { (s: Specialist) => Criteria(req, s) + Codes(s.id) }

  function ById(): Specialist -> seq<int> { (s: Specialist) => Codes(s.id) }

  ghost predicate DistinctIds(xs: seq<Specialist>) { forall i, j :: 0 <= i < j < |xs| ==> xs[i].id != xs[j].id }

  lemma DistinctKeys(req: Requirements, xs: seq<Specialist>)
    requires DistinctIds(xs)
    ensures KeyInjective(multiset(xs), By(req)) && KeyInjective(multiset(xs), ById())
  {
    forall a, b | a in multiset(xs) && b in multiset(xs) && (By(req)(a) == By(req)(b) || ById()(a) == ById()(b)) ensures a == b {
      if By(req)(a) == By(req)(b) {
        assert (Criteria(req, a) + Codes(a.id))[5..] == Codes(a.id);
        assert (Criteria(req, b) + Codes(b.id))[5..] == Codes(b.id);
      }
      CodesInjective(a.id, b.id);
      assert a in xs && b in xs;
    }
  }

  // ---------------------------------------------------------------- routing

  datatype Outcome = Selected | NoEligibleSpecialist | HumanRequired

  datatype Confidence = Deterministic | Ranked | Ambiguous | Abstained

  datatype Decision = Decision(
    outcome: Outcome, selectedId: Option<string>, selectedKind: Option<Kind>, selectedProfile: Option<string>,
    eligible: seq<string>, ineligible: seq<string>, rejections: map<string, seq<Rejection>>, strength: Confidence,
    registryFingerprint: seq<string>)

  function Passes(q: Query): Specialist -> bool { (s: Specialist) => Reasons(q, s) == [] }

  function Fails(q: Query): Specialist -> bool { (s: Specialist) => Reasons(q, s) != [] }

  function IsHuman(): Specialist -> bool { (s: Specialist) => s.kind.Human? }

  function IdOf(): Specialist -> string { (s: Specialist) => s.id }

  function Rejections(q: Query, xs: seq<Specialist>): map<string, seq<Rejection>> {
    if xs == [] then map[]
    else
      var s, init := xs[|xs| - 1], Rejections(q, xs[..|xs| - 1]);
      if Reasons(q, s) == [] then init else init[s.id := Reasons(q, s)]
  }

  function Strength(req: Requirements, ranked: seq<Specialist>): Confidence {
    if ranked == [] then Abstained
    else if |ranked| == 1 then Deterministic
    else if Criteria(req, ranked[0]) == Criteria(req, ranked[1]) then Ambiguous
    else Ranked
  }

  function Decide(q: Query, xs: seq<Specialist>, fingerprint: Specialist -> string): Decision {
    var ranked := SortBy(Filter(xs, Passes(q)), By(q.req));
    var prints := SortStrings(Map(xs, fingerprint));
    var bad, why := SortStrings(Map(Filter(xs, Fails(q)), IdOf())), Rejections(q, xs);
    if ranked != [] then
      Decision(Selected, Some(ranked[0].id), Some(ranked[0].kind), ranked[0].profileRef,
               SortStrings(Map(Filter(xs, Passes(q)), IdOf())), bad, why, Strength(q.req, ranked), prints)
    else
      var humans := SortBy(Filter(xs, IsHuman()), ById());
      if !q.allowHitl then Decision(NoEligibleSpecialist, None, None, None, [], bad, why, Abstained, prints)
      else if humans == [] then Decision(HumanRequired, None, None, None, [], bad, why, Abstained, prints)
      else Decision(HumanRequired, Some(humans[0].id), Some(Human), None, [], bad, why, Abstained, prints)
  }

  lemma IdsStep(xs: seq<Specialist>, s: Specialist)
    ensures Map(xs + [s], IdOf()) == Map(xs, IdOf()) + [s.id]
  {
  }

  /** The screening loop: eligible and human specialists, and why the others are not eligible. */
  method Screen(q: Query, specialists: seq<Specialist>)
    returns (eligible: seq<Specialist>, humans: seq<Specialist>, ineligible: seq<string>, rejections: map<string, seq<Rejection>>)
    ensures eligible == Filter(specialists, Passes(q)) && humans == Filter(specialists, IsHuman())
    ensures ineligible == Map(Filter(specialists, Fails(q)), IdOf()) && rejections == Rejections(q, specialists)
  {
    hide Reasons, Filter, Map;
    eligible, humans, ineligible, rejections := [], [], [], map[];
    assert Filter(specialists[..0], Passes(q)) == [] && Filter(specialists[..0], Fails(q)) == [] && Filter(specialists[..0], IsHuman()) == [] by {
      FilterMembers(specialists[..0], Passes(q));
      FilterMembers(specialists[..0], Fails(q));
      FilterMembers(specialists[..0], IsHuman());
    }
    for i := 0 to |specialists|
      invariant eligible == Filter(specialists[..i], Passes(q)) && humans == Filter(specialists[..i], IsHuman())
      invariant ineligible == Map(Filter(specialists[..i], Fails(q)), IdOf())
      invariant rejections == Rejections(q, specialists[..i])
    {
      assert specialists[..i + 1][..i] == specialists[..i];
      FilterStep(specialists, i, Passes(q));
      FilterStep(specialists, i, Fails(q));
      FilterStep(specialists, i, IsHuman());
      var s := specialists[i];
      IdsStep(Filter(specialists[..i], Fails(q)), s);
      if s.kind.Human? {
        humans := humans + [s];
      }
      var reasons := EligibilityReasons(q, s);
      if reasons != [] {
        ineligible := ineligible + [s.id];
        rejections := rejections[s.id := reasons];
      } else {
        eligible := eligible + [s];
      }
    }
    assert specialists[..|specialists|] == specialists;
  }

  /** `route_specialist`. */
  method RouteSpecialist(q: Query, specialists: seq<Specialist>, fingerprint: Specialist -> string) returns (d: Decision)
    ensures d == Decide(q, specialists, fingerprint)
  {
    hide Reasons, Filter, Map, SortBy, Criteria;
    var eligible, humans, ineligible, rejections := Screen(q, specialists);
    var prints := SortStrings(Map(specialists, fingerprint));
    if eligible != [] {
      var ranked := SortBy(eligible, By(q.req));
      SortByPermutes(eligible, By(q.req));
      var strength := Deterministic;
      if |eligible| != 1 {
        strength := if Criteria(q.req, ranked[0]) == Criteria(q.req, ranked[1]) then Ambiguous else Ranked;
      }
      return Decision(Selected, Some(ranked[0].id), Some(ranked[0].kind), ranked[0].profileRef, SortStrings(Map(eligible, IdOf())),
                      SortStrings(ineligible), rejections, strength, prints);
    }
    SortByPermutes(eligible, By(q.req));
    var outcome := if q.allowHitl then HumanRequired else NoEligibleSpecialist;
    var sorted := SortBy(humans, ById());
    var human: Option<Specialist> := if outcome.HumanRequired? && sorted != [] then Some(sorted[0]) else None;
    d := Decision(outcome, if human.Some? then Some(human.value.id) else None, if human.Some? then Some(Human) else None, None,
                  [], SortStrings(ineligible), rejections, Abstained, prints);
  }

  // ---------------------------------------------------------------- what the selection depends on

  lemma EligibleMembers(q: Query, xs: seq<Specialist>)
    ensures forall s :: s in Filter(xs, Passes(q)) <==> s in xs && Eligible(q, s)
  {
    hide Eligible, Reasons;
    FilterMembers(xs, Passes(q));
    forall s ensures Passes(q)(s) <==> Eligible(q, s) { ReasonsExact(q, s); }
  }

  /** The eligible specialist that is least under the ranking. */
  ghost predicate Wins(q: Query, xs: seq<Specialist>, w: Specialist) {
    && w in xs && Eligible(q, w)
    && forall s :: s in xs && Eligible(q, s) ==> Leq(By(q.req)(w), By(q.req)(s))
  }

  ghost predicate Selects(d: Decision, w: Specialist) {
    d.outcome.Selected? && d.selectedId == Some(w.id) && d.selectedKind == Some(w.kind) && d.selectedProfile == w.profileRef
  }

  lemma FirstRankedWins(q: Query, xs: seq<Specialist>)
    ensures var ranked := SortBy(Filter(xs, Passes(q)), By(q.req));
            && (ranked == [] <==> forall s :: s in xs ==> !Eligible(q, s))
            && (ranked != [] ==> Wins(q, xs, ranked[0]))
  {
    hide Eligible;
    var e := Filter(xs, Passes(q));
    var ranked := SortBy(e, By(q.req));
    EligibleMembers(q, xs);
    SortByPermutes(e, By(q.req));
    SortBySorts(e, By(q.req));
    if ranked != [] {
      SortByMembers(e, By(q.req), ranked[0]);
      forall s | s in e ensures Leq(By(q.req)(ranked[0]), By(q.req)(s)) {
        SortByMembers(e, By(q.req), s);
        assert s in multiset(ranked);
        SortedHeadLeast(ranked, s, By(q.req));
      }
    } else {
      assert e == [];
    }
  }

  /** A specialist is selected exactly when it wins, and there is a selection exactly when some
      specialist is eligible. */
  lemma SelectionIsWinner(q: Query, xs: seq<Specialist>, fingerprint: Specialist -> string)
    requires DistinctIds(xs)
    ensures forall w :: w in xs ==> (Selects(Decide(q, xs, fingerprint), w) <==> Wins(q, xs, w))
    ensures Decide(q, xs, fingerprint).outcome.Selected? <==> exists s :: s in xs && Eligible(q, s)
    ensures Decide(q, xs, fingerprint).outcome.Selected? ==> exists w :: Wins(q, xs, w) && Selects(Decide(q, xs, fingerprint), w)
  {
    hide Eligible, Rejections, Filter, SortBy, By, Strength, Map;
    FirstRankedWins(q, xs);
    DistinctKeys(q.req, xs);
    var ranked := SortBy(Filter(xs, Passes(q)), By(q.req));
    var d := Decide(q, xs, fingerprint);
    if ranked != [] {
      assert Selects(d, ranked[0]);
      forall w | w in xs ensures Selects(d, w) <==> Wins(q, xs, w) {
        if Wins(q, xs, w) {
          LeqAntisymmetric(By(q.req)(w), By(q.req)(ranked[0]));
          assert w in multiset(xs) && ranked[0] in multiset(xs);
        }
        if Selects(d, w) {
          assert w.id == ranked[0].id;
        }
      }
    }
  }

  /** The selection depends on the winner alone: it survives removing any other specialist, adding
      any ineligible one, and any reordering. */
  lemma {:induction false} SelectionSurvives(q: Query, xs: seq<Specialist>, ys: seq<Specialist>, w: Specialist, fingerprint: Specialist -> string)
    requires DistinctIds(xs) && DistinctIds(ys)
    requires Wins(q, xs, w)
    requires w in ys && forall s :: s in ys ==> s in xs || !Eligible(q, s)
    ensures Selects(Decide(q, xs, fingerprint), w) && Selects(Decide(q, ys, fingerprint), w)
  {
    hide Decide, Eligible;
    SelectionIsWinner(q, xs, fingerprint);
    SelectionIsWinner(q, ys, fingerprint);
    assert Wins(q, ys, w);
  }

  lemma {:induction false} RejectionsExact(q: Query, xs: seq<Specialist>)
    requires DistinctIds(xs)
    ensures forall s :: s in xs && Reasons(q, s) != [] ==> s.id in Rejections(q, xs) && Rejections(q, xs)[s.id] == Reasons(q, s)
    ensures forall id :: id in Rejections(q, xs) ==> exists s :: s in xs && s.id == id && Reasons(q, s) != []
  {
    hide Reasons;
    if xs != [] {
      var init, last := xs[..|xs| - 1], xs[|xs| - 1];
      assert xs == init + [last];
      RejectionsExact(q, init);
    }
  }

  lemma RejectionsOrderFree(q: Query, xs: seq<Specialist>, ys: seq<Specialist>)
    requires multiset(xs) == multiset(ys) && DistinctIds(xs) && DistinctIds(ys)
    ensures Rejections(q, xs) == Rejections(q, ys)
  {
    hide Reasons, Rejections, DistinctIds;
    RejectionsWithin(q, xs, ys);
    RejectionsWithin(q, ys, xs);
  }

  lemma RejectionsWithin(q: Query, xs: seq<Specialist>, ys: seq<Specialist>)
    requires multiset(xs) == multiset(ys) && DistinctIds(xs) && DistinctIds(ys)
    ensures forall id :: id in Rejections(q, xs) ==> id in Rejections(q, ys) && Rejections(q, xs)[id] == Rejections(q, ys)[id]
  {
    RejectionsExact(q, xs);
    RejectionsExact(q, ys);
    hide Reasons, Rejections, DistinctIds;
    forall id | id in Rejections(q, xs)
      ensures id in Rejections(q, ys) && Rejections(q, xs)[id] == Rejections(q, ys)[id]
    {
      var s :| s in xs && s.id == id && Reasons(q, s) != [];
      assert s in multiset(xs) && s in multiset(ys) && s in ys;
    }
  }

  lemma DistinctIdsPermuted(xs: seq<Specialist>, ys: seq<Specialist>)
    requires multiset(xs) == multiset(ys) && DistinctIds(xs)
    ensures DistinctIds(ys)
  {
    MapPermutes(xs, ys, IdOf());
    var a, b := Map(xs, IdOf()), Map(ys, IdOf());
    forall x | x in b ensures multiset(b)[x] == 1 {
      assert x in multiset(b) && x in multiset(a) && x in a;
      CountOnce(a, x);
    }
    NoDuplicatesByCount(b);
    forall i, j | 0 <= i < j < |ys| ensures ys[i].id != ys[j].id {
      assert b[i] != b[j];
    }
  }

  /** The whole decision, its reasons, lists and confidence included, ignores registry order. */
  lemma DecisionOrderFree(q: Query, xs: seq<Specialist>, ys: seq<Specialist>, fingerprint: Specialist -> string)
    requires multiset(xs) == multiset(ys) && DistinctIds(xs)
    ensures Decide(q, xs, fingerprint) == Decide(q, ys, fingerprint)
  {
    hide Reasons, Rejections, Filter, SortBy, Map, DistinctIds;
    DistinctIdsPermuted(xs, ys);
    RejectionsOrderFree(q, xs, ys);
    FilterPermutes(xs, ys, Passes(q));
    FilterPermutes(xs, ys, Fails(q));
    FilterPermutes(xs, ys, IsHuman());
    MapPermutes(xs, ys, fingerprint);
    SortStringsOrderFree(Map(xs, fingerprint), Map(ys, fingerprint));
    MapPermutes(Filter(xs, Fails(q)), Filter(ys, Fails(q)), IdOf());
    SortStringsOrderFree(Map(Filter(xs, Fails(q)), IdOf()), Map(Filter(ys, Fails(q)), IdOf()));
    MapPermutes(Filter(xs, Passes(q)), Filter(ys, Passes(q)), IdOf());
    SortStringsOrderFree(Map(Filter(xs, Passes(q)), IdOf()), Map(Filter(ys, Passes(q)), IdOf()));
    FilteredKeys(q, xs, Passes(q));
    FilteredKeys(q, xs, IsHuman());
    SortByOrderFree(Filter(xs, Passes(q)), Filter(ys, Passes(q)), By(q.req));
    SortByOrderFree(Filter(xs, IsHuman()), Filter(ys, IsHuman()), ById());
  }

  lemma FilteredKeys(q: Query, xs: seq<Specialist>, p: Specialist -> bool)
    requires DistinctIds(xs)
    ensures KeyInjective(multiset(Filter(xs, p)), By(q.req)) && KeyInjective(multiset(Filter(xs, p)), ById())
  {
    hide By, ById;
    DistinctKeys(q.req, xs);
    FilterMembers(xs, p);
    assert multiset(Filter(xs, p)) <= multiset(xs);
  }

  // ---------------------------------------------------------------- confidence

  /** A comparison of equally long prefixes decides before the rest is looked at. */
  lemma {:induction false} PrefixDecides(a: seq<int>, b: seq<int>, x: seq<int>, y: seq<int>)
    requires |a| == |b| && Leq(a + x, b + y)
    ensures Leq(a, b)
  {
    if a != [] {
      assert (a + x)[1..] == a[1..] + x && (b + y)[1..] == b[1..] + y;
      if a[0] == b[0] { PrefixDecides(a[1..], b[1..], x, y); }
    }
  }

  lemma SecondRanked(q: Query, xs: seq<Specialist>, e: Specialist)
    requires DistinctIds(xs) && e in xs && Eligible(q, e)
    ensures var ranked := SortBy(Filter(xs, Passes(q)), By(q.req));
            ranked != [] && (e != ranked[0] ==> |ranked| >= 2 && Leq(By(q.req)(ranked[1]), By(q.req)(e)))
  {
    hide Eligible, Reasons, By;
    var es := Filter(xs, Passes(q));
    var ranked := SortBy(es, By(q.req));
    EligibleMembers(q, xs);
    SortByMembers(es, By(q.req), e);
    SortBySorts(es, By(q.req));
    var k :| 0 <= k < |ranked| && ranked[k] == e;
    LeqTotal(By(q.req)(e), By(q.req)(e));
  }

  lemma RankedDistinct(q: Query, xs: seq<Specialist>)
    requires DistinctIds(xs)
    ensures var ranked := SortBy(Filter(xs, Passes(q)), By(q.req));
            |ranked| >= 2 ==> ranked[1] != ranked[0] && ranked[1] in xs && Eligible(q, ranked[1])
  {
    hide Eligible, Reasons, By, SortBy, Filter;
    var es := Filter(xs, Passes(q));
    var ranked := SortBy(es, By(q.req));
    if |ranked| >= 2 {
      EligibleMembers(q, xs);
      SortByMembers(es, By(q.req), ranked[1]);
      SortByPermutes(es, By(q.req));
      FilterMembers(xs, Passes(q));
      assert forall i, j :: 0 <= i < j < |xs| ==> xs[i].id != xs[j].id;
      CountOnce(xs, ranked[1]);
      TwiceCounted(ranked, ranked[1]);
    }
  }

  lemma TwiceCounted(xs: seq<Specialist>, x: Specialist)
    requires |xs| >= 2 && xs[1] == x
    ensures xs[0] == x ==> multiset(xs)[x] >= 2
  {
    assert xs == [xs[0]] + [xs[1]] + xs[2..];
  }

  /** DETERMINISTIC is a single eligible specialist; AMBIGUOUS is another eligible specialist that
      ties with the selected one on every criterion except the id; RANKED is the rest. */
  lemma ConfidenceMeaning(q: Query, xs: seq<Specialist>, w: Specialist, fingerprint: Specialist -> string)
    requires DistinctIds(xs) && Wins(q, xs, w)
    ensures var d := Decide(q, xs, fingerprint);
            && (d.strength.Ambiguous? <==> exists e :: e in xs && Eligible(q, e) && e != w && Criteria(q.req, e) == Criteria(q.req, w))
            && (d.strength.Deterministic? <==> forall e :: e in xs && Eligible(q, e) ==> e == w)
            && !d.strength.Abstained?
  {
    hide Eligible, Reasons, Criteria, Filter, SortBy, Rejections, Map, DistinctIds;
    var ranked := SortBy(Filter(xs, Passes(q)), By(q.req));
    FirstRankedWins(q, xs);
    DistinctKeys(q.req, xs);
    LeqAntisymmetric(By(q.req)(w), By(q.req)(ranked[0]));
    assert w in multiset(xs) && ranked[0] in multiset(xs);
    assert ranked[0] == w;
    RankedDistinct(q, xs);
    forall e | e in xs && Eligible(q, e) && e != w
      ensures |ranked| >= 2
      ensures Criteria(q.req, e) == Criteria(q.req, w) ==> Criteria(q.req, ranked[1]) == Criteria(q.req, w)
    {
      SecondRanked(q, xs, e);
      if Criteria(q.req, e) == Criteria(q.req, w) {
        PrefixDecides(Criteria(q.req, w), Criteria(q.req, ranked[1]), Codes(w.id), Codes(ranked[1].id));
        PrefixDecides(Criteria(q.req, ranked[1]), Criteria(q.req, e), Codes(ranked[1].id), Codes(e.id));
        LeqAntisymmetric(Criteria(q.req, w), Criteria(q.req, ranked[1]));
      }
    }
  }

  // ---------------------------------------------------------------- the fallback

  /** The human with the least id, rejected by the filter. */
  ghost predicate FallbackHuman(q: Query, xs: seq<Specialist>, h: Specialist) {
    && h in xs && h.kind.Human? && Reasons(q, h) != []
    && forall g :: g in xs && g.kind.Human? ==> Leq(Codes(h.id), Codes(g.id))
  }

  /** Without an eligible specialist the outcome is fixed by policy alone. A human named by the
      fallback is the one with the least id, and is always one the filter rejected. */
  lemma FallbackMeaning(q: Query, xs: seq<Specialist>, fingerprint: Specialist -> string)
    requires forall s :: s in xs ==> !Eligible(q, s)
    ensures var d := Decide(q, xs, fingerprint);
            && d.outcome == (if q.allowHitl then HumanRequired else NoEligibleSpecialist) && d.strength.Abstained?
            && (d.selectedId.Some? <==> q.allowHitl && exists h :: h in xs && h.kind.Human?)
            && (d.selectedId.Some? ==> exists h :: FallbackHuman(q, xs, h) && d.selectedId == Some(h.id))
  {
    hide Reasons, Rejections, Filter, Map, SortBy;
    FirstRankedWins(q, xs);
    var humans := Filter(xs, IsHuman());
    var sorted := SortBy(humans, ById());
    FilterMembers(xs, IsHuman());
    SortByPermutes(humans, ById());
    SortBySorts(humans, ById());
    if sorted != [] {
      var h := sorted[0];
      SortByMembers(humans, ById(), h);
      ReasonsExact(q, h);
      forall g | g in xs && g.kind.Human? ensures Leq(Codes(h.id), Codes(g.id)) {
        SortByMembers(humans, ById(), g);
        assert g in multiset(sorted);
        SortedHeadLeast(sorted, g, ById());
      }
    } else {
      assert humans == [];
    }
  }
}
