/** What a compiled context guarantees: exact accounting under the budget, priority between
    tiers, admissibility of dependency content, and independence of every input order. */
module ContextProperties {
  import opened Common
  import opened Ordering
  import opened ContextCompiler

  function ContextTexts(c: Context, kind: Kind): seq<string> {
    match kind
    case Fact => c.facts
    case Question => c.questions
    case Evidence => c.evidence
  }

  function ContextOmitted(c: Context, kind: Kind): nat {
    match kind
    case Fact => c.omittedFacts
    case Question => c.omittedQuestions
    case Evidence => c.omittedEvidence
  }

  /** The candidates a compilation of these inputs tries, in order. */
  function Tried(s: Sprint, cps: seq<Checkpoint>): seq<Item> { Candidates(s, Select(cps, s.dependencies)) }

  /** The dependencies of which some candidate is missing from the context. */
  ghost function ShortedDependencies(c: Context, items: seq<Item>): set<string> {
    set i | 0 <= i < |items| && items[i].dep.Some? && items[i].dep.value != ""
            && IsLeftOut(items[i], items[i].kind, ContextTexts(c, items[i].kind)) :: items[i].dep.value
  }

  lemma {:induction false} LeftOutBySet(items: seq<Item>, kind: Kind, a: seq<string>, b: seq<string>)
    requires forall t :: t in a <==> t in b
    ensures CountLeftOut(items, kind, a) == CountLeftOut(items, kind, b)
  {
    if items != [] {
      LeftOutBySet(items[..|items| - 1], kind, a, b);
    }
  }

  lemma NoDuplicatesSorted(xs: seq<string>)
    requires NoDuplicates(xs)
    ensures NoDuplicates(SortStrings(xs))
  {
    SortByPermutes(xs, Codes);
    DedupMembers(xs);
    DedupNothing(xs);
    forall x | x in SortStrings(xs) ensures multiset(SortStrings(xs))[x] == 1 {
      SortByMembers(xs, Codes, x);
    }
    NoDuplicatesByCount(SortStrings(xs));
  }

  lemma {:induction false} DedupNothing(xs: seq<string>)
    requires NoDuplicates(xs)
    ensures Dedup(xs) == xs
  {
    if xs != [] {
      assert xs[0] !in xs[1..];
      DedupNothing(xs[1..]);
    }
  }

  /** The compiled context against its candidates: the reported total is the core plus exactly
      the included items and respects the budget; a candidate is missing only if it would not fit
      in the finished context; every included text was a candidate, appears once and in order; the
      omission counters count the missing candidates. */
  lemma ContextAccounts(plan: Plan, s: Sprint, cps: seq<Checkpoint>, coreTokens: Core -> nat)
    requires Compile(plan, s, cps, coreTokens).Ok?
    ensures var c, items := Compile(plan, s, cps, coreTokens).value, Tried(s, cps);
            && c.tokens == coreTokens(CoreOf(s)) + SumTokens(c.facts) + SumTokens(c.questions) + SumTokens(c.evidence)
            && c.tokens <= s.tokenBudget
            && (forall i :: 0 <= i < |items| && IsLeftOut(items[i], items[i].kind, ContextTexts(c, items[i].kind)) ==>
                  c.tokens + EstimateTokens(items[i].text) > s.tokenBudget)
            && (forall kind, t :: t in ContextTexts(c, kind) ==>
                  exists i :: 0 <= i < |items| && items[i].kind == kind && items[i].text == t)
            && (forall kind :: NoDuplicates(ContextTexts(c, kind)) && Sorted(ContextTexts(c, kind), Codes))
            && (forall kind :: ContextOmitted(c, kind) == CountLeftOut(items, kind, ContextTexts(c, kind)))
            && c.omittedCheckpoints == |ShortedDependencies(c, items)|
  {
    var c, items := Compile(plan, s, cps, coreTokens).value, Tried(s, cps);
    var core := coreTokens(CoreOf(s));
    var p := Pack(Empty(core), items, s.tokenBudget);
    assert c == Assemble(s, Select(cps, s.dependencies), p);
    hide Compile, Candidates, Pack;
    PackKeepsOk(core, items, s.tokenBudget);
    SumTokensSorted(p.facts);
    SumTokensSorted(p.questions);
    SumTokensSorted(p.evidence);
    forall kind ensures
        && ContextTexts(c, kind) == SortStrings(Included(p, kind))
        && NoDuplicates(ContextTexts(c, kind)) && Sorted(ContextTexts(c, kind), Codes)
        && (forall t :: t in ContextTexts(c, kind) <==> t in Included(p, kind))
        && ContextOmitted(c, kind) == CountLeftOut(items, kind, ContextTexts(c, kind))
    {
      NoDuplicatesSorted(Included(p, kind));
      SortBySorts(Included(p, kind), Codes);
      forall t ensures t in SortStrings(Included(p, kind)) <==> t in Included(p, kind) { SortByMembers(Included(p, kind), Codes, t); }
      OmissionCountsExact(core, items, s.tokenBudget, kind);
      LeftOutBySet(items, kind, Included(p, kind), ContextTexts(c, kind));
    }
    hide SortStrings, SumTokens, EstimateTokens;
    ShortedIsOmittedFrom(c, p, core, items, s.tokenBudget);
  }

  lemma ShortedIsOmittedFrom(c: Context, p: Packed, core: nat, items: seq<Item>, budget: nat)
    requires PackOk(p, core, items, budget)
    requires forall kind, t :: t in ContextTexts(c, kind) <==> t in Included(p, kind)
    ensures ShortedDependencies(c, items) == p.omittedFrom
  {
    forall d ensures d in ShortedDependencies(c, items) <==> d in p.omittedFrom {
      if d in p.omittedFrom {
        var i :| 0 <= i < |items| && LeftOutOf(p, items[i], d);
        assert items[i].dep.value == d;
      }
      if d in ShortedDependencies(c, items) {
        var i :| 0 <= i < |items| && items[i].dep.Some? && items[i].dep.value != ""
                 && IsLeftOut(items[i], items[i].kind, ContextTexts(c, items[i].kind)) && items[i].dep.value == d;
        assert LeftOutOf(p, items[i], d);
      }
    }
  }

  /** Truncation is reported exactly when some non-empty candidate is missing. */
  lemma TruncationExact(plan: Plan, s: Sprint, cps: seq<Checkpoint>, coreTokens: Core -> nat)
    requires Compile(plan, s, cps, coreTokens).Ok?
    ensures var c, items := Compile(plan, s, cps, coreTokens).value, Tried(s, cps);
            c.truncated <==> exists i :: 0 <= i < |items| && IsLeftOut(items[i], items[i].kind, ContextTexts(c, items[i].kind))
  {
    var c, items := Compile(plan, s, cps, coreTokens).value, Tried(s, cps);
    ContextAccounts(plan, s, cps, coreTokens);
    forall kind { CountPositive(items, kind, ContextTexts(c, kind)); }
    assert c.truncated <==> ContextOmitted(c, Fact) + ContextOmitted(c, Question) + ContextOmitted(c, Evidence) > 0;
    hide Compile, Candidates;
    if c.truncated {
      var kind := if ContextOmitted(c, Fact) > 0 then Fact else if ContextOmitted(c, Question) > 0 then Question else Evidence;
      assert CountLeftOut(items, kind, ContextTexts(c, kind)) > 0;
      var i :| 0 <= i < |items| && IsLeftOut(items[i], kind, ContextTexts(c, kind));
      assert items[i].kind == kind;
    }
    if i :| 0 <= i < |items| && IsLeftOut(items[i], items[i].kind, ContextTexts(c, items[i].kind)) {
      assert ContextOmitted(c, items[i].kind) > 0;
    }
  }

  lemma {:induction false} CountPositive(items: seq<Item>, kind: Kind, included: seq<string>)
    ensures CountLeftOut(items, kind, included) > 0 <==> exists i :: 0 <= i < |items| && IsLeftOut(items[i], kind, included)
  {
    if items != [] {
      var front := items[..|items| - 1];
      CountPositive(front, kind, included);
      if i :| 0 <= i < |items| && IsLeftOut(items[i], kind, included) && i < |front| {
        assert front[i] == items[i];
      }
      if i :| 0 <= i < |front| && IsLeftOut(front[i], kind, included) {
        assert items[i] == front[i];
      }
    }
  }

  // ---------------------------------------------------------------- tiers

  /** Whether a candidate of one tier is included is settled by that tier and the ones before it:
      no later tier can displace it or let it in. */
  lemma TierDecidesItsOwn(core: nat, tier: seq<Item>, later: seq<Item>, budget: nat, i: nat)
    requires i < |tier| && tier[i].text != ""
    ensures tier[i].text in Included(Pack(Empty(core), tier + later, budget), tier[i].kind)
       <==> tier[i].text in Included(Pack(Empty(core), tier, budget), tier[i].kind)
  {
    var p, q := Pack(Empty(core), tier, budget), Pack(Empty(core), tier + later, budget);
    PackConcat(Empty(core), tier, later, budget);
    PackExtends(p, later, budget);
    PackKeepsOk(core, tier, budget);
    PackKeepsOk(core, tier + later, budget);
    assert (tier + later)[i] == tier[i];
    if tier[i].text !in Included(p, tier[i].kind) {
      StaysOut(core, tier, later, budget, i);
    }
  }

  lemma {:induction false} StaysOut(core: nat, tier: seq<Item>, later: seq<Item>, budget: nat, i: nat)
    requires i < |tier| && IsLeftOut(tier[i], tier[i].kind, Included(Pack(Empty(core), tier, budget), tier[i].kind))
    ensures IsLeftOut(tier[i], tier[i].kind, Included(Pack(Empty(core), tier + later, budget), tier[i].kind))
  {
    if later == [] {
      assert tier + later == tier;
    } else {
      var front := later[..|later| - 1];
      StaysOut(core, tier, front, budget, i);
      PackKeepsOk(core, tier + front, budget);
      assert (tier + later)[..|tier + later| - 1] == tier + front;
      OmittedStaysOmitted(Pack(Empty(core), tier + front, budget), core, tier + front, budget, i, later[|later| - 1]);
    }
  }

  // ---------------------------------------------------------------- admissibility

  /** `fact` is content of the checkpoint chosen for `id`, and that checkpoint PASSed. */
  ghost predicate TrustedFrom(chosen: map<string, Checkpoint>, id: string, fact: string) {
    id in chosen && chosen[id].failure == Some(Pass) && (fact in chosen[id].confirmedPaths || fact in chosen[id].findings)
  }

  lemma TrustFromFinding(chosen: map<string, Checkpoint>, id: string, fact: string)
    requires id in chosen && chosen[id].failure == Some(Pass) && fact in chosen[id].confirmedPaths + chosen[id].findings
    ensures TrustedFrom(chosen, id, fact)
  {
  }

  lemma {:induction false} PassTierFacts(ids: seq<string>, chosen: map<string, Checkpoint>, i: nat)
    requires i < |PassTier(ids, chosen)| && PassTier(ids, chosen)[i].kind == Fact
    ensures exists id :: id in ids && TrustedFrom(chosen, id, PassTier(ids, chosen)[i].text)
  {
    hide SortedSet, SortStrings, TrustedFrom;
    var front := ids[..|ids| - 1];
    var id := ids[|ids| - 1];
    if i < |PassTier(front, chosen)| {
      PassTierFacts(front, chosen, i);
      var x :| x in front && TrustedFrom(chosen, x, PassTier(front, chosen)[i].text);
      assert x in ids;
    } else {
      var c := chosen[id];
      var facts := SortedSet(c.confirmedPaths + c.findings);
      SortedSetMembers(c.confirmedPaths + c.findings);
      var k := i - |PassTier(front, chosen)|;
      assert PassTier(ids, chosen)[i] == PassItems(id, c)[k];
      assert k < |facts|;
      assert facts[k] in facts;
      TrustFromFinding(chosen, id, facts[k]);
    }
  }

  lemma {:induction false} FailTierQuestions(ids: seq<string>, chosen: map<string, Checkpoint>, i: nat)
    requires i < |FailTier(ids, chosen)|
    ensures FailTier(ids, chosen)[i].kind == Question
  {
    var front := ids[..|ids| - 1];
    if i < |FailTier(front, chosen)| {
      FailTierQuestions(front, chosen, i);
    } else {
      assert ids[|ids| - 1] in chosen;
    }
  }

  /** Failed work never becomes a trusted fact: every known fact of a context is the sprint's own
      or a finding or confirmed path of a declared dependency whose latest checkpoint PASSed. */
  lemma FactsAreAdmissible(plan: Plan, s: Sprint, cps: seq<Checkpoint>, coreTokens: Core -> nat, fact: string)
    requires Compile(plan, s, cps, coreTokens).Ok? && fact in Compile(plan, s, cps, coreTokens).value.facts
    ensures fact in s.knownFacts
      || exists id :: id in s.dependencies && TrustedFrom(Select(cps, s.dependencies), id, fact)
  {
    ContextAccounts(plan, s, cps, coreTokens);
    var c, items, chosen := Compile(plan, s, cps, coreTokens).value, Tried(s, cps), Select(cps, s.dependencies);
    assert fact in ContextTexts(c, Fact);
    var i :| 0 <= i < |items| && items[i].kind == Fact && items[i].text == fact;
    SortedSetMembers(s.dependencies);
    CandidateFacts(s, chosen, i);
  }

  lemma CandidateFacts(s: Sprint, chosen: map<string, Checkpoint>, i: nat)
    requires i < |Candidates(s, chosen)| && Candidates(s, chosen)[i].kind == Fact
    ensures var fact := Candidates(s, chosen)[i].text;
            fact in s.knownFacts || exists id :: id in SortedSet(s.dependencies) && TrustedFrom(chosen, id, fact)
  {
    var items, ids := Candidates(s, chosen), SortedSet(s.dependencies);
    var own, passed := OwnTier(s), PassTier(ids, chosen);
    if i < |own| {
      assert items[i] == own[i];
      hide SortedSet, PassTier, FailTier;
      assert i < |SortStrings(s.knownFacts)|;
      SortByMembers(s.knownFacts, Codes, SortStrings(s.knownFacts)[i]);
    } else if i < |own| + |passed| {
      assert items[i] == passed[i - |own|];
      PassTierFacts(ids, chosen, i - |own|);
    } else {
      FailTierQuestions(ids, chosen, i - |own| - |passed|);
      assert false;
    }
  }

  // ---------------------------------------------------------------- order independence

  function CanonCheckpoint(c: Checkpoint): Checkpoint {
    c.(confirmedPaths := SortStrings(c.confirmedPaths), findings := SortStrings(c.findings),
       evidenceRefs := SortStrings(c.evidenceRefs), openQuestions := SortStrings(c.openQuestions),
       unresolvedItems := SortStrings(c.unresolvedItems))
  }

  function CanonAll(cps: seq<Checkpoint>): (r: seq<Checkpoint>)
    ensures |r| == |cps| && forall i :: 0 <= i < |cps| ==> r[i] == CanonCheckpoint(cps[i])
  {
    seq(|cps|, i requires 0 <= i < |cps| => CanonCheckpoint(cps[i]))
  }

  /** The sprint with each of its lists in sorted order. */
  function CanonSprint(s: Sprint): Sprint {
    s.(constraints := SortStrings(s.constraints), knownFacts := SortStrings(s.knownFacts),
       openQuestions := SortStrings(s.openQuestions), evidenceRequirements := SortStrings(s.evidenceRequirements),
       acceptance := SortStrings(s.acceptance), dependencies := SortStrings(s.dependencies))
  }

  function CanonChosen(m: map<string, Checkpoint>): map<string, Checkpoint> {
    map id | id in m :: CanonCheckpoint(m[id])
  }

  lemma SortTwice(xs: seq<string>)
    ensures SortStrings(SortStrings(xs)) == SortStrings(xs)
  {
    StringKeysInjective(multiset(xs));
    SortByIdempotent(xs, Codes);
  }

  lemma SortedSetOfSorted(xs: seq<string>)
    ensures SortedSet(SortStrings(xs)) == SortedSet(xs)
  {
    forall x ensures x in SortStrings(xs) <==> x in xs { SortByMembers(xs, Codes, x); }
    SortedSetOrderFree(SortStrings(xs), xs);
  }

  lemma AdmitCanon(chosen: map<string, Checkpoint>, declared: seq<string>, declared': seq<string>, c: Checkpoint)
    requires forall d :: d in declared <==> d in declared'
    ensures Admit(CanonChosen(chosen), declared', CanonCheckpoint(c)) == CanonChosen(Admit(chosen, declared, c))
  {
    hide SortStrings;
  }

  lemma {:induction false} SelectCanon(cps: seq<Checkpoint>, declared: seq<string>, declared': seq<string>)
    requires forall d :: d in declared <==> d in declared'
    ensures Select(CanonAll(cps), declared') == CanonChosen(Select(cps, declared))
  {
    if cps != [] {
      var front := cps[..|cps| - 1];
      SelectCanon(front, declared, declared');
      assert CanonAll(cps)[..|cps| - 1] == CanonAll(front);
      hide CanonChosen, CanonCheckpoint, Admit;
      AdmitCanon(Select(front, declared), declared, declared', cps[|cps| - 1]);
    } else {
      assert CanonAll([]) == [];
    }
  }

  lemma ItemsCanon(id: string, c: Checkpoint)
    ensures PassItems(id, CanonCheckpoint(c)) == PassItems(id, c)
    ensures FailItems(id, CanonCheckpoint(c)) == FailItems(id, c)
  {
    SortTwice(c.evidenceRefs);
    SortTwice(c.openQuestions);
    SortTwice(c.unresolvedItems);
    var a, b := SortStrings(c.confirmedPaths) + SortStrings(c.findings), c.confirmedPaths + c.findings;
    forall x ensures x in a <==> x in b {
      SortByMembers(c.confirmedPaths, Codes, x);
      SortByMembers(c.findings, Codes, x);
    }
    SortedSetOrderFree(a, b);
  }

  lemma {:induction false} TiersCanon(ids: seq<string>, chosen: map<string, Checkpoint>)
    ensures PassTier(ids, CanonChosen(chosen)) == PassTier(ids, chosen)
    ensures FailTier(ids, CanonChosen(chosen)) == FailTier(ids, chosen)
    ensures Refs(ids, CanonChosen(chosen)) == Refs(ids, chosen)
  {
    if ids != [] {
      TiersCanon(ids[..|ids| - 1], chosen);
      var id := ids[|ids| - 1];
      if id in chosen {
        ItemsCanon(id, chosen[id]);
      }
    }
  }

  /** Sorting every input list beforehand changes nothing. */
  lemma CompileCanon(plan: Plan, s: Sprint, cps: seq<Checkpoint>, coreTokens: Core -> nat)
    ensures Compile(plan, CanonSprint(s), CanonAll(cps), coreTokens) == Compile(plan, s, cps, coreTokens)
  {
    var t, dps := CanonSprint(s), CanonAll(cps);
    forall d ensures d in t.dependencies <==> d in s.dependencies { SortByMembers(s.dependencies, Codes, d); }
    assert OneMission(dps, t.dependencies, t.missionId) <==> OneMission(cps, s.dependencies, s.missionId) by {
      forall i | 0 <= i < |cps| ensures dps[i].sprintId == cps[i].sprintId && dps[i].missionId == cps[i].missionId { }
    }
    SelectCanon(cps, s.dependencies, t.dependencies);
    SortTwice(s.constraints);
    SortTwice(s.acceptance);
    SortTwice(s.knownFacts);
    SortTwice(s.openQuestions);
    SortTwice(s.evidenceRequirements);
    SortedSetOfSorted(s.dependencies);
    TiersCanon(SortedSet(s.dependencies), Select(cps, s.dependencies));
    hide Pack, SortStrings, SortedSet, Select, PassTier, FailTier, Refs;
  }

  lemma OneMissionOfMembers(xs: seq<Checkpoint>, ys: seq<Checkpoint>, declared: seq<string>, mission: string)
    requires forall y :: y in ys ==> y in xs
    ensures OneMission(xs, declared, mission) ==> OneMission(ys, declared, mission)
  {
    if OneMission(xs, declared, mission) {
      forall i | 0 <= i < |ys| && ys[i].sprintId in declared ensures ys[i].missionId == mission {
        assert ys[i] in xs;
      }
    }
  }

  /** Compiling is independent of the order of the checkpoints and of every list inside the sprint
      and the checkpoints, whenever the latest checkpoint of each dependency is unambiguous. */
  lemma {:induction false} CompileOrderFree(plan: Plan, s: Sprint, t: Sprint, cps: seq<Checkpoint>, dps: seq<Checkpoint>, coreTokens: Core -> nat)
    requires CanonSprint(s) == CanonSprint(t)
    requires multiset(CanonAll(cps)) == multiset(CanonAll(dps))
    requires LatestUnambiguous(CanonAll(cps), CanonSprint(s).dependencies)
    ensures Compile(plan, s, cps, coreTokens) == Compile(plan, t, dps, coreTokens)
  {
    CompileCanon(plan, s, cps, coreTokens);
    CompileCanon(plan, t, dps, coreTokens);
    var u, xs, ys := CanonSprint(s), CanonAll(cps), CanonAll(dps);
    SameMembers(xs, ys);
    UnambiguousIsOrderFree(xs, ys, u.dependencies);
    OneMissionOfMembers(xs, ys, u.dependencies, u.missionId);
    OneMissionOfMembers(ys, xs, u.dependencies, u.missionId);
    hide CanonSprint, CanonAll, Select, OneMission;
  }

  /** No two checkpoints of one sprint carry the same version: a condition a caller can check. */
  ghost predicate DistinctVersions(cps: seq<Checkpoint>) {
    forall i, j :: 0 <= i < j < |cps| && cps[i].sprintId == cps[j].sprintId ==> cps[i].version != cps[j].version
  }

  lemma DistinctVersionsUnambiguous(cps: seq<Checkpoint>, declared: seq<string>)
    requires DistinctVersions(cps)
    ensures LatestUnambiguous(CanonAll(cps), declared)
  {
    var xs := CanonAll(cps);
    forall c, d | c in xs && d in xs && Tops(xs, c) && Tops(xs, d) && c.sprintId == d.sprintId ensures c == d {
      var i :| 0 <= i < |xs| && xs[i] == c;
      var j :| 0 <= j < |xs| && xs[j] == d;
      assert c.version == d.version;
      assert cps[i].sprintId == cps[j].sprintId && cps[i].version == cps[j].version;
      assert !(i < j) && !(j < i);
    }
  }
}
