/** Whether splitting a workload into shards is safe
    (MEIZEX_AIR/src/meizex_air/workload_partitioning.py). Profile eligibility is an arbitrary
    function of the profile id and the shard. */
module PartitionPlan {
  import opened Common
  import opened Ordering
  import opened DependencyGraph

  datatype Shard = Shard(
    id: string, evidence: seq<int>, sources: seq<int>, inputTokens: nat, outputTokens: nat,
    dependencies: seq<string>, candidates: seq<string>)

  datatype Contradiction = Contradiction(id: string, sideA: int, sideB: int, reconciliation: Option<string>)

  datatype Plan = Plan(
    shards: seq<Shard>, contradictions: seq<Contradiction>, sourceOf: map<int, int>,
    provenanceRequired: bool, metadataComplete: bool, globalContext: seq<string>)

  datatype Reason =
    | SharedEvidence(evidence: int)
    | SourceMissing(evidence: int)
    | SourceElsewhere(evidence: int, source: int)
    | ContradictionEvidenceMissing(contradiction: string)
    | Unreconciled(contradiction: string)
    | ReconciliationDependenciesMissing(contradiction: string)
    | ProfileMissing(shard: string, profile: string)
    | MetadataInsufficient

  // ---------------------------------------------------------------- validated plans

  datatype ShardError = DuplicateShardId | SelfShardDependency | MissingShardDependency | ShardCycle

  ghost predicate DistinctShardIds(shards: seq<Shard>) {
    forall i, j :: 0 <= i < j < |shards| ==> shards[i].id != shards[j].id
  }

  function ShardIds(shards: seq<Shard>): (ids: seq<string>)
    ensures |ids| == |shards| && forall i :: 0 <= i < |ids| ==> ids[i] == shards[i].id
  {
    seq(|shards|, i requires 0 <= i < |shards| => shards[i].id)
  }

  function FindShard(shards: seq<Shard>, id: string): (r: Option<Shard>)
    ensures r.Some? ==> r.value in shards && r.value.id == id
    ensures r.None? ==> forall s :: s in shards ==> s.id != id
  {
    if shards == [] then None
    else if shards[0].id == id then Some(shards[0])
    else FindShard(shards[1..], id)
  }

  lemma {:induction false} FindShardAt(shards: seq<Shard>, k: nat)
    requires DistinctShardIds(shards) && k < |shards|
    ensures FindShard(shards, shards[k].id) == Some(shards[k])
  {
    if k > 0 {
      FindShardAt(shards[1..], k - 1);
    }
  }

  ghost function ShardGraph(shards: seq<Shard>): Graph {
    map n | n in ShardIds(shards) :: FindShard(shards, n).value.dependencies
  }

  ghost predicate KnownDependencies(shards: seq<Shard>) {
    forall s :: s in shards ==> forall d :: d in s.dependencies ==> d in ShardIds(shards)
  }

  lemma SelfShardCycle(shards: seq<Shard>, k: nat)
    requires DistinctShardIds(shards) && k < |shards| && shards[k].id in shards[k].dependencies
    ensures !Acyclic(ShardGraph(shards))
  {
    var id := shards[k].id;
    FindShardAt(shards, k);
    assert id == ShardIds(shards)[k];
    assert Cycle(ShardGraph(shards), [id, id]);
  }

  /** The loop over declared dependencies. */
  method CheckDependencies(shards: seq<Shard>) returns (r: Result<Graph, ShardError>)
    requires DistinctShardIds(shards)
    ensures r.Ok? ==> KnownDependencies(shards) && r.value == ShardGraph(shards) && Closed(r.value)
    ensures r.Ok? ==> forall n :: n in r.value <==> n in ShardIds(shards)
    ensures r.Err? ==> !KnownDependencies(shards) || !Acyclic(ShardGraph(shards))
  {
    hide Acyclic, ShardGraph, UnknownOf, Cycle;
    var ids := ShardIds(shards);
    var graph: Graph := map[];
    var k := 0;
    while k < |shards|
      invariant 0 <= k <= |shards|
      invariant forall n :: n in graph <==> exists i :: 0 <= i < k && shards[i].id == n
      invariant forall i :: 0 <= i < k ==> graph[shards[i].id] == shards[i].dependencies
      invariant forall i :: 0 <= i < k ==> forall d :: d in shards[i].dependencies ==> d in ids
    {
      var shard := shards[k];
      assert shard in shards;
      if shard.id in shard.dependencies {
        SelfShardCycle(shards, k);
        return Err(SelfShardDependency);
      }
      UnknownOfMembers(shard.dependencies, ids);
      var missing := UnknownOf(shard.dependencies, ids);
      if missing != [] {
        assert missing[0] in missing;
        return Err(MissingShardDependency);
      }
      forall d | d in shard.dependencies ensures d in ids { assert d !in missing; }
      graph := graph[shard.id := shard.dependencies];
      k := k + 1;
    }
    GraphIsShardGraph(shards, graph);
    r := Ok(graph);
  }

  /** `validate_dependency_graph`: the same specification as the task plan's check, on shards. */
  method ValidateShards(shards: seq<Shard>) returns (r: Result<(), ShardError>, ghost order: seq<string>)
    ensures r.Ok? <==> DistinctShardIds(shards) && KnownDependencies(shards) && Acyclic(ShardGraph(shards))
    ensures r.Ok? ==> Topological(ShardGraph(shards), order) && forall s :: s in shards ==> s.id in order
  {
    order := [];
    var ids := ShardIds(shards);
    DedupShrinks(ids);
    if |Dedup(ids)| != |ids| {
      return Err(DuplicateShardId), order;
    }
    assert DistinctShardIds(shards) by {
      forall i, j | 0 <= i < j < |shards| ensures shards[i].id != shards[j].id { assert ids[i] != ids[j]; }
    }
    var checked := CheckDependencies(shards);
    if checked.Err? {
      return Err(checked.error), order;
    }
    var graph := checked.value;
    var search := new DepthFirstSearch(graph);
    var sorted := SortStrings(ids);
    forall n ensures n in sorted <==> n in graph { SortByMembers(ids, Codes, n); }
    ghost var cycle;
    var raised;
    cycle, raised := search.Search(sorted);
    if raised {
      return Err(ShardCycle), order;
    }
    order := search.order;
    TopologicalMeansAcyclic(graph, order);
    forall s | s in shards ensures s.id in order {
      var i :| 0 <= i < |shards| && shards[i] == s;
      assert s.id in graph;
    }
    r := Ok(());
  }

  lemma GraphIsShardGraph(shards: seq<Shard>, graph: Graph)
    requires DistinctShardIds(shards)
    requires forall n :: n in graph <==> exists i :: 0 <= i < |shards| && shards[i].id == n
    requires forall i :: 0 <= i < |shards| ==> graph[shards[i].id] == shards[i].dependencies
    requires forall i :: 0 <= i < |shards| ==> forall d :: d in shards[i].dependencies ==> d in ShardIds(shards)
    ensures graph == ShardGraph(shards) && Closed(graph) && KnownDependencies(shards)
    ensures forall n :: n in graph <==> n in ShardIds(shards)
  {
    var ids := ShardIds(shards);
    forall n ensures n in graph <==> n in ids {
      if n in ids { var i :| 0 <= i < |ids| && ids[i] == n; assert shards[i].id == n; }
      if i :| 0 <= i < |shards| && shards[i].id == n { assert ids[i] == n; }
    }
    forall n | n in ids ensures graph[n] == FindShard(shards, n).value.dependencies {
      var i :| 0 <= i < |ids| && ids[i] == n;
      FindShardAt(shards, i);
    }
    forall n, d | n in graph && d in graph[n] ensures d in graph {
      var i :| 0 <= i < |shards| && shards[i].id == n;
    }
  }

  // ---------------------------------------------------------------- what makes a split unsafe

  /** `evidence_to_shard`: the last shard that lists the evidence. */
  function Owner(shards: seq<Shard>, e: int): Option<string> {
    if shards == [] then None
    else if e in shards[|shards| - 1].evidence then Some(shards[|shards| - 1].id)
    else Owner(shards[..|shards| - 1], e)
  }

  lemma {:induction false} OwnerFacts(shards: seq<Shard>, e: int)
    ensures Owner(shards, e).Some? <==> exists i :: 0 <= i < |shards| && e in shards[i].evidence
    ensures Owner(shards, e).Some? ==> exists i :: 0 <= i < |shards| && e in shards[i].evidence && shards[i].id == Owner(shards, e).value
  {
    if shards != [] {
      OwnerFacts(shards[..|shards| - 1], e);
    }
  }

  /** When each evidence id is in one shard, the owner is that shard. */
  lemma OwnerIsTheShard(shards: seq<Shard>, e: int, i: nat)
    requires i < |shards| && e in shards[i].evidence
    requires forall j, k :: 0 <= j < k < |shards| && e in shards[j].evidence ==> e !in shards[k].evidence
    ensures Owner(shards, e) == Some(shards[i].id)
  {
    OwnerFacts(shards, e);
  }

  /** The reason one contradiction contributes, if any. */
  function Verdict(plan: Plan, c: Contradiction): Option<Reason> {
    var a, b := Owner(plan.shards, c.sideA), Owner(plan.shards, c.sideB);
    if a.None? || b.None? then Some(ContradictionEvidenceMissing(c.id))
    else if a == b then None
    else
      var reconciler := if c.reconciliation.Some? then FindShard(plan.shards, c.reconciliation.value) else None;
      if reconciler.None? then Some(Unreconciled(c.id))
      else if a.value in reconciler.value.dependencies && b.value in reconciler.value.dependencies then None
      else Some(ReconciliationDependenciesMissing(c.id))
  }

  /** Shard validation refuses repeated evidence ids inside one shard. */
  ghost predicate ShardsNormal(shards: seq<Shard>) {
    && DistinctShardIds(shards)
    && (forall s :: s in shards ==> NoDuplicates(s.evidence))
  }

  /** The evidence reasons that shard `b` gives rise to. */
  ghost predicate ShardReason(plan: Plan, b: nat, r: Reason)
    requires b < |plan.shards|
  {
    var shard := plan.shards[b];
    match r
    case SharedEvidence(e) => e in shard.evidence && exists a :: 0 <= a < b && e in plan.shards[a].evidence
    case SourceMissing(e) => plan.provenanceRequired && e in shard.evidence && e !in plan.sourceOf
    case SourceElsewhere(e, s) =>
      plan.provenanceRequired && e in shard.evidence && e in plan.sourceOf && plan.sourceOf[e] == s && s !in shard.sources
    case _ => false
  }

  ghost predicate EvidenceReason(plan: Plan, r: Reason) {
    exists b :: 0 <= b < |plan.shards| && ShardReason(plan, b, r)
  }

  function EvidenceOf(r: Reason): Option<int> {
    match r
    case SharedEvidence(e) => Some(e)
    case SourceMissing(e) => Some(e)
    case SourceElsewhere(e, _) => Some(e)
    case _ => None
  }

  predicate Concerns(r: Reason, evidence: seq<int>) { EvidenceOf(r).Some? && EvidenceOf(r).value in evidence }

  /** The reasons one evidence id of a shard adds, `shared` when an earlier shard lists it too. */
  function ReasonsFor(plan: Plan, shard: Shard, e: int, shared: bool): set<Reason> {
    (if shared then {SharedEvidence(e)} else {})
    + if !plan.provenanceRequired then {}
      else if e !in plan.sourceOf then {SourceMissing(e)}
      else if plan.sourceOf[e] !in shard.sources then {SourceElsewhere(e, plan.sourceOf[e])}
      else {}
  }

  lemma ReasonsForExact(plan: Plan, i: nat, e: int, shared: bool)
    requires i < |plan.shards| && e in plan.shards[i].evidence
    requires shared <==> exists a :: 0 <= a < i && e in plan.shards[a].evidence
    ensures forall r :: r in ReasonsFor(plan, plan.shards[i], e, shared) <==> ShardReason(plan, i, r) && EvidenceOf(r) == Some(e)
  {
  }

  lemma ShardReasonConcerns(plan: Plan, i: nat, r: Reason)
    requires i < |plan.shards|
    ensures ShardReason(plan, i, r) ==> Concerns(r, plan.shards[i].evidence)
  {
  }

  lemma ConcernsStep(r: Reason, evidence: seq<int>, j: nat)
    requires j < |evidence|
    ensures Concerns(r, evidence[..j + 1]) <==> Concerns(r, evidence[..j]) || EvidenceOf(r) == Some(evidence[j])
  {
    assert evidence[..j + 1] == evidence[..j] + [evidence[j]];
  }

  /** Who owns each id after the first `j` ids of shard `i`. */
  ghost predicate OwnedUpTo(plan: Plan, i: nat, before: map<int, string>, j: nat, owner: map<int, string>)
    requires i < |plan.shards| && j <= |plan.shards[i].evidence|
  {
    var seen := plan.shards[i].evidence[..j];
    && (forall e :: e in owner <==> e in before || e in seen)
    && (forall e :: e in owner ==> owner[e] == if e in seen then plan.shards[i].id else before[e])
  }

  /** Exactly the reasons that those ids give rise to. */
  ghost predicate ReasonedUpTo(plan: Plan, i: nat, j: nat, reasons: set<Reason>)
    requires i < |plan.shards| && j <= |plan.shards[i].evidence|
  {
    forall r :: r in reasons <==> ShardReason(plan, i, r) && Concerns(r, plan.shards[i].evidence[..j])
  }

  lemma OwnedNext(plan: Plan, i: nat, before: map<int, string>, j: nat, owner: map<int, string>)
    requires i < |plan.shards| && j < |plan.shards[i].evidence| && OwnedUpTo(plan, i, before, j, owner)
    ensures OwnedUpTo(plan, i, before, j + 1, owner[plan.shards[i].evidence[j] := plan.shards[i].id])
  {
    var ids := plan.shards[i].evidence;
    assert ids[..j + 1] == ids[..j] + [ids[j]];
  }

  lemma ReasonedNext(plan: Plan, i: nat, j: nat, reasons: set<Reason>, shared: bool)
    requires i < |plan.shards| && j < |plan.shards[i].evidence| && ReasonedUpTo(plan, i, j, reasons)
    requires shared <==> exists a :: 0 <= a < i && plan.shards[i].evidence[j] in plan.shards[a].evidence
    ensures ReasonedUpTo(plan, i, j + 1, reasons + ReasonsFor(plan, plan.shards[i], plan.shards[i].evidence[j], shared))
  {
    var ids := plan.shards[i].evidence;
    ReasonsForExact(plan, i, ids[j], shared);
    hide ShardReason, Concerns, ReasonsFor;
    forall r ensures Concerns(r, ids[..j + 1]) <==> Concerns(r, ids[..j]) || EvidenceOf(r) == Some(ids[j]) {
      ConcernsStep(r, ids, j);
    }
  }

  lemma NothingAssigned(plan: Plan, i: nat, before: map<int, string>)
    requires i < |plan.shards|
    ensures OwnedUpTo(plan, i, before, 0, before) && ReasonedUpTo(plan, i, 0, {})
  {
    forall r ensures !Concerns(r, plan.shards[i].evidence[..0]) { NothingConcerned(r); }
    hide ShardReason, Concerns;
  }

  lemma AllAssigned(plan: Plan, i: nat, before: map<int, string>, owner: map<int, string>, reasons: set<Reason>)
    requires i < |plan.shards|
    requires OwnedUpTo(plan, i, before, |plan.shards[i].evidence|, owner)
    requires ReasonedUpTo(plan, i, |plan.shards[i].evidence|, reasons)
    ensures forall e :: e in owner <==> e in before || e in plan.shards[i].evidence
    ensures forall e :: e in owner ==> owner[e] == if e in plan.shards[i].evidence then plan.shards[i].id else before[e]
    ensures forall r :: r in reasons <==> ShardReason(plan, i, r)
  {
    var ids := plan.shards[i].evidence;
    assert ids[..|ids|] == ids;
    forall r ensures ShardReason(plan, i, r) ==> Concerns(r, ids) { ShardReasonConcerns(plan, i, r); }
    hide ShardReason, Concerns;
  }

  /** One evidence id of a shard. */
  method AssignId(plan: Plan, shard: Shard, e: int, before: map<int, string>, found: set<Reason>)
    returns (owner: map<int, string>, reasons: set<Reason>)
    ensures owner == before[e := shard.id]
    ensures reasons == found + ReasonsFor(plan, shard, e, e in before)
  {
    owner, reasons := before, found;
    if e in owner {
      reasons := reasons + {SharedEvidence(e)};
    }
    owner := owner[e := shard.id];
    if plan.provenanceRequired {
      if e !in plan.sourceOf {
        reasons := reasons + {SourceMissing(e)};
      } else if plan.sourceOf[e] !in shard.sources {
        reasons := reasons + {SourceElsewhere(e, plan.sourceOf[e])};
      }
    }
  }

  /** The inner loop, over one shard's evidence ids. */
  method AssignShard(plan: Plan, i: nat, before: map<int, string>) returns (owner: map<int, string>, reasons: set<Reason>)
    requires i < |plan.shards| && NoDuplicates(plan.shards[i].evidence)
    requires forall e :: e in before <==> exists a :: 0 <= a < i && e in plan.shards[a].evidence
    ensures forall e :: e in owner <==> e in before || e in plan.shards[i].evidence
    ensures forall e :: e in owner ==> owner[e] == if e in plan.shards[i].evidence then plan.shards[i].id else before[e]
    ensures forall r :: r in reasons <==> ShardReason(plan, i, r)
  {
    hide ShardReason, ReasonsFor, OwnedUpTo, ReasonedUpTo;
    owner, reasons := before, {};
    NothingAssigned(plan, i, before);
    var j := 0;
    while j < |plan.shards[i].evidence|
      invariant 0 <= j <= |plan.shards[i].evidence|
      invariant OwnedUpTo(plan, i, before, j, owner)
      invariant ReasonedUpTo(plan, i, j, reasons)
    {
      var e := plan.shards[i].evidence[j];
      FirstSeenHere(plan, i, before, j, owner);
      OwnedNext(plan, i, before, j, owner);
      ReasonedNext(plan, i, j, reasons, e in owner);
      owner, reasons := AssignId(plan, plan.shards[i], e, owner, reasons);
      j := j + 1;
    }
    AllAssigned(plan, i, before, owner, reasons);
  }

  /** A shard lists an id once, so an owner it has already is an earlier shard. */
  lemma FirstSeenHere(plan: Plan, i: nat, before: map<int, string>, j: nat, owner: map<int, string>)
    requires i < |plan.shards| && NoDuplicates(plan.shards[i].evidence) && j < |plan.shards[i].evidence|
    requires OwnedUpTo(plan, i, before, j, owner)
    ensures plan.shards[i].evidence[j] in owner <==> plan.shards[i].evidence[j] in before
  {
    var ids := plan.shards[i].evidence;
    var e, seen := ids[j], ids[..j];
    assert e !in seen;
    assert e in owner <==> e in before || e in seen;
  }

  lemma NothingConcerned(r: Reason)
    ensures !Concerns(r, [])
  {
  }

  ghost predicate Owned(owner: map<int, string>, shards: seq<Shard>) {
    forall e :: if e in owner then Owner(shards, e) == Some(owner[e]) else Owner(shards, e).None?
  }

  ghost predicate ReasonsUpTo(plan: Plan, n: nat, reasons: set<Reason>)
    requires n <= |plan.shards|
  {
    forall r :: r in reasons <==> exists b :: 0 <= b < n && ShardReason(plan, b, r)
  }

  lemma ReasonsStep(plan: Plan, i: nat, reasons: set<Reason>, added: set<Reason>)
    requires i < |plan.shards| && ReasonsUpTo(plan, i, reasons)
    requires forall r :: r in added <==> ShardReason(plan, i, r)
    ensures ReasonsUpTo(plan, i + 1, reasons + added)
  {
    hide ShardReason;
  }

  lemma OwnedStep(shards: seq<Shard>, i: nat, before: map<int, string>, owner: map<int, string>)
    requires i < |shards| && Owned(before, shards[..i])
    requires forall e :: e in owner <==> e in before || e in shards[i].evidence
    requires forall e :: e in owner ==> owner[e] == if e in shards[i].evidence then shards[i].id else before[e]
    ensures Owned(owner, shards[..i + 1])
  {
    assert shards[..i + 1][..i] == shards[..i];
  }

  lemma OwnedDomain(plan: Plan, i: nat, owner: map<int, string>)
    requires i < |plan.shards| && Owned(owner, plan.shards[..i])
    ensures forall e :: e in owner <==> exists a :: 0 <= a < i && e in plan.shards[a].evidence
  {
    hide Owner;
    forall e ensures e in owner <==> exists a :: 0 <= a < i && e in plan.shards[a].evidence {
      OwnerFacts(plan.shards[..i], e);
      assert e in owner <==> Owner(plan.shards[..i], e).Some?;
    }
  }

  /** The first loop of `evaluate_partition_plan`. */
  method AssignEvidence(plan: Plan) returns (owner: map<int, string>, reasons: set<Reason>)
    requires ShardsNormal(plan.shards)
    ensures forall e :: if e in owner then Owner(plan.shards, e) == Some(owner[e]) else Owner(plan.shards, e).None?
    ensures forall r :: r in reasons <==> EvidenceReason(plan, r)
  {
    owner, reasons := map[], {};
    var i := 0;
    while i < |plan.shards|
      invariant 0 <= i <= |plan.shards|
      invariant Owned(owner, plan.shards[..i]) && ReasonsUpTo(plan, i, reasons)
    {
      assert plan.shards[i] in plan.shards;
      OwnedDomain(plan, i, owner);
      ghost var before := owner;
      var added;
      owner, added := AssignShard(plan, i, owner);
      OwnedStep(plan.shards, i, before, owner);
      ReasonsStep(plan, i, reasons, added);
      hide Owned, ReasonsUpTo;
      reasons := reasons + added;
      i := i + 1;
    }
    assert plan.shards[..i] == plan.shards;
  }

  /** The second loop: every contradiction, with the owners found above. */
  method CheckContradictions(plan: Plan, owner: map<int, string>) returns (reasons: set<Reason>, shape: bool)
    requires forall e :: if e in owner then Owner(plan.shards, e) == Some(owner[e]) else Owner(plan.shards, e).None?
    ensures forall r :: r in reasons <==> exists c :: c in plan.contradictions && Verdict(plan, c) == Some(r)
    ensures shape ==> exists s :: s in plan.shards && s.dependencies != []
  {
    reasons, shape := {}, false;
    var k := 0;
    while k < |plan.contradictions|
      invariant 0 <= k <= |plan.contradictions|
      invariant forall r :: r in reasons <==> exists i :: 0 <= i < k && Verdict(plan, plan.contradictions[i]) == Some(r)
      invariant shape ==> exists s :: s in plan.shards && s.dependencies != []
    {
      var c := plan.contradictions[k];
      ghost var before := reasons;
      if c.sideA !in owner || c.sideB !in owner {
        reasons := reasons + {ContradictionEvidenceMissing(c.id)};
      } else if owner[c.sideA] != owner[c.sideB] {
        var reconciler := if c.reconciliation.Some? then FindShard(plan.shards, c.reconciliation.value) else None;
        if reconciler.None? {
          reasons := reasons + {Unreconciled(c.id)};
        } else if !(owner[c.sideA] in reconciler.value.dependencies && owner[c.sideB] in reconciler.value.dependencies) {
          reasons := reasons + {ReconciliationDependenciesMissing(c.id)};
        } else {
          shape := true;
        }
      }
      assert reasons == before + (if Verdict(plan, c).Some? then {Verdict(plan, c).value} else {});
      k := k + 1;
    }
    forall r ensures r in reasons <==> exists c :: c in plan.contradictions && Verdict(plan, c) == Some(r) {
      if i :| 0 <= i < k && Verdict(plan, plan.contradictions[i]) == Some(r) { assert plan.contradictions[i] in plan.contradictions; }
    }
  }

  // ---------------------------------------------------------------- requirements

  function Requirement(s: Shard, overhead: int, margin: int): int {
    s.inputTokens + overhead + s.outputTokens + margin
  }

  function TotalRequirement(shards: seq<Shard>, overhead: int, margin: int): int {
    if shards == [] then 0
    else TotalRequirement(shards[..|shards| - 1], overhead, margin) + Requirement(shards[|shards| - 1], overhead, margin)
  }

  ghost predicate IsMaximum(m: int, shards: seq<Shard>, overhead: int, margin: int) {
    && (forall s :: s in shards ==> s.inputTokens + s.outputTokens + overhead + margin <= m)
    && (shards == [] ==> m == 0)
    && (shards != [] ==> exists s :: s in shards && s.inputTokens + s.outputTokens + overhead + margin == m)
  }

  /** What the shards read, added up from the front. */
  function AllInput(shards: seq<Shard>): int { if shards == [] then 0 else shards[0].inputTokens + AllInput(shards[1..]) }

  /** What the shards write, added up from the front. */
  function AllOutput(shards: seq<Shard>): int { if shards == [] then 0 else shards[0].outputTokens + AllOutput(shards[1..]) }

  lemma {:induction false} AllTokensExtend(shards: seq<Shard>)
    requires shards != []
    ensures var n := |shards| - 1;
            && AllInput(shards) == AllInput(shards[..n]) + shards[n].inputTokens
            && AllOutput(shards) == AllOutput(shards[..n]) + shards[n].outputTokens
  {
    var n := |shards| - 1;
    if n > 0 {
      AllTokensExtend(shards[1..]);
      assert shards[1..][..n - 1] == shards[..n][1..];
    }
  }

  /** The aggregate is the whole input and output, with the overhead and the margin paid once per shard. */
  lemma {:induction false} TotalReads(shards: seq<Shard>, overhead: int, margin: int)
    ensures TotalRequirement(shards, overhead, margin) == AllInput(shards) + AllOutput(shards) + |shards| * overhead + |shards| * margin
  {
    if shards != [] {
      TotalReads(shards[..|shards| - 1], overhead, margin);
      AllTokensExtend(shards);
    }
  }

  /** Some candidate profile of the shard is known and eligible. */
  ghost predicate Fits(s: Shard, profiles: seq<string>, eligible: (string, Shard) -> bool) {
    exists p :: p in s.candidates && p in profiles && eligible(p, s)
  }

  datatype Requirements = Requirements(aggregate: int, maximum: int, allFit: Option<bool>)

  /** A candidate profile of one of the shards that is not known. */
  ghost predicate MissingProfile(shards: seq<Shard>, profiles: seq<string>, r: Reason) {
    exists s, p :: s in shards && p in s.candidates && p !in profiles && r == ProfileMissing(s.id, p)
  }

  /** A candidate profile of this shard that is not known. */
  ghost predicate MissingFrom(s: Shard, profiles: seq<string>, r: Reason) {
    exists p :: p in s.candidates && p !in profiles && r == ProfileMissing(s.id, p)
  }

  lemma MeasureStep(shards: seq<Shard>, i: nat, m: int, overhead: nat, margin: nat)
    requires i < |shards| && m >= 0 && IsMaximum(m, shards[..i], overhead, margin)
    ensures var q := Requirement(shards[i], overhead, margin);
            && q >= 0
            && TotalRequirement(shards[..i + 1], overhead, margin) == TotalRequirement(shards[..i], overhead, margin) + q
            && IsMaximum(if m < q then q else m, shards[..i + 1], overhead, margin)
  {
    assert shards[..i + 1] == shards[..i] + [shards[i]];
    assert shards[..i + 1][..i] == shards[..i];
  }

  ghost predicate SomeCandidates(shards: seq<Shard>) { exists s :: s in shards && s.candidates != [] }

  ghost predicate AllFit(shards: seq<Shard>, profiles: seq<string>, eligible: (string, Shard) -> bool) {
    forall s :: s in shards && s.candidates != [] ==> Fits(s, profiles, eligible)
  }

  lemma FitStep(shards: seq<Shard>, i: nat, profiles: seq<string>, eligible: (string, Shard) -> bool)
    requires i < |shards|
    ensures SomeCandidates(shards[..i + 1]) <==> SomeCandidates(shards[..i]) || shards[i].candidates != []
    ensures AllFit(shards[..i + 1], profiles, eligible) <==>
            AllFit(shards[..i], profiles, eligible) && (shards[i].candidates != [] ==> Fits(shards[i], profiles, eligible))
    ensures forall r :: MissingProfile(shards[..i + 1], profiles, r) <==>
              (MissingProfile(shards[..i], profiles, r)
               || MissingFrom(shards[i], profiles, r))
  {
    hide Fits;
    assert shards[..i + 1] == shards[..i] + [shards[i]];
    var before, after, s := shards[..i], shards[..i + 1], shards[i];
    assert forall t :: t in after <==> t in before || t == s;
    assert AllFit(after, profiles, eligible) ==> (s.candidates != [] ==> Fits(s, profiles, eligible));
    forall r ensures MissingProfile(after, profiles, r) <==>
                       (MissingProfile(before, profiles, r) || MissingFrom(s, profiles, r))
    {
      if p :| p in s.candidates && p !in profiles && r == ProfileMissing(s.id, p) {
        assert s in after;
      }
    }
  }

  lemma NothingMeasured(shards: seq<Shard>, profiles: seq<string>, eligible: (string, Shard) -> bool, overhead: nat, margin: nat)
    ensures var none := shards[..0];
            && TotalRequirement(none, overhead, margin) == 0 && IsMaximum(0, none, overhead, margin)
            && !SomeCandidates(none) && AllFit(none, profiles, eligible) && forall r :: !MissingProfile(none, profiles, r)
  {
  }

  method MeasureShards(plan: Plan, profiles: seq<string>, eligible: (string, Shard) -> bool, overhead: nat, margin: nat)
    returns (q: Requirements, reasons: set<Reason>)
    ensures q.aggregate == TotalRequirement(plan.shards, overhead, margin)
    ensures IsMaximum(q.maximum, plan.shards, overhead, margin)
    ensures q.allFit.Some? <==> SomeCandidates(plan.shards)
    ensures q.allFit.Some? ==> (q.allFit.value <==> AllFit(plan.shards, profiles, eligible))
    ensures forall r :: r in reasons <==> MissingProfile(plan.shards, profiles, r)
  {
    hide TotalRequirement, IsMaximum, MissingProfile, MissingFrom, Requirement, Fits, SomeCandidates, AllFit;
    var aggregate, maximum, judged, allFit := 0, 0, false, true;
    reasons := {};
    var i := 0;
    NothingMeasured(plan.shards, profiles, eligible, overhead, margin);
    while i < |plan.shards|
      invariant 0 <= i <= |plan.shards|
      invariant aggregate == TotalRequirement(plan.shards[..i], overhead, margin)
      invariant maximum >= 0 && IsMaximum(maximum, plan.shards[..i], overhead, margin)
      invariant judged <==> SomeCandidates(plan.shards[..i])
      invariant allFit <==> AllFit(plan.shards[..i], profiles, eligible)
      invariant forall r :: r in reasons <==> MissingProfile(plan.shards[..i], profiles, r)
    {
      var s := plan.shards[i];
      MeasureStep(plan.shards, i, maximum, overhead, margin);
      FitStep(plan.shards, i, profiles, eligible);
      var requirement := Requirement(s, overhead, margin);
      aggregate := aggregate + requirement;
      maximum := if maximum < requirement then requirement else maximum;
      var fit, missing := MeasureCandidates(s, profiles, eligible);
      reasons := reasons + missing;
      if s.candidates != [] {
        judged := true;
        allFit := allFit && fit;
      }
      i := i + 1;
    }
    assert plan.shards[..i] == plan.shards;
    q := Requirements(aggregate, maximum, if judged then Some(allFit) else None);
  }

  method MeasureCandidates(s: Shard, profiles: seq<string>, eligible: (string, Shard) -> bool) returns (fit: bool, missing: set<Reason>)
    ensures fit <==> Fits(s, profiles, eligible)
    ensures forall r :: r in missing <==> MissingFrom(s, profiles, r)
  {
    fit, missing := false, {};
    var k := 0;
    while k < |s.candidates|
      invariant 0 <= k <= |s.candidates|
      invariant fit <==> exists i :: 0 <= i < k && s.candidates[i] in profiles && eligible(s.candidates[i], s)
      invariant forall r :: r in missing <==> exists i :: 0 <= i < k && s.candidates[i] !in profiles && r == ProfileMissing(s.id, s.candidates[i])
    {
      var p := s.candidates[k];
      if p !in profiles {
        missing := missing + {ProfileMissing(s.id, p)};
      } else {
        fit := fit || eligible(p, s);
      }
      k := k + 1;
    }
    if p :| p in s.candidates && p in profiles && eligible(p, s) {
      var i :| 0 <= i < |s.candidates| && s.candidates[i] == p;
    }
    forall r ensures r in missing <==> MissingFrom(s, profiles, r) {
      if p :| p in s.candidates && p !in profiles && r == ProfileMissing(s.id, p) {
        var i :| 0 <= i < |s.candidates| && s.candidates[i] == p;
      }
      if i :| 0 <= i < |s.candidates| && s.candidates[i] !in profiles && r == ProfileMissing(s.id, s.candidates[i]) {
        assert s.candidates[i] in s.candidates;
      }
    }
  }

  // ---------------------------------------------------------------- the verdict

  datatype Partitionability = Safe | SafeWithDependencies | Unsafe | Unknown

  datatype Evaluation = Evaluation(partitionability: Partitionability, requirements: Requirements, reasons: set<Reason>)

  datatype EvaluationError = NegativeTokens | DuplicateProfile

  /** No evidence id is in two shards. */
  ghost predicate EvidenceUnshared(plan: Plan) {
    forall i, j, e :: 0 <= i < j < |plan.shards| && e in plan.shards[i].evidence ==> e !in plan.shards[j].evidence
  }

  /** Where provenance is required, a shard lists the source of each evidence id it holds. */
  ghost predicate ProvenanceAtomic(plan: Plan) {
    plan.provenanceRequired ==>
      forall i, e :: 0 <= i < |plan.shards| && e in plan.shards[i].evidence ==>
        e in plan.sourceOf && plan.sourceOf[e] in plan.shards[i].sources
  }

  /** Shard `k` is the named reconciler and depends on the shards of both sides. */
  ghost predicate DependsOnBoth(plan: Plan, c: Contradiction, i: nat, j: nat, k: nat)
    requires i < |plan.shards| && j < |plan.shards| && k < |plan.shards|
  {
    && c.reconciliation == Some(plan.shards[k].id)
    && plan.shards[i].id in plan.shards[k].dependencies
    && plan.shards[j].id in plan.shards[k].dependencies
  }

  ghost predicate JoinedAt(plan: Plan, c: Contradiction, i: nat, j: nat)
    requires i < |plan.shards| && j < |plan.shards|
  {
    && c.sideA in plan.shards[i].evidence
    && c.sideB in plan.shards[j].evidence
    && (i == j || exists k :: 0 <= k < |plan.shards| && DependsOnBoth(plan, c, i, j, k))
  }

  /** Both sides lie in one shard, or some named shard of the plan depends on both of theirs. */
  ghost predicate Reconciled(plan: Plan, c: Contradiction) {
    exists i, j :: 0 <= i < |plan.shards| && 0 <= j < |plan.shards| && JoinedAt(plan, c, i, j)
  }

  lemma EvidenceClean(plan: Plan)
    ensures (forall r :: !EvidenceReason(plan, r)) <==> EvidenceUnshared(plan) && ProvenanceAtomic(plan)
  {
    if forall r :: !EvidenceReason(plan, r) {
      forall i, j, e | 0 <= i < j < |plan.shards| && e in plan.shards[i].evidence ensures e !in plan.shards[j].evidence {
        assert !EvidenceReason(plan, SharedEvidence(e));
        assert !ShardReason(plan, j, SharedEvidence(e));
      }
      if plan.provenanceRequired {
        forall i, e | 0 <= i < |plan.shards| && e in plan.shards[i].evidence
          ensures e in plan.sourceOf && plan.sourceOf[e] in plan.shards[i].sources
        {
          assert !EvidenceReason(plan, SourceMissing(e));
          assert !ShardReason(plan, i, SourceMissing(e));
          assert !EvidenceReason(plan, SourceElsewhere(e, plan.sourceOf[e]));
          assert !ShardReason(plan, i, SourceElsewhere(e, plan.sourceOf[e]));
        }
      }
    }
  }

  lemma VerdictMeansReconciled(plan: Plan, c: Contradiction)
    requires ShardsNormal(plan.shards) && EvidenceUnshared(plan)
    ensures Verdict(plan, c).None? <==> Reconciled(plan, c)
  {
    OwnerFacts(plan.shards, c.sideA);
    OwnerFacts(plan.shards, c.sideB);
    if Verdict(plan, c).None? {
      CleanIsReconciled(plan, c);
    }
    if Reconciled(plan, c) {
      ReconciledIsClean(plan, c);
    }
  }

  lemma CleanIsReconciled(plan: Plan, c: Contradiction)
    requires ShardsNormal(plan.shards) && Verdict(plan, c).None?
    ensures Reconciled(plan, c)
  {
    OwnerFacts(plan.shards, c.sideA);
    OwnerFacts(plan.shards, c.sideB);
    var i :| 0 <= i < |plan.shards| && c.sideA in plan.shards[i].evidence && plan.shards[i].id == Owner(plan.shards, c.sideA).value;
    var j :| 0 <= j < |plan.shards| && c.sideB in plan.shards[j].evidence && plan.shards[j].id == Owner(plan.shards, c.sideB).value;
    hide Owner;
    if plan.shards[i].id != plan.shards[j].id {
      var s := FindShard(plan.shards, c.reconciliation.value).value;
      var k :| 0 <= k < |plan.shards| && plan.shards[k] == s;
      assert DependsOnBoth(plan, c, i, j, k);
    } else {
      assert i == j;
    }
    assert JoinedAt(plan, c, i, j);
  }

  lemma ReconciledIsClean(plan: Plan, c: Contradiction)
    requires ShardsNormal(plan.shards) && EvidenceUnshared(plan) && Reconciled(plan, c)
    ensures Verdict(plan, c).None?
  {
    hide Owner, FindShard;
    var i, j :| 0 <= i < |plan.shards| && 0 <= j < |plan.shards| && JoinedAt(plan, c, i, j);
    OwnerIsTheShard(plan.shards, c.sideA, i);
    OwnerIsTheShard(plan.shards, c.sideB, j);
    assert DistinctShardIds(plan.shards);
    hide EvidenceUnshared, ShardsNormal, DistinctShardIds;
    if i != j {
      var k :| 0 <= k < |plan.shards| && DependsOnBoth(plan, c, i, j, k);
      FindShardAt(plan.shards, k);
    }
  }

  ghost predicate SplitIsSound(plan: Plan) {
    EvidenceUnshared(plan) && ProvenanceAtomic(plan) && forall c :: c in plan.contradictions ==> Reconciled(plan, c)
  }

  ghost predicate UnsafeReason(plan: Plan, r: Reason) {
    EvidenceReason(plan, r) || exists c :: c in plan.contradictions && Verdict(plan, c) == Some(r)
  }

  /** Every reason the evaluation reports, and no other. */
  ghost predicate Reported(plan: Plan, profiles: seq<string>, r: Reason) {
    || UnsafeReason(plan, r)
    || (exists s, p :: s in plan.shards && p in s.candidates && p !in profiles && r == ProfileMissing(s.id, p))
    || (!plan.metadataComplete && r == MetadataInsufficient)
  }

  /** `evaluate_partition_plan`: a plan is judged safe, with or without dependencies, exactly when
      its metadata is complete, no evidence is shared, provenance is atomic and every contradiction
      is reconciled; it is plainly safe exactly when moreover nothing orders the shards. */
  method Evaluate(plan: Plan, profiles: seq<string>, eligible: (string, Shard) -> bool,
                  totalInput: int, overhead: int, margin: int, unsplitOutput: int)
    returns (r: Result<Evaluation, EvaluationError>)
    requires ShardsNormal(plan.shards)
    ensures r.Err? <==> totalInput < 0 || overhead < 0 || margin < 0 || unsplitOutput < 0 || !NoDuplicates(profiles)
    ensures r.Ok? ==> (r.value.partitionability.Unknown? <==> !plan.metadataComplete)
    ensures r.Ok? ==> (r.value.partitionability in {Safe, SafeWithDependencies} <==> plan.metadataComplete && SplitIsSound(plan))
    ensures r.Ok? ==> (r.value.partitionability.Safe? <==>
              plan.metadataComplete && SplitIsSound(plan) && plan.globalContext == []
              && forall s :: s in plan.shards ==> s.dependencies == [])
    ensures r.Ok? ==> forall x :: x in r.value.reasons <==> Reported(plan, profiles, x)
    ensures r.Ok? ==> (r.value.requirements.aggregate ==
              AllInput(plan.shards) + AllOutput(plan.shards) + |plan.shards| * overhead + |plan.shards| * margin)
    ensures r.Ok? ==> IsMaximum(r.value.requirements.maximum, plan.shards, overhead, margin)
    ensures r.Ok? ==> (r.value.requirements.allFit.Some? <==> exists s :: s in plan.shards && s.candidates != [])
    ensures r.Ok? && r.value.requirements.allFit.Some? ==> (r.value.requirements.allFit.value <==>
              forall s :: s in plan.shards && s.candidates != [] ==> Fits(s, profiles, eligible))
  {
    if totalInput < 0 || overhead < 0 || margin < 0 || unsplitOutput < 0 {
      return Err(NegativeTokens);
    }
    DedupShrinks(profiles);
    if |Dedup(profiles)| != |profiles| {
      return Err(DuplicateProfile);
    }
    var unsafe, shape := CollectUnsafeReasons(plan);
    var q, missing := MeasureShards(plan, profiles, eligible, overhead, margin);
    TotalReads(plan.shards, overhead, margin);
    hide TotalRequirement, AllInput, AllOutput;
    var ordered := shape || AnyDependencies(plan.shards);
    AnyDependenciesMeans(plan.shards);
    hide SplitIsSound, IsMaximum, Fits, UnsafeReason;
    var verdict :=
      if !plan.metadataComplete then Unknown
      else if unsafe != {} then Unsafe
      else if ordered || plan.globalContext != [] then SafeWithDependencies
      else Safe;
    r := Ok(Evaluation(verdict, q, unsafe + missing + if plan.metadataComplete then {} else {MetadataInsufficient}));
  }

  /** The two loops that look for reasons why the split is unsafe. */
  method CollectUnsafeReasons(plan: Plan) returns (reasons: set<Reason>, shape: bool)
    requires ShardsNormal(plan.shards)
    ensures reasons == {} <==> SplitIsSound(plan)
    ensures forall r :: r in reasons <==> UnsafeReason(plan, r)
    ensures shape ==> exists s :: s in plan.shards && s.dependencies != []
  {
    var owner, evidence := AssignEvidence(plan);
    var conflicts;
    conflicts, shape := CheckContradictions(plan, owner);
    reasons := evidence + conflicts;
    assert forall r :: r in reasons <==> UnsafeReason(plan, r);
    SoundMeansNoReason(plan);
    hide UnsafeReason, SplitIsSound;
    assert reasons == {} <==> forall r :: r !in reasons;
  }

  lemma SoundMeansNoReason(plan: Plan)
    requires ShardsNormal(plan.shards)
    ensures SplitIsSound(plan) <==> forall r :: !UnsafeReason(plan, r)
  {
    EvidenceClean(plan);
    if EvidenceUnshared(plan) {
      forall c ensures Verdict(plan, c).None? <==> Reconciled(plan, c) { VerdictMeansReconciled(plan, c); }
    }
    hide Verdict, Reconciled, EvidenceReason, EvidenceUnshared, ProvenanceAtomic;
    if forall r :: !UnsafeReason(plan, r) {
      assert forall r :: !EvidenceReason(plan, r) by {
        forall r ensures !EvidenceReason(plan, r) { assert !UnsafeReason(plan, r); }
      }
      forall c | c in plan.contradictions ensures Verdict(plan, c).None? {
        assert Verdict(plan, c).Some? ==> !UnsafeReason(plan, Verdict(plan, c).value);
      }
    }
  }

  predicate AnyDependencies(shards: seq<Shard>) {
    shards != [] && (shards[0].dependencies != [] || AnyDependencies(shards[1..]))
  }

  lemma {:induction false} AnyDependenciesMeans(shards: seq<Shard>)
    ensures AnyDependencies(shards) <==> exists s :: s in shards && s.dependencies != []
  {
    if shards != [] {
      AnyDependenciesMeans(shards[1..]);
      assert shards == [shards[0]] + shards[1..];
    }
  }

  /** In any topological order of a validated plan, the shard that reconciles a contradiction
      comes after the shards of both sides. */
  lemma {:induction false} ReconcilerRunsLast(plan: Plan, order: seq<string>, c: Contradiction, i: nat, j: nat)
    requires ShardsNormal(plan.shards) && EvidenceUnshared(plan) && Reconciled(plan, c)
    requires Topological(ShardGraph(plan.shards), order) && forall s :: s in plan.shards ==> s.id in order
    requires i < |plan.shards| && j < |plan.shards| && i != j
    requires c.sideA in plan.shards[i].evidence && c.sideB in plan.shards[j].evidence
    ensures c.reconciliation.Some? && c.reconciliation.value in order
            && plan.shards[i].id in order && plan.shards[j].id in order
    ensures Position(order, plan.shards[i].id) < Position(order, c.reconciliation.value)
    ensures Position(order, plan.shards[j].id) < Position(order, c.reconciliation.value)
  {
    hide Topological, ShardGraph, Position;
    var a, b :| 0 <= a < |plan.shards| && 0 <= b < |plan.shards| && JoinedAt(plan, c, a, b);
    assert a == i && b == j;
    assert DistinctShardIds(plan.shards);
    hide EvidenceUnshared, ShardsNormal, DistinctShardIds;
    var k :| 0 <= k < |plan.shards| && DependsOnBoth(plan, c, i, j, k);
    ReconcilerOrdered(plan, order, i, k);
    ReconcilerOrdered(plan, order, j, k);
  }

  lemma ReconcilerOrdered(plan: Plan, order: seq<string>, i: nat, k: nat)
    requires DistinctShardIds(plan.shards)
    requires Topological(ShardGraph(plan.shards), order) && forall s :: s in plan.shards ==> s.id in order
    requires i < |plan.shards| && k < |plan.shards| && plan.shards[i].id in plan.shards[k].dependencies
    ensures plan.shards[i].id in order && plan.shards[k].id in order
    ensures Position(order, plan.shards[i].id) < Position(order, plan.shards[k].id)
  {
    FindShardAt(plan.shards, k);
    assert ShardIds(plan.shards)[k] == plan.shards[k].id;
    assert plan.shards[k] in plan.shards;
    WalkDescends(ShardGraph(plan.shards), order, [plan.shards[k].id, plan.shards[i].id]);
  }
}
