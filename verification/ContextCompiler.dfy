/** The deterministic context compiler (MEIZEX_AIR/src/meizex_air/context_compiler.py): packs a
    sprint's own items and its dependencies' items into a token budget, tier by tier. The size
    of the irreducible core's canonical JSON is an arbitrary function of the core. */
module ContextCompiler {
  import opened Common
  import opened Ordering
  import Text

  datatype Outcome =
    | Pass | Incomplete | Unsupported | TaskDrift | BudgetExceeded | ToolFailure | Contradiction | CapabilityFailure | InvalidOutput

  datatype Checkpoint = Checkpoint(
    sprintId: string, missionId: string, version: nat, failure: Option<Outcome>, confirmedPaths: seq<string>,
    findings: seq<string>, evidenceRefs: seq<string>, openQuestions: seq<string>, unresolvedItems: seq<string>)

  datatype Sprint = Sprint(
    sprintId: string, missionId: string, planVersion: string, objective: string, taskLock: Option<string>,
    constraints: seq<string>, knownFacts: seq<string>, openQuestions: seq<string>, evidenceRequirements: seq<string>,
    tokenBudget: nat, acceptance: seq<string>, outputContract: map<string, string>, dependencies: seq<string>)

  datatype Plan = Plan(missionId: string, planVersion: string, sprintIds: seq<string>)

  /** P0, the only mandatory content. */
  datatype Core = Core(
    objective: string, taskLock: Option<string>, constraints: seq<string>, acceptance: seq<string>,
    outputContract: map<string, string>)

  datatype Ref = Ref(sprintId: string, version: nat)

  datatype Context = Context(
    core: Core, facts: seq<string>, evidence: seq<string>, questions: seq<string>, refs: seq<Ref>,
    omittedCheckpoints: nat, omittedFacts: nat, omittedQuestions: nat, omittedEvidence: nat, tokens: nat, truncated: bool)

  datatype Error = SprintNotInPlan | DependencyFromOtherMission | DependencyCheckpointMissing | BudgetUnsatisfiable

  function EstimateTokens(text: string): nat {
    if text == "" then 0 else if |text| < 8 then 1 else |text| / 4
  }

  function CoreOf(s: Sprint): Core {
    Core(s.objective, s.taskLock, SortStrings(s.constraints), SortStrings(s.acceptance), s.outputContract)
  }

  predicate BelongsToPlan(plan: Plan, s: Sprint) {
    s.missionId == plan.missionId && s.planVersion == plan.planVersion && s.sprintId in plan.sprintIds
  }

  // ---------------------------------------------------------------- latest checkpoint per dependency

  /** One checkpoint of the selection loop: undeclared ones are skipped, the higher version wins. */
  function Admit(chosen: map<string, Checkpoint>, declared: seq<string>, c: Checkpoint): map<string, Checkpoint> {
    if c.sprintId !in declared then chosen
    else if c.sprintId !in chosen || c.version > chosen[c.sprintId].version then chosen[c.sprintId := c]
    else chosen
  }

  function Select(cps: seq<Checkpoint>, declared: seq<string>): map<string, Checkpoint> {
    if cps == [] then map[] else Admit(Select(cps[..|cps| - 1], declared), declared, cps[|cps| - 1])
  }

  predicate OneMission(cps: seq<Checkpoint>, declared: seq<string>, mission: string) {
    forall i :: 0 <= i < |cps| && cps[i].sprintId in declared ==> cps[i].missionId == mission
  }

  /** `c` is the first checkpoint of `id` that carries the highest version supplied for it. */
  ghost predicate FirstLatest(cps: seq<Checkpoint>, id: string, c: Checkpoint, k: nat) {
    && k < |cps| && cps[k] == c && c.sprintId == id
    && (forall j :: 0 <= j < |cps| && cps[j].sprintId == id ==> cps[j].version <= c.version)
    && (forall j :: 0 <= j < k && cps[j].sprintId == id ==> cps[j].version < c.version)
  }

  ghost predicate Supplied(cps: seq<Checkpoint>, id: string) {
    exists i :: 0 <= i < |cps| && cps[i].sprintId == id
  }

  lemma {:induction false} SelectKeys(cps: seq<Checkpoint>, declared: seq<string>, id: string)
    ensures id in Select(cps, declared) <==> id in declared && Supplied(cps, id)
  {
    if cps != [] {
      var front := cps[..|cps| - 1];
      SelectKeys(front, declared, id);
      if Supplied(front, id) {
        var i :| 0 <= i < |front| && front[i].sprintId == id;
        assert cps[i].sprintId == id;
      }
      if Supplied(cps, id) && cps[|cps| - 1].sprintId != id {
        var i :| 0 <= i < |cps| && cps[i].sprintId == id;
        assert front[i].sprintId == id;
      }
    }
  }

  lemma FirstLatestExtends(cps: seq<Checkpoint>, id: string, c: Checkpoint, k: nat)
    requires cps != [] && FirstLatest(cps[..|cps| - 1], id, c, k)
    requires cps[|cps| - 1].sprintId == id ==> cps[|cps| - 1].version <= c.version
    ensures FirstLatest(cps, id, c, k)
  {
    var front := cps[..|cps| - 1];
    forall j | 0 <= j < |cps| && cps[j].sprintId == id ensures cps[j].version <= c.version {
      if j < |front| { assert front[j] == cps[j]; }
    }
    forall j | 0 <= j < k && cps[j].sprintId == id ensures cps[j].version < c.version {
      assert front[j] == cps[j];
    }
  }

  lemma {:induction false} SelectChoosesFirstLatest(cps: seq<Checkpoint>, declared: seq<string>, id: string) returns (k: nat)
    requires id in Select(cps, declared)
    ensures id in declared && FirstLatest(cps, id, Select(cps, declared)[id], k)
  {
    var front, last := cps[..|cps| - 1], cps[|cps| - 1];
    SelectKeys(cps, declared, id);
    SelectKeys(front, declared, id);
    var before := Select(front, declared);
    if id in before {
      k := SelectChoosesFirstLatest(front, declared, id);
      if id == last.sprintId && last.version > before[id].version {
        forall j | 0 <= j < |front| && cps[j].sprintId == id ensures cps[j].version < last.version {
          assert front[j] == cps[j];
        }
        k := |front|;
      } else {
        FirstLatestExtends(cps, id, before[id], k);
      }
    } else {
      k := |front|;
      forall j | 0 <= j < |front| ensures cps[j].sprintId != id {
        assert front[j] == cps[j];
      }
    }
  }

  lemma FirstLatestUnique(cps: seq<Checkpoint>, id: string, c: Checkpoint, k: nat, d: Checkpoint, l: nat)
    requires FirstLatest(cps, id, c, k) && FirstLatest(cps, id, d, l)
    ensures c == d
  {
    assert k == l;
  }

  /** The checkpoints that tie for the highest version of a declared dependency are equal. */
  ghost predicate LatestUnambiguous(cps: seq<Checkpoint>, declared: seq<string>) {
    forall c, d :: (c in cps && d in cps && Tops(cps, c) && Tops(cps, d) && c.sprintId == d.sprintId
                    && c.sprintId in declared) ==> c == d
  }

  ghost predicate Tops(cps: seq<Checkpoint>, c: Checkpoint) {
    forall d :: d in cps && d.sprintId == c.sprintId ==> d.version <= c.version
  }

  lemma FirstLatestTops(cps: seq<Checkpoint>, id: string, c: Checkpoint, k: nat)
    requires FirstLatest(cps, id, c, k)
    ensures c in cps && Tops(cps, c)
  {
  }

  lemma SameMembers(xs: seq<Checkpoint>, ys: seq<Checkpoint>)
    requires multiset(xs) == multiset(ys)
    ensures forall c :: c in xs <==> c in ys
  {
    forall c ensures c in xs <==> c in ys {
      assert c in xs <==> c in multiset(xs);
      assert c in ys <==> c in multiset(ys);
    }
  }

  lemma {:induction false} UnambiguousIsOrderFree(xs: seq<Checkpoint>, ys: seq<Checkpoint>, declared: seq<string>)
    requires LatestUnambiguous(xs, declared) && forall c :: c in xs <==> c in ys
    ensures Select(xs, declared) == Select(ys, declared)
  {
    var m, n := Select(xs, declared), Select(ys, declared);
    forall id ensures id in m <==> id in n {
      SelectKeys(xs, declared, id);
      SelectKeys(ys, declared, id);
      if i :| 0 <= i < |xs| && xs[i].sprintId == id { assert xs[i] in ys; }
      if i :| 0 <= i < |ys| && ys[i].sprintId == id { assert ys[i] in xs; }
    }
    forall id | id in m ensures m[id] == n[id] {
      var k := SelectChoosesFirstLatest(xs, declared, id);
      var l := SelectChoosesFirstLatest(ys, declared, id);
      FirstLatestTops(xs, id, m[id], k);
      FirstLatestTops(ys, id, n[id], l);
      assert Tops(xs, n[id]);
    }
  }

  /** The supplied order is irrelevant to the selection exactly when the latest checkpoint of each
      declared dependency is unambiguous. */
  lemma SelectionOrderFreeExactly(cps: seq<Checkpoint>, declared: seq<string>)
    ensures LatestUnambiguous(cps, declared)
       <==> forall ys :: multiset(ys) == multiset(cps) ==> Select(ys, declared) == Select(cps, declared)
  {
    if LatestUnambiguous(cps, declared) {
      forall ys | multiset(ys) == multiset(cps) ensures Select(ys, declared) == Select(cps, declared) {
        SameMembers(cps, ys);
        UnambiguousIsOrderFree(cps, ys, declared);
      }
    } else {
      var c, d :| c in cps && d in cps && Tops(cps, c) && Tops(cps, d) && c.sprintId == d.sprintId
                  && c.sprintId in declared && c != d;
      var xs := FrontedBy(cps, c);
      var ys := FrontedBy(cps, d);
      FrontedSelects(cps, xs, c, declared);
      FrontedSelects(cps, ys, d, declared);
      assert Select(xs, declared) != Select(ys, declared);
    }
  }

  /** The same checkpoints with `c` moved to the front. */
  lemma FrontedBy(cps: seq<Checkpoint>, c: Checkpoint) returns (xs: seq<Checkpoint>)
    requires c in cps
    ensures multiset(xs) == multiset(cps) && xs != [] && xs[0] == c
  {
    var i :| 0 <= i < |cps| && cps[i] == c;
    xs := [c] + cps[..i] + cps[i + 1..];
    assert cps == cps[..i] + [c] + cps[i + 1..];
  }

  lemma FrontedSelects(cps: seq<Checkpoint>, xs: seq<Checkpoint>, c: Checkpoint, declared: seq<string>)
    requires multiset(xs) == multiset(cps) && xs != [] && xs[0] == c
    requires Tops(cps, c) && c.sprintId in declared
    ensures c.sprintId in Select(xs, declared) && Select(xs, declared)[c.sprintId] == c
  {
    SameMembers(cps, xs);
    SelectKeys(xs, declared, c.sprintId);
    assert FirstLatest(xs, c.sprintId, c, 0);
    var k := SelectChoosesFirstLatest(xs, declared, c.sprintId);
    FirstLatestUnique(xs, c.sprintId, c, 0, Select(xs, declared)[c.sprintId], k);
  }

  // ---------------------------------------------------------------- packing under the budget

  datatype Kind = Fact | Question | Evidence

  /** One candidate, in the order candidates are tried; `dep` is the dependency it comes from. */
  datatype Item = Item(kind: Kind, text: string, dep: Option<string>)

  datatype Packed = Packed(
    total: nat, facts: seq<string>, questions: seq<string>, evidence: seq<string>,
    omittedFacts: nat, omittedQuestions: nat, omittedEvidence: nat, omittedFrom: set<string>)

  function Included(p: Packed, kind: Kind): seq<string> {
    match kind
    case Fact => p.facts
    case Question => p.questions
    case Evidence => p.evidence
  }

  function Omitted(p: Packed, kind: Kind): nat {
    match kind
    case Fact => p.omittedFacts
    case Question => p.omittedQuestions
    case Evidence => p.omittedEvidence
  }

  function Include(p: Packed, item: Item): Packed {
    var q := p.(total := p.total + EstimateTokens(item.text));
    match item.kind
    case Fact => q.(facts := p.facts + [item.text])
    case Question => q.(questions := p.questions + [item.text])
    case Evidence => q.(evidence := p.evidence + [item.text])
  }

  function Omit(p: Packed, item: Item): Packed {
    var q := if item.dep.Some? && item.dep.value != "" then p.(omittedFrom := p.omittedFrom + {item.dep.value}) else p;
    match item.kind
    case Fact => q.(omittedFacts := p.omittedFacts + 1)
    case Question => q.(omittedQuestions := p.omittedQuestions + 1)
    case Evidence => q.(omittedEvidence := p.omittedEvidence + 1)
  }

  /** `_try_add_fact`, `_try_add_question` and `_try_add_evidence`. */
  function TryAdd(p: Packed, item: Item, budget: nat): Packed {
    if item.text == "" || item.text in Included(p, item.kind) then p
    else if p.total + EstimateTokens(item.text) <= budget then Include(p, item)
    else Omit(p, item)
  }

  function Pack(p: Packed, items: seq<Item>, budget: nat): Packed {
    if items == [] then p else TryAdd(Pack(p, items[..|items| - 1], budget), items[|items| - 1], budget)
  }

  function Empty(coreTokens: nat): Packed { Packed(coreTokens, [], [], [], 0, 0, 0, {}) }

  lemma {:induction false} PackConcat(p: Packed, a: seq<Item>, b: seq<Item>, budget: nat)
    ensures Pack(p, a + b, budget) == Pack(Pack(p, a, budget), b, budget)
  {
    if b == [] {
      assert a + b == a;
    } else {
      var front := b[..|b| - 1];
      assert (a + b)[..|a + b| - 1] == a + front;
      PackConcat(p, a, front, budget);
    }
  }

  /** What is packed so far stays, in place: later items only append. */
  predicate Extends(p: Packed, q: Packed) {
    && p.total <= q.total
    && p.facts <= q.facts && p.questions <= q.questions && p.evidence <= q.evidence
    && p.omittedFacts <= q.omittedFacts && p.omittedQuestions <= q.omittedQuestions
    && p.omittedEvidence <= q.omittedEvidence && p.omittedFrom <= q.omittedFrom
  }

  lemma {:induction false} PackExtends(p: Packed, items: seq<Item>, budget: nat)
    ensures Extends(p, Pack(p, items, budget))
  {
    if items != [] {
      PackExtends(p, items[..|items| - 1], budget);
    }
  }

  function SumTokens(texts: seq<string>): nat {
    if texts == [] then 0 else EstimateTokens(texts[0]) + SumTokens(texts[1..])
  }

  lemma {:induction false} SumTokensAppend(texts: seq<string>, t: string)
    ensures SumTokens(texts + [t]) == SumTokens(texts) + EstimateTokens(t)
  {
    if texts == [] {
    } else {
      SumTokensAppend(texts[1..], t);
      assert (texts + [t])[1..] == texts[1..] + [t];
    }
  }

  lemma {:induction false} SumTokensInsert(t: string, texts: seq<string>)
    ensures SumTokens(Insert(t, texts, Codes)) == EstimateTokens(t) + SumTokens(texts)
  {
    if texts == [] || Leq(Codes(t), Codes(texts[0])) {
      assert ([t] + texts)[1..] == texts;
    } else {
      SumTokensInsert(t, texts[1..]);
      assert ([texts[0]] + Insert(t, texts[1..], Codes))[1..] == Insert(t, texts[1..], Codes);
    }
  }

  lemma {:induction false} SumTokensSorted(texts: seq<string>)
    ensures SumTokens(SortStrings(texts)) == SumTokens(texts)
  {
    if texts != [] {
      SumTokensSorted(texts[1..]);
      SumTokensInsert(texts[0], SortStrings(texts[1..]));
    }
  }

  function CountLeftOut(items: seq<Item>, kind: Kind, included: seq<string>): nat {
    if items == [] then 0
    else CountLeftOut(items[..|items| - 1], kind, included) + (if IsLeftOut(items[|items| - 1], kind, included) then 1 else 0)
  }

  /** A non-empty candidate of the kind that is not among the included texts. */
  predicate IsLeftOut(item: Item, kind: Kind, included: seq<string>) {
    item.kind == kind && item.text != "" && item.text !in included
  }

  /** The item comes from dependency `d` and is left out. */
  predicate LeftOutOf(p: Packed, item: Item, d: string) {
    item.dep == Some(d) && d != "" && IsLeftOut(item, item.kind, Included(p, item.kind))
  }

  /** The state of the packing loop relative to the candidates tried so far. */
  ghost predicate PackOk(p: Packed, core: nat, items: seq<Item>, budget: nat) {
    && p.total == core + SumTokens(p.facts) + SumTokens(p.questions) + SumTokens(p.evidence)
    && (core <= budget ==> p.total <= budget)
    && (forall kind :: NoDuplicates(Included(p, kind)))
    && (forall kind, t :: t in Included(p, kind) ==> t != "" && exists i :: 0 <= i < |items| && items[i].kind == kind && items[i].text == t)
    && (forall i :: 0 <= i < |items| && items[i].text != "" && items[i].text !in Included(p, items[i].kind) ==>
          p.total + EstimateTokens(items[i].text) > budget)
    && (forall d :: d in p.omittedFrom <==> exists i :: 0 <= i < |items| && LeftOutOf(p, items[i], d))
  }

  /** An omitted text can never be included later, because the total only grows. */
  lemma OmittedStaysOmitted(p: Packed, core: nat, items: seq<Item>, budget: nat, i: nat, item: Item)
    requires PackOk(p, core, items, budget) && i < |items|
    requires IsLeftOut(items[i], items[i].kind, Included(p, items[i].kind))
    ensures IsLeftOut(items[i], items[i].kind, Included(TryAdd(p, item, budget), items[i].kind))
  {
    if item.kind == items[i].kind && item.text == items[i].text {
      assert p.total + EstimateTokens(items[i].text) > budget;
    }
  }

  lemma TryAddTotals(p: Packed, core: nat, budget: nat, item: Item)
    requires p.total == core + SumTokens(p.facts) + SumTokens(p.questions) + SumTokens(p.evidence)
    requires core <= budget ==> p.total <= budget
    ensures var q := TryAdd(p, item, budget);
            && q.total == core + SumTokens(q.facts) + SumTokens(q.questions) + SumTokens(q.evidence)
            && (core <= budget ==> q.total <= budget)
  {
    hide SumTokens, EstimateTokens;
    match item.kind {
      case Fact => SumTokensAppend(p.facts, item.text);
      case Question => SumTokensAppend(p.questions, item.text);
      case Evidence => SumTokensAppend(p.evidence, item.text);
    }
  }

  /** What a kind's included list becomes. */
  lemma TryAddIncluded(p: Packed, item: Item, budget: nat, kind: Kind)
    ensures var q := TryAdd(p, item, budget);
            || Included(q, kind) == Included(p, kind)
            || (kind == item.kind && item.text != "" && item.text !in Included(p, kind) && Included(q, kind) == Included(p, kind) + [item.text])
  {
  }

  lemma TryAddSources(p: Packed, core: nat, items: seq<Item>, budget: nat, item: Item, kind: Kind)
    requires PackOk(p, core, items, budget)
    ensures var q, all := TryAdd(p, item, budget), items + [item];
            && NoDuplicates(Included(q, kind))
            && forall t :: t in Included(q, kind) ==>
                 t != "" && exists i :: 0 <= i < |all| && all[i].kind == kind && all[i].text == t
  {
    var q, all := TryAdd(p, item, budget), items + [item];
    TryAddIncluded(p, item, budget, kind);
    hide TryAdd, Included;
    forall t | t in Included(q, kind) ensures t != "" && exists i :: 0 <= i < |all| && all[i].kind == kind && all[i].text == t {
      if t in Included(p, kind) {
        var i :| 0 <= i < |items| && items[i].kind == kind && items[i].text == t;
        assert all[i].kind == kind && all[i].text == t;
      } else {
        assert all[|items|].kind == kind && all[|items|].text == t;
      }
    }
  }

  lemma TryAddUnfit(p: Packed, core: nat, items: seq<Item>, budget: nat, item: Item, i: nat)
    requires PackOk(p, core, items, budget) && i <= |items|
    ensures var q, x := TryAdd(p, item, budget), (items + [item])[i];
            IsLeftOut(x, x.kind, Included(q, x.kind)) ==>
              && q.total + EstimateTokens(x.text) > budget
              && (i < |items| ==> IsLeftOut(x, x.kind, Included(p, x.kind)))
              && (i == |items| && x.dep.Some? && x.dep.value != "" ==> x.dep.value in q.omittedFrom)
  {
    hide SumTokens, EstimateTokens;
    var x := (items + [item])[i];
    if i < |items| {
      assert x == items[i];
      TryAddIncluded(p, item, budget, x.kind);
    }
  }

  lemma TryAddOmittedFrom(p: Packed, core: nat, items: seq<Item>, budget: nat, item: Item, d: string)
    requires PackOk(p, core, items, budget)
    ensures var q, all := TryAdd(p, item, budget), items + [item];
            d in q.omittedFrom <==> exists i :: 0 <= i < |all| && LeftOutOf(q, all[i], d)
  {
    var q, all := TryAdd(p, item, budget), items + [item];
    if d in p.omittedFrom {
      var i :| 0 <= i < |items| && LeftOutOf(p, items[i], d);
      OmittedStaysOmitted(p, core, items, budget, i, item);
      assert all[i] == items[i] && LeftOutOf(q, all[i], d);
    } else if d in q.omittedFrom {
      assert all[|items|] == item && LeftOutOf(q, all[|items|], d);
    }
    if i :| 0 <= i < |all| && LeftOutOf(q, all[i], d) {
      TryAddUnfit(p, core, items, budget, item, i);
      if i < |items| {
        assert LeftOutOf(p, items[i], d);
      }
    }
  }

  lemma TryAddKeepsOk(p: Packed, core: nat, items: seq<Item>, budget: nat, item: Item)
    requires PackOk(p, core, items, budget)
    ensures PackOk(TryAdd(p, item, budget), core, items + [item], budget)
  {
    var q, all := TryAdd(p, item, budget), items + [item];
    TryAddTotals(p, core, budget, item);
    forall kind { TryAddSources(p, core, items, budget, item, kind); }
    forall i | 0 <= i < |all| && all[i].text != "" && all[i].text !in Included(q, all[i].kind)
      ensures q.total + EstimateTokens(all[i].text) > budget
    {
      TryAddUnfit(p, core, items, budget, item, i);
    }
    forall d { TryAddOmittedFrom(p, core, items, budget, item, d); }
    hide *;
  }

  lemma {:induction false} PackKeepsOk(core: nat, items: seq<Item>, budget: nat)
    ensures PackOk(Pack(Empty(core), items, budget), core, items, budget)
  {
    if items != [] {
      var front := items[..|items| - 1];
      PackKeepsOk(core, front, budget);
      TryAddKeepsOk(Pack(Empty(core), front, budget), core, front, budget, items[|items| - 1]);
      assert items == front + [items[|items| - 1]];
    }
  }

  /** Including one more text does not change what earlier candidates are left out. */
  lemma {:induction false} LeftOutStable(items: seq<Item>, kind: Kind, included: seq<string>, more: seq<string>)
    requires included <= more
    requires forall i :: 0 <= i < |items| && IsLeftOut(items[i], kind, included) ==> items[i].text !in more
    ensures CountLeftOut(items, kind, more) == CountLeftOut(items, kind, included)
  {
    if items != [] {
      var front := items[..|items| - 1];
      forall i | 0 <= i < |front| && IsLeftOut(front[i], kind, included) ensures front[i].text !in more {
        assert front[i] == items[i];
      }
      LeftOutStable(front, kind, included, more);
    }
  }

  /** The omission counters count candidate occurrences, so a text repeated in the inputs is
      counted as often as it was tried. */
  lemma {:induction false} OmissionCountsExact(core: nat, items: seq<Item>, budget: nat, kind: Kind)
    ensures var p := Pack(Empty(core), items, budget);
            Omitted(p, kind) == CountLeftOut(items, kind, Included(p, kind))
  {
    if items != [] {
      var front, item := items[..|items| - 1], items[|items| - 1];
      var p := Pack(Empty(core), front, budget);
      OmissionCountsExact(core, front, budget, kind);
      PackKeepsOk(core, front, budget);
      OmissionStep(p, core, front, budget, item, kind);
      assert items == front + [item];
    }
  }

  lemma OmissionStep(p: Packed, core: nat, front: seq<Item>, budget: nat, item: Item, kind: Kind)
    requires PackOk(p, core, front, budget)
    requires Omitted(p, kind) == CountLeftOut(front, kind, Included(p, kind))
    ensures var q := TryAdd(p, item, budget);
            Omitted(q, kind) == CountLeftOut(front + [item], kind, Included(q, kind))
  {
    var q := TryAdd(p, item, budget);
    TryAddIncluded(p, item, budget, kind);
    forall i | 0 <= i < |front| && IsLeftOut(front[i], kind, Included(p, kind)) ensures front[i].text !in Included(q, kind) {
      OmittedStaysOmitted(p, core, front, budget, i, item);
    }
    LeftOutStable(front, kind, Included(p, kind), Included(q, kind));
    TryAddCounts(p, item, budget, kind);
    hide PackOk, TryAdd, Included, Omitted;
    assert (front + [item])[..|front|] == front;
  }

  lemma TryAddCounts(p: Packed, item: Item, budget: nat, kind: Kind)
    ensures var q := TryAdd(p, item, budget); Omitted(q, kind) == Omitted(p, kind) + (if IsLeftOut(item, kind, Included(q, kind)) then 1 else 0)
  {
  }

  // ---------------------------------------------------------------- the tiers

  function Items(kind: Kind, texts: seq<string>, dep: Option<string>): seq<Item> {
    seq(|texts|, i requires 0 <= i < |texts| => Item(kind, texts[i], dep))
  }

  /** P1: the sprint's own state. */
  function OwnTier(s: Sprint): seq<Item> {
    Items(Fact, SortStrings(s.knownFacts), None) + Items(Question, SortStrings(s.openQuestions), None)
      + Items(Evidence, SortStrings(s.evidenceRequirements), None)
  }

  function PassItems(id: string, c: Checkpoint): seq<Item> {
    if c.failure != Some(Pass) then []
    else Items(Fact, SortedSet(c.confirmedPaths + c.findings), Some(id)) + Items(Evidence, SortStrings(c.evidenceRefs), Some(id))
  }

  function OutcomeName(o: Outcome): string {
    match o
    case Pass => "PASS"
    case Incomplete => "INCOMPLETE"
    case Unsupported => "UNSUPPORTED"
    case TaskDrift => "TASK_DRIFT"
    case BudgetExceeded => "BUDGET_EXCEEDED"
    case ToolFailure => "TOOL_FAILURE"
    case Contradiction => "CONTRADICTION"
    case CapabilityFailure => "CAPABILITY_FAILURE"
    case InvalidOutput => "INVALID_OUTPUT"
  }

  function NotPassedQuestion(id: string, c: Checkpoint): string {
    "dependency " + id + " checkpoint v" + Text.Decimal(c.version) + " did not PASS (failure_class="
      + (if c.failure.Some? then OutcomeName(c.failure.value) else "None") + ") - its findings are not trusted"
  }

  function FailItems(id: string, c: Checkpoint): seq<Item> {
    if c.failure == Some(Pass) then []
    else [Item(Question, NotPassedQuestion(id, c), Some(id))] + Items(Question, SortStrings(c.openQuestions), Some(id))
           + Items(Question, SortStrings(c.unresolvedItems), Some(id))
  }

  function PassItemsOf(id: string, chosen: map<string, Checkpoint>): seq<Item> { if id in chosen then PassItems(id, chosen[id]) else [] }

  function FailItemsOf(id: string, chosen: map<string, Checkpoint>): seq<Item> { if id in chosen then FailItems(id, chosen[id]) else [] }

  /** P2, in dependency order. */
  function PassTier(ids: seq<string>, chosen: map<string, Checkpoint>): seq<Item> {
    if ids == [] then []
    else PassTier(ids[..|ids| - 1], chosen) + PassItemsOf(ids[|ids| - 1], chosen)
  }

  /** P3, in dependency order. */
  function FailTier(ids: seq<string>, chosen: map<string, Checkpoint>): seq<Item> {
    if ids == [] then []
    else FailTier(ids[..|ids| - 1], chosen) + FailItemsOf(ids[|ids| - 1], chosen)
  }

  function Candidates(s: Sprint, chosen: map<string, Checkpoint>): seq<Item> {
    OwnTier(s) + PassTier(SortedSet(s.dependencies), chosen) + FailTier(SortedSet(s.dependencies), chosen)
  }

  function Refs(ids: seq<string>, chosen: map<string, Checkpoint>): seq<Ref> {
    if ids == [] then []
    else Refs(ids[..|ids| - 1], chosen)
           + (if ids[|ids| - 1] in chosen then [Ref(ids[|ids| - 1], chosen[ids[|ids| - 1]].version)] else [])
  }

  function Assemble(s: Sprint, chosen: map<string, Checkpoint>, p: Packed): Context {
    Context(CoreOf(s), SortStrings(p.facts), SortStrings(p.evidence), SortStrings(p.questions),
            Refs(SortedSet(s.dependencies), chosen), |p.omittedFrom|, p.omittedFacts, p.omittedQuestions, p.omittedEvidence,
            p.total, p.omittedFacts + p.omittedQuestions + p.omittedEvidence > 0)
  }

  predicate AllResolved(s: Sprint, chosen: map<string, Checkpoint>) {
    forall d :: d in s.dependencies ==> d in chosen
  }

  /** `compile_context`, as one function of its inputs. */
  function Compile(plan: Plan, s: Sprint, cps: seq<Checkpoint>, coreTokens: Core -> nat): Result<Context, Error> {
    if !BelongsToPlan(plan, s) then Err(SprintNotInPlan)
    else if !OneMission(cps, s.dependencies, s.missionId) then Err(DependencyFromOtherMission)
    else
      var chosen := Select(cps, s.dependencies);
      if !AllResolved(s, chosen) then Err(DependencyCheckpointMissing)
      else if coreTokens(CoreOf(s)) > s.tokenBudget then Err(BudgetUnsatisfiable)
      else Ok(Assemble(s, chosen, Pack(Empty(coreTokens(CoreOf(s))), Candidates(s, chosen), s.tokenBudget)))
  }

  // ---------------------------------------------------------------- the compiler's own loops

  class Packer {
    const budget: nat
    var total: nat
    var facts: seq<string>
    var questions: seq<string>
    var evidence: seq<string>
    var omittedFacts: nat
    var omittedQuestions: nat
    var omittedEvidence: nat
    var omittedFrom: set<string>

    ghost function View(): Packed
      reads this
    {
      Packed(total, facts, questions, evidence, omittedFacts, omittedQuestions, omittedEvidence, omittedFrom)
    }

    constructor (budget: nat, coreTokens: nat)
      ensures this.budget == budget && View() == Empty(coreTokens)
    {
      this.budget, total := budget, coreTokens;
      facts, questions, evidence := [], [], [];
      omittedFacts, omittedQuestions, omittedEvidence, omittedFrom := 0, 0, 0, {};
    }

    method Add(kind: Kind, text: string, dep: Option<string>)
      modifies this
      ensures View() == TryAdd(old(View()), Item(kind, text, dep), budget)
    {
      var seen := match kind case Fact => text in facts case Question => text in questions case Evidence => text in evidence;
      if text == "" || seen {
        return;
      }
      var tokens := EstimateTokens(text);
      if total + tokens <= budget {
        match kind {
          case Fact => facts := facts + [text];
          case Question => questions := questions + [text];
          case Evidence => evidence := evidence + [text];
        }
        total := total + tokens;
      } else {
        match kind {
          case Fact => omittedFacts := omittedFacts + 1;
          case Question => omittedQuestions := omittedQuestions + 1;
          case Evidence => omittedEvidence := omittedEvidence + 1;
        }
        if dep.Some? && dep.value != "" {
          omittedFrom := omittedFrom + {dep.value};
        }
      }
    }

    method AddAll(kind: Kind, texts: seq<string>, dep: Option<string>)
      modifies this
      ensures View() == Pack(old(View()), Items(kind, texts, dep), budget)
    {
      var i := 0;
      while i < |texts|
        invariant 0 <= i <= |texts|
        invariant View() == Pack(old(View()), Items(kind, texts[..i], dep), budget)
      {
        Add(kind, texts[i], dep);
        var items := Items(kind, texts[..i + 1], dep);
        assert items[..|items| - 1] == Items(kind, texts[..i], dep);
        i := i + 1;
      }
      assert texts[..i] == texts;
    }
  }

  method SelectLatest(s: Sprint, cps: seq<Checkpoint>) returns (r: Result<map<string, Checkpoint>, Error>)
    ensures r == if OneMission(cps, s.dependencies, s.missionId) then Ok(Select(cps, s.dependencies)) else Err(DependencyFromOtherMission)
  {
    var chosen := map[];
    var i := 0;
    while i < |cps|
      invariant 0 <= i <= |cps|
      invariant OneMission(cps[..i], s.dependencies, s.missionId)
      invariant chosen == Select(cps[..i], s.dependencies)
    {
      var c := cps[i];
      assert cps[..i + 1][..i] == cps[..i];
      if c.sprintId in s.dependencies {
        if c.missionId != s.missionId {
          return Err(DependencyFromOtherMission);
        }
        if c.sprintId !in chosen || c.version > chosen[c.sprintId].version {
          chosen := chosen[c.sprintId := c];
        }
      }
      i := i + 1;
    }
    assert cps[..i] == cps;
    r := Ok(chosen);
  }

  method CompileContext(plan: Plan, s: Sprint, cps: seq<Checkpoint>, coreTokens: Core -> nat) returns (r: Result<Context, Error>)
    ensures r == Compile(plan, s, cps, coreTokens)
  {
    if !BelongsToPlan(plan, s) {
      return Err(SprintNotInPlan);
    }
    var selected := SelectLatest(s, cps);
    if selected.Err? {
      return Err(selected.error);
    }
    var chosen := selected.value;
    if !AllResolved(s, chosen) {
      return Err(DependencyCheckpointMissing);
    }
    var core := coreTokens(CoreOf(s));
    if core > s.tokenBudget {
      return Err(BudgetUnsatisfiable);
    }
    var packer := new Packer(s.tokenBudget, core);
    var p := FillTiers(packer, s, chosen);
    r := Ok(Assemble(s, chosen, p));
  }

  method FillTiers(packer: Packer, s: Sprint, chosen: map<string, Checkpoint>) returns (p: Packed)
    modifies packer
    ensures p == packer.View() == Pack(old(packer.View()), Candidates(s, chosen), packer.budget)
  {
    hide Pack, OwnTier, PassTier, FailTier;
    ghost var p0 := packer.View();
    var ids := SortedSet(s.dependencies);
    FillOwn(packer, s);
    FillPassed(packer, ids, chosen);
    FillFailed(packer, ids, chosen);
    PackConcat(p0, OwnTier(s), PassTier(ids, chosen), packer.budget);
    PackConcat(p0, OwnTier(s) + PassTier(ids, chosen), FailTier(ids, chosen), packer.budget);
    p := Packed(packer.total, packer.facts, packer.questions, packer.evidence, packer.omittedFacts,
                packer.omittedQuestions, packer.omittedEvidence, packer.omittedFrom);
  }

  method FillOwn(packer: Packer, s: Sprint)
    modifies packer
    ensures packer.View() == Pack(old(packer.View()), OwnTier(s), packer.budget)
  {
    hide Pack;
    ghost var p0 := packer.View();
    var facts, questions, evidence := SortStrings(s.knownFacts), SortStrings(s.openQuestions), SortStrings(s.evidenceRequirements);
    packer.AddAll(Fact, facts, None);
    packer.AddAll(Question, questions, None);
    packer.AddAll(Evidence, evidence, None);
    PackConcat(p0, Items(Fact, facts, None), Items(Question, questions, None), packer.budget);
    PackConcat(p0, Items(Fact, facts, None) + Items(Question, questions, None), Items(Evidence, evidence, None), packer.budget);
  }

  method FillPassed(packer: Packer, ids: seq<string>, chosen: map<string, Checkpoint>)
    modifies packer
    ensures packer.View() == Pack(old(packer.View()), PassTier(ids, chosen), packer.budget)
  {
    hide Pack, PassTier, PassItemsOf;
    ghost var p0 := packer.View();
    var i := 0;
    NothingPacked(p0, chosen, packer.budget);
    while i < |ids|
      invariant 0 <= i <= |ids|
      invariant packer.View() == Pack(p0, PassTier(ids[..i], chosen), packer.budget)
    {
      PassStep(p0, ids, i, chosen, packer.budget);
      FillOnePassed(packer, ids[i], chosen);
      i := i + 1;
    }
    assert ids[..i] == ids;
  }

  method FillOnePassed(packer: Packer, id: string, chosen: map<string, Checkpoint>)
    modifies packer
    ensures packer.View() == Pack(old(packer.View()), PassItemsOf(id, chosen), packer.budget)
  {
    if id in chosen && chosen[id].failure == Some(Pass) {
      AddPassed(packer, id, chosen[id]);
    }
  }

  method FillFailed(packer: Packer, ids: seq<string>, chosen: map<string, Checkpoint>)
    modifies packer
    ensures packer.View() == Pack(old(packer.View()), FailTier(ids, chosen), packer.budget)
  {
    hide Pack, FailTier, FailItemsOf;
    ghost var p0 := packer.View();
    var i := 0;
    NothingPacked(p0, chosen, packer.budget);
    while i < |ids|
      invariant 0 <= i <= |ids|
      invariant packer.View() == Pack(p0, FailTier(ids[..i], chosen), packer.budget)
    {
      FailStep(p0, ids, i, chosen, packer.budget);
      FillOneFailed(packer, ids[i], chosen);
      i := i + 1;
    }
    assert ids[..i] == ids;
  }

  method FillOneFailed(packer: Packer, id: string, chosen: map<string, Checkpoint>)
    modifies packer
    ensures packer.View() == Pack(old(packer.View()), FailItemsOf(id, chosen), packer.budget)
  {
    if id in chosen && chosen[id].failure != Some(Pass) {
      AddFailure(packer, id, chosen[id]);
    }
  }

  lemma NothingPacked(p0: Packed, chosen: map<string, Checkpoint>, budget: nat)
    ensures Pack(p0, PassTier([], chosen), budget) == p0 && Pack(p0, FailTier([], chosen), budget) == p0
    ensures forall ids: seq<string> :: ids[..0] == []
  {
  }

  lemma PassStep(p0: Packed, ids: seq<string>, i: nat, chosen: map<string, Checkpoint>, budget: nat)
    requires i < |ids|
    ensures Pack(p0, PassTier(ids[..i + 1], chosen), budget) == Pack(Pack(p0, PassTier(ids[..i], chosen), budget), PassItemsOf(ids[i], chosen), budget)
  {
    hide Pack, PassItemsOf;
    assert ids[..i + 1][..i] == ids[..i];
    PackConcat(p0, PassTier(ids[..i], chosen), PassItemsOf(ids[i], chosen), budget);
  }

  lemma FailStep(p0: Packed, ids: seq<string>, i: nat, chosen: map<string, Checkpoint>, budget: nat)
    requires i < |ids|
    ensures Pack(p0, FailTier(ids[..i + 1], chosen), budget) == Pack(Pack(p0, FailTier(ids[..i], chosen), budget), FailItemsOf(ids[i], chosen), budget)
  {
    hide Pack, FailItemsOf;
    assert ids[..i + 1][..i] == ids[..i];
    PackConcat(p0, FailTier(ids[..i], chosen), FailItemsOf(ids[i], chosen), budget);
  }

  method AddPassed(packer: Packer, id: string, c: Checkpoint)
    requires c.failure == Some(Pass)
    modifies packer
    ensures packer.View() == Pack(old(packer.View()), PassItems(id, c), packer.budget)
  {
    hide Pack;
    ghost var q := packer.View();
    var facts, evidence := SortedSet(c.confirmedPaths + c.findings), SortStrings(c.evidenceRefs);
    packer.AddAll(Fact, facts, Some(id));
    packer.AddAll(Evidence, evidence, Some(id));
    PackConcat(q, Items(Fact, facts, Some(id)), Items(Evidence, evidence, Some(id)), packer.budget);
  }

  method AddFailure(packer: Packer, id: string, c: Checkpoint)
    requires c.failure != Some(Pass)
    modifies packer
    ensures packer.View() == Pack(old(packer.View()), FailItems(id, c), packer.budget)
  {
    ghost var q := packer.View();
    var question := NotPassedQuestion(id, c);
    packer.Add(Question, question, Some(id));
    var first := [Item(Question, question, Some(id))];
    assert first[..0] == [];
    assert packer.View() == Pack(q, first, packer.budget);
    packer.AddAll(Question, SortStrings(c.openQuestions), Some(id));
    packer.AddAll(Question, SortStrings(c.unresolvedItems), Some(id));
    PackConcat(q, first, Items(Question, SortStrings(c.openQuestions), Some(id)), packer.budget);
    PackConcat(q, first + Items(Question, SortStrings(c.openQuestions), Some(id)),
               Items(Question, SortStrings(c.unresolvedItems), Some(id)), packer.budget);
  }
}
