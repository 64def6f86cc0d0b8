/** Who comes first in a compiled context (context_compiler.py:310-406), said of the compiler alone:
    whether a text is included is the same when everything of lower priority is taken away from
    the inputs, and it is missing only if it does not fit beside what has priority over it. */
module ContextPriority {
  import opened Common
  import opened Ordering
  import opened ContextCompiler
  import opened ContextProperties

  // ---------------------------------------------------------------- sorted lists and filters

  function UpTo(x: string): string -> bool { (y: string) => Leq(Codes(y), Codes(x)) }

  lemma {:induction false} SortedFilter<T>(xs: seq<T>, key: T -> seq<int>, p: T -> bool)
    requires Sorted(xs, key)
    ensures Sorted(Filter(xs, p), key)
  {
    if xs != [] {
      var n := |xs| - 1;
      assert Sorted(xs[..n], key);
      SortedFilter(xs[..n], key, p);
      var front := Filter(xs[..n], p);
      forall i | 0 <= i < |front| ensures Leq(key(front[i]), key(xs[n])) {
        var k := FilterOrigin(xs[..n], p, i);
        assert xs[..n][k] == xs[k];
      }
      LeqTotal(key(xs[n]), key(xs[n]));
    }
  }

  lemma {:induction false} FilterOrigin<T>(xs: seq<T>, p: T -> bool, i: nat) returns (k: nat)
    requires i < |Filter(xs, p)|
    ensures k < |xs| && xs[k] == Filter(xs, p)[i] && p(xs[k])
  {
    var n := |xs| - 1;
    if i < |Filter(xs[..n], p)| {
      k := FilterOrigin(xs[..n], p, i);
    } else {
      k := n;
    }
  }

  lemma SortOfFilter(xs: seq<string>, p: string -> bool)
    ensures SortStrings(Filter(xs, p)) == Filter(SortStrings(xs), p)
  {
    SortByPermutes(xs, Codes);
    SortBySorts(xs, Codes);
    SortedFilter(SortStrings(xs), Codes, p);
    FilterPermutes(xs, SortStrings(xs), p);
    SortByPermutes(Filter(xs, p), Codes);
    SortBySorts(Filter(xs, p), Codes);
    StringKeysInjective(multiset(SortStrings(Filter(xs, p))));
    hide SortStrings, Filter;
    SortedUnique(SortStrings(Filter(xs, p)), Filter(SortStrings(xs), p), Codes);
  }

  lemma {:induction false} FilterDistinct<T>(xs: seq<T>, p: T -> bool)
    requires NoDuplicates(xs)
    ensures NoDuplicates(Filter(xs, p))
  {
    if xs != [] {
      var n := |xs| - 1;
      FilterDistinct(xs[..n], p);
      FilterMembers(xs[..n], p);
    }
  }

  lemma SortedSetFilter(xs: seq<string>, p: string -> bool)
    ensures SortedSet(Filter(xs, p)) == Filter(SortedSet(xs), p)
  {
    SortedSetMembers(xs);
    FilterMembers(xs, p);
    FilterMembers(SortedSet(xs), p);
    var ys := Filter(SortedSet(xs), p);
    FilterDistinct(SortedSet(xs), p);
    SortBySorts(Dedup(xs), Codes);
    SortedFilter(SortedSet(xs), Codes, p);
    SortedSetOrderFree(Filter(xs, p), ys);
    DedupNothing(ys);
    SortByPermutes(ys, Codes);
    SortBySorts(ys, Codes);
    StringKeysInjective(multiset(SortStrings(ys)));
    SortedUnique(SortStrings(ys), ys, Codes);
  }

  /** In a sorted list what is up to `x` is a beginning. */
  lemma {:induction false} UpToIsPrefix(xs: seq<string>, x: string)
    requires Sorted(xs, Codes)
    ensures Filter(xs, UpTo(x)) <= xs
  {
    if xs != [] {
      var n := |xs| - 1;
      PrefixSorted(xs, n);
      UpToIsPrefix(xs[..n], x);
      assert xs == xs[..n] + [xs[n]];
      if UpTo(x)(xs[n]) {
        AllUpTo(xs, x);
      } else {
        hide UpTo, Sorted, Codes;
        assert Filter(xs, UpTo(x)) == Filter(xs[..n], UpTo(x)) + [];
      }
    }
  }

  lemma PrefixSorted(xs: seq<string>, n: nat)
    requires Sorted(xs, Codes) && n <= |xs|
    ensures Sorted(xs[..n], Codes)
  {
  }

  lemma AllUpTo(xs: seq<string>, x: string)
    requires Sorted(xs, Codes) && xs != [] && Leq(Codes(xs[|xs| - 1]), Codes(x))
    ensures Filter(xs, UpTo(x)) == xs
  {
    hide Leq, Codes, Sorted, Filter, UpTo;
    forall i | 0 <= i < |xs| ensures UpTo(x)(xs[i]) { BeforeLast(xs, i, x); }
    FilterAll(xs, UpTo(x));
  }

  lemma BeforeLast(xs: seq<string>, i: nat, x: string)
    requires Sorted(xs, Codes) && i < |xs| && Leq(Codes(xs[|xs| - 1]), Codes(x))
    ensures UpTo(x)(xs[i])
  {
    if i < |xs| - 1 {
      var a, b, c := Codes(xs[i]), Codes(xs[|xs| - 1]), Codes(x);
      assert Leq(a, b);
      LeqTransitive(a, b, c);
    }
  }

  lemma {:induction false} FilterAll<T>(xs: seq<T>, p: T -> bool)
    requires forall i :: 0 <= i < |xs| ==> p(xs[i])
    ensures Filter(xs, p) == xs
  {
    if xs != [] {
      FilterAll(xs[..|xs| - 1], p);
      assert xs == xs[..|xs| - 1] + [xs[|xs| - 1]];
    }
  }

  // ---------------------------------------------------------------- smaller inputs, smaller tiers

  /** The dependency's chosen checkpoint passed. */
  predicate Passed(chosen: map<string, Checkpoint>, id: string) { id in chosen && chosen[id].failure == Some(Pass) }

  lemma {:induction false} PassTierOfFilter(ids: seq<string>, chosen: map<string, Checkpoint>, q: string -> bool)
    requires forall id :: id in ids && Passed(chosen, id) ==> q(id)
    ensures PassTier(Filter(ids, q), chosen) == PassTier(ids, chosen)
  {
    hide PassItems;
    if ids != [] {
      var front, id := ids[..|ids| - 1], ids[|ids| - 1];
      PassTierOfFilter(front, chosen, q);
      if q(id) {
        assert Filter(ids, q)[..|Filter(ids, q)| - 1] == Filter(front, q);
      } else {
        assert Filter(ids, q) == Filter(front, q) + [] == Filter(front, q);
        NotPassedHasNoPassItems(id, chosen);
        assert PassTier(front, chosen) + [] == PassTier(front, chosen);
      }
    }
  }

  lemma NotPassedHasNoPassItems(id: string, chosen: map<string, Checkpoint>)
    ensures !Passed(chosen, id) ==> PassItemsOf(id, chosen) == []
    ensures Passed(chosen, id) ==> FailItemsOf(id, chosen) == []
  {
  }

  lemma {:induction false} FailTierOfFilter(ids: seq<string>, chosen: map<string, Checkpoint>, q: string -> bool)
    requires forall id :: id in ids && !Passed(chosen, id) ==> q(id)
    ensures FailTier(Filter(ids, q), chosen) == FailTier(ids, chosen)
  {
    hide FailItems;
    if ids != [] {
      var front, id := ids[..|ids| - 1], ids[|ids| - 1];
      FailTierOfFilter(front, chosen, q);
      if q(id) {
        assert Filter(ids, q)[..|Filter(ids, q)| - 1] == Filter(front, q);
      } else {
        assert Filter(ids, q) == Filter(front, q) + [] == Filter(front, q);
        NotPassedHasNoPassItems(id, chosen);
        assert FailTier(front, chosen) + [] == FailTier(front, chosen);
      }
    }
  }

  lemma {:induction false} TiersAgree(ids: seq<string>, a: map<string, Checkpoint>, b: map<string, Checkpoint>)
    requires forall id :: id in ids ==> id in a && id in b && a[id] == b[id]
    ensures PassTier(ids, a) == PassTier(ids, b) && FailTier(ids, a) == FailTier(ids, b)
  {
    hide PassItems, FailItems;
    if ids != [] {
      TiersAgree(ids[..|ids| - 1], a, b);
    }
  }

  lemma {:induction false} TierPrefix(ids: seq<string>, n: nat, chosen: map<string, Checkpoint>)
    requires n <= |ids|
    ensures PassTier(ids[..n], chosen) <= PassTier(ids, chosen) && FailTier(ids[..n], chosen) <= FailTier(ids, chosen)
    decreases |ids|
  {
    hide PassItems, FailItems;
    if n < |ids| {
      TierPrefix(ids[..|ids| - 1], n, chosen);
      assert ids[..|ids| - 1][..n] == ids[..n];
    } else {
      assert ids[..n] == ids;
    }
  }

  /** Declaring fewer dependencies keeps what is chosen for those left. */
  lemma {:induction false} SelectFewer(cps: seq<Checkpoint>, declared: seq<string>, fewer: seq<string>)
    requires forall d :: d in fewer ==> d in declared
    ensures forall d :: d in Select(cps, fewer) <==> d in fewer && d in Select(cps, declared)
    ensures forall d :: d in Select(cps, fewer) ==> Select(cps, fewer)[d] == Select(cps, declared)[d]
  {
    if cps != [] {
      SelectFewer(cps[..|cps| - 1], declared, fewer);
    }
  }

  // ---------------------------------------------------------------- what comes first decides alone

  /** An estimate is as many tokens as whole groups of four characters, but one for any text. */
  lemma EstimateReads(text: string)
    ensures EstimateTokens(text) == 0 <==> text == ""
    ensures |text| < 4 * (EstimateTokens(text) + 1)
    ensures EstimateTokens(text) >= 2 ==> 4 * EstimateTokens(text) <= |text|
  {
  }

  /** `s1` keeps everything of `s` that is not optional: its compilation starts from the same core. */
  predicate SameFrame(s: Sprint, s1: Sprint) { CoreOf(s) == CoreOf(s1) && s.tokenBudget == s1.tokenBudget }

  lemma IncludedInContext(plan: Plan, s: Sprint, cps: seq<Checkpoint>, coreTokens: Core -> nat, kind: Kind, x: string)
    requires Compile(plan, s, cps, coreTokens).Ok?
    ensures x in ContextTexts(Compile(plan, s, cps, coreTokens).value, kind)
       <==> x in Included(Pack(Empty(coreTokens(CoreOf(s))), Tried(s, cps), s.tokenBudget), kind)
    ensures Compile(plan, s, cps, coreTokens).value.tokens == Pack(Empty(coreTokens(CoreOf(s))), Tried(s, cps), s.tokenBudget).total
  {
    var p := Pack(Empty(coreTokens(CoreOf(s))), Tried(s, cps), s.tokenBudget);
    var c := Compile(plan, s, cps, coreTokens).value;
    assert c == Assemble(s, Select(cps, s.dependencies), p);
    hide Compile, Pack, Candidates;
    SortByMembers(Included(p, kind), Codes, x);
  }

  lemma PrefixDecides(plan: Plan, s: Sprint, cps: seq<Checkpoint>, s1: Sprint, cps1: seq<Checkpoint>, coreTokens: Core -> nat, i: nat)
    requires Compile(plan, s, cps, coreTokens).Ok? && Compile(plan, s1, cps1, coreTokens).Ok? && SameFrame(s, s1)
    requires Tried(s1, cps1) <= Tried(s, cps) && i < |Tried(s1, cps1)| && Tried(s1, cps1)[i].text != ""
    ensures var c, c1, item := Compile(plan, s, cps, coreTokens).value, Compile(plan, s1, cps1, coreTokens).value, Tried(s1, cps1)[i];
            && (item.text in ContextTexts(c, item.kind) <==> item.text in ContextTexts(c1, item.kind))
            && (item.text !in ContextTexts(c, item.kind) ==> c1.tokens + EstimateTokens(item.text) > s.tokenBudget)
  {
    var core, tier := coreTokens(CoreOf(s)), Tried(s1, cps1);
    var later := Tried(s, cps)[|tier|..];
    assert Tried(s, cps) == tier + later;
    var item := tier[i];
    IncludedInContext(plan, s, cps, coreTokens, item.kind, item.text);
    IncludedInContext(plan, s1, cps1, coreTokens, item.kind, item.text);
    hide Compile, Pack, Candidates, Tried, EstimateTokens;
    TierDecidesItsOwn(core, tier, later, s.tokenBudget, i);
    ContextAccounts(plan, s1, cps1, coreTokens);
  }

  lemma ItemsPrefix(kind: Kind, a: seq<string>, b: seq<string>, dep: Option<string>)
    requires a <= b
    ensures Items(kind, a, dep) <= Items(kind, b, dep)
  {
  }

  function OwnTexts(s: Sprint, kind: Kind): seq<string> {
    match kind
    case Fact => s.knownFacts
    case Question => s.openQuestions
    case Evidence => s.evidenceRequirements
  }

  /** The sprint with only what has priority over its own text `x`, and `x` itself: no dependencies, of
      the same list only what sorts up to `x`, and of the lists facts, questions, evidence only those
      before it. */
  function OwnUpTo(s: Sprint, kind: Kind, x: string): Sprint {
    var bare := s.(dependencies := []);
    match kind
    case Fact => bare.(knownFacts := Filter(s.knownFacts, UpTo(x)), openQuestions := [], evidenceRequirements := [])
    case Question => bare.(openQuestions := Filter(s.openQuestions, UpTo(x)), evidenceRequirements := [])
    case Evidence => bare.(evidenceRequirements := Filter(s.evidenceRequirements, UpTo(x)))
  }

  lemma KeptUpTo(xs: seq<string>, x: string)
    ensures SortStrings(Filter(xs, UpTo(x))) <= SortStrings(xs)
    ensures x in xs ==> x in SortStrings(Filter(xs, UpTo(x)))
  {
    SortBySorts(xs, Codes);
    SortOfFilter(xs, UpTo(x));
    UpToIsPrefix(SortStrings(xs), x);
    if x in xs {
      LeqTotal(Codes(x), Codes(x));
      FilterMembers(xs, UpTo(x));
      SortByMembers(Filter(xs, UpTo(x)), Codes, x);
      assert x in Filter(xs, UpTo(x));
    }
  }

  lemma NothingElse()
    ensures SortStrings([]) == [] && SortedSet([]) == []
  {
  }

  lemma OwnTriedPrefix(s: Sprint, cps: seq<Checkpoint>, kind: Kind, x: string)
    ensures Tried(OwnUpTo(s, kind, x), []) <= Tried(s, cps)
    ensures x in OwnTexts(s, kind) ==> Item(kind, x, None) in Tried(OwnUpTo(s, kind, x), [])
  {
    var xs := OwnTexts(s, kind);
    KeptUpTo(xs, x);
    NothingElse();
    var kept, sorted := SortStrings(Filter(xs, UpTo(x))), SortStrings(xs);
    hide SortStrings, SortedSet, Filter, UpTo;
    ItemsPrefix(kind, kept, sorted, None);
    var s1 := OwnUpTo(s, kind, x);
    var f, q := Items(Fact, SortStrings(s.knownFacts), None), Items(Question, SortStrings(s.openQuestions), None);
    assert PassTier([], map[]) == [] && FailTier([], map[]) == [];
    var mine := Items(kind, kept, None);
    assert Tried(s1, []) == match kind case Fact => mine case Question => f + mine case Evidence => f + q + mine;
    if x in xs {
      var i :| 0 <= i < |kept| && kept[i] == x;
      assert mine[i] == Item(kind, x, None);
    }
  }

  /** The sprint's own state comes first. Whether one of its own texts is included is the same with
      everything of lower priority taken away; it is missing only if it does not fit beside that. */
  lemma OwnPriority(plan: Plan, s: Sprint, cps: seq<Checkpoint>, coreTokens: Core -> nat, kind: Kind, x: string)
    requires Compile(plan, s, cps, coreTokens).Ok? && x in OwnTexts(s, kind) && x != ""
    ensures Compile(plan, OwnUpTo(s, kind, x), [], coreTokens).Ok?
    ensures var c, c1 := Compile(plan, s, cps, coreTokens).value, Compile(plan, OwnUpTo(s, kind, x), [], coreTokens).value;
            && (x in ContextTexts(c, kind) <==> x in ContextTexts(c1, kind))
            && (x !in ContextTexts(c, kind) ==> c1.tokens + EstimateTokens(x) > s.tokenBudget)
  {
    OwnTriedPrefix(s, cps, kind, x);
    var s1 := OwnUpTo(s, kind, x);
    var i :| 0 <= i < |Tried(s1, [])| && Tried(s1, [])[i] == Item(kind, x, None);
    hide Tried, Candidates, Pack, OneMission, Filter, EstimateTokens, Assemble;
    assert Compile(plan, s1, [], coreTokens).Ok? by { TrimmedCompiles(plan, s, cps, coreTokens, kind, x); }
    PrefixDecides(plan, s, cps, s1, [], coreTokens, i);
  }

  lemma TrimmedCompiles(plan: Plan, s: Sprint, cps: seq<Checkpoint>, coreTokens: Core -> nat, kind: Kind, x: string)
    requires Compile(plan, s, cps, coreTokens).Ok?
    ensures Compile(plan, OwnUpTo(s, kind, x), [], coreTokens).Ok?
  {
    hide Pack, Candidates, Filter;
  }

  /** The sprint alone, without dependencies: what it includes is its own, and every own text that a
      compilation with dependencies includes, and no other, is included. */
  lemma OwnAlone(plan: Plan, s: Sprint, cps: seq<Checkpoint>, coreTokens: Core -> nat)
    requires Compile(plan, s, cps, coreTokens).Ok?
    ensures Compile(plan, s.(dependencies := []), [], coreTokens).Ok?
    ensures var c, alone := Compile(plan, s, cps, coreTokens).value, Compile(plan, s.(dependencies := []), [], coreTokens).value;
            forall kind, x :: x != "" && x in OwnTexts(s, kind) ==> (x in ContextTexts(c, kind) <==> x in ContextTexts(alone, kind))
  {
    var s1 := s.(dependencies := []);
    assert Compile(plan, s1, [], coreTokens).Ok? by { hide Pack, Candidates; }
    hide Compile, Pack, Candidates, ContextTexts, OwnTexts, OwnUpTo;
    forall kind, x | x != "" && x in OwnTexts(s, kind)
      ensures x in ContextTexts(Compile(plan, s, cps, coreTokens).value, kind) <==> x in ContextTexts(Compile(plan, s1, [], coreTokens).value, kind)
    {
      SameTrim(s, kind, x);
      OwnPriority(plan, s, cps, coreTokens, kind, x);
      OwnPriority(plan, s1, [], coreTokens, kind, x);
    }
  }

  lemma SameTrim(s: Sprint, kind: Kind, x: string)
    ensures OwnUpTo(s.(dependencies := []), kind, x) == OwnUpTo(s, kind, x) && OwnTexts(s.(dependencies := []), kind) == OwnTexts(s, kind)
  {
  }

  // ---------------------------------------------------------------- dependencies

  /** The dependencies that have priority over failed `d`'s content: all that passed, and those up to `d`. */
  function BeforeFailed(chosen: map<string, Checkpoint>, d: string): string -> bool {
    (id: string) => Passed(chosen, id) || Leq(Codes(id), Codes(d))
  }

  /** Those that have priority over passed `d`'s: the passed ones up to `d`. */
  function BeforePassed(chosen: map<string, Checkpoint>, d: string): string -> bool {
    (id: string) => Passed(chosen, id) && Leq(Codes(id), Codes(d))
  }

  function Fewer(s: Sprint, q: string -> bool): Sprint { s.(dependencies := Filter(s.dependencies, q)) }

  /** Declaring fewer dependencies is still a valid compilation, over the same chosen checkpoints. */
  lemma FewerCompiles(plan: Plan, s: Sprint, cps: seq<Checkpoint>, coreTokens: Core -> nat, q: string -> bool)
    requires Compile(plan, s, cps, coreTokens).Ok?
    ensures Compile(plan, Fewer(s, q), cps, coreTokens).Ok?
    ensures var ids, chosen := Filter(SortedSet(s.dependencies), q), Select(cps, s.dependencies);
            Tried(Fewer(s, q), cps) == OwnTier(s) + PassTier(ids, chosen) + FailTier(ids, chosen)
  {
    var fewer := Filter(s.dependencies, q);
    FilterMembers(s.dependencies, q);
    SelectFewer(cps, s.dependencies, fewer);
    SortedSetFilter(s.dependencies, q);
    SortedSetMembers(fewer);
    FewerIsOk(plan, s, cps, coreTokens, q);
    hide Pack, PassTier, FailTier, SortedSet, Filter, Select, SortStrings, Compile, OwnTier, OneMission, AllResolved;
    TiersAgree(SortedSet(fewer), Select(cps, fewer), Select(cps, s.dependencies));
    FewerOwn(s, q);
  }

  lemma FewerOwn(s: Sprint, q: string -> bool)
    ensures OwnTier(Fewer(s, q)) == OwnTier(s)
  {
  }

  lemma FewerIsOk(plan: Plan, s: Sprint, cps: seq<Checkpoint>, coreTokens: Core -> nat, q: string -> bool)
    requires Compile(plan, s, cps, coreTokens).Ok?
    ensures Compile(plan, Fewer(s, q), cps, coreTokens).Ok?
  {
    var fewer := Filter(s.dependencies, q);
    FilterMembers(s.dependencies, q);
    SelectFewer(cps, s.dependencies, fewer);
    hide Pack, Candidates, Filter, Select, SortStrings, Assemble;
    assert OneMission(cps, fewer, s.missionId);
    assert AllResolved(Fewer(s, q), Select(cps, fewer));
  }

  lemma {:induction false} FilterTwice<T>(xs: seq<T>, p: T -> bool, q: T -> bool, both: T -> bool)
    requires forall x :: both(x) <==> p(x) && q(x)
    ensures Filter(Filter(xs, p), q) == Filter(xs, both)
  {
    if xs != [] {
      var n := |xs| - 1;
      FilterTwice(xs[..n], p, q, both);
      var front := Filter(xs[..n], p);
      if p(xs[n]) {
        assert (front + [xs[n]])[..|front|] == front;
      } else {
        assert Filter(xs, p) == front + [] == front;
        assert Filter(xs, both) == Filter(xs[..n], both) + [] == Filter(xs[..n], both);
      }
    }
  }

  lemma PassedTiers(ids: seq<string>, chosen: map<string, Checkpoint>, d: string)
    requires Sorted(ids, Codes)
    ensures var kept := Filter(ids, BeforePassed(chosen, d));
            && PassTier(kept, chosen) == PassTier(Filter(ids, UpTo(d)), chosen) <= PassTier(ids, chosen)
            && FailTier(kept, chosen) == []
  {
    hide *;
    UpToTiers(ids, chosen, d);
    FilterMembers(ids, BeforePassed(chosen, d));
    PassedUpTo(ids, chosen, d);
    NoFailTier(Filter(ids, BeforePassed(chosen, d)), chosen);
  }

  lemma PassedUpTo(ids: seq<string>, chosen: map<string, Checkpoint>, d: string)
    ensures PassTier(Filter(ids, BeforePassed(chosen, d)), chosen) == PassTier(Filter(ids, UpTo(d)), chosen)
    ensures forall id :: id in Filter(ids, BeforePassed(chosen, d)) ==> Passed(chosen, id)
  {
    var upTo, q := Filter(ids, UpTo(d)), BeforePassed(chosen, d);
    FilterTwice(ids, UpTo(d), q, q);
    FilterMembers(ids, UpTo(d));
    FilterMembers(ids, q);
    hide Filter, PassTier, Leq, Codes, Passed;
    PassTierOfFilter(upTo, chosen, q);
  }

  lemma UpToTiers(ids: seq<string>, chosen: map<string, Checkpoint>, d: string)
    requires Sorted(ids, Codes)
    ensures PassTier(Filter(ids, UpTo(d)), chosen) <= PassTier(ids, chosen)
    ensures FailTier(Filter(ids, UpTo(d)), chosen) <= FailTier(ids, chosen)
  {
    hide *;
    UpToIsPrefix(ids, d);
    var n := |Filter(ids, UpTo(d))|;
    assert ids[..n] == Filter(ids, UpTo(d));
    TierPrefix(ids, n, chosen);
  }

  lemma FailedTiers(ids: seq<string>, chosen: map<string, Checkpoint>, d: string)
    requires Sorted(ids, Codes)
    ensures var kept := Filter(ids, BeforeFailed(chosen, d));
            && PassTier(kept, chosen) == PassTier(ids, chosen)
            && FailTier(kept, chosen) == FailTier(Filter(ids, UpTo(d)), chosen) <= FailTier(ids, chosen)
  {
    hide *;
    UpToTiers(ids, chosen, d);
    FailedUpTo(ids, chosen, d);
  }

  lemma FailedUpTo(ids: seq<string>, chosen: map<string, Checkpoint>, d: string)
    ensures PassTier(Filter(ids, BeforeFailed(chosen, d)), chosen) == PassTier(ids, chosen)
    ensures FailTier(Filter(ids, BeforeFailed(chosen, d)), chosen) == FailTier(Filter(ids, UpTo(d)), chosen)
  {
    var q := BeforeFailed(chosen, d);
    FilterTwice(ids, q, UpTo(d), UpTo(d));
    FilterMembers(ids, q);
    hide Filter, PassTier, FailTier, Leq, Codes, Passed;
    PassTierOfFilter(ids, chosen, q);
    FailTierOfFilter(Filter(ids, q), chosen, UpTo(d));
  }

  lemma PassedTriedPrefix(plan: Plan, s: Sprint, cps: seq<Checkpoint>, coreTokens: Core -> nat, d: string)
    requires Compile(plan, s, cps, coreTokens).Ok?
    ensures var chosen := Select(cps, s.dependencies);
            var upTo := Filter(SortedSet(s.dependencies), UpTo(d));
            && Tried(Fewer(s, BeforePassed(chosen, d)), cps) == OwnTier(s) + PassTier(upTo, chosen)
            && Tried(Fewer(s, BeforePassed(chosen, d)), cps) <= Tried(s, cps)
  {
    hide *;
    var ids, chosen := SortedSet(s.dependencies), Select(cps, s.dependencies);
    FewerCompiles(plan, s, cps, coreTokens, BeforePassed(chosen, d));
    SetIsSorted(s.dependencies);
    PassedTiers(ids, chosen, d);
    TriedReads(s, cps);
    PrefixOfSum(OwnTier(s), PassTier(Filter(ids, UpTo(d)), chosen), PassTier(ids, chosen), FailTier(ids, chosen));
  }

  lemma SetIsSorted(xs: seq<string>)
    ensures Sorted(SortedSet(xs), Codes)
  {
    SortBySorts(Dedup(xs), Codes);
  }

  lemma {:induction false} NoFailTier(ids: seq<string>, chosen: map<string, Checkpoint>)
    requires forall id :: id in ids ==> Passed(chosen, id)
    ensures FailTier(ids, chosen) == []
  {
    hide FailItems;
    if ids != [] {
      NoFailTier(ids[..|ids| - 1], chosen);
      NotPassedHasNoPassItems(ids[|ids| - 1], chosen);
    }
  }

  lemma PrefixOfSum<T>(a: seq<T>, b: seq<T>, longer: seq<T>, c: seq<T>)
    requires b <= longer
    ensures a + b + [] == a + b && a + b <= a + longer + c
  {
  }

  lemma FailedTriedPrefix(plan: Plan, s: Sprint, cps: seq<Checkpoint>, coreTokens: Core -> nat, d: string)
    requires Compile(plan, s, cps, coreTokens).Ok?
    ensures var chosen := Select(cps, s.dependencies);
            var ids := SortedSet(s.dependencies);
            && Tried(Fewer(s, BeforeFailed(chosen, d)), cps) == OwnTier(s) + PassTier(ids, chosen) + FailTier(Filter(ids, UpTo(d)), chosen)
            && Tried(Fewer(s, BeforeFailed(chosen, d)), cps) <= Tried(s, cps)
  {
    hide *;
    var ids, chosen := SortedSet(s.dependencies), Select(cps, s.dependencies);
    FewerCompiles(plan, s, cps, coreTokens, BeforeFailed(chosen, d));
    SetIsSorted(s.dependencies);
    FailedTiers(ids, chosen, d);
    TriedReads(s, cps);
    PrefixOfSum(OwnTier(s) + PassTier(ids, chosen), FailTier(Filter(ids, UpTo(d)), chosen), FailTier(ids, chosen), []);
    assert OwnTier(s) + PassTier(ids, chosen) + FailTier(ids, chosen) + [] == OwnTier(s) + PassTier(ids, chosen) + FailTier(ids, chosen);
  }

  lemma TriedReads(s: Sprint, cps: seq<Checkpoint>)
    ensures var ids, chosen := SortedSet(s.dependencies), Select(cps, s.dependencies);
            Tried(s, cps) == OwnTier(s) + PassTier(ids, chosen) + FailTier(ids, chosen)
  {
  }

  /** Content that a passed dependency offers: as a fact each confirmed path and finding, as evidence each reference. */
  predicate PassContent(c: Checkpoint, kind: Kind, x: string) {
    match kind
    case Fact => x in c.confirmedPaths || x in c.findings
    case Evidence => x in c.evidenceRefs
    case Question => false
  }

  /** What a failed one offers, as questions: that it did not pass, its open questions, its unresolved items. */
  predicate FailContent(id: string, c: Checkpoint, kind: Kind, x: string) {
    kind.Question? && (x == NotPassedQuestion(id, c) || x in c.openQuestions || x in c.unresolvedItems)
  }

  lemma ItemsHas(kind: Kind, texts: seq<string>, dep: Option<string>, x: string)
    requires x in texts
    ensures Item(kind, x, dep) in Items(kind, texts, dep)
  {
    var i :| 0 <= i < |texts| && texts[i] == x;
    assert Items(kind, texts, dep)[i] == Item(kind, x, dep);
  }

  lemma PassItemsHas(id: string, c: Checkpoint, kind: Kind, x: string)
    requires c.failure == Some(Pass) && PassContent(c, kind, x)
    ensures Item(kind, x, Some(id)) in PassItems(id, c)
  {
    if kind.Fact? {
      SortedSetMembers(c.confirmedPaths + c.findings);
      ItemsHas(Fact, SortedSet(c.confirmedPaths + c.findings), Some(id), x);
    } else {
      SortByMembers(c.evidenceRefs, Codes, x);
      ItemsHas(Evidence, SortStrings(c.evidenceRefs), Some(id), x);
    }
  }

  lemma FailItemsHas(id: string, c: Checkpoint, kind: Kind, x: string)
    requires c.failure != Some(Pass) && FailContent(id, c, kind, x)
    ensures Item(kind, x, Some(id)) in FailItems(id, c)
  {
    var open, unresolved := SortStrings(c.openQuestions), SortStrings(c.unresolvedItems);
    if x in c.openQuestions {
      SortByMembers(c.openQuestions, Codes, x);
      ItemsHas(Question, open, Some(id), x);
    } else if x in c.unresolvedItems {
      SortByMembers(c.unresolvedItems, Codes, x);
      ItemsHas(Question, unresolved, Some(id), x);
    }
  }

  lemma {:induction false} PassTierHas(ids: seq<string>, chosen: map<string, Checkpoint>, id: string, item: Item)
    requires id in ids && item in PassItemsOf(id, chosen)
    ensures item in PassTier(ids, chosen)
  {
    if id != ids[|ids| - 1] {
      PassTierHas(ids[..|ids| - 1], chosen, id, item);
    }
  }

  lemma {:induction false} FailTierHas(ids: seq<string>, chosen: map<string, Checkpoint>, id: string, item: Item)
    requires id in ids && item in FailItemsOf(id, chosen)
    ensures item in FailTier(ids, chosen)
  {
    if id != ids[|ids| - 1] {
      FailTierHas(ids[..|ids| - 1], chosen, id, item);
    }
  }

  lemma UpToHas(xs: seq<string>, x: string)
    requires x in xs
    ensures x in Filter(SortedSet(xs), UpTo(x))
  {
    SortedSetMembers(xs);
    FilterMembers(SortedSet(xs), UpTo(x));
    LeqTotal(Codes(x), Codes(x));
    hide SortedSet, Filter;
  }

  lemma DecidedAlone(plan: Plan, s: Sprint, cps: seq<Checkpoint>, s1: Sprint, coreTokens: Core -> nat, item: Item)
    requires Compile(plan, s, cps, coreTokens).Ok? && Compile(plan, s1, cps, coreTokens).Ok? && SameFrame(s, s1)
    requires Tried(s1, cps) <= Tried(s, cps) && item in Tried(s1, cps) && item.text != ""
    ensures var c, c1 := Compile(plan, s, cps, coreTokens).value, Compile(plan, s1, cps, coreTokens).value;
            && (item.text in ContextTexts(c, item.kind) <==> item.text in ContextTexts(c1, item.kind))
            && (item.text !in ContextTexts(c, item.kind) ==> c1.tokens + EstimateTokens(item.text) > s.tokenBudget)
  {
    hide *;
    var i :| 0 <= i < |Tried(s1, cps)| && Tried(s1, cps)[i] == item;
    PrefixDecides(plan, s, cps, s1, cps, coreTokens, i);
  }

  lemma FewerSameFrame(s: Sprint, q: string -> bool)
    ensures SameFrame(s, Fewer(s, q))
  {
  }

  /** What passed comes next, in the order of the ids. Content of passed `d` is included exactly when it
      is with only the passed dependencies up to `d` declared, and missing only if it does not fit
      beside theirs and the sprint's own: neither a failed dependency nor a later one displaces it. */
  lemma PassedPriority(plan: Plan, s: Sprint, cps: seq<Checkpoint>, coreTokens: Core -> nat, d: string, kind: Kind, x: string)
    requires Compile(plan, s, cps, coreTokens).Ok? && d in s.dependencies
    requires var chosen := Select(cps, s.dependencies); Passed(chosen, d) && PassContent(chosen[d], kind, x) && x != ""
    ensures var s1 := Fewer(s, BeforePassed(Select(cps, s.dependencies), d));
            && Compile(plan, s1, cps, coreTokens).Ok?
            && var c, c1 := Compile(plan, s, cps, coreTokens).value, Compile(plan, s1, cps, coreTokens).value;
               && (x in ContextTexts(c, kind) <==> x in ContextTexts(c1, kind))
               && (x !in ContextTexts(c, kind) ==> c1.tokens + EstimateTokens(x) > s.tokenBudget)
  {
    var chosen := Select(cps, s.dependencies);
    assert PassItemsOf(d, chosen) == PassItems(d, chosen[d]) && chosen[d].failure == Some(Pass);
    hide *;
    var q := BeforePassed(chosen, d);
    FewerCompiles(plan, s, cps, coreTokens, q);
    PassedTriedPrefix(plan, s, cps, coreTokens, d);
    UpToHas(s.dependencies, d);
    PassItemsHas(d, chosen[d], kind, x);
    PassTierHas(Filter(SortedSet(s.dependencies), UpTo(d)), chosen, d, Item(kind, x, Some(d)));
    FewerSameFrame(s, q);
    DecidedAlone(plan, s, cps, Fewer(s, q), coreTokens, Item(kind, x, Some(d)));
  }

  /** What is said of failed dependencies comes last, in the order of the ids. */
  lemma FailedPriority(plan: Plan, s: Sprint, cps: seq<Checkpoint>, coreTokens: Core -> nat, d: string, kind: Kind, x: string)
    requires Compile(plan, s, cps, coreTokens).Ok? && d in s.dependencies
    requires var chosen := Select(cps, s.dependencies);
             d in chosen && !Passed(chosen, d) && FailContent(d, chosen[d], kind, x) && x != ""
    ensures var s1 := Fewer(s, BeforeFailed(Select(cps, s.dependencies), d));
            && Compile(plan, s1, cps, coreTokens).Ok?
            && var c, c1 := Compile(plan, s, cps, coreTokens).value, Compile(plan, s1, cps, coreTokens).value;
               && (x in ContextTexts(c, kind) <==> x in ContextTexts(c1, kind))
               && (x !in ContextTexts(c, kind) ==> c1.tokens + EstimateTokens(x) > s.tokenBudget)
  {
    var chosen := Select(cps, s.dependencies);
    assert FailItemsOf(d, chosen) == FailItems(d, chosen[d]) && chosen[d].failure != Some(Pass);
    hide *;
    var q := BeforeFailed(chosen, d);
    FewerCompiles(plan, s, cps, coreTokens, q);
    FailedTriedPrefix(plan, s, cps, coreTokens, d);
    UpToHas(s.dependencies, d);
    FailItemsHas(d, chosen[d], kind, x);
    FailTierHas(Filter(SortedSet(s.dependencies), UpTo(d)), chosen, d, Item(kind, x, Some(d)));
    FewerSameFrame(s, q);
    DecidedAlone(plan, s, cps, Fewer(s, q), coreTokens, Item(kind, x, Some(d)));
  }

  // ---------------------------------------------------------------- nothing else is included

  lemma OwnItemsFrom(s: Sprint, item: Item)
    requires item in OwnTier(s)
    ensures item.text in OwnTexts(s, item.kind)
  {
    var f, q, e := SortStrings(s.knownFacts), SortStrings(s.openQuestions), SortStrings(s.evidenceRequirements);
    forall x ensures x in f <==> x in s.knownFacts { SortByMembers(s.knownFacts, Codes, x); }
    forall x ensures x in q <==> x in s.openQuestions { SortByMembers(s.openQuestions, Codes, x); }
    forall x ensures x in e <==> x in s.evidenceRequirements { SortByMembers(s.evidenceRequirements, Codes, x); }
    hide SortStrings;
    assert item in Items(Fact, f, None) || item in Items(Question, q, None) || item in Items(Evidence, e, None);
  }

  lemma ItemsFrom(kind: Kind, texts: seq<string>, dep: Option<string>, item: Item)
    requires item in Items(kind, texts, dep)
    ensures item.kind == kind && item.text in texts
  {
    var i :| 0 <= i < |Items(kind, texts, dep)| && Items(kind, texts, dep)[i] == item;
  }

  lemma PassItemsFrom(id: string, c: Checkpoint, item: Item)
    requires item in PassItems(id, c)
    ensures c.failure == Some(Pass) && PassContent(c, item.kind, item.text)
  {
    var facts, refs := SortedSet(c.confirmedPaths + c.findings), SortStrings(c.evidenceRefs);
    hide SortStrings, SortedSet, Items;
    if item in Items(Fact, facts, Some(id)) {
      ItemsFrom(Fact, facts, Some(id), item);
      SortedSetMembers(c.confirmedPaths + c.findings);
    } else {
      assert item in Items(Evidence, refs, Some(id));
      ItemsFrom(Evidence, refs, Some(id), item);
      SortedText(c.evidenceRefs, item.text);
    }
  }

  lemma SortedText(xs: seq<string>, x: string)
    ensures x in SortStrings(xs) <==> x in xs
  {
    SortByMembers(xs, Codes, x);
  }

  lemma FailItemsFrom(id: string, c: Checkpoint, item: Item)
    requires item in FailItems(id, c)
    ensures c.failure != Some(Pass) && FailContent(id, c, item.kind, item.text)
  {
    forall x ensures x in SortStrings(c.openQuestions) <==> x in c.openQuestions { SortByMembers(c.openQuestions, Codes, x); }
    forall x ensures x in SortStrings(c.unresolvedItems) <==> x in c.unresolvedItems { SortByMembers(c.unresolvedItems, Codes, x); }
    hide SortStrings, NotPassedQuestion;
    assert item == Item(Question, NotPassedQuestion(id, c), Some(id)) || item in Items(Question, SortStrings(c.openQuestions), Some(id))
           || item in Items(Question, SortStrings(c.unresolvedItems), Some(id));
  }

  lemma {:induction false} PassTierFrom(ids: seq<string>, chosen: map<string, Checkpoint>, item: Item)
    requires item in PassTier(ids, chosen)
    ensures exists id :: id in ids && Passed(chosen, id) && PassContent(chosen[id], item.kind, item.text)
  {
    hide PassItems;
    var front, id := ids[..|ids| - 1], ids[|ids| - 1];
    if item in PassTier(front, chosen) {
      PassTierFrom(front, chosen, item);
    } else {
      PassItemsFrom(id, chosen[id], item);
    }
  }

  lemma {:induction false} FailTierFrom(ids: seq<string>, chosen: map<string, Checkpoint>, item: Item)
    requires item in FailTier(ids, chosen)
    ensures exists id :: id in ids && id in chosen && !Passed(chosen, id) && FailContent(id, chosen[id], item.kind, item.text)
  {
    hide FailItems, FailContent;
    var front, id := ids[..|ids| - 1], ids[|ids| - 1];
    if item in FailTier(front, chosen) {
      FailTierFrom(front, chosen, item);
    } else {
      FailItemsFrom(id, chosen[id], item);
    }
  }

  /** A text of the context is the sprint's own, or offered by a declared dependency whose latest
      checkpoint passed, or said of one that did not. */
  lemma ContentIsOffered(plan: Plan, s: Sprint, cps: seq<Checkpoint>, coreTokens: Core -> nat, kind: Kind, x: string)
    requires Compile(plan, s, cps, coreTokens).Ok? && x in ContextTexts(Compile(plan, s, cps, coreTokens).value, kind)
    ensures var chosen := Select(cps, s.dependencies);
            || x in OwnTexts(s, kind)
            || (exists d :: d in s.dependencies && Passed(chosen, d) && PassContent(chosen[d], kind, x))
            || (exists d :: d in s.dependencies && d in chosen && !Passed(chosen, d) && FailContent(d, chosen[d], kind, x))
  {
    hide *;
    ContextAccounts(plan, s, cps, coreTokens);
    var items := Tried(s, cps);
    var i :| 0 <= i < |items| && items[i].kind == kind && items[i].text == x;
    TriedReads(s, cps);
    SortedSetMembers(s.dependencies);
    var ids, chosen := SortedSet(s.dependencies), Select(cps, s.dependencies);
    assert items[i] in OwnTier(s) || items[i] in PassTier(ids, chosen) || items[i] in FailTier(ids, chosen);
    if items[i] in OwnTier(s) {
      OwnItemsFrom(s, items[i]);
    } else if items[i] in PassTier(ids, chosen) {
      PassTierFrom(ids, chosen, items[i]);
    } else {
      FailTierFrom(ids, chosen, items[i]);
    }
  }

  /** The outcomes by the names they are written under. */
  const OUTCOMES: map<string, Outcome> := map[
    "PASS" := Pass, "INCOMPLETE" := Incomplete, "UNSUPPORTED" := Unsupported, "TASK_DRIFT" := TaskDrift,
    "BUDGET_EXCEEDED" := BudgetExceeded, "TOOL_FAILURE" := ToolFailure, "CONTRADICTION" := Contradiction,
    "CAPABILITY_FAILURE" := CapabilityFailure, "INVALID_OUTPUT" := InvalidOutput]

  /** What is asked about a dependency that did not pass names it, its version and its outcome. */
  lemma NotPassedQuestionReads(id: string, c: Checkpoint)
    ensures exists name: string ::
      && NotPassedQuestion(id, c) == "dependency " + id + " checkpoint v" + Text.Decimal(c.version) + " did not PASS (failure_class="
                                     + name + ") - its findings are not trusted"
      && (c.failure.None? ==> name == "None")
      && (c.failure.Some? ==> name in OUTCOMES && OUTCOMES[name] == c.failure.value)
  {
    var name := if c.failure.Some? then OutcomeName(c.failure.value) else "None";
    assert NotPassedQuestion(id, c) == "dependency " + id + " checkpoint v" + Text.Decimal(c.version) + " did not PASS (failure_class="
                                       + name + ") - its findings are not trusted";
    if c.failure.Some? {
      NameOfOutcome(c.failure.value);
    }
  }

  lemma NameOfOutcome(o: Outcome)
    ensures OutcomeName(o) in OUTCOMES && OUTCOMES[OutcomeName(o)] == o
  {
  }

  // ---------------------------------------------------------------- errors and the rest of the context

  /** The error says which of the four demands fails first. */
  lemma RefusedExactly(plan: Plan, s: Sprint, cps: seq<Checkpoint>, coreTokens: Core -> nat)
    ensures var member := s.missionId == plan.missionId && s.planVersion == plan.planVersion && s.sprintId in plan.sprintIds;
            var ours := forall c :: c in cps && c.sprintId in s.dependencies ==> c.missionId == s.missionId;
            var resolved := forall d :: d in s.dependencies ==> exists c :: c in cps && c.sprintId == d;
            var r := Compile(plan, s, cps, coreTokens);
            && (!member <==> r == Err(SprintNotInPlan))
            && (member && !ours <==> r == Err(DependencyFromOtherMission))
            && (member && ours && !resolved <==> r == Err(DependencyCheckpointMissing))
            && (member && ours && resolved && coreTokens(CoreOf(s)) > s.tokenBudget <==> r == Err(BudgetUnsatisfiable))
  {
    SelectDomain(cps, s.dependencies);
    hide Select, Pack, Candidates;
    assert OneMission(cps, s.dependencies, s.missionId) <==> forall c :: c in cps && c.sprintId in s.dependencies ==> c.missionId == s.missionId;
    assert AllResolved(s, Select(cps, s.dependencies)) <==> forall d :: d in s.dependencies ==> exists c :: c in cps && c.sprintId == d;
  }

  lemma {:induction false} SelectDomain(cps: seq<Checkpoint>, declared: seq<string>)
    ensures forall d :: d in Select(cps, declared) <==> d in declared && exists c :: c in cps && c.sprintId == d
  {
    if cps != [] {
      var n := |cps| - 1;
      SelectDomain(cps[..n], declared);
      assert cps == cps[..n] + [cps[n]];
      assert forall c :: c in cps <==> c in cps[..n] || c == cps[n];
    }
  }

  lemma {:induction false} RefsRead(ids: seq<string>, chosen: map<string, Checkpoint>)
    requires forall id :: id in ids ==> id in chosen
    ensures |Refs(ids, chosen)| == |ids| && forall i :: 0 <= i < |ids| ==> Refs(ids, chosen)[i] == Ref(ids[i], chosen[ids[i]].version)
  {
    if ids != [] {
      RefsRead(ids[..|ids| - 1], chosen);
    }
  }

  /** The mandatory part is the sprint's, complete; every dependency is referred to with the version
      that was chosen, in the order of the ids. */
  lemma HeadIsComplete(plan: Plan, s: Sprint, cps: seq<Checkpoint>, coreTokens: Core -> nat)
    requires Compile(plan, s, cps, coreTokens).Ok?
    ensures var c, chosen := Compile(plan, s, cps, coreTokens).value, Select(cps, s.dependencies);
            && c.core.objective == s.objective && c.core.taskLock == s.taskLock && c.core.outputContract == s.outputContract
            && multiset(c.core.constraints) == multiset(s.constraints) && Sorted(c.core.constraints, Codes)
            && multiset(c.core.acceptance) == multiset(s.acceptance) && Sorted(c.core.acceptance, Codes)
            && |c.refs| == |SortedSet(s.dependencies)|
            && forall i :: 0 <= i < |c.refs| ==>
                 var id := SortedSet(s.dependencies)[i]; id in chosen && c.refs[i] == Ref(id, chosen[id].version)
  {
    var p := CompiledIs(plan, s, cps, coreTokens);
    SortByPermutes(s.constraints, Codes);
    SortBySorts(s.constraints, Codes);
    SortByPermutes(s.acceptance, Codes);
    SortBySorts(s.acceptance, Codes);
    SortedSetMembers(s.dependencies);
    hide Compile, Select, SortStrings, SortedSet, AllResolved;
    RefsRead(SortedSet(s.dependencies), Select(cps, s.dependencies));
  }

  lemma CompiledIs(plan: Plan, s: Sprint, cps: seq<Checkpoint>, coreTokens: Core -> nat) returns (p: Packed)
    requires Compile(plan, s, cps, coreTokens).Ok?
    ensures Compile(plan, s, cps, coreTokens).value == Assemble(s, Select(cps, s.dependencies), p)
    ensures forall d :: d in s.dependencies ==> d in Select(cps, s.dependencies)
  {
    hide Pack, Candidates, Select, Assemble;
    p := Pack(Empty(coreTokens(CoreOf(s))), Candidates(s, Select(cps, s.dependencies)), s.tokenBudget);
  }
}
