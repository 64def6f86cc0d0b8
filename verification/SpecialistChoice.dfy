/** What the specialist router's choice means on the fields of the specialists: the order of the
    eligible ones criterion by criterion, and the certainty of the choice. */
module SpecialistChoice {
  import opened Common
  import opened Ordering
  import opened SpecialistRouter

  predicate PlainCode(s: Specialist) { s.kind == DeterministicPython }

  predicate Wanted(req: Requirements, s: Specialist) { s.kind in req.preferred }

  /** Specialist `a` is ahead of `b` on the first criterion on which they differ: deterministic code
      unless judgement is asked for, a preferred kind, then the smaller priority, cost and latency,
      and at last the id. */
  ghost predicate Ahead(req: Requirements, a: Specialist, b: Specialist) {
    if !req.probabilistic && PlainCode(a) != PlainCode(b) then PlainCode(a)
    else if Wanted(req, a) != Wanted(req, b) then Wanted(req, a)
    else if a.priority != b.priority then a.priority < b.priority
    else if a.costRank != b.costRank then a.costRank < b.costRank
    else if a.latencyRank != b.latencyRank then a.latencyRank < b.latencyRank
    else TextBefore(a.id, b.id)
  }

  /** They differ on no criterion but the id. */
  predicate Tied(req: Requirements, a: Specialist, b: Specialist) {
    && (req.probabilistic || PlainCode(a) == PlainCode(b))
    && Wanted(req, a) == Wanted(req, b)
    && a.priority == b.priority && a.costRank == b.costRank && a.latencyRank == b.latencyRank
  }

  lemma OrderReads(req: Requirements, a: Specialist, b: Specialist)
    ensures Leq(By(req)(a), By(req)(b)) <==> !Ahead(req, b, a)
    ensures Criteria(req, a) == Criteria(req, b) <==> Tied(req, a, b)
  {
    hide Leq, TextBefore;
    TextOrder(a.id, b.id);
    var c, d, p, q := Criteria(req, a), Criteria(req, b), Codes(a.id), Codes(b.id);
    LeqStep(c[4], p, d[4], q);
    LeqStep(c[3], [c[4]] + p, d[3], [d[4]] + q);
    LeqStep(c[2], [c[3]] + ([c[4]] + p), d[2], [d[3]] + ([d[4]] + q));
    LeqStep(c[1], [c[2]] + ([c[3]] + ([c[4]] + p)), d[1], [d[2]] + ([d[3]] + ([d[4]] + q)));
    LeqStep(c[0], [c[1]] + ([c[2]] + ([c[3]] + ([c[4]] + p))), d[0], [d[1]] + ([d[2]] + ([d[3]] + ([d[4]] + q))));
    assert c + p == [c[0]] + ([c[1]] + ([c[2]] + ([c[3]] + ([c[4]] + p))));
    assert d + q == [d[0]] + ([d[1]] + ([d[2]] + ([d[3]] + ([d[4]] + q))));
  }

  lemma OneOfTwoIsAhead(req: Requirements, a: Specialist, b: Specialist)
    requires a.id != b.id
    ensures Ahead(req, a, b) <==> !Ahead(req, b, a)
  {
    hide Leq, Codes;
    TextOrder(a.id, b.id);
    TextOrder(b.id, a.id);
    LeqTotal(Codes(a.id), Codes(b.id));
    if Leq(Codes(a.id), Codes(b.id)) && Leq(Codes(b.id), Codes(a.id)) {
      LeqAntisymmetric(Codes(a.id), Codes(b.id));
      CodesInjective(a.id, b.id);
    }
  }

  /** A specialist is selected exactly when it is eligible and ahead of every other eligible one. */
  lemma SelectedIsAhead(q: Query, xs: seq<Specialist>, fingerprint: Specialist -> string, w: Specialist)
    requires DistinctIds(xs) && w in xs
    ensures Selects(Decide(q, xs, fingerprint), w) <==>
            Eligible(q, w) && forall s :: s in xs && Eligible(q, s) && s != w ==> Ahead(q.req, w, s)
  {
    hide Eligible, Ahead, By, Leq, Decide, Selects;
    SelectionIsWinner(q, xs, fingerprint);
    forall s | s in xs ensures Leq(By(q.req)(w), By(q.req)(s)) <==> s == w || Ahead(q.req, w, s) {
      OrderReads(q.req, w, s);
      if s == w {
        LeqTotal(By(q.req)(w), By(q.req)(w));
      } else {
        var i :| 0 <= i < |xs| && xs[i] == w;
        var j :| 0 <= j < |xs| && xs[j] == s;
        assert i < j || j < i;
        OneOfTwoIsAhead(q.req, w, s);
      }
    }
  }

  /** The selection is called ambiguous exactly when another eligible specialist differs from it in
      nothing but the id, and deterministic exactly when there is no other. */
  lemma CertaintyReads(q: Query, xs: seq<Specialist>, fingerprint: Specialist -> string, w: Specialist)
    requires DistinctIds(xs) && w in xs && Selects(Decide(q, xs, fingerprint), w)
    ensures var d := Decide(q, xs, fingerprint);
            && (d.strength == Ambiguous <==> exists e :: e in xs && Eligible(q, e) && e != w && Tied(q.req, e, w))
            && (d.strength == Deterministic <==> forall e :: e in xs && Eligible(q, e) ==> e == w)
            && (d.strength == Ranked <==> (exists e :: e in xs && Eligible(q, e) && e != w)
                                          && forall e :: e in xs && Eligible(q, e) && e != w ==> !Tied(q.req, e, w))
  {
    hide Eligible, Decide, Selects, Criteria, Tied;
    SelectionIsWinner(q, xs, fingerprint);
    ConfidenceMeaning(q, xs, w, fingerprint);
    forall e ensures Criteria(q.req, e) == Criteria(q.req, w) <==> Tied(q.req, e, w) { OrderReads(q.req, e, w); }
  }

  lemma IdListed(xs: seq<Specialist>, p: Specialist -> bool, id: string)
    ensures id in SortStrings(Map(Filter(xs, p), IdOf())) <==> exists s :: s in xs && p(s) && s.id == id
  {
    hide Filter;
    var kept := Filter(xs, p);
    var ids := Map(kept, IdOf());
    FilterMembers(xs, p);
    SortByMembers(ids, Codes, id);
    if id in ids {
      var i :| 0 <= i < |ids| && ids[i] == id;
      assert kept[i] in kept;
    }
    if s :| s in xs && p(s) && s.id == id {
      var i :| 0 <= i < |kept| && kept[i] == s;
      assert ids[i] == id;
    }
  }

  /** The decision lists the eligible where one was selected and always all others, each of these with
      exactly the reasons that hold of it. */
  lemma ListsRead(q: Query, xs: seq<Specialist>, fingerprint: Specialist -> string, s: Specialist)
    requires DistinctIds(xs) && s in xs
    ensures var d := Decide(q, xs, fingerprint);
            && (s.id in d.ineligible <==> !Eligible(q, s)) && (s.id in d.rejections <==> !Eligible(q, s))
            && (s.id in d.eligible <==> Eligible(q, s))
            && (!Eligible(q, s) ==> forall r :: r in d.rejections[s.id] <==> Cause(r, q, s))
  {
    hide Eligible, Reasons, Rejections, Filter, SortBy, Map, By, Cause, Strength;
    forall t ensures Passes(q)(t) <==> Eligible(q, t) { ReasonsExact(q, t); }
    IdListed(xs, Fails(q), s.id);
    IdListed(xs, Passes(q), s.id);
    RejectionsExact(q, xs);
    ReasonsExact(q, s);
    SameId(xs, s);
    FirstRankedWins(q, xs);
  }

  lemma SameId(xs: seq<Specialist>, s: Specialist)
    requires DistinctIds(xs) && s in xs
    ensures forall t :: t in xs && t.id == s.id ==> t == s
  {
  }
}
