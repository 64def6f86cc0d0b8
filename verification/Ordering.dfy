/** The orders and sorts the repository relies on: Python compares strings and tuples
    lexicographically, and `sorted` is a stable sort by a key. Every key is modelled as a
    sequence of integers, a string being the sequence of its character codes. */
module Ordering {
  import opened Common

  /** Lexicographic "less than or equal", as on Python strings and on tuples of integers. */
  predicate Leq(a: seq<int>, b: seq<int>) {
    if a == [] then true
    else if b == [] then false
    else a[0] < b[0] || (a[0] == b[0] && Leq(a[1..], b[1..]))
  }

  /** The two agree before position `i`, where the first is smaller or ends. */
  ghost predicate ComesFirstAt(a: seq<int>, b: seq<int>, i: int) {
    && 0 <= i <= |a| && i <= |b| && a[..i] == b[..i]
    && (i == |a| || (i < |b| && a[i] < b[i]))
  }

  /** One text or tuple comes before another where they first differ, or is the beginning of it. */
  lemma {:induction false} LeqExactly(a: seq<int>, b: seq<int>)
    ensures Leq(a, b) <==> exists i :: ComesFirstAt(a, b, i)
  {
    if a == [] {
      assert ComesFirstAt(a, b, 0);
    } else if b != [] {
      if a[0] < b[0] {
        assert ComesFirstAt(a, b, 0);
      }
      LeqExactly(a[1..], b[1..]);
      forall i | 0 < i && a[0] == b[0] ensures ComesFirstAt(a, b, i) <==> ComesFirstAt(a[1..], b[1..], i - 1) {
        HeadsAgree(a, b, i);
      }
      if i :| ComesFirstAt(a, b, i) && i > 0 {
        assert a[..i][0] == b[..i][0];
      }
      if i :| ComesFirstAt(a[1..], b[1..], i) && a[0] == b[0] {
        assert ComesFirstAt(a, b, i + 1);
      }
    }
  }

  lemma HeadsAgree(a: seq<int>, b: seq<int>, i: int)
    requires a != [] && b != [] && a[0] == b[0] && 0 < i
    ensures ComesFirstAt(a, b, i) <==> ComesFirstAt(a[1..], b[1..], i - 1)
  {
    if i <= |a| && i <= |b| {
      assert a[..i] == [a[0]] + a[1..][..i - 1];
      assert b[..i] == [b[0]] + b[1..][..i - 1];
      assert a[..i] == b[..i] <==> a[1..][..i - 1] == b[1..][..i - 1] by {
        if a[..i] == b[..i] {
          assert a[1..][..i - 1] == a[..i][1..] && b[1..][..i - 1] == b[..i][1..];
        }
      }
    }
  }

  lemma {:induction false} LeqTotal(a: seq<int>, b: seq<int>)
    ensures Leq(a, b) || Leq(b, a)
  {
    if a != [] && b != [] {
      LeqTotal(a[1..], b[1..]);
    }
  }

  lemma {:induction false} LeqAntisymmetric(a: seq<int>, b: seq<int>)
    requires Leq(a, b) && Leq(b, a)
    ensures a == b
  {
    if a != [] && b != [] {
      LeqAntisymmetric(a[1..], b[1..]);
      assert a == [a[0]] + a[1..] && b == [b[0]] + b[1..];
    }
  }

  lemma {:induction false} LeqTransitive(a: seq<int>, b: seq<int>, c: seq<int>)
    requires Leq(a, b) && Leq(b, c)
    ensures Leq(a, c)
  {
    if a != [] && b != [] && c != [] && a[0] == b[0] == c[0] {
      LeqTransitive(a[1..], b[1..], c[1..]);
    }
  }

  function Codes(s: string): (codes: seq<int>)
    ensures |codes| == |s|
    ensures forall i :: 0 <= i < |s| ==> codes[i] == s[i] as int
  {
    seq(|s|, i requires 0 <= i < |s| => s[i] as int)
  }

  lemma CodesInjective(s: string, t: string)
    requires Codes(s) == Codes(t)
    ensures s == t
  {
    forall i | 0 <= i < |s| ensures s[i] == t[i] {
      assert Codes(s)[i] == Codes(t)[i];
    }
  }

  lemma LeqStep(x: int, a: seq<int>, y: int, b: seq<int>)
    ensures Leq([x] + a, [y] + b) <==> x < y || (x == y && Leq(a, b))
  {
    assert ([x] + a)[1..] == a && ([y] + b)[1..] == b;
  }

  /** Two different texts, the first of which is smaller where they first differ, or ends there. */
  ghost predicate TextBefore(a: string, b: string) { a != b && exists i :: ComesFirstAt(Codes(a), Codes(b), i) }

  lemma TextOrder(a: string, b: string)
    ensures Leq(Codes(a), Codes(b)) <==> !TextBefore(b, a)
  {
    LeqExactly(Codes(b), Codes(a));
    LeqTotal(Codes(a), Codes(b));
    if Leq(Codes(a), Codes(b)) && Leq(Codes(b), Codes(a)) {
      LeqAntisymmetric(Codes(a), Codes(b));
      CodesInjective(a, b);
    }
  }

  // ---------------------------------------------------------------- stable sort by key

  function Insert<T>(x: T, xs: seq<T>, key: T -> seq<int>): seq<T> {
    if xs == [] || Leq(key(x), key(xs[0])) then [x] + xs
    else [xs[0]] + Insert(x, xs[1..], key)
  }

  /** `sorted(xs, key=key)`. */
  function SortBy<T>(xs: seq<T>, key: T -> seq<int>): seq<T> {
    if xs == [] then [] else Insert(xs[0], SortBy(xs[1..], key), key)
  }

  ghost predicate Sorted<T>(xs: seq<T>, key: T -> seq<int>) {
    forall i, j :: 0 <= i < j < |xs| ==> Leq(key(xs[i]), key(xs[j]))
  }

  lemma {:induction false} InsertPermutes<T>(x: T, xs: seq<T>, key: T -> seq<int>)
    ensures multiset(Insert(x, xs, key)) == multiset{x} + multiset(xs)
    ensures |Insert(x, xs, key)| == |xs| + 1
  {
    if xs == [] || Leq(key(x), key(xs[0])) {
    } else {
      InsertPermutes(x, xs[1..], key);
      assert xs == [xs[0]] + xs[1..];
    }
  }

  lemma {:induction false} InsertSorted<T>(x: T, xs: seq<T>, key: T -> seq<int>)
    requires Sorted(xs, key)
    ensures Sorted(Insert(x, xs, key), key)
  {
    var r := Insert(x, xs, key);
    if xs == [] {
    } else if Leq(key(x), key(xs[0])) {
      forall j | 0 <= j < |xs| ensures Leq(key(x), key(xs[j])) {
        if j > 0 { LeqTransitive(key(x), key(xs[0]), key(xs[j])); }
      }
    } else {
      LeqTotal(key(x), key(xs[0]));
      var rest := Insert(x, xs[1..], key);
      InsertSorted(x, xs[1..], key);
      InsertPermutes(x, xs[1..], key);
      forall j | 0 <= j < |rest| ensures Leq(key(xs[0]), key(rest[j])) {
        assert rest[j] in multiset(rest);
        if rest[j] != x {
          assert rest[j] in multiset(xs[1..]);
          assert rest[j] in xs[1..];
        }
      }
    }
  }

  lemma {:induction false} SortByPermutes<T>(xs: seq<T>, key: T -> seq<int>)
    ensures multiset(SortBy(xs, key)) == multiset(xs)
    ensures |SortBy(xs, key)| == |xs|
  {
    if xs != [] {
      SortByPermutes(xs[1..], key);
      InsertPermutes(xs[0], SortBy(xs[1..], key), key);
      assert xs == [xs[0]] + xs[1..];
    }
  }

  lemma {:induction false} SortBySorts<T>(xs: seq<T>, key: T -> seq<int>)
    ensures Sorted(SortBy(xs, key), key)
  {
    if xs != [] {
      SortBySorts(xs[1..], key);
      InsertSorted(xs[0], SortBy(xs[1..], key), key);
    }
  }

  lemma SortByMembers<T>(xs: seq<T>, key: T -> seq<int>, x: T)
    ensures x in SortBy(xs, key) <==> x in xs
  {
    SortByPermutes(xs, key);
    assert x in SortBy(xs, key) <==> x in multiset(SortBy(xs, key));
    assert x in xs <==> x in multiset(xs);
  }

  /** No two different members of `xs` share a key. */
  ghost predicate KeyInjective<T>(xs: multiset<T>, key: T -> seq<int>) {
    forall x, y :: x in xs && y in xs && key(x) == key(y) ==> x == y
  }

  lemma SortedHeadLeast<T>(xs: seq<T>, x: T, key: T -> seq<int>)
    requires Sorted(xs, key) && x in multiset(xs)
    ensures xs != [] && Leq(key(xs[0]), key(x))
  {
    assert x in xs;
    LeqTotal(key(x), key(x));
  }

  lemma MultisetOfTail<T>(xs: seq<T>)
    requires xs != []
    ensures multiset(xs[1..]) == multiset(xs) - multiset{xs[0]}
  {
    assert xs == [xs[0]] + xs[1..];
  }

  lemma SortedHeadsEqual<T>(xs: seq<T>, ys: seq<T>, key: T -> seq<int>)
    requires Sorted(xs, key) && Sorted(ys, key)
    requires multiset(xs) == multiset(ys) && xs != []
    requires KeyInjective(multiset(xs), key)
    ensures ys != [] && xs[0] == ys[0]
  {
    assert xs[0] in multiset(ys);
    SortedHeadLeast(ys, xs[0], key);
    assert ys[0] in multiset(xs);
    SortedHeadLeast(xs, ys[0], key);
    LeqAntisymmetric(key(xs[0]), key(ys[0]));
  }

  lemma TailsPermute<T>(xs: seq<T>, ys: seq<T>)
    requires xs != [] && ys != [] && xs[0] == ys[0] && multiset(xs) == multiset(ys)
    ensures multiset(xs[1..]) == multiset(ys[1..])
  {
    MultisetOfTail(xs);
    MultisetOfTail(ys);
  }

  lemma SortedTail<T>(xs: seq<T>, key: T -> seq<int>)
    requires xs != [] && Sorted(xs, key)
    ensures Sorted(xs[1..], key)
  {
  }

  lemma KeyInjectiveTail<T>(xs: seq<T>, key: T -> seq<int>)
    requires xs != [] && KeyInjective(multiset(xs), key)
    ensures KeyInjective(multiset(xs[1..]), key)
  {
    forall a, b | a in multiset(xs[1..]) && b in multiset(xs[1..]) && key(a) == key(b) ensures a == b {
      MultisetOfTail(xs);
      assert a in multiset(xs) && b in multiset(xs);
    }
  }

  /** Two sorted arrangements of the same elements are equal once keys identify elements. */
  lemma {:induction false} SortedUnique<T>(xs: seq<T>, ys: seq<T>, key: T -> seq<int>)
    requires Sorted(xs, key) && Sorted(ys, key)
    requires multiset(xs) == multiset(ys)
    requires KeyInjective(multiset(xs), key)
    ensures xs == ys
  {
    if xs == [] {
      assert |multiset(ys)| == |ys|;
    } else {
      SortedHeadsEqual(xs, ys, key);
      TailsPermute(xs, ys);
      KeyInjectiveTail(xs, key);
      SortedTail(xs, key);
      SortedTail(ys, key);
      SortedUnique(xs[1..], ys[1..], key);
      assert xs == [xs[0]] + xs[1..] && ys == [ys[0]] + ys[1..];
    }
  }

  /** Sorting erases the order of its input. */
  lemma SortByOrderFree<T>(xs: seq<T>, ys: seq<T>, key: T -> seq<int>)
    requires multiset(xs) == multiset(ys)
    requires KeyInjective(multiset(xs), key)
    ensures SortBy(xs, key) == SortBy(ys, key)
  {
    SortByPermutes(xs, key);
    SortByPermutes(ys, key);
    SortBySorts(xs, key);
    SortBySorts(ys, key);
    SortedUnique(SortBy(xs, key), SortBy(ys, key), key);
  }

  lemma SortByIdempotent<T>(xs: seq<T>, key: T -> seq<int>)
    requires KeyInjective(multiset(xs), key)
    ensures SortBy(SortBy(xs, key), key) == SortBy(xs, key)
  {
    SortByPermutes(xs, key);
    SortByOrderFree(SortBy(xs, key), xs, key);
  }

  // ---------------------------------------------------------------- the first match of a sorted list

  /** `next((x for x in xs if p(x)), None)`. */
  function FirstWhere<T>(xs: seq<T>, p: T -> bool): Option<T> {
    if xs == [] then None else if p(xs[0]) then Some(xs[0]) else FirstWhere(xs[1..], p)
  }

  /** Position `i` holds the least match, and the earliest of those that share its key. */
  ghost predicate EarliestLeast<T>(xs: seq<T>, i: int, key: T -> seq<int>, p: T -> bool) {
    && 0 <= i < |xs| && p(xs[i])
    && (forall j :: 0 <= j < |xs| && p(xs[j]) ==> Leq(key(xs[i]), key(xs[j])))
    && (forall j :: 0 <= j < i && p(xs[j]) ==> key(xs[j]) != key(xs[i]))
  }

  lemma {:induction false} FirstWhereMember<T>(xs: seq<T>, p: T -> bool)
    ensures FirstWhere(xs, p).None? <==> forall x :: x in xs ==> !p(x)
    ensures FirstWhere(xs, p).Some? ==> FirstWhere(xs, p).value in xs && p(FirstWhere(xs, p).value)
  {
    if xs != [] {
      FirstWhereMember(xs[1..], p);
      assert xs == [xs[0]] + xs[1..];
    }
  }

  lemma {:induction false} FirstWhereInsert<T>(x: T, ys: seq<T>, key: T -> seq<int>, p: T -> bool)
    requires Sorted(ys, key)
    ensures var before, after := FirstWhere(ys, p), FirstWhere(Insert(x, ys, key), p);
            after == if p(x) && (before.None? || Leq(key(x), key(before.value))) then Some(x) else before
  {
    var t := Insert(x, ys, key);
    if ys == [] {
    } else if Leq(key(x), key(ys[0])) {
      assert t[1..] == ys;
      FirstWhereMember(ys, p);
      var before := FirstWhere(ys, p);
      if before.Some? {
        SortedHeadLeast(ys, before.value, key);
        LeqTransitive(key(x), key(ys[0]), key(before.value));
      }
    } else {
      assert t[0] == ys[0] && t[1..] == Insert(x, ys[1..], key);
      FirstWhereInsert(x, ys[1..], key, p);
    }
  }

  /** Sorting stably and taking the first match selects the earliest least match of the unsorted list. */
  lemma {:induction false} FirstOfSorted<T>(xs: seq<T>, key: T -> seq<int>, p: T -> bool)
    ensures var r := FirstWhere(SortBy(xs, key), p);
            && (r.None? <==> forall x :: x in xs ==> !p(x))
            && (r.Some? ==> exists i :: EarliestLeast(xs, i, key, p) && xs[i] == r.value)
  {
    if xs != [] {
      var x, rest := xs[0], xs[1..];
      assert xs == [x] + rest;
      FirstOfSorted(rest, key, p);
      SortBySorts(rest, key);
      FirstWhereInsert(x, SortBy(rest, key), key, p);
      var before := FirstWhere(SortBy(rest, key), p);
      LeqTotal(key(x), key(x));
      if before.Some? {
        var i :| EarliestLeast(rest, i, key, p) && rest[i] == before.value;
        if p(x) && Leq(key(x), key(before.value)) {
          forall j | 0 <= j < |xs| && p(xs[j]) ensures Leq(key(x), key(xs[j])) {
            if j > 0 { LeqTransitive(key(x), key(before.value), key(rest[j - 1])); }
          }
          assert EarliestLeast(xs, 0, key, p);
        } else {
          if p(x) { LeqTotal(key(x), key(before.value)); }
          forall j | 0 <= j < |xs| && p(xs[j]) ensures Leq(key(before.value), key(xs[j])) {
            if j > 0 { assert p(rest[j - 1]); }
          }
          forall j | 0 <= j < i + 1 && p(xs[j]) ensures key(xs[j]) != key(before.value) {
            if j > 0 { assert p(rest[j - 1]); }
          }
          assert EarliestLeast(xs, i + 1, key, p);
        }
      } else if p(x) {
        assert forall j :: 0 < j < |xs| ==> xs[j] in rest;
        assert EarliestLeast(xs, 0, key, p);
      }
    }
  }

  // ---------------------------------------------------------------- filters and maps

  /** `[x for x in xs if p(x)]`. */
  function Filter<T>(xs: seq<T>, p: T -> bool): seq<T> {
    if xs == [] then [] else Filter(xs[..|xs| - 1], p) + if p(xs[|xs| - 1]) then [xs[|xs| - 1]] else []
  }

  lemma FilterStep<T>(xs: seq<T>, i: nat, p: T -> bool)
    requires i < |xs|
    ensures Filter(xs[..i + 1], p) == Filter(xs[..i], p) + if p(xs[i]) then [xs[i]] else []
  {
    assert xs[..i + 1][..i] == xs[..i];
  }

  lemma {:induction false} FilterCount<T>(xs: seq<T>, p: T -> bool, x: T)
    ensures multiset(Filter(xs, p))[x] == if p(x) then multiset(xs)[x] else 0
  {
    if xs != [] {
      FilterCount(xs[..|xs| - 1], p, x);
      assert xs == xs[..|xs| - 1] + [xs[|xs| - 1]];
    }
  }

  lemma FewerCounts<T>(a: multiset<T>, b: multiset<T>)
    requires forall x :: a[x] <= b[x]
    ensures a <= b
  {
  }

  lemma FilterMembers<T>(xs: seq<T>, p: T -> bool)
    ensures forall x :: x in Filter(xs, p) <==> x in xs && p(x)
    ensures multiset(Filter(xs, p)) <= multiset(xs)
  {
    hide Filter;
    var kept, all := multiset(Filter(xs, p)), multiset(xs);
    forall x ensures kept[x] == if p(x) then all[x] else 0 { FilterCount(xs, p, x); }
    FewerCounts(kept, all);
    forall x ensures x in Filter(xs, p) <==> x in xs && p(x) {
      assert x in Filter(xs, p) <==> x in kept;
      assert x in xs <==> x in all;
    }
  }

  lemma FilterPermutes<T>(xs: seq<T>, ys: seq<T>, p: T -> bool)
    requires multiset(xs) == multiset(ys)
    ensures multiset(Filter(xs, p)) == multiset(Filter(ys, p))
  {
    hide Filter;
    var a, b := multiset(Filter(xs, p)), multiset(Filter(ys, p));
    forall x ensures a[x] == b[x] {
      FilterCount(xs, p, x);
      FilterCount(ys, p, x);
    }
    FewerCounts(a, b);
    FewerCounts(b, a);
  }

  lemma TakeOneMore<T>(xs: seq<T>, i: nat)
    requires i < |xs|
    ensures xs[..i + 1] == xs[..i] + [xs[i]]
  {
  }

  /** `[f(x) for x in xs]`. */
  function Map<T, U>(xs: seq<T>, f: T -> U): (r: seq<U>)
    ensures |r| == |xs| && forall i :: 0 <= i < |xs| ==> r[i] == f(xs[i])
  {
    seq(|xs|, i requires 0 <= i < |xs| => f(xs[i]))
  }

  lemma MultisetAround<T>(ys: seq<T>, k: nat)
    requires k < |ys|
    ensures multiset(ys) == multiset(ys[..k] + ys[k + 1..]) + multiset{ys[k]}
  {
    var before, after := ys[..k], ys[k + 1..];
    assert ys == before + ([ys[k]] + after);
    assert multiset(ys) == multiset(before) + (multiset{ys[k]} + multiset(after));
    assert multiset(before + after) == multiset(before) + multiset(after);
  }

  lemma MapAround<T, U>(ys: seq<T>, k: nat, f: T -> U)
    requires k < |ys|
    ensures multiset(Map(ys, f)) == multiset(Map(ys[..k] + ys[k + 1..], f)) + multiset{f(ys[k])}
  {
    var images := Map(ys, f);
    MultisetAround(images, k);
    assert Map(ys[..k] + ys[k + 1..], f) == images[..k] + images[k + 1..];
  }

  /** Taking out one occurrence of a shared element keeps two arrangements equal. */
  lemma TakeOut<T>(xs: seq<T>, ys: seq<T>) returns (k: nat)
    requires multiset(xs) == multiset(ys) && xs != []
    ensures k < |ys| && ys[k] == xs[0] && multiset(xs[1..]) == multiset(ys[..k] + ys[k + 1..])
  {
    assert xs[0] in multiset(ys);
    k :| 0 <= k < |ys| && ys[k] == xs[0];
    MultisetAround(ys, k);
    MultisetOfTail(xs);
  }

  lemma {:induction false} MapPermutes<T, U>(xs: seq<T>, ys: seq<T>, f: T -> U)
    requires multiset(xs) == multiset(ys)
    ensures multiset(Map(xs, f)) == multiset(Map(ys, f))
    decreases |xs|
  {
    hide Map;
    if xs == [] {
      assert |multiset(ys)| == |ys|;
    } else {
      var k := TakeOut(xs, ys);
      MapPermutes(xs[1..], ys[..k] + ys[k + 1..], f);
      MapAround(ys, k, f);
      MapHead(xs, f);
    }
  }

  lemma MapHead<T, U>(xs: seq<T>, f: T -> U)
    requires xs != []
    ensures multiset(Map(xs, f)) == multiset(Map(xs[1..], f)) + multiset{f(xs[0])}
  {
    hide Map;
    MapAround(xs, 0, f);
    assert xs[..0] + xs[1..] == xs[1..];
  }

  // ---------------------------------------------------------------- strings

  function SortStrings(xs: seq<string>): seq<string> { SortBy(xs, Codes) }

  lemma StringKeysInjective(xs: multiset<string>)
    ensures KeyInjective(xs, Codes)
  {
    forall x, y | x in xs && y in xs && Codes(x) == Codes(y) ensures x == y {
      CodesInjective(x, y);
    }
  }

  lemma SortStringsOrderFree(xs: seq<string>, ys: seq<string>)
    requires multiset(xs) == multiset(ys)
    ensures SortStrings(xs) == SortStrings(ys)
  {
    StringKeysInjective(multiset(xs));
    SortByOrderFree(xs, ys, Codes);
  }

  /** `sorted(set(xs))`: each value once, in order. */
  function SortedSet(xs: seq<string>): seq<string> { SortStrings(Dedup(xs)) }

  function Dedup<T(==)>(xs: seq<T>): seq<T> {
    if xs == [] then []
    else if xs[0] in xs[1..] then Dedup(xs[1..])
    else [xs[0]] + Dedup(xs[1..])
  }

  ghost predicate NoDuplicates<T>(xs: seq<T>) {
    forall i, j :: 0 <= i < j < |xs| ==> xs[i] != xs[j]
  }

  lemma {:induction false} DedupMembers<T>(xs: seq<T>)
    ensures forall x :: x in Dedup(xs) <==> x in xs
    ensures NoDuplicates(Dedup(xs))
    ensures forall x :: multiset(Dedup(xs))[x] == (if x in xs then 1 else 0)
  {
    if xs != [] {
      DedupMembers(xs[1..]);
      assert xs == [xs[0]] + xs[1..];
    }
  }

  lemma SortedSetMembers(xs: seq<string>)
    ensures forall x :: x in SortedSet(xs) <==> x in xs
    ensures NoDuplicates(SortedSet(xs))
  {
    DedupMembers(xs);
    SortByPermutes(Dedup(xs), Codes);
    var r := SortedSet(xs);
    forall x ensures x in r <==> x in xs { SortByMembers(Dedup(xs), Codes, x); }
    NoDuplicatesByCount(r);
  }

  lemma {:induction false} NoDuplicatesByCount<T>(xs: seq<T>)
    requires forall x :: x in xs ==> multiset(xs)[x] == 1
    ensures NoDuplicates(xs)
  {
    if xs != [] {
      assert xs == [xs[0]] + xs[1..];
      assert xs[0] !in xs[1..] by {
        assert multiset(xs)[xs[0]] == 1 + multiset(xs[1..])[xs[0]];
      }
      forall x | x in xs[1..] ensures multiset(xs[1..])[x] == 1 {
        assert multiset(xs)[x] == multiset([xs[0]])[x] + multiset(xs[1..])[x];
      }
      NoDuplicatesByCount(xs[1..]);
    }
  }

  lemma CountOnce<T>(xs: seq<T>, x: T)
    requires NoDuplicates(xs) && x in xs
    ensures multiset(xs)[x] == 1
  {
    var k :| 0 <= k < |xs| && xs[k] == x;
    assert xs == xs[..k] + [x] + xs[k + 1..];
    assert x !in xs[..k] && x !in xs[k + 1..];
  }

  /** Only the set of values matters to `sorted(set(xs))`. */
  lemma SortedSetOrderFree(xs: seq<string>, ys: seq<string>)
    requires forall x :: x in xs <==> x in ys
    ensures SortedSet(xs) == SortedSet(ys)
  {
    DedupMembers(xs);
    DedupMembers(ys);
    assert multiset(Dedup(xs)) == multiset(Dedup(ys));
    SortStringsOrderFree(Dedup(xs), Dedup(ys));
  }
}
