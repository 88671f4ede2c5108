/**
 * The array operations the pages are built from — `filter`, `find`, `findIndex`,
 * `some`, `slice(0, n)` and the index-based removal `filter((_, i) => i !== k)` —
 * as functions on sequences, with the facts the views rely on.
 */
module Seqs {
  import opened Wrappers

  /** `a` occurs in `b` with its elements in the same order, possibly with gaps. */
  ghost predicate IsSubsequence<T>(a: seq<T>, b: seq<T>)
  {
    a == [] || (b != [] && ((a[0] == b[0] && IsSubsequence(a[1..], b[1..])) || IsSubsequence(a, b[1..])))
  }

  lemma {:induction false} SubsequenceTransitive<T>(a: seq<T>, b: seq<T>, c: seq<T>)
    requires IsSubsequence(a, b) && IsSubsequence(b, c)
    ensures IsSubsequence(a, c)
    decreases |c|
  {
    if a != [] {
      if IsSubsequence(b, c[1..]) {
        SubsequenceTransitive(a, b, c[1..]);
      } else if a[0] == b[0] && IsSubsequence(a[1..], b[1..]) {
        SubsequenceTransitive(a[1..], b[1..], c[1..]);
      } else {
        SubsequenceTransitive(a, b[1..], c[1..]);
      }
    }
  }

  /** `s.filter(p)`: the elements of `s` that satisfy `p`, in their order in `s`. */
  function Filter<T>(s: seq<T>, p: T -> bool): (r: seq<T>)
    ensures |r| <= |s|
    ensures forall i :: 0 <= i < |r| ==> r[i] in s && p(r[i])
    ensures forall i :: 0 <= i < |s| && p(s[i]) ==> s[i] in r
  {
    if s == [] then [] else (if p(s[0]) then [s[0]] else []) + Filter(s[1..], p)
  }

  lemma {:induction false} FilterIsSubsequence<T>(s: seq<T>, p: T -> bool)
    ensures IsSubsequence(Filter(s, p), s)
  {
    if s != [] {
      FilterIsSubsequence(s[1..], p);
      var r := Filter(s, p);
      if p(s[0]) {
        assert r[0] == s[0] && r[1..] == Filter(s[1..], p);
      } else {
        assert r == Filter(s[1..], p);
      }
    }
  }

  /** `if (active) s = s.filter(p)`: one optional step of a filter pipeline. */
  function FilterIf<T>(s: seq<T>, active: bool, p: T -> bool): (r: seq<T>)
    ensures !active ==> r == s
    ensures active ==> r == Filter(s, p)
  {
    if active then Filter(s, p) else s
  }

  /** An optional step whose predicate holds whenever the step is off is an ordinary filter. */
  lemma FilterIfAsFilter<T>(s: seq<T>, active: bool, p: T -> bool)
    requires !active ==> forall x :: p(x)
    ensures FilterIf(s, active, p) == Filter(s, p)
  {
    if !active {
      FilterAll(s, p);
    }
  }

  /** Two predicates that agree everywhere filter alike. */
  lemma {:induction false} FilterExt<T>(s: seq<T>, p: T -> bool, q: T -> bool)
    requires forall x :: p(x) == q(x)
    ensures Filter(s, p) == Filter(s, q)
  {
    if s != [] {
      FilterExt(s[1..], p, q);
    }
  }

  /** Filtering by `p` and then by `q` is filtering once by their conjunction. */
  lemma {:induction false} FilterFuse<T>(s: seq<T>, p: T -> bool, q: T -> bool, r: T -> bool)
    requires forall x :: r(x) == (p(x) && q(x))
    ensures Filter(Filter(s, p), q) == Filter(s, r)
  {
    if s != [] {
      FilterFuse(s[1..], p, q, r);
      assert Filter(s, p) == (if p(s[0]) then [s[0]] else []) + Filter(s[1..], p);
      FilterAppend(if p(s[0]) then [s[0]] else [], Filter(s[1..], p), q);
    }
  }

  /** The conjunction of two predicates. */
  function And<T>(p: T -> bool, q: T -> bool): T -> bool
  {
    x => p(x) && q(x)
  }

  /** Two filters in a row are one filter by `And`. */
  lemma FilterAnd<T>(s: seq<T>, p: T -> bool, q: T -> bool)
    ensures Filter(Filter(s, p), q) == Filter(s, And(p, q))
  {
    FilterFuse(s, p, q, And(p, q));
  }

  /** An optional step after a filter by `base` is one filter by `base` and the step's predicate. */
  lemma FilterIfThen<T>(s: seq<T>, base: T -> bool, active: bool, p: T -> bool)
    requires !active ==> forall x :: p(x)
    ensures FilterIf(Filter(s, base), active, p) == Filter(s, And(base, p))
  {
    FilterIfAsFilter(Filter(s, base), active, p);
    FilterAnd(s, base, p);
  }

  /** Five optional steps, each off only when its predicate always holds, are one filter by their conjunction. */
  lemma FilterIfChain5<T>(s: seq<T>, c1: bool, p1: T -> bool, c2: bool, p2: T -> bool, c3: bool, p3: T -> bool,
                          c4: bool, p4: T -> bool, c5: bool, p5: T -> bool, m: T -> bool)
    requires !c1 ==> forall x :: p1(x)
    requires !c2 ==> forall x :: p2(x)
    requires !c3 ==> forall x :: p3(x)
    requires !c4 ==> forall x :: p4(x)
    requires !c5 ==> forall x :: p5(x)
    requires forall x :: m(x) == (p1(x) && p2(x) && p3(x) && p4(x) && p5(x))
    ensures FilterIf(FilterIf(FilterIf(FilterIf(FilterIf(s, c1, p1), c2, p2), c3, p3), c4, p4), c5, p5) == Filter(s, m)
  {
    FilterIfAsFilter(s, c1, p1);
    FilterIfThen(s, p1, c2, p2);
    var q2 := And(p1, p2);
    FilterIfThen(s, q2, c3, p3);
    var q3 := And(q2, p3);
    FilterIfThen(s, q3, c4, p4);
    var q4 := And(q3, p4);
    FilterIfThen(s, q4, c5, p5);
    FilterExt(s, And(q4, p5), m);
  }

  /** Six optional steps, each off only when its predicate always holds, are one filter by their conjunction. */
  lemma FilterIfChain6<T>(s: seq<T>, c1: bool, p1: T -> bool, c2: bool, p2: T -> bool, c3: bool, p3: T -> bool,
                          c4: bool, p4: T -> bool, c5: bool, p5: T -> bool, c6: bool, p6: T -> bool, m: T -> bool)
    requires !c1 ==> forall x :: p1(x)
    requires !c2 ==> forall x :: p2(x)
    requires !c3 ==> forall x :: p3(x)
    requires !c4 ==> forall x :: p4(x)
    requires !c5 ==> forall x :: p5(x)
    requires !c6 ==> forall x :: p6(x)
    requires forall x :: m(x) == (p1(x) && p2(x) && p3(x) && p4(x) && p5(x) && p6(x))
    ensures FilterIf(FilterIf(FilterIf(FilterIf(FilterIf(FilterIf(s, c1, p1), c2, p2), c3, p3), c4, p4), c5, p5), c6, p6)
            == Filter(s, m)
  {
    var a5 := (x: T) => p1(x) && p2(x) && p3(x) && p4(x) && p5(x);
    FilterIfChain5(s, c1, p1, c2, p2, c3, p3, c4, p4, c5, p5, a5);
    FilterIfThen(s, a5, c6, p6);
    FilterExt(s, And(a5, p6), m);
  }

  /** A filter that every element passes changes nothing. */
  lemma {:induction false} FilterAll<T>(s: seq<T>, p: T -> bool)
    requires forall i :: 0 <= i < |s| ==> p(s[i])
    ensures Filter(s, p) == s
  {
    if s != [] {
      FilterAll(s[1..], p);
    }
  }

  /** A filter distributes over concatenation. */
  lemma {:induction false} FilterAppend<T>(a: seq<T>, b: seq<T>, p: T -> bool)
    ensures Filter(a + b, p) == Filter(a, p) + Filter(b, p)
  {
    if a == [] {
      assert a + b == b;
    } else {
      assert (a + b)[0] == a[0] && (a + b)[1..] == a[1..] + b;
      FilterAppend(a[1..], b, p);
    }
  }

  /** In `a + b`, the positions below `|a|` hold `a`'s elements and the others `b`'s. */
  lemma ConcatHolds<T>(a: seq<T>, b: seq<T>, pa: T -> bool, pb: T -> bool)
    requires forall i :: 0 <= i < |a| ==> pa(a[i])
    requires forall i :: 0 <= i < |b| ==> pb(b[i])
    ensures forall i :: 0 <= i < |a| ==> pa((a + b)[i])
    ensures forall i :: |a| <= i < |a + b| ==> pb((a + b)[i])
  {
    forall i | |a| <= i < |a + b|
      ensures pb((a + b)[i])
    {
      assert (a + b)[i] == b[i - |a|];
    }
  }

  /** Filters that agree on two lists agree on them with the same first element. */
  lemma FilterConsCongruence<T>(h: T, a: seq<T>, b: seq<T>, p: T -> bool)
    requires Filter(a, p) == Filter(b, p)
    ensures Filter([h] + a, p) == Filter([h] + b, p)
  {
    assert ([h] + a)[1..] == a && ([h] + b)[1..] == b;
  }

  /** Two leading elements that are not both kept may be swapped without changing the filter. */
  lemma FilterSwapHeads<T>(h: T, x: T, tl: seq<T>, p: T -> bool)
    requires !(p(h) && p(x))
    ensures Filter([h] + ([x] + tl), p) == Filter([x] + ([h] + tl), p)
  {
    var xt, ht := [x] + tl, [h] + tl;
    assert ([h] + xt)[0] == h && ([h] + xt)[1..] == xt;
    assert ([x] + ht)[0] == x && ([x] + ht)[1..] == ht;
    assert xt[0] == x && xt[1..] == tl;
    assert ht[0] == h && ht[1..] == tl;
    var rest := Filter(tl, p);
    if p(h) {
      assert Filter(xt, p) == rest && Filter(ht, p) == [h] + rest;
    } else if p(x) {
      assert Filter(xt, p) == [x] + rest && Filter(ht, p) == rest;
    } else {
      assert Filter(xt, p) == rest && Filter(ht, p) == rest;
    }
  }

  /** Filtering by `p` and by its negation splits the multiset of `s` in two. */
  lemma {:induction false} FilterSplit<T>(s: seq<T>, p: T -> bool, q: T -> bool)
    requires forall x :: q(x) == !p(x)
    ensures multiset(Filter(s, p)) + multiset(Filter(s, q)) == multiset(s)
  {
    if s != [] {
      var x, t := s[0], s[1..];
      var fp, fq := Filter(t, p), Filter(t, q);
      FilterSplit(t, p, q);
      assert s == [x] + t;
      if p(x) {
        assert Filter(s, p) == [x] + fp && Filter(s, q) == fq;
      } else {
        assert Filter(s, p) == fp && Filter(s, q) == [x] + fq;
      }
      ConsBalances(x, fp, fq, t);
    }
  }

  /** Filters by two exclusive predicates take, between them, no element more often than `s` holds it. */
  lemma {:induction false} FilterExclusiveSum<T>(s: seq<T>, p: T -> bool, q: T -> bool)
    requires forall x :: !(p(x) && q(x))
    ensures multiset(Filter(s, p)) + multiset(Filter(s, q)) <= multiset(s)
  {
    if s != [] {
      var x, t := s[0], s[1..];
      var fp, fq := Filter(t, p), Filter(t, q);
      FilterExclusiveSum(t, p, q);
      assert s == [x] + t;
      if p(x) {
        assert Filter(s, p) == [x] + fp && Filter(s, q) == fq;
      } else if q(x) {
        assert Filter(s, p) == fp && Filter(s, q) == [x] + fq;
      } else {
        assert Filter(s, p) == fp && Filter(s, q) == fq;
      }
      ConsBounded(x, fp, fq, t);
    }
  }

  /** Filters by two exclusive predicates keep, between them, at most as many elements as `s` has. */
  lemma {:induction false} FilterExclusiveLength<T>(s: seq<T>, p: T -> bool, q: T -> bool)
    requires forall x :: !(p(x) && q(x))
    ensures |Filter(s, p)| + |Filter(s, q)| <= |s|
  {
    if s != [] {
      FilterExclusiveLength(s[1..], p, q);
    }
  }

  /** Prepending one element to either side of a multiset sum and to its total keeps it balanced. */
  lemma ConsBalances<T>(x: T, a: seq<T>, b: seq<T>, c: seq<T>)
    requires multiset(a) + multiset(b) == multiset(c)
    ensures multiset([x] + a) + multiset(b) == multiset([x] + c)
    ensures multiset(a) + multiset([x] + b) == multiset([x] + c)
  {
  }

  /** Prepending one element to the bound of a multiset sum keeps it a bound, however the element is placed. */
  lemma ConsBounded<T>(x: T, a: seq<T>, b: seq<T>, c: seq<T>)
    requires multiset(a) + multiset(b) <= multiset(c)
    ensures multiset([x] + a) + multiset(b) <= multiset([x] + c)
    ensures multiset(a) + multiset([x] + b) <= multiset([x] + c)
    ensures multiset(a) + multiset(b) <= multiset([x] + c)
  {
  }

  /** Filters by two exclusive predicates split the filter by their disjunction in two. */
  lemma {:induction false} FilterExclusiveUnion<T>(s: seq<T>, p: T -> bool, q: T -> bool, r: T -> bool)
    requires forall x :: r(x) == (p(x) || q(x))
    requires forall x :: !(p(x) && q(x))
    ensures multiset(Filter(s, p)) + multiset(Filter(s, q)) == multiset(Filter(s, r))
  {
    if s != [] {
      var x, t := s[0], s[1..];
      var fp, fq, fr := Filter(t, p), Filter(t, q), Filter(t, r);
      FilterExclusiveUnion(t, p, q, r);
      if p(x) {
        assert Filter(s, p) == [x] + fp && Filter(s, q) == fq && Filter(s, r) == [x] + fr;
        ConsBalances(x, fp, fq, fr);
      } else if q(x) {
        assert Filter(s, p) == fp && Filter(s, q) == [x] + fq && Filter(s, r) == [x] + fr;
        ConsBalances(x, fp, fq, fr);
      } else {
        assert Filter(s, p) == fp && Filter(s, q) == fq && Filter(s, r) == fr;
      }
    }
  }

  /**
   * Three mutually exclusive predicates whose disjunction is `q` split the elements that
   * satisfy `q` among them.
   */
  lemma FilterPartition3<T>(s: seq<T>, p1: T -> bool, p2: T -> bool, p3: T -> bool, q: T -> bool)
    requires forall x :: q(x) == (p1(x) || p2(x) || p3(x))
    requires forall x :: !(p1(x) && p2(x)) && !(p1(x) && p3(x)) && !(p2(x) && p3(x))
    ensures multiset(Filter(s, p1)) + multiset(Filter(s, p2)) + multiset(Filter(s, p3)) == multiset(Filter(s, q))
  {
    var p12 := (x: T) => p1(x) || p2(x);
    FilterExclusiveUnion(s, p1, p2, p12);
    FilterExclusiveUnion(s, p12, p3, q);
  }

  /** Every element of a filter result satisfies the predicate, read by index. */
  lemma FilterAt<T>(s: seq<T>, p: T -> bool, i: int)
    requires 0 <= i < |Filter(s, p)|
    ensures p(Filter(s, p)[i]) && Filter(s, p)[i] in s
  {
    assert Filter(s, p)[i] in Filter(s, p);
  }

  /** `s.findIndex(p)`: the first index whose element satisfies `p`, or -1. */
  function FindIndex<T>(s: seq<T>, p: T -> bool): (r: int)
    ensures -1 <= r < |s|
    ensures r == -1 <==> forall i :: 0 <= i < |s| ==> !p(s[i])
    ensures 0 <= r ==> p(s[r]) && forall i :: 0 <= i < r ==> !p(s[i])
  {
    if s == [] then -1
    else if p(s[0]) then 0
    else
      var k := FindIndex(s[1..], p);
      assert forall i :: 1 <= i < |s| ==> s[i] == s[1..][i - 1];
      if k == -1 then -1 else k + 1
  }

  /** `s.find(p)`: the element at `findIndex`, or nothing. */
  function FindFirst<T>(s: seq<T>, p: T -> bool): (r: Option<T>)
    ensures r.None? <==> forall i :: 0 <= i < |s| ==> !p(s[i])
    ensures r.Some? ==> r.value in s && p(r.value)
    ensures r.Some? ==> exists i :: 0 <= i < |s| && s[i] == r.value && forall j :: 0 <= j < i ==> !p(s[j])
  {
    var k := FindIndex(s, p);
    if k == -1 then None else Some(s[k])
  }

  /** `s.some(p)`. */
  predicate Any<T>(s: seq<T>, p: T -> bool)
  {
    exists i :: 0 <= i < |s| && p(s[i])
  }

  lemma AnyIffFound<T>(s: seq<T>, p: T -> bool)
    ensures Any(s, p) <==> FindFirst(s, p).Some?
  {
  }

  /** `s.slice(0, n)`. */
  function Take<T>(s: seq<T>, n: nat): (r: seq<T>)
    ensures |r| <= n && |r| <= |s|
    ensures |r| == if |s| < n then |s| else n
    ensures r == s[..|r|]
  {
    if |s| <= n then s else s[..n]
  }

  lemma TakeIsSubsequence<T>(s: seq<T>, n: nat)
    ensures IsSubsequence(Take(s, n), s)
  {
    PrefixIsSubsequence(s, |Take(s, n)|);
  }

  lemma {:induction false} PrefixIsSubsequence<T>(s: seq<T>, k: nat)
    requires k <= |s|
    ensures IsSubsequence(s[..k], s)
  {
    if k > 0 {
      PrefixIsSubsequence(s[1..], k - 1);
      assert s[..k][0] == s[0] && s[..k][1..] == s[1..][..k - 1];
    }
  }

  /** `s.filter((_, i) => i !== k)`: drops the element at index `k`, if there is one. */
  function RemoveAt<T>(s: seq<T>, k: int): (r: seq<T>)
    ensures 0 <= k < |s| ==> r == s[..k] + s[k + 1..]
    ensures !(0 <= k < |s|) ==> r == s
  {
    if s == [] then []
    else if k == 0 then s[1..]
    else
      var rest := RemoveAt(s[1..], k - 1);
      var t := s[1..];
      if 0 < k < |s| then
        assert s[..k] == [s[0]] + t[..k - 1];
        assert t[k..] == s[k + 1..];
        [s[0]] + rest
      else
        assert s == [s[0]] + t;
        [s[0]] + rest
  }

  /**
   * `xs.reduce((acc, x) => ({ ...acc, [key(x)]: x }), {})`: each key mapped to the last
   * element that has it.
   */
  function IndexBy<T, K>(xs: seq<T>, key: T -> K): (r: map<K, T>)
    ensures forall i :: 0 <= i < |xs| ==> key(xs[i]) in r
    ensures forall k :: k in r ==> exists i :: 0 <= i < |xs| && LastWithKey(xs, key, k, i) && r[k] == xs[i]
  {
    if xs == [] then map[]
    else
      var init := IndexBy(xs[..|xs| - 1], key);
      var last := xs[|xs| - 1];
      assert forall i :: 0 <= i < |xs| - 1 ==> xs[..|xs| - 1][i] == xs[i];
      init[key(last) := last]
  }

  /** Index `i` holds the last element of `xs` whose key is `k`. */
  ghost predicate LastWithKey<T, K>(xs: seq<T>, key: T -> K, k: K, i: int)
  {
    0 <= i < |xs| && key(xs[i]) == k && forall j :: i < j < |xs| ==> key(xs[j]) != k
  }

  /** No element occurs twice. */
  predicate Distinct<T(==)>(s: seq<T>)
  {
    forall i, j :: 0 <= i < j < |s| ==> s[i] != s[j]
  }

  /** `s.indexOf(x)`: the first index holding `x`, or -1. */
  function IndexOf<T(==)>(s: seq<T>, x: T): (r: int)
    ensures -1 <= r < |s|
    ensures r == -1 <==> x !in s
    ensures 0 <= r ==> s[r] == x && x !in s[..r]
  {
    FindIndex(s, y => y == x)
  }

  /** The first index in `a + b` of an element of `a` is its first index in `a`; one only in `b` comes after `a`. */
  lemma IndexOfAppend<T>(a: seq<T>, b: seq<T>, x: T)
    ensures x in a ==> IndexOf(a + b, x) == IndexOf(a, x)
    ensures x !in a && x in b ==> IndexOf(a + b, x) == |a| + IndexOf(b, x)
  {
    var k := IndexOf(a + b, x);
    if x in a {
      var j := IndexOf(a, x);
      assert (a + b)[j] == x;
      assert (a + b)[..j] == a[..j];
    } else if x in b {
      var j := IndexOf(b, x);
      assert (a + b)[|a| + j] == x;
      assert (a + b)[..|a|] == a;
      assert (a + b)[..|a| + j][|a|..] == b[..j];
    }
  }

  /** `[...new Set(s)]`: each element once, in the order of first occurrence. */
  function Dedup<T(==)>(s: seq<T>): (r: seq<T>)
    ensures Distinct(r)
    ensures forall i :: 0 <= i < |r| ==> r[i] in s
    ensures forall i :: 0 <= i < |s| ==> s[i] in r
  {
    if s == [] then []
    else
      var init := s[..|s| - 1];
      var last := s[|s| - 1];
      var rest := Dedup(init);
      assert s == init + [last];
      if last in rest then rest else rest + [last]
  }

  /** The elements of `r` appear in `s`, and their first occurrences there come in `r`'s order. */
  predicate InFirstOccurrenceOrder<T(==)>(r: seq<T>, s: seq<T>)
  {
    forall i, j :: 0 <= i < j < |r| ==> IndexOf(s, r[i]) < IndexOf(s, r[j])
  }

  /** Appending to `s` keeps the order of the first occurrences of elements already in `s`. */
  lemma OrderSurvivesAppend<T>(r: seq<T>, s: seq<T>, last: T)
    requires forall i :: 0 <= i < |r| ==> r[i] in s
    requires InFirstOccurrenceOrder(r, s)
    ensures InFirstOccurrenceOrder(r, s + [last])
  {
    forall i, j | 0 <= i < j < |r|
      ensures IndexOf(s + [last], r[i]) < IndexOf(s + [last], r[j])
    {
      IndexOfAppend(s, [last], r[i]);
      IndexOfAppend(s, [last], r[j]);
    }
  }

  /** An element new to `s` first occurs after everything in `s`, so it may go last. */
  lemma OrderTakesNewLast<T>(r: seq<T>, s: seq<T>, last: T)
    requires forall i :: 0 <= i < |r| ==> r[i] in s
    requires last !in s
    requires InFirstOccurrenceOrder(r, s + [last])
    ensures InFirstOccurrenceOrder(r + [last], s + [last])
  {
    IndexOfAppend(s, [last], last);
    var r' := r + [last];
    forall i, j | 0 <= i < j < |r'|
      ensures IndexOf(s + [last], r'[i]) < IndexOf(s + [last], r'[j])
    {
      assert r'[i] == r[i];
      if j < |r| {
        assert r'[j] == r[j];
      } else {
        IndexOfAppend(s, [last], r[i]);
      }
    }
  }

  /** The elements of `Dedup(s)` appear in the order of their first occurrences in `s`. */
  lemma {:induction false} DedupKeepsFirstOccurrenceOrder<T>(s: seq<T>)
    ensures InFirstOccurrenceOrder(Dedup(s), s)
  {
    if s != [] {
      var init := s[..|s| - 1];
      var last := s[|s| - 1];
      var rest := Dedup(init);
      assert s == init + [last];
      DedupKeepsFirstOccurrenceOrder(init);
      OrderSurvivesAppend(rest, init, last);
      if last !in rest {
        assert last !in init;
        OrderTakesNewLast(rest, init, last);
      }
    }
  }

  /** `s`'s elements after mapping through `f`, in order. */
  function Map<T, U>(s: seq<T>, f: T -> U): (r: seq<U>)
    ensures |r| == |s| && forall i :: 0 <= i < |s| ==> r[i] == f(s[i])
  {
    seq(|s|, i requires 0 <= i < |s| => f(s[i]))
  }
}
