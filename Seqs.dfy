/**
 * The stream operations the Java code uses on lists (filter, sum and a stable
 * sort by a key), as functions on sequences with the facts the rest of the
 * model needs about them.
 */
module Seqs {

  lemma TakeSnoc<T>(s: seq<T>, i: nat)
    requires i < |s|
    ensures s[..i + 1] == s[..i] + [s[i]]
  {
  }

  lemma AppendAssoc<T>(a: seq<T>, b: seq<T>, c: seq<T>)
    ensures a + (b + c) == (a + b) + c
  {
  }

  /** a is obtained from b by deleting elements, keeping the order of the rest. */
  predicate IsSubseq<T(==)>(a: seq<T>, b: seq<T>)
    decreases |b|
  {
    a == [] ||
    (b != [] &&
      ((a[|a| - 1] == b[|b| - 1] && IsSubseq(a[..|a| - 1], b[..|b| - 1]))
       || IsSubseq(a, b[..|b| - 1])))
  }

  /** stream().filter(p).collect(toList()) */
  function Filter<T>(s: seq<T>, p: T -> bool): (r: seq<T>)
  {
    if s == [] then []
    else if p(s[|s| - 1]) then Filter(s[..|s| - 1], p) + [s[|s| - 1]]
    else Filter(s[..|s| - 1], p)
  }

  lemma FilterSingle<T>(x: T, p: T -> bool)
    ensures Filter([x], p) == if p(x) then [x] else []
  {
    assert [x][..0] == [];
  }

  /** The filter keeps exactly the elements that satisfy p. */
  lemma {:induction false} FilterMembers<T>(s: seq<T>, p: T -> bool)
    ensures |Filter(s, p)| <= |s|
    ensures forall i :: 0 <= i < |Filter(s, p)| ==> Filter(s, p)[i] in s && p(Filter(s, p)[i])
    ensures forall i :: 0 <= i < |s| && p(s[i]) ==> s[i] in Filter(s, p)
    decreases |s|
  {
    if s != [] {
      var init := s[..|s| - 1];
      var last := s[|s| - 1];
      assert s == init + [last];
      FilterMembers(init, p);
      var fi := Filter(init, p);
      forall i | 0 <= i < |s| && p(s[i])
        ensures s[i] in Filter(s, p)
      {
        if i < |init| {
          assert init[i] == s[i];
        }
      }
    }
  }

  /** ... and keeps them in their original order. */
  lemma {:induction false} FilterIsSubseq<T>(s: seq<T>, p: T -> bool)
    ensures IsSubseq(Filter(s, p), s)
    decreases |s|
  {
    if s != [] {
      var init := s[..|s| - 1];
      var last := s[|s| - 1];
      FilterIsSubseq(init, p);
      var r := Filter(s, p);
      if p(last) {
        assert r[..|r| - 1] == Filter(init, p);
      }
    }
  }

  lemma {:induction false} FilterMultiset<T>(s: seq<T>, p: T -> bool)
    ensures multiset(Filter(s, p)) <= multiset(s)
    decreases |s|
  {
    if s != [] {
      var init := s[..|s| - 1];
      assert s == init + [s[|s| - 1]];
      FilterMultiset(init, p);
    }
  }

  lemma {:induction false} FilterAppend<T>(a: seq<T>, b: seq<T>, p: T -> bool)
    ensures Filter(a + b, p) == Filter(a, p) + Filter(b, p)
    decreases |b|
  {
    if b == [] {
      assert a + b == a;
    } else {
      var bi := b[..|b| - 1];
      assert (a + b)[..|a + b| - 1] == a + bi;
      assert b[..|b| - 1] == bi;
      FilterAppend(a, bi, p);
    }
  }

  lemma {:induction false} FilterAll<T>(s: seq<T>, p: T -> bool)
    requires forall i :: 0 <= i < |s| ==> p(s[i])
    ensures Filter(s, p) == s
  {
    if s != [] {
      assert s[..|s| - 1] + [s[|s| - 1]] == s;
      FilterAll(s[..|s| - 1], p);
    }
  }

  lemma {:induction false} FilterNone<T>(s: seq<T>, p: T -> bool)
    requires forall i :: 0 <= i < |s| ==> !p(s[i])
    ensures Filter(s, p) == []
  {
    if s != [] {
      FilterNone(s[..|s| - 1], p);
    }
  }

  /** A relation that holds between every earlier and later element still holds after filtering. */
  lemma {:induction false} FilterPairwise<T>(s: seq<T>, p: T -> bool, R: (T, T) -> bool)
    requires forall i, j :: 0 <= i < j < |s| ==> R(s[i], s[j])
    ensures var r := Filter(s, p); forall i, j :: 0 <= i < j < |r| ==> R(r[i], r[j])
    decreases |s|
  {
    if s != [] {
      var init := s[..|s| - 1];
      var last := s[|s| - 1];
      FilterPairwise(init, p, R);
      FilterMembers(init, p);
      var fi := Filter(init, p);
      if p(last) {
        var r := fi + [last];
        assert Filter(s, p) == r;
        forall i, j | 0 <= i < j < |r|
          ensures R(r[i], r[j])
        {
          if j == |r| - 1 {
            assert i < |fi| && r[i] == fi[i];
            var k :| 0 <= k < |init| && init[k] == r[i];
          }
        }
      }
    }
  }

  /** mapToDouble(amount).sum(), with integer amounts. */
  function Sum<T>(s: seq<T>, amount: T -> int): int {
    if s == [] then 0 else Sum(s[..|s| - 1], amount) + amount(s[|s| - 1])
  }

  lemma {:induction false} SumAppend<T>(a: seq<T>, b: seq<T>, amount: T -> int)
    ensures Sum(a + b, amount) == Sum(a, amount) + Sum(b, amount)
    decreases |b|
  {
    if b == [] {
      assert a + b == a;
    } else {
      var bi := b[..|b| - 1];
      assert (a + b)[..|a + b| - 1] == a + bi;
      SumAppend(a, bi, amount);
    }
  }

  /** The elements of s are in ascending order of key. */
  predicate SortedBy<T>(s: seq<T>, key: T -> int) {
    forall i, j :: 0 <= i < j < |s| ==> key(s[i]) <= key(s[j])
  }

  /** Insert x after every element whose key is at most key(x). */
  function InsertBy<T>(l: seq<T>, x: T, key: T -> int): (r: seq<T>)
    ensures |r| == |l| + 1
  {
    if l == [] then [x]
    else if key(l[|l| - 1]) <= key(x) then l + [x]
    else InsertBy(l[..|l| - 1], x, key) + [l[|l| - 1]]
  }

  lemma {:induction false} InsertByBound<T>(l: seq<T>, x: T, key: T -> int, b: int)
    requires key(x) <= b
    requires forall i :: 0 <= i < |l| ==> key(l[i]) <= b
    ensures forall i :: 0 <= i < |InsertBy(l, x, key)| ==> key(InsertBy(l, x, key)[i]) <= b
    decreases |l|
  {
    if l != [] && key(l[|l| - 1]) > key(x) {
      InsertByBound(l[..|l| - 1], x, key, b);
    }
  }

  lemma {:induction false} InsertBySorted<T>(l: seq<T>, x: T, key: T -> int)
    requires SortedBy(l, key)
    ensures SortedBy(InsertBy(l, x, key), key)
    decreases |l|
  {
    if l != [] && key(l[|l| - 1]) > key(x) {
      var init := l[..|l| - 1];
      var last := l[|l| - 1];
      InsertBySorted(init, x, key);
      InsertByBound(init, x, key, key(last));
      var q := InsertBy(init, x, key);
      assert InsertBy(l, x, key) == q + [last];
    }
  }

  lemma {:induction false} InsertByMultiset<T>(l: seq<T>, x: T, key: T -> int)
    ensures multiset(InsertBy(l, x, key)) == multiset(l) + multiset{x}
    decreases |l|
  {
    if l != [] {
      var init := l[..|l| - 1];
      assert l == init + [l[|l| - 1]];
      InsertByMultiset(init, x, key);
    }
  }

  /** A stable sort by key, as List.sort with Comparator.comparing(key). */
  function SortBy<T>(s: seq<T>, key: T -> int): (r: seq<T>)
    ensures |r| == |s|
  {
    if s == [] then []
    else InsertBy(SortBy(s[..|s| - 1], key), s[|s| - 1], key)
  }

  lemma {:induction false} SortByProperties<T>(s: seq<T>, key: T -> int)
    ensures SortedBy(SortBy(s, key), key)
    ensures multiset(SortBy(s, key)) == multiset(s)
    decreases |s|
  {
    if s != [] {
      var init := s[..|s| - 1];
      assert s == init + [s[|s| - 1]];
      SortByProperties(init, key);
      InsertBySorted(SortBy(init, key), s[|s| - 1], key);
      InsertByMultiset(SortBy(init, key), s[|s| - 1], key);
    }
  }

  /** The predicate "has key k". */
  function KeyIs<T>(key: T -> int, k: int): T -> bool {
    y => key(y) == k
  }

  lemma {:induction false} InsertByStable<T>(l: seq<T>, x: T, key: T -> int, k: int)
    requires SortedBy(l, key)
    ensures Filter(InsertBy(l, x, key), KeyIs(key, k))
         == Filter(l, KeyIs(key, k)) + Filter([x], KeyIs(key, k))
    decreases |l|
  {
    var p := KeyIs(key, k);
    if l == [] {
    } else if key(l[|l| - 1]) <= key(x) {
      FilterAppend(l, [x], p);
    } else {
      var init := l[..|l| - 1];
      var last := l[|l| - 1];
      assert l == init + [last];
      InsertByStable(init, x, key, k);
      FilterAppend(InsertBy(init, x, key), [last], p);
      FilterAppend(init, [last], p);
      if key(x) == k {
        assert Filter([last], p) == [];
      }
    }
  }

  /** Stability: among elements of equal key the sort keeps the input order. */
  lemma {:induction false} SortByStable<T>(s: seq<T>, key: T -> int, k: int)
    ensures Filter(SortBy(s, key), KeyIs(key, k)) == Filter(s, KeyIs(key, k))
    decreases |s|
  {
    if s != [] {
      var init := s[..|s| - 1];
      assert s == init + [s[|s| - 1]];
      SortByStable(init, key, k);
      SortByProperties(init, key);
      InsertByStable(SortBy(init, key), s[|s| - 1], key, k);
      FilterAppend(init, [s[|s| - 1]], KeyIs(key, k));
    }
  }
}
