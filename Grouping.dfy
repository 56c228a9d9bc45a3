/**
 * Collectors.groupingBy(key, summingDouble(amount)) with integer amounts: a
 * map from every key that occurs to the sum of the amounts carrying that key.
 */
module Grouping {
  import opened Seqs

  /** The predicate "has this key". */
  function KeyEq<T, K(==)>(key: T -> K, k: K): T -> bool {
    y => key(y) == k
  }

  function GroupSum<T, K(==)>(s: seq<T>, key: T -> K, amount: T -> int): map<K, int> {
    if s == [] then map[]
    else
      var m := GroupSum(s[..|s| - 1], key, amount);
      var k := key(s[|s| - 1]);
      m[k := (if k in m then m[k] else 0) + amount(s[|s| - 1])]
  }

  /** The keys of the grouping are exactly the keys that occur in s. */
  lemma {:induction false} GroupSumKeys<T, K>(s: seq<T>, key: T -> K, amount: T -> int)
    ensures forall k :: k in GroupSum(s, key, amount) ==> exists i :: 0 <= i < |s| && key(s[i]) == k
    ensures forall i :: 0 <= i < |s| ==> key(s[i]) in GroupSum(s, key, amount)
    decreases |s|
  {
    if s != [] {
      var init := s[..|s| - 1];
      GroupSumKeys(init, key, amount);
      forall i | 0 <= i < |s| - 1
        ensures key(s[i]) in GroupSum(s, key, amount)
      {
        assert init[i] == s[i];
      }
      forall k | k in GroupSum(s, key, amount)
        ensures exists i :: 0 <= i < |s| && key(s[i]) == k
      {
        if k != key(s[|s| - 1]) {
          assert k in GroupSum(init, key, amount);
          var i :| 0 <= i < |init| && key(init[i]) == k;
          assert s[i] == init[i];
        }
      }
    }
  }

  /** The value of each key is the sum of the amounts of the elements with that key. */
  lemma {:induction false} GroupSumValue<T, K>(s: seq<T>, key: T -> K, amount: T -> int, k: K)
    ensures k in GroupSum(s, key, amount) ==>
      GroupSum(s, key, amount)[k] == Sum(Filter(s, KeyEq(key, k)), amount)
    ensures k !in GroupSum(s, key, amount) ==> Filter(s, KeyEq(key, k)) == []
    decreases |s|
  {
    if s != [] {
      var init := s[..|s| - 1];
      var last := s[|s| - 1];
      GroupSumValue(init, key, amount, k);
      var m := GroupSum(init, key, amount);
      var f := Filter(init, KeyEq(key, k));
      assert GroupSum(s, key, amount) == m[key(last) := (if key(last) in m then m[key(last)] else 0) + amount(last)];
      if key(last) == k {
        assert Filter(s, KeyEq(key, k)) == f + [last];
        assert (f + [last])[..|f + [last]| - 1] == f;
        assert Sum(f + [last], amount) == Sum(f, amount) + amount(last);
      } else {
        assert Filter(s, KeyEq(key, k)) == f;
      }
    }
  }

  /** The sum of the values of a finite map, in no particular order. */
  ghost function MapSum<K>(m: map<K, int>): int
    decreases |m|
  {
    if m == map[] then 0
    else
      var k :| k in m;
      m[k] + MapSum(m - {k})
  }

  /** MapSum does not depend on which key it picks first. */
  lemma {:induction false} MapSumRemove<K>(m: map<K, int>, k: K)
    requires k in m
    ensures MapSum(m) == m[k] + MapSum(m - {k})
    decreases |m|
  {
    var j :| j in m && MapSum(m) == m[j] + MapSum(m - {j});
    if j != k {
      var mj, mk := m - {j}, m - {k};
      assert |mj| < |m| && |mk| < |m|;
      MapSumRemove(mj, k);
      MapSumRemove(mk, j);
      assert mj - {k} == mk - {j};
    }
  }

  lemma MapSumUpdate<K>(m: map<K, int>, k: K, v: int)
    ensures MapSum(m[k := v]) == MapSum(m) - (if k in m then m[k] else 0) + v
  {
    var u := m[k := v];
    MapSumRemove(u, k);
    assert u - {k} == m - {k};
    if k in m {
      MapSumRemove(m, k);
    } else {
      assert m - {k} == m;
    }
  }

  /** The values of the grouping add up to the total of all amounts. */
  lemma {:induction false} GroupSumTotal<T, K>(s: seq<T>, key: T -> K, amount: T -> int)
    ensures MapSum(GroupSum(s, key, amount)) == Sum(s, amount)
    decreases |s|
  {
    if s != [] {
      var init := s[..|s| - 1];
      GroupSumTotal(init, key, amount);
      var m := GroupSum(init, key, amount);
      var k := key(s[|s| - 1]);
      MapSumUpdate(m, k, (if k in m then m[k] else 0) + amount(s[|s| - 1]));
    }
  }
}
