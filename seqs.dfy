/**
 * Sequences built from JavaScript arrays and `Map`s: `Array.prototype.filter`
 * and `Array.from(map.values())`, where a `Map` iterates in insertion order.
 */
module Seqs {

  /** `r` is `s` with some elements left out, the rest kept in their order. */
  ghost predicate IsSubsequence<T>(r: seq<T>, s: seq<T>)
    decreases |s|
  {
    r == [] || (s != [] && if r[0] == s[0] then IsSubsequence(r[1..], s[1..]) else IsSubsequence(r, s[1..]))
  }

  /** `s.filter(p)`. */
  function Filter<T(!new)>(s: seq<T>, p: T -> bool): (r: seq<T>)
    ensures |r| <= |s|
    ensures forall x :: x in r <==> x in s && p(x)
    ensures IsSubsequence(r, s)
    decreases |s|
  {
    if s == [] then []
    else if p(s[0]) then [s[0]] + Filter(s[1..], p)
    else Filter(s[1..], p)
  }

  /** `s.filter(p)` keeps every copy of a passing element and no copy of a failing one. */
  lemma {:induction false} FilterMultiset<T(!new)>(s: seq<T>, p: T -> bool)
    ensures forall x :: multiset(Filter(s, p))[x] == if p(x) then multiset(s)[x] else 0
    decreases |s|
  {
    if s != [] {
      FilterMultiset(s[1..], p);
      assert s == [s[0]] + s[1..];
      assert multiset(s) == multiset([s[0]]) + multiset(s[1..]);
      if p(s[0]) {
        assert multiset(Filter(s, p)) == multiset([s[0]]) + multiset(Filter(s[1..], p));
      }
    }
  }

  /** Filtering keeps everything when every element passes. */
  lemma {:induction false} FilterAll<T(!new)>(s: seq<T>, p: T -> bool)
    requires forall i :: 0 <= i < |s| ==> p(s[i])
    ensures Filter(s, p) == s
    decreases |s|
  {
    if s != [] {
      FilterAll(s[1..], p);
      assert s == [s[0]] + s[1..];
    }
  }

  /** Filtering keeps nothing when no element passes. */
  lemma {:induction false} FilterNone<T(!new)>(s: seq<T>, p: T -> bool)
    requires forall i :: 0 <= i < |s| ==> !p(s[i])
    ensures Filter(s, p) == []
    decreases |s|
  {
    if s != [] {
      FilterNone(s[1..], p);
    }
  }

  /** Filtering a triple whose first element fails keeps the other two when both pass. */
  lemma FilterSkipsFirst<T(!new)>(x: T, y: T, z: T, p: T -> bool)
    requires !p(x) && p(y) && p(z)
    ensures Filter([x, y, z], p) == [y, z]
  {
    assert [x, y, z][1..] == [y, z];
    FilterTwo(y, z, p);
  }

  /** Filtering a pair keeps each of its two elements that passes. */
  lemma FilterTwo<T(!new)>(x: T, y: T, p: T -> bool)
    ensures Filter([x, y], p) == (if p(x) then [x] else []) + (if p(y) then [y] else [])
  {
    assert [x, y][1..] == [y] && [y][1..] == [];
  }

  /** The first element `s.filter(p)` returns is the first element of `s` that passes. */
  lemma {:induction false} FilterHead<T(!new)>(s: seq<T>, p: T -> bool)
    requires Filter(s, p) != []
    ensures exists i :: 0 <= i < |s| && s[i] == Filter(s, p)[0] && p(s[i]) &&
                        forall j :: 0 <= j < i ==> !p(s[j])
    decreases |s|
  {
    if !p(s[0]) {
      FilterHead(s[1..], p);
      var i :| 0 <= i < |s[1..]| && s[1..][i] == Filter(s[1..], p)[0] && p(s[1..][i]) &&
               forall j :: 0 <= j < i ==> !p(s[1..][j]);
      assert s[i + 1] == Filter(s, p)[0];
      assert forall j :: 0 <= j < i + 1 ==> !p(s[j]) by {
        forall j | 0 <= j < i + 1 ensures !p(s[j]) {
          if j > 0 {
            assert s[j] == s[1..][j - 1];
          }
        }
      }
    }
  }

  /** Two elements that both pass keep their relative order in `s.filter(p)`. */
  lemma {:induction false} FilterKeepsOrder<T(!new)>(s: seq<T>, p: T -> bool, i: int, j: int)
    requires 0 <= i < j < |s| && p(s[i]) && p(s[j])
    ensures exists m, n :: 0 <= m < n < |Filter(s, p)| && Filter(s, p)[m] == s[i] && Filter(s, p)[n] == s[j]
    decreases |s|
  {
    var rest := Filter(s[1..], p);
    if i == 0 {
      assert s[j] == s[1..][j - 1];
      var n :| 0 <= n < |rest| && rest[n] == s[j];
      assert Filter(s, p) == [s[0]] + rest;
      assert Filter(s, p)[n + 1] == s[j];
    } else {
      FilterKeepsOrder(s[1..], p, i - 1, j - 1);
      var m, n :| 0 <= m < n < |rest| && rest[m] == s[i] && rest[n] == s[j];
      if p(s[0]) {
        assert Filter(s, p) == [s[0]] + rest;
        assert Filter(s, p)[m + 1] == s[i] && Filter(s, p)[n + 1] == s[j];
      } else {
        assert Filter(s, p) == rest;
      }
    }
  }

  /** `map.set(k, v)` on the key order: a new key goes last, a known key keeps its place. */
  function InsertKey<K(==,!new)>(order: seq<K>, k: K): (r: seq<K>)
    ensures k in r
    ensures forall x :: x in r <==> x in order || x == k
  {
    if k in order then order else order + [k]
  }

  /** `Array.from(m.values())` when `order` is the insertion order of the keys. */
  function MapValues<K, V>(order: seq<K>, m: map<K, V>): (r: seq<V>)
    requires forall i :: 0 <= i < |order| ==> order[i] in m
    ensures |r| == |order|
    ensures forall i :: 0 <= i < |order| ==> r[i] == m[order[i]]
    decreases |order|
  {
    if order == [] then [] else [m[order[0]]] + MapValues(order[1..], m)
  }
}
