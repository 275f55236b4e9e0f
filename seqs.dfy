/**
 * The sequence operations the endpoints are built from: list comprehensions
 * with a condition (`[x for x in s if p(x)]`), counting with `len`, and the
 * "last one wins" dictionaries built by overwriting a key in a loop.
 */
module Seqs {

  /** `r` is an order-preserving subsequence of `s` (matched from the back). */
  predicate IsSubsequence<T(==)>(r: seq<T>, s: seq<T>)
    decreases |s|
  {
    if r == [] then true
    else if s == [] then false
    else if r[|r| - 1] == s[|s| - 1] then IsSubsequence(r[..|r| - 1], s[..|s| - 1])
    else IsSubsequence(r, s[..|s| - 1])
  }

  /** `[x for x in s if p(x)]`: keeps, in order, exactly the elements satisfying `p`. */
  function Filter<T(==,!new)>(s: seq<T>, p: T -> bool): (r: seq<T>)
    ensures |r| <= |s|
    ensures IsSubsequence(r, s)
    ensures forall x :: x in r ==> p(x)
    ensures forall x :: multiset(r)[x] == if p(x) then multiset(s)[x] else 0
    decreases |s|
  {
    if s == [] then []
    else
      var init, last := Filter(s[..|s| - 1], p), s[|s| - 1];
      assert s == s[..|s| - 1] + [last];
      if p(last) then
        assert (init + [last])[..|init|] == init;
        init + [last]
      else
        init
  }

  /** The indices of `s` whose element satisfies `p`. */
  function IndicesWhere<T>(s: seq<T>, p: T -> bool): set<int> {
    set i | 0 <= i < |s| && p(s[i])
  }

  lemma IndicesWhereSnoc<T>(s: seq<T>, x: T, p: T -> bool)
    ensures IndicesWhere(s + [x], p) == IndicesWhere(s, p) + (if p(x) then {|s|} else {})
    ensures |s| !in IndicesWhere(s, p)
  {
    var t := s + [x];
    assert forall i :: 0 <= i < |s| ==> t[i] == s[i];
  }

  /** `len([x for x in s if p(x)])` is the number of positions of `s` satisfying `p`. */
  lemma {:induction false} FilterCount<T(!new)>(s: seq<T>, p: T -> bool)
    ensures |Filter(s, p)| == |IndicesWhere(s, p)|
    decreases |s|
  {
    if s != [] {
      var init := s[..|s| - 1];
      assert s == init + [s[|s| - 1]];
      FilterCount(init, p);
      IndicesWhereSnoc(init, s[|s| - 1], p);
    }
  }

  /** The conjunction of two conditions. */
  function Both<T>(p: T -> bool, q: T -> bool): T -> bool {
    (x: T) => p(x) && q(x)
  }

  /** Filtering by `p` and then by `q` is filtering by both at once. */
  lemma {:induction false} FilterFilter<T(!new)>(s: seq<T>, p: T -> bool, q: T -> bool)
    ensures Filter(Filter(s, p), q) == Filter(s, Both(p, q))
    decreases |s|
  {
    if s != [] {
      var init, x := s[..|s| - 1], s[|s| - 1];
      FilterFilter(init, p, q);
      var fi := Filter(init, p);
      if p(x) {
        assert (fi + [x])[..|fi|] == fi;
      }
    }
  }

  /** Two filters in a row count the positions satisfying both conditions. */
  lemma FilterFilterCount<T(!new)>(s: seq<T>, p: T -> bool, q: T -> bool)
    ensures |Filter(Filter(s, p), q)| == |IndicesWhere(s, Both(p, q))|
  {
    FilterFilter(s, p, q);
    FilterCount(s, Both(p, q));
  }

  /** The two sides of a condition split `s` into two parts, each element landing in exactly one. */
  lemma {:induction false} FilterPartition<T(!new)>(s: seq<T>, p: T -> bool, notP: T -> bool)
    requires forall x :: notP(x) == !p(x)
    ensures multiset(Filter(s, p)) + multiset(Filter(s, notP)) == multiset(s)
    ensures |Filter(s, p)| + |Filter(s, notP)| == |s|
  {
    var a, b := Filter(s, p), Filter(s, notP);
    assert multiset(a) + multiset(b) == multiset(s) by {
      forall x ensures (multiset(a) + multiset(b))[x] == multiset(s)[x] {
        assert multiset(a)[x] == if p(x) then multiset(s)[x] else 0;
      }
    }
    assert |multiset(a) + multiset(b)| == |multiset(s)|;
  }

  /** Position `i` holds the first element of `s` satisfying `p`. */
  ghost predicate IsFirstWhere<T>(s: seq<T>, p: T -> bool, i: int) {
    0 <= i < |s| && p(s[i]) && forall j :: 0 <= j < i ==> !p(s[j])
  }

  /** The filtered sequence is empty iff no element of `s` satisfies `p`. */
  lemma FilterEmpty<T(!new)>(s: seq<T>, p: T -> bool)
    ensures Filter(s, p) == [] <==> forall i :: 0 <= i < |s| ==> !p(s[i])
  {
    var r := Filter(s, p);
    if r != [] {
      assert r[0] in multiset(r);
      assert r[0] in multiset(s);
      var i :| 0 <= i < |s| && s[i] == r[0];
    } else {
      forall i | 0 <= i < |s| ensures !p(s[i]) {
        assert s[i] in multiset(s);
      }
    }
  }

  /** A nonempty filtered sequence starts with the first element of `s` satisfying `p`. */
  lemma {:induction false} FilterFirst<T(!new)>(s: seq<T>, p: T -> bool)
    requires Filter(s, p) != []
    ensures exists i :: IsFirstWhere(s, p, i) && Filter(s, p)[0] == s[i]
    decreases |s|
  {
    var init, x := s[..|s| - 1], s[|s| - 1];
    var r := Filter(init, p);
    assert Filter(s, p) == if p(x) then r + [x] else r;
    if r != [] {
      FilterFirst(init, p);
      var i :| IsFirstWhere(init, p, i) && r[0] == init[i];
      assert Filter(s, p)[0] == r[0];
      assert s[i] == init[i];
      assert forall j :: 0 <= j < i ==> s[j] == init[j];
      assert IsFirstWhere(s, p, i);
    } else {
      FilterEmpty(init, p);
      assert Filter(s, p) == [x];
      assert forall j :: 0 <= j < |init| ==> s[j] == init[j];
      assert IsFirstWhere(s, p, |s| - 1);
    }
  }

  /** Position `i` holds the last element of `s` whose key is `k`. */
  ghost predicate IsLastWith<T>(s: seq<T>, key: T -> string, k: string, i: int) {
    0 <= i < |s| && key(s[i]) == k && forall j :: i < j < |s| ==> key(s[j]) != k
  }

  /**
   * The dictionary built by `for x in s: m[key(x)] = x`: a later element
   * overwrites an earlier one with the same key.
   */
  function LastBy<T>(s: seq<T>, key: T -> string): (m: map<string, T>)
    ensures forall i :: 0 <= i < |s| ==> key(s[i]) in m
    ensures forall k :: k in m ==> key(m[k]) == k && m[k] in s
    decreases |s|
  {
    if s == [] then map[]
    else
      var init := s[..|s| - 1];
      assert forall i :: 0 <= i < |init| ==> s[i] == init[i];
      assert forall x :: x in init ==> x in s;
      LastBy(init, key)[key(s[|s| - 1]) := s[|s| - 1]]
  }

  /**
   * A key is present iff some element has it, and then it maps to the
   * element at the LAST position with that key.
   */
  lemma {:induction false} LastByIsLast<T>(s: seq<T>, key: T -> string, k: string)
    ensures k in LastBy(s, key) <==> exists i :: 0 <= i < |s| && key(s[i]) == k
    ensures k in LastBy(s, key) ==> exists i :: IsLastWith(s, key, k, i) && LastBy(s, key)[k] == s[i]
    decreases |s|
  {
    if s != [] {
      var init, x := s[..|s| - 1], s[|s| - 1];
      LastByIsLast(init, key, k);
      if key(x) == k {
        assert IsLastWith(s, key, k, |s| - 1);
      } else if k in LastBy(init, key) {
        var i :| IsLastWith(init, key, k, i) && LastBy(init, key)[k] == init[i];
        assert IsLastWith(s, key, k, i);
      } else {
        forall i | 0 <= i < |s| ensures key(s[i]) != k {
          if i < |init| { assert s[i] == init[i]; }
        }
      }
      if exists i :: 0 <= i < |s| && key(s[i]) == k {
        var i :| 0 <= i < |s| && key(s[i]) == k;
        if i < |init| { assert init[i] == s[i]; }
      }
    }
  }

  /** The looked-up element is the last with its key, when there is one, and there is none otherwise. */
  lemma LastByLookup<T>(s: seq<T>, key: T -> string, k: string)
    ensures k !in LastBy(s, key) <==> forall i :: 0 <= i < |s| ==> key(s[i]) != k
    ensures k in LastBy(s, key) ==> exists i :: IsLastWith(s, key, k, i) && LastBy(s, key)[k] == s[i]
  {
    LastByIsLast(s, key, k);
  }

  /** The loop `for x in s: m[key(x)] = x`, starting from an empty dictionary. */
  method IndexLastBy<T>(s: seq<T>, key: T -> string) returns (m: map<string, T>)
    ensures m == LastBy(s, key)
  {
    m := map[];
    var i := 0;
    while i < |s|
      invariant 0 <= i <= |s|
      invariant m == LastBy(s[..i], key)
    {
      assert s[..i + 1][..i] == s[..i];
      m := m[key(s[i]) := s[i]];
      i := i + 1;
    }
    assert s[..|s|] == s;
  }
}
