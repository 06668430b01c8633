/** Generic sequence operations that the JavaScript sources get from
    Array.prototype: find/findIndex, filter, a stable sort with a key
    comparator, and slice(0, n). */
module Seqs {

  datatype Option<T> = None | Some(value: T) {
    function GetOr(default: T): T {
      match this
      case Some(v) => v
      case None => default
    }
  }

  /** Array.prototype.findIndex: the index of the first element satisfying p,
      or None when there is none (-1 in JavaScript). */
  function FirstIndex<T>(s: seq<T>, p: T -> bool): (r: Option<nat>)
    ensures r.Some? ==> r.value < |s| && p(s[r.value])
    ensures r.Some? ==> forall j :: 0 <= j < r.value ==> !p(s[j])
    ensures r.None? <==> forall j :: 0 <= j < |s| ==> !p(s[j])
  {
    if |s| == 0 then None
    else if p(s[0]) then Some(0)
    else match FirstIndex(s[1..], p)
      case None => None
      case Some(i) => Some(i + 1)
  }

  /** Some element satisfies p. */
  predicate Any<T>(s: seq<T>, p: T -> bool) {
    exists i :: 0 <= i < |s| && p(s[i])
  }

  /** x is the first element of s that satisfies p. */
  predicate IsFirst<T(==)>(s: seq<T>, p: T -> bool, x: T) {
    exists i :: 0 <= i < |s| && s[i] == x && p(x) && forall j :: 0 <= j < i ==> !p(s[j])
  }

  /** Array.prototype.find: the first element satisfying p, or None
      (undefined in JavaScript). */
  function Find<T(==)>(s: seq<T>, p: T -> bool): (r: Option<T>)
    ensures r.None? <==> !Any(s, p)
    ensures r.Some? ==> r.value in s && IsFirst(s, p, r.value)
  {
    match FirstIndex(s, p)
    case None => None
    case Some(i) => Some(s[i])
  }

  /** Array.prototype.filter: the elements satisfying p, in their order. */
  function Filter<T(!new)>(s: seq<T>, p: T -> bool): (r: seq<T>)
    ensures |r| <= |s|
  {
    if |s| == 0 then []
    else
      var init := s[..|s| - 1];
      assert s == init + [s[|s| - 1]];
      Filter(init, p) + if p(s[|s| - 1]) then [s[|s| - 1]] else []
  }

  /** Filtering twice is filtering once by both tests. */
  lemma {:induction false} FilterFilter<T(!new)>(s: seq<T>, p: T -> bool, q: T -> bool, pq: T -> bool)
    requires forall x :: pq(x) == (p(x) && q(x))
    ensures Filter(Filter(s, p), q) == Filter(s, pq)
    decreases |s|
  {
    if |s| > 0 {
      var init := s[..|s| - 1];
      var x := s[|s| - 1];
      FilterFilter(init, p, q, pq);
      assert pq(x) == (p(x) && q(x));
      assert Filter(s, p) == Filter(init, p) + if p(x) then [x] else [];
      assert Filter(s, pq) == Filter(init, pq) + if pq(x) then [x] else [];
      if p(x) {
        FilterSnoc(Filter(init, p), x, q);
      } else {
        assert Filter(s, p) == Filter(init, p);
      }
    }
  }

  /** Filtering keeps every occurrence of an element that satisfies p and
      none of one that does not. */
  lemma {:induction false} FilterMultiset<T(!new)>(s: seq<T>, p: T -> bool)
    ensures forall x :: multiset(Filter(s, p))[x] == if p(x) then multiset(s)[x] else 0
  {
    if |s| > 0 {
      var init, last := s[..|s| - 1], s[|s| - 1];
      assert s == init + [last];
      FilterMultiset(init, p);
      assert multiset(s) == multiset(init) + multiset{last};
    }
  }

  lemma FilterMembers<T(!new)>(s: seq<T>, p: T -> bool, x: T)
    ensures x in Filter(s, p) <==> x in s && p(x)
  {
    FilterMultiset(s, p);
    assert x in Filter(s, p) <==> multiset(Filter(s, p))[x] > 0;
  }

  /** Filtering one more element at the end extends the result by at most that element. */
  lemma FilterSnoc<T(!new)>(s: seq<T>, x: T, p: T -> bool)
    ensures Filter(s + [x], p) == Filter(s, p) + if p(x) then [x] else []
  {
    assert (s + [x])[..|s + [x]| - 1] == s;
  }

  predicate IsDescending<T>(s: seq<T>, key: T -> int) {
    forall i, j :: 0 <= i < j < |s| ==> key(s[i]) >= key(s[j])
  }

  /** Filtering a sequence sorted by key keeps it sorted. */
  lemma {:induction false} FilterKeepsDescending<T(!new)>(s: seq<T>, p: T -> bool, key: T -> int)
    requires IsDescending(s, key)
    ensures IsDescending(Filter(s, p), key)
  {
    if |s| > 0 {
      var init, last := s[..|s| - 1], s[|s| - 1];
      assert s == init + [last];
      FilterKeepsDescending(init, p, key);
      var f := Filter(init, p);
      forall y | y in f ensures key(y) >= key(last) {
        FilterMembers(init, p, y);
        var i :| 0 <= i < |init| && init[i] == y;
        assert s[i] == y;
      }
    }
  }

  /** The head of a sequence sorted by key has the largest key. */
  lemma HeadIsLargest<T>(s: seq<T>, key: T -> int)
    requires |s| > 0 && IsDescending(s, key)
    ensures forall y :: y in s ==> key(s[0]) >= key(y)
  {
    forall y | y in s ensures key(s[0]) >= key(y) {
      var j :| 0 <= j < |s| && s[j] == y;
      if j > 0 {
        assert key(s[0]) >= key(s[j]);
      }
    }
  }

  /** An element with a key no smaller than any in a sorted sequence can go in front. */
  lemma ConsDescending<T>(h: T, rest: seq<T>, key: T -> int)
    requires IsDescending(rest, key)
    requires forall y :: y in rest ==> key(h) >= key(y)
    ensures IsDescending([h] + rest, key)
  {
    var r := [h] + rest;
    forall i, j | 0 <= i < j < |r| ensures key(r[i]) >= key(r[j]) {
      assert r[j] == rest[j - 1];
      if i == 0 {
        assert r[j] in rest;
      } else {
        assert r[i] == rest[i - 1];
      }
    }
  }

  /** Places x before the first element whose key is smaller, so that elements
      of equal key keep their relative order (x came first). */
  function Insert<T>(x: T, s: seq<T>, key: T -> int): (r: seq<T>)
    requires IsDescending(s, key)
    ensures |r| == |s| + 1
    ensures multiset(r) == multiset(s) + multiset{x}
    ensures forall y :: y in r ==> y == x || y in s
    ensures IsDescending(r, key)
  {
    if |s| == 0 then [x]
    else if key(s[0]) <= key(x) then
      HeadIsLargest(s, key);
      ConsDescending(x, s, key);
      [x] + s
    else
      assert s == [s[0]] + s[1..];
      var rest := Insert(x, s[1..], key);
      HeadIsLargest(s, key);
      ConsDescending(s[0], rest, key);
      [s[0]] + rest
  }

  /** A stable sort in descending order of key, as Array.prototype.sort with the
      comparator (a, b) => key(b) - key(a). */
  function SortDescending<T>(s: seq<T>, key: T -> int): (r: seq<T>)
    ensures IsDescending(r, key)
    ensures multiset(r) == multiset(s)
    ensures |r| == |s|
  {
    if |s| == 0 then []
    else
      assert s == [s[0]] + s[1..];
      Insert(s[0], SortDescending(s[1..], key), key)
  }

  /** Array.prototype.slice(0, n). */
  function Take<T>(s: seq<T>, n: nat): (r: seq<T>)
    ensures |r| == if |s| <= n then |s| else n
    ensures r == s[..|r|]
  {
    if |s| <= n then s else s[..n]
  }

  /** A prefix of a sorted sequence holds its largest elements: whatever the
      prefix leaves out has a key no larger than any key in it. */
  lemma TakeKeepsLargest<T>(s: seq<T>, n: nat, key: T -> int)
    requires IsDescending(s, key)
    ensures multiset(Take(s, n)) <= multiset(s)
    ensures var r := Take(s, n);
      forall x, y :: y in r && multiset(s)[x] > multiset(r)[x] ==> key(x) <= key(y)
  {
    var r := Take(s, n);
    var rest := s[|r|..];
    assert s == r + rest;
    assert multiset(s) == multiset(r) + multiset(rest);
    forall x, y | y in r && multiset(s)[x] > multiset(r)[x]
      ensures key(x) <= key(y)
    {
      assert x in multiset(rest);
      var b :| 0 <= b < |rest| && rest[b] == x;
      var a :| 0 <= a < |r| && r[a] == y;
      assert s[a] == y && s[|r| + b] == x;
    }
  }

  /** The sum of f over the elements. */
  function SumBy<T>(s: seq<T>, f: T -> nat): nat {
    if |s| == 0 then 0 else SumBy(s[..|s| - 1], f) + f(s[|s| - 1])
  }

  /** The sum of a sequence with one more element in front. */
  lemma {:induction false} SumByCons<T>(h: T, s: seq<T>, f: T -> nat)
    ensures SumBy([h] + s, f) == f(h) + SumBy(s, f)
    decreases |s|
  {
    if |s| > 0 {
      var init := s[..|s| - 1];
      assert ([h] + s)[..|s|] == [h] + init;
      SumByCons(h, init, f);
    }
  }

  /** Inserting an element adds its value to the sum. */
  lemma {:induction false} SumByInsert<T>(x: T, s: seq<T>, key: T -> int, f: T -> nat)
    requires IsDescending(s, key)
    ensures SumBy(Insert(x, s, key), f) == SumBy(s, f) + f(x)
    decreases |s|
  {
    if |s| == 0 {
      SumByCons(x, s, f);
    } else if key(s[0]) <= key(x) {
      SumByCons(x, s, f);
    } else {
      assert s == [s[0]] + s[1..];
      SumByInsert(x, s[1..], key, f);
      SumByCons(s[0], Insert(x, s[1..], key), f);
      SumByCons(s[0], s[1..], f);
    }
  }

  /** Sorting does not change a sum. */
  lemma {:induction false} SumBySort<T>(s: seq<T>, key: T -> int, f: T -> nat)
    ensures SumBy(SortDescending(s, key), f) == SumBy(s, f)
    decreases |s|
  {
    if |s| > 0 {
      assert s == [s[0]] + s[1..];
      SumBySort(s[1..], key, f);
      SumByInsert(s[0], SortDescending(s[1..], key), key, f);
      SumByCons(s[0], s[1..], f);
    }
  }

  /** Concatenation is associative. */
  lemma AppendAssociates<T>(a: seq<T>, b: seq<T>, c: seq<T>)
    ensures a + (b + c) == (a + b) + c
  {
  }

  /** A prefix one longer is the prefix and the next element. */
  lemma TakeSnoc<T>(s: seq<T>, i: nat)
    requires i < |s|
    ensures s[..i + 1] == s[..i] + [s[i]]
  {
  }

  /** Filtering a sequence in which nothing satisfies p gives nothing. */
  lemma FilterNone<T(!new)>(s: seq<T>, p: T -> bool)
    requires forall j :: 0 <= j < |s| ==> !p(s[j])
    ensures Filter(s, p) == []
  {
    var r := Filter(s, p);
    if r != [] {
      FilterMembers(s, p, r[0]);
    }
  }

  ghost predicate Distinct<T>(s: seq<T>) {
    forall i, j :: 0 <= i < j < |s| ==> s[i] != s[j]
  }

  lemma {:induction false} DistinctOccursOnce<T>(s: seq<T>, x: T)
    requires Distinct(s)
    ensures multiset(s)[x] <= 1
  {
    if |s| > 0 {
      var init := s[..|s| - 1];
      assert s == init + [s[|s| - 1]];
      DistinctOccursOnce(init, x);
      if x == s[|s| - 1] {
        assert x !in init;
      }
    }
  }

  /** A permutation of a sequence without repeats has none either. */
  lemma PermKeepsDistinct<T>(a: seq<T>, b: seq<T>)
    requires multiset(a) == multiset(b) && Distinct(a)
    ensures Distinct(b)
  {
    forall i, j | 0 <= i < j < |b| ensures b[i] != b[j] {
      if b[i] == b[j] {
        var x := b[i];
        assert b == b[..j] + [b[j]] + b[j + 1..];
        assert x in b[..j];
        assert multiset(b)[x] >= 2;
        DistinctOccursOnce(a, x);
      }
    }
  }
}
