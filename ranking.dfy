/** `Array.prototype.sort` with the comparator `(a, b) => score(b) - score(a)`:
    a stable sort into non-increasing score. It is written as an insertion sort
    and characterised by three properties (sorted, a permutation, ties kept in
    input order) which together determine the output uniquely. */
module Ranking {
  import opened Sequences

  predicate NonIncreasing<T>(s: seq<T>, score: T -> real) {
    forall i, j :: 0 <= i < j < |s| ==> score(s[i]) >= score(s[j])
  }

  /** Put `x` before the first element that scores strictly less than it. */
  function Insert<T>(x: T, s: seq<T>, score: T -> real): (r: seq<T>)
    ensures |r| == |s| + 1
    ensures multiset(r) == multiset(s) + multiset{x}
    decreases |s|
  {
    if s == [] then [x]
    else if score(x) > score(s[0]) then [x] + s
    else
      assert s == [s[0]] + s[1..];
      [s[0]] + Insert(x, s[1..], score)
  }

  /** Elements are inserted in input order, each after every element already placed
      that scores at least as much. */
  function SortDescending<T>(s: seq<T>, score: T -> real): (r: seq<T>)
    ensures |r| == |s|
    ensures multiset(r) == multiset(s)
    decreases |s|
  {
    if s == [] then []
    else
      assert s == s[..|s| - 1] + [s[|s| - 1]];
      Insert(s[|s| - 1], SortDescending(s[..|s| - 1], score), score)
  }

  lemma {:induction false} InsertKeepsOrder<T>(x: T, s: seq<T>, score: T -> real)
    requires NonIncreasing(s, score)
    ensures NonIncreasing(Insert(x, s, score), score)
    decreases |s|
  {
    if s == [] {
    } else if score(x) > score(s[0]) {
      var r := [x] + s;
      forall i, j | 0 <= i < j < |r|
        ensures score(r[i]) >= score(r[j])
      {
        if i > 0 {
          assert r[i] == s[i - 1] && r[j] == s[j - 1];
        } else {
          assert r[j] == s[j - 1];
        }
      }
    } else {
      var t := Insert(x, s[1..], score);
      InsertKeepsOrder(x, s[1..], score);
      forall k | 0 <= k < |t|
        ensures score(t[k]) <= score(s[0])
      {
        InsertBoundedBy(x, s[1..], score, score(s[0]));
      }
      var r := [s[0]] + t;
      forall i, j | 0 <= i < j < |r|
        ensures score(r[i]) >= score(r[j])
      {
        assert r[j] == t[j - 1];
        if i > 0 {
          assert r[i] == t[i - 1];
        }
      }
    }
  }

  lemma {:induction false} InsertBoundedBy<T>(x: T, s: seq<T>, score: T -> real, b: real)
    requires score(x) <= b
    requires forall i :: 0 <= i < |s| ==> score(s[i]) <= b
    ensures forall k :: 0 <= k < |Insert(x, s, score)| ==> score(Insert(x, s, score)[k]) <= b
    decreases |s|
  {
    if s != [] && score(x) <= score(s[0]) {
      InsertBoundedBy(x, s[1..], score, b);
      var t := Insert(x, s[1..], score);
      assert forall k :: 1 <= k < |t| + 1 ==> ([s[0]] + t)[k] == t[k - 1];
    }
  }

  /** The ranking is in non-increasing score order. */
  lemma {:induction false} SortedDescending<T>(s: seq<T>, score: T -> real)
    ensures NonIncreasing(SortDescending(s, score), score)
    decreases |s|
  {
    if s != [] {
      SortedDescending(s[..|s| - 1], score);
      InsertKeepsOrder(s[|s| - 1], SortDescending(s[..|s| - 1], score), score);
    }
  }

  // ---------------------------------------------------------------------
  // Stability
  // ---------------------------------------------------------------------

  /** The elements of `s` whose score is exactly `v`, in order. */
  function Tied<T>(s: seq<T>, score: T -> real, v: real): seq<T>
    decreases |s|
  {
    if s == [] then []
    else (if score(s[0]) == v then [s[0]] else []) + Tied(s[1..], score, v)
  }

  lemma {:induction false} TiedAppend<T>(s: seq<T>, x: T, score: T -> real, v: real)
    ensures Tied(s + [x], score, v) == Tied(s, score, v) + (if score(x) == v then [x] else [])
    decreases |s|
  {
    if s == [] {
      assert [x][1..] == [];
    } else {
      assert (s + [x])[1..] == s[1..] + [x];
      TiedAppend(s[1..], x, score, v);
    }
  }

  lemma {:induction false} TiedNone<T>(s: seq<T>, score: T -> real, v: real)
    requires forall i :: 0 <= i < |s| ==> score(s[i]) < v
    ensures Tied(s, score, v) == []
    decreases |s|
  {
    if s != [] {
      TiedNone(s[1..], score, v);
    }
  }

  lemma {:induction false} InsertTied<T>(x: T, s: seq<T>, score: T -> real, v: real)
    requires NonIncreasing(s, score)
    ensures Tied(Insert(x, s, score), score, v)
         == Tied(s, score, v) + (if score(x) == v then [x] else [])
    decreases |s|
  {
    if s == [] {
      assert [x][1..] == [];
    } else if score(x) > score(s[0]) {
      assert ([x] + s)[1..] == s;
      if score(x) == v {
        TiedNone(s, score, v);
      }
    } else {
      assert ([s[0]] + Insert(x, s[1..], score))[1..] == Insert(x, s[1..], score);
      InsertTied(x, s[1..], score, v);
    }
  }

  /** Ties keep input order: the elements of any one score appear in the ranking
      exactly as they appear in the input. */
  lemma {:induction false} SortStable<T>(s: seq<T>, score: T -> real, v: real)
    ensures Tied(SortDescending(s, score), score, v) == Tied(s, score, v)
    decreases |s|
  {
    if s != [] {
      var p, x := s[..|s| - 1], s[|s| - 1];
      assert s == p + [x];
      SortedDescending(p, score);
      InsertTied(x, SortDescending(p, score), score, v);
      SortStable(p, score, v);
      TiedAppend(p, x, score, v);
    }
  }

  /** The ties in a prefix are a prefix of the ties. */
  lemma {:induction false} TiedPrefix<T>(s: seq<T>, score: T -> real, v: real, n: nat)
    requires n <= |s|
    ensures Tied(s[..n], score, v) <= Tied(s, score, v)
    decreases n
  {
    if n > 0 {
      assert s[..n][1..] == s[1..][..n - 1];
      TiedPrefix(s[1..], score, v, n - 1);
    }
  }

  // ---------------------------------------------------------------------
  // Sums over a ranking
  // ---------------------------------------------------------------------

  lemma {:induction false} SumOfInsert<T>(x: T, s: seq<T>, f: T -> real, score: T -> real)
    ensures SumOf(Insert(x, s, score), f) == SumOf(s, f) + f(x)
    decreases |s|
  {
    if s == [] {
    } else if score(x) > score(s[0]) {
      SumOfConcat([x], s, f);
      assert SumOf([x], f) == f(x) by { assert [x][..0] == []; }
    } else {
      var t := Insert(x, s[1..], score);
      SumOfConcat([s[0]], t, f);
      SumOfConcat([s[0]], s[1..], f);
      assert [s[0]] + s[1..] == s;
      SumOfInsert(x, s[1..], f, score);
    }
  }

  /** Sorting does not change a sum over the ranked elements. */
  lemma {:induction false} SumOfSorted<T>(s: seq<T>, f: T -> real, score: T -> real)
    ensures SumOf(SortDescending(s, score), f) == SumOf(s, f)
    decreases |s|
  {
    if s != [] {
      var p := s[..|s| - 1];
      SumOfSorted(p, f, score);
      SumOfInsert(s[|s| - 1], SortDescending(p, score), f, score);
    }
  }

  /** `s.sort(...).slice(0, n)`: at most `n` elements, in non-increasing order, all
      taken from `s`, and no element left out scores more than the last one listed. */
  lemma {:induction false} TopOfRanking<T>(s: seq<T>, score: T -> real, n: nat)
    ensures |Take(SortDescending(s, score), n)| == Min(n, |s|)
    ensures NonIncreasing(Take(SortDescending(s, score), n), score)
    ensures forall i :: 0 <= i < |Take(SortDescending(s, score), n)| ==> Take(SortDescending(s, score), n)[i] in s
    ensures n >= 1 ==> forall x :: x in s && x !in Take(SortDescending(s, score), n) ==>
      0 < |Take(SortDescending(s, score), n)| == n < |s|
      && score(x) <= score(Take(SortDescending(s, score), n)[n - 1])
  {
    var r := SortDescending(s, score);
    var top := Take(r, n);
    SortedDescending(s, score);
    forall i | 0 <= i < |top|
      ensures top[i] in s
    {
      assert top[i] == r[i];
      assert r[i] in multiset(r);
    }
    forall x | n >= 1 && x in s && x !in top
      ensures 0 < |top| == n < |s| && score(x) <= score(top[n - 1])
    {
      assert x in multiset(r);
      var i :| 0 <= i < |r| && r[i] == x;
      assert forall j :: 0 <= j < |top| ==> r[j] != x;
      assert n < |s| && top == r[..n];
      assert score(r[n - 1]) >= score(r[i]);
    }
  }
}
