/**
 * `sort_values(by=<time column>, inplace=True)`: the loaders reorder their
 * frame in place by timestamp. The reference is a stable insertion sort on
 * sequences; the array method the loaders call is proved to produce exactly it.
 */
module Sorting {
  import opened Records

  /** Inserts `x` after every element whose instant is not later than its own. */
  function InsertByTime<F>(s: seq<Record<F>>, x: Record<F>): (r: seq<Record<F>>)
    ensures |r| == |s| + 1
  {
    if s == [] || s[|s| - 1].t <= x.t then s + [x]
    else InsertByTime(s[..|s| - 1], x) + [s[|s| - 1]]
  }

  /** Inserting adds exactly `x`. */
  lemma {:induction false} InsertByTimePermutes<F>(s: seq<Record<F>>, x: Record<F>)
    ensures multiset(InsertByTime(s, x)) == multiset(s) + multiset{x}
  {
    if s != [] && s[|s| - 1].t > x.t {
      var init := s[..|s| - 1];
      assert s == init + [s[|s| - 1]];
      InsertByTimePermutes(init, x);
    }
  }

  /** Inserting into an ordered sequence keeps it ordered. */
  lemma {:induction false} InsertByTimeSorted<F>(s: seq<Record<F>>, x: Record<F>)
    requires SortedByTime(s)
    ensures SortedByTime(InsertByTime(s, x))
  {
    if s != [] && s[|s| - 1].t > x.t {
      var init := s[..|s| - 1];
      var last := s[|s| - 1];
      assert SortedByTime(init);
      InsertByTimeSorted(init, x);
      InsertByTimePermutes(init, x);
      var r' := InsertByTime(init, x);
      forall k | 0 <= k < |r'|
        ensures r'[k].t <= last.t
      {
        assert r'[k] in multiset(r');
        if r'[k] != x {
          assert r'[k] in multiset(init);
          var idx :| 0 <= idx < |init| && init[idx] == r'[k];
          assert s[idx] == init[idx];
        }
      }
      assert InsertByTime(s, x) == r' + [last];
    }
  }

  /** Where `x` lands: after the last element whose instant is not later than its own. */
  lemma {:induction false} InsertByTimeAt<F>(s: seq<Record<F>>, x: Record<F>, j: int)
    requires 0 <= j <= |s|
    requires j == 0 || s[j - 1].t <= x.t
    requires forall k :: j <= k < |s| ==> s[k].t > x.t
    ensures InsertByTime(s, x) == s[..j] + [x] + s[j..]
    decreases |s| - j
  {
    if j < |s| {
      var init := s[..|s| - 1];
      InsertByTimeAt(init, x, j);
      assert init[..j] == s[..j];
      assert init[j..] + [s[|s| - 1]] == s[j..];
    } else {
      assert s[..j] == s;
    }
  }

  /** Stable insertion sort by instant. */
  function SortByTime<F>(s: seq<Record<F>>): (r: seq<Record<F>>) {
    if s == [] then [] else InsertByTime(SortByTime(s[..|s| - 1]), s[|s| - 1])
  }

  /** The loaded stream is in timestamp order and holds exactly the input rows. */
  lemma {:induction false} SortByTimeSortsAndPermutes<F>(s: seq<Record<F>>)
    ensures SortedByTime(SortByTime(s))
    ensures multiset(SortByTime(s)) == multiset(s)
    ensures |SortByTime(s)| == |s|
  {
    if s != [] {
      SortByTimeSortsAndPermutes(s[..|s| - 1]);
      InsertByTimePermutes(SortByTime(s[..|s| - 1]), s[|s| - 1]);
      InsertByTimeSorted(SortByTime(s[..|s| - 1]), s[|s| - 1]);
      assert s == s[..|s| - 1] + [s[|s| - 1]];
    }
  }

  /** Loading an already ordered stream again changes nothing. */
  lemma {:induction false} SortByTimeIdempotent<F>(s: seq<Record<F>>)
    requires SortedByTime(s)
    ensures SortByTime(s) == s
  {
    if s != [] {
      var init := s[..|s| - 1];
      var last := s[|s| - 1];
      assert SortedByTime(init);
      SortByTimeIdempotent(init);
      assert init == [] || init[|init| - 1].t <= last.t;
      assert InsertByTime(init, last) == init + [last];
      assert s == init + [last];
    }
  }

  /** Rows with equal instants keep their input order. */
  lemma {:induction false} SortByTimeStable<F>(s: seq<Record<F>>, a: Record<F>, b: Record<F>, i: int, j: int)
    requires 0 <= i < j < |s| && s[i] == a && s[j] == b && a.t == b.t
    requires forall k :: 0 <= k < |s| && s[k] == a ==> k == i
    requires forall k :: 0 <= k < |s| && s[k] == b ==> k == j
    ensures exists p, q :: 0 <= p < q < |SortByTime(s)| && SortByTime(s)[p] == a && SortByTime(s)[q] == b
  {
    var n := |s|;
    var init := s[..n - 1];
    if j < n - 1 {
      SortByTimeStable(init, a, b, i, j);
      assert SortByTime(s) == InsertByTime(SortByTime(init), s[n - 1]);
      var p, q :| 0 <= p < q < |SortByTime(init)| && SortByTime(init)[p] == a && SortByTime(init)[q] == b;
      InsertKeepsOrder(SortByTime(init), s[n - 1], p, q);
    } else {
      assert SortByTime(s) == InsertByTime(SortByTime(init), b);
      SortByTimeSortsAndPermutes(init);
      assert a in multiset(init) by { assert init[i] == a; }
      var sorted := SortByTime(init);
      assert a in multiset(sorted);
      var p :| 0 <= p < |sorted| && sorted[p] == a;
      InsertAfterEqual(sorted, b, p);
    }
  }

  /** Inserting keeps the relative order of the elements already present. */
  lemma {:induction false} InsertKeepsOrder<F>(s: seq<Record<F>>, x: Record<F>, p: int, q: int)
    requires 0 <= p < q < |s|
    ensures exists p', q' :: 0 <= p' < q' < |InsertByTime(s, x)| && InsertByTime(s, x)[p'] == s[p] && InsertByTime(s, x)[q'] == s[q]
  {
    var n := |s|;
    if n == 0 || s[n - 1].t <= x.t {
      assert InsertByTime(s, x)[p] == s[p] && InsertByTime(s, x)[q] == s[q];
    } else {
      var init := s[..n - 1];
      var r := InsertByTime(s, x);
      assert r == InsertByTime(init, x) + [s[n - 1]];
      if q < n - 1 {
        InsertKeepsOrder(init, x, p, q);
        var p', q' :| 0 <= p' < q' < |InsertByTime(init, x)| && InsertByTime(init, x)[p'] == s[p] && InsertByTime(init, x)[q'] == s[q];
        assert r[p'] == s[p] && r[q'] == s[q];
      } else {
        assert init[p] == s[p];
        InsertByTimePermutes(init, x);
        assert s[p] in multiset(InsertByTime(init, x));
        var p' :| 0 <= p' < |InsertByTime(init, x)| && InsertByTime(init, x)[p'] == s[p];
        assert r[p'] == s[p] && r[|r| - 1] == s[q];
      }
    }
  }

  /** An inserted element lands after every element with an instant not later than its own. */
  lemma {:induction false} InsertAfterEqual<F>(s: seq<Record<F>>, x: Record<F>, p: int)
    requires 0 <= p < |s| && s[p].t <= x.t
    ensures exists p', q' :: 0 <= p' < q' < |InsertByTime(s, x)| && InsertByTime(s, x)[p'] == s[p] && InsertByTime(s, x)[q'] == x
  {
    var n := |s|;
    if s[n - 1].t <= x.t {
      var r := InsertByTime(s, x);
      assert r[p] == s[p] && r[n] == x;
    } else {
      var init := s[..n - 1];
      assert p < n - 1;
      assert init[p] == s[p];
      InsertAfterEqual(init, x, p);
      var p', q' :| 0 <= p' < q' < |InsertByTime(init, x)| && InsertByTime(init, x)[p'] == s[p] && InsertByTime(init, x)[q'] == x;
      var r := InsertByTime(s, x);
      assert r == InsertByTime(init, x) + [s[n - 1]];
      assert r[p'] == s[p] && r[q'] == x;
    }
  }

  /** Moves `a[i]` left past every element of the ordered prefix with a later instant. */
  method InsertInPlace<F>(a: array<Record<F>>, i: int)
    requires 0 <= i < a.Length
    modifies a
    ensures a[..i + 1] == InsertByTime(old(a[..i]), old(a[i]))
    ensures a[i + 1..] == old(a[i + 1..])
  {
    ghost var prefix := a[..i];
    var x := a[i];
    var j := i;
    while j > 0 && a[j - 1].t > x.t
      invariant 0 <= j <= i
      invariant forall k :: 0 <= k < j ==> a[k] == prefix[k]
      invariant forall k :: j < k <= i ==> a[k] == prefix[k - 1]
      invariant forall k :: i < k < a.Length ==> a[k] == old(a[k])
      invariant forall k :: j <= k < i ==> prefix[k].t > x.t
    {
      a[j] := a[j - 1];
      j := j - 1;
    }
    a[j] := x;
    InsertByTimeAt(prefix, x, j);
    assert a[..i + 1] == prefix[..j] + [x] + prefix[j..];
  }

  /** Insertion sort in place. */
  method SortInPlace<F>(a: array<Record<F>>)
    modifies a
    ensures a[..] == SortByTime(old(a[..]))
  {
    ghost var input := a[..];
    var i := 0;
    while i < a.Length
      invariant 0 <= i <= a.Length
      invariant a[..i] == SortByTime(input[..i])
      invariant a[i..] == input[i..]
    {
      InsertInPlace(a, i);
      assert input[..i + 1][..i] == input[..i];
      i := i + 1;
    }
    assert a[..] == a[..a.Length];
    assert input == input[..a.Length];
  }
}
