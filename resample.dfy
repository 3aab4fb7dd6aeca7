/**
 * `DataFrame.resample(<width>)`: fixed-width bins [start, start + width) whose
 * starts lie on `origin + k * width`. pandas emits every bin from the one holding
 * the earliest row to the one holding the latest, empty ones included, and none
 * for an empty frame. Reducers then map each bin's rows to one value.
 */
module Resample {
  import opened Wrappers
  import opened Records
  import opened Calendar

  /** Index `k` of the bin [origin + k * width, origin + (k + 1) * width) that holds `t`. */
  function BinIndex(t: int, origin: int, width: int): int
    requires width > 0
  {
    (t - origin) / width
  }

  lemma MulLeft(a: int, b: int, w: int)
    requires a <= b && w > 0
    ensures a * w <= b * w
  {
    assert (b - a) * w >= 0;
  }

  lemma MulStrict(a: int, b: int, w: int)
    requires a < b && w > 0
    ensures a * w + w <= b * w
  {
    MulLeft(a + 1, b, w);
    assert (a + 1) * w == a * w + w;
  }

  /** A bin's index is the one whose half-open interval contains the instant. */
  lemma BinIndexIff(t: int, origin: int, width: int, k: int)
    requires width > 0
    ensures BinIndex(t, origin, width) == k <==> origin + k * width <= t < origin + k * width + width
  {
    var q := BinIndex(t, origin, width);
    var r := (t - origin) % width;
    assert t - origin == q * width + r && 0 <= r < width;
    assert (q + 1) * width == q * width + width;
    assert (k + 1) * width == k * width + width;
    if q < k {
      MulLeft(q + 1, k, width);
    } else if k < q {
      MulLeft(k + 1, q, width);
    }
  }

  lemma BinIndexMonotonic(t1: int, t2: int, origin: int, width: int)
    requires width > 0 && t1 <= t2
    ensures BinIndex(t1, origin, width) <= BinIndex(t2, origin, width)
  {
    var q1, q2 := BinIndex(t1, origin, width), BinIndex(t2, origin, width);
    BinIndexIff(t1, origin, width, q1);
    BinIndexIff(t2, origin, width, q2);
    assert (q2 + 1) * width == q2 * width + width;
    if q2 < q1 {
      MulLeft(q2 + 1, q1, width);
      assert false;
    }
  }

  datatype Bin<F> = Bin(start: int, members: seq<Record<F>>)

  /** The rows of bin `k`, in their original order. */
  function Members<F>(rs: seq<Record<F>>, origin: int, width: int, k: int): seq<Record<F>>
    requires width > 0
  {
    if rs == [] then []
    else
      var m := Members(rs[..|rs| - 1], origin, width, k);
      var x := rs[|rs| - 1];
      if BinIndex(x.t, origin, width) == k then m + [x] else m
  }

  function FirstBin<F>(rs: seq<Record<F>>, origin: int, width: int): int
    requires width > 0 && |rs| > 0
  {
    BinIndex(MinTime(rs), origin, width)
  }

  function LastBin<F>(rs: seq<Record<F>>, origin: int, width: int): (k: int)
    requires width > 0 && |rs| > 0
    ensures k >= FirstBin(rs, origin, width)
  {
    BinIndexMonotonic(MinTime(rs), MaxTime(rs), origin, width);
    BinIndex(MaxTime(rs), origin, width)
  }

  /** The bins of `rs` numbered lo .. lo + n - 1. */
  function BinRange<F>(rs: seq<Record<F>>, origin: int, width: int, lo: int, n: nat): (bs: seq<Bin<F>>)
    requires width > 0
    ensures |bs| == n
  {
    if n == 0 then []
    else BinRange(rs, origin, width, lo, n - 1) + [Bin(origin + (lo + n - 1) * width, Members(rs, origin, width, lo + n - 1))]
  }

  lemma {:induction false} BinRangeAt<F>(rs: seq<Record<F>>, origin: int, width: int, lo: int, n: nat, i: int)
    requires width > 0 && 0 <= i < n
    ensures BinRange(rs, origin, width, lo, n)[i] == Bin(origin + (lo + i) * width, Members(rs, origin, width, lo + i))
  {
    if i < n - 1 {
      BinRangeAt(rs, origin, width, lo, n - 1, i);
    }
  }

  /** Every bin from the earliest row's to the latest row's, with its rows. */
  function Buckets<F>(rs: seq<Record<F>>, origin: int, width: int): (bs: seq<Bin<F>>)
    requires width > 0
  {
    if rs == [] then []
    else
      var lo := FirstBin(rs, origin, width);
      BinRange(rs, origin, width, lo, LastBin(rs, origin, width) - lo + 1)
  }

  /** Every row's bin index lies between the first and the last bin's. */
  lemma RowsInBinRange<F>(rs: seq<Record<F>>, origin: int, width: int, x: Record<F>)
    requires width > 0 && x in rs
    ensures FirstBin(rs, origin, width) <= BinIndex(x.t, origin, width) <= LastBin(rs, origin, width)
  {
    BinIndexMonotonic(MinTime(rs), x.t, origin, width);
    BinIndexMonotonic(x.t, MaxTime(rs), origin, width);
  }

  /** Bin `i` of the resampled frame and where it starts. */
  lemma BucketAt<F>(rs: seq<Record<F>>, origin: int, width: int, i: int)
    requires width > 0 && |rs| > 0 && 0 <= i < |Buckets(rs, origin, width)|
    ensures |Buckets(rs, origin, width)| == LastBin(rs, origin, width) - FirstBin(rs, origin, width) + 1
    ensures Buckets(rs, origin, width)[i]
         == Bin(origin + (FirstBin(rs, origin, width) + i) * width, Members(rs, origin, width, FirstBin(rs, origin, width) + i))
  {
    var lo := FirstBin(rs, origin, width);
    BinRangeAt(rs, origin, width, lo, LastBin(rs, origin, width) - lo + 1, i);
  }

  /** Bin `i` starts `i` widths after the first row's bin. */
  lemma BucketStart<F>(rs: seq<Record<F>>, origin: int, width: int, i: int)
    requires width > 0 && |rs| > 0 && 0 <= i < |Buckets(rs, origin, width)|
    ensures Buckets(rs, origin, width)[i].start == origin + (FirstBin(rs, origin, width) + i) * width
  {
    BucketAt(rs, origin, width, i);
  }

  /** The bins come out in time order. */
  lemma BucketsAscending<F>(rs: seq<Record<F>>, origin: int, width: int, i: int, j: int)
    requires width > 0 && 0 <= i < j < |Buckets(rs, origin, width)|
    ensures Buckets(rs, origin, width)[i].start + width <= Buckets(rs, origin, width)[j].start
  {
    var lo := FirstBin(rs, origin, width);
    BucketAt(rs, origin, width, i);
    BucketAt(rs, origin, width, j);
    MulStrict(lo + i, lo + j, width);
  }

  /** Bin `i` starts on the grid `origin + k * width`, and the next bin starts `width` later. */
  lemma BucketGrid<F>(rs: seq<Record<F>>, origin: int, width: int, i: int) returns (k: int)
    requires width > 0 && 0 <= i < |Buckets(rs, origin, width)|
    ensures Buckets(rs, origin, width)[i].start == origin + k * width
    ensures i + 1 < |Buckets(rs, origin, width)| ==> Buckets(rs, origin, width)[i + 1].start == Buckets(rs, origin, width)[i].start + width
  {
    k := FirstBin(rs, origin, width) + i;
    BucketAt(rs, origin, width, i);
    if i + 1 < |Buckets(rs, origin, width)| {
      BucketAt(rs, origin, width, i + 1);
      assert (k + 1) * width == k * width + width;
    }
  }

  /**
   * The bins are contiguous and run from the bin holding the earliest row to
   * the bin holding the latest one.
   */
  lemma BucketsShape<F>(rs: seq<Record<F>>, origin: int, width: int)
    requires width > 0 && |rs| > 0
    ensures var bs := Buckets(rs, origin, width);
      && |bs| == LastBin(rs, origin, width) - FirstBin(rs, origin, width) + 1
      && bs[0].start <= MinTime(rs) < bs[0].start + width
      && bs[|bs| - 1].start <= MaxTime(rs) < bs[|bs| - 1].start + width
      && (forall i :: 0 <= i < |bs| - 1 ==> bs[i + 1].start == bs[i].start + width)
  {
    var bs := Buckets(rs, origin, width);
    var lo := FirstBin(rs, origin, width);
    var hi := LastBin(rs, origin, width);
    BucketAt(rs, origin, width, 0);
    BucketAt(rs, origin, width, |bs| - 1);
    BinIndexIff(MinTime(rs), origin, width, lo);
    BinIndexIff(MaxTime(rs), origin, width, hi);
    forall i | 0 <= i < |bs| - 1
      ensures bs[i + 1].start == bs[i].start + width
    {
      BucketAt(rs, origin, width, i);
      BucketAt(rs, origin, width, i + 1);
      assert (lo + i + 1) * width == (lo + i) * width + width;
    }
  }

  /** Bin `i` holds exactly the rows whose instant lies in [start, start + width). */
  lemma BucketMembers<F>(rs: seq<Record<F>>, origin: int, width: int, i: int, x: Record<F>)
    requires width > 0 && 0 <= i < |Buckets(rs, origin, width)|
    ensures var b := Buckets(rs, origin, width)[i];
      x in b.members <==> x in rs && b.start <= x.t < b.start + width
  {
    var lo := FirstBin(rs, origin, width);
    BucketAt(rs, origin, width, i);
    BinIndexIff(x.t, origin, width, lo + i);
    MembersIff(rs, origin, width, lo + i, x);
  }

  /** Every row lies in some bin (exactly one, since the bins do not overlap). */
  lemma BucketOfRow<F>(rs: seq<Record<F>>, origin: int, width: int, x: Record<F>) returns (i: int)
    requires width > 0 && x in rs
    ensures 0 <= i < |Buckets(rs, origin, width)|
    ensures x in Buckets(rs, origin, width)[i].members
    ensures forall j :: 0 <= j < |Buckets(rs, origin, width)| && x in Buckets(rs, origin, width)[j].members ==> j == i
  {
    var lo := FirstBin(rs, origin, width);
    RowsInBinRange(rs, origin, width, x);
    i := BinIndex(x.t, origin, width) - lo;
    BucketAt(rs, origin, width, i);
    MembersIff(rs, origin, width, lo + i, x);
    forall j | 0 <= j < |Buckets(rs, origin, width)| && x in Buckets(rs, origin, width)[j].members
      ensures j == i
    {
      BucketAt(rs, origin, width, j);
      MembersIff(rs, origin, width, lo + j, x);
    }
  }

  lemma MembersSnoc<F>(p: seq<Record<F>>, x: Record<F>, origin: int, width: int, k: int)
    requires width > 0
    ensures Members(p + [x], origin, width, k)
         == if BinIndex(x.t, origin, width) == k then Members(p, origin, width, k) + [x] else Members(p, origin, width, k)
  {
    assert (p + [x])[..|p|] == p;
  }

  lemma {:induction false} MembersIff<F>(rs: seq<Record<F>>, origin: int, width: int, k: int, x: Record<F>)
    requires width > 0
    ensures x in Members(rs, origin, width, k) <==> x in rs && BinIndex(x.t, origin, width) == k
  {
    if rs != [] {
      var p := rs[..|rs| - 1];
      assert rs == p + [rs[|rs| - 1]];
      MembersIff(p, origin, width, k, x);
    }
  }

  /** Sum of `val` over the rows whose instant lies in [lo, hi): the bin's sum, defined without bins. */
  function WindowSum<F>(rs: seq<Record<F>>, lo: int, hi: int, val: F -> int): int {
    if rs == [] then 0
    else WindowSum(rs[..|rs| - 1], lo, hi, val) + (if lo <= rs[|rs| - 1].t < hi then val(rs[|rs| - 1].f) else 0)
  }

  /** Sum of a real column over the rows whose instant lies in [lo, hi). */
  function WindowSumReal<F>(rs: seq<Record<F>>, lo: int, hi: int, val: F -> real): real {
    if rs == [] then 0.0
    else WindowSumReal(rs[..|rs| - 1], lo, hi, val) + (if lo <= rs[|rs| - 1].t < hi then val(rs[|rs| - 1].f) else 0.0)
  }

  lemma {:induction false} MembersWindowSum<F>(rs: seq<Record<F>>, origin: int, width: int, k: int, val: F -> int)
    requires width > 0
    ensures SumOf(Members(rs, origin, width, k), val) == WindowSum(rs, origin + k * width, origin + k * width + width, val)
  {
    if rs != [] {
      var p, x := rs[..|rs| - 1], rs[|rs| - 1];
      assert rs == p + [x];
      MembersWindowSum(p, origin, width, k, val);
      MembersSnoc(p, x, origin, width, k);
      BinIndexIff(x.t, origin, width, k);
      if BinIndex(x.t, origin, width) == k {
        SumOfAppend(Members(p, origin, width, k), x, val);
      }
    }
  }

  lemma {:induction false} SumRealAppend<F>(s: seq<Record<F>>, x: Record<F>, val: F -> real)
    ensures SumReal(s + [x], val) == SumReal(s, val) + val(x.f)
  {
    assert (s + [x])[..|s|] == s;
  }

  lemma {:induction false} MembersWindowSumReal<F>(rs: seq<Record<F>>, origin: int, width: int, k: int, val: F -> real)
    requires width > 0
    ensures SumReal(Members(rs, origin, width, k), val) == WindowSumReal(rs, origin + k * width, origin + k * width + width, val)
  {
    if rs != [] {
      var p, x := rs[..|rs| - 1], rs[|rs| - 1];
      assert rs == p + [x];
      MembersWindowSumReal(p, origin, width, k, val);
      MembersSnoc(p, x, origin, width, k);
      BinIndexIff(x.t, origin, width, k);
      if BinIndex(x.t, origin, width) == k {
        SumRealAppend(Members(p, origin, width, k), x, val);
      }
    }
  }

  /** Bin `i`'s sum is the sum over the rows whose instant lies in [start, start + width). */
  lemma BucketSum<F>(rs: seq<Record<F>>, origin: int, width: int, i: int, b: Bin<F>, val: F -> int)
    requires width > 0 && 0 <= i < |Buckets(rs, origin, width)| && b == Buckets(rs, origin, width)[i]
    ensures SumOf(b.members, val) == WindowSum(rs, b.start, b.start + width, val)
  {
    BucketAt(rs, origin, width, i);
    MembersWindowSum(rs, origin, width, FirstBin(rs, origin, width) + i, val);
  }

  /** Bin `i`'s real-column sum is the sum over the rows in [start, start + width). */
  lemma BucketSumReal<F>(rs: seq<Record<F>>, origin: int, width: int, i: int, b: Bin<F>, val: F -> real)
    requires width > 0 && 0 <= i < |Buckets(rs, origin, width)| && b == Buckets(rs, origin, width)[i]
    ensures SumReal(b.members, val) == WindowSumReal(rs, b.start, b.start + width, val)
  {
    BucketAt(rs, origin, width, i);
    MembersWindowSumReal(rs, origin, width, FirstBin(rs, origin, width) + i, val);
  }

  /** Bin `i`'s mean is the mean over the rows whose instant lies in [start, start + width). */
  lemma BucketMean<F>(rs: seq<Record<F>>, origin: int, width: int, i: int, val: F -> real)
    requires width > 0 && 0 <= i < |Buckets(rs, origin, width)|
    ensures var b := Buckets(rs, origin, width)[i];
      Mean(b.members, val) == MeanOf(WindowSumReal(rs, b.start, b.start + width, val), WindowSum(rs, b.start, b.start + width, One))
  {
    var b := Buckets(rs, origin, width)[i];
    BucketSum(rs, origin, width, i, b, One);
    BucketSumReal(rs, origin, width, i, b, val);
    SumOfOneIsLength(b.members);
  }

  /** Sum of one column over all bins. */
  function SumBins<F>(bs: seq<Bin<F>>, val: F -> int): int {
    if bs == [] then 0 else SumBins(bs[..|bs| - 1], val) + SumOf(bs[|bs| - 1].members, val)
  }

  lemma SumBinsSnoc<F>(bs: seq<Bin<F>>, b: Bin<F>, val: F -> int)
    ensures SumBins(bs + [b], val) == SumBins(bs, val) + SumOf(b.members, val)
  {
    assert (bs + [b])[..|bs|] == bs;
  }

  /** Sum of one column over bins lo .. lo + n - 1, bin by bin. */
  function SumRange<F>(rs: seq<Record<F>>, origin: int, width: int, lo: int, n: nat, val: F -> int): int
    requires width > 0
  {
    if n == 0 then 0 else SumRange(rs, origin, width, lo, n - 1, val) + SumOf(Members(rs, origin, width, lo + n - 1), val)
  }

  lemma {:induction false} SumBinRangeIsSumRange<F>(rs: seq<Record<F>>, origin: int, width: int, lo: int, n: nat, val: F -> int)
    requires width > 0
    ensures SumBins(BinRange(rs, origin, width, lo, n), val) == SumRange(rs, origin, width, lo, n, val)
  {
    if n > 0 {
      SumBinRangeIsSumRange(rs, origin, width, lo, n - 1, val);
      SumBinsSnoc(BinRange(rs, origin, width, lo, n - 1), Bin(origin + (lo + n - 1) * width, Members(rs, origin, width, lo + n - 1)), val);
    }
  }

  /** Appending a row adds its value to the one bin of the range it falls in. */
  lemma {:induction false} SumRangeSnoc<F>(p: seq<Record<F>>, x: Record<F>, origin: int, width: int, lo: int, n: nat, val: F -> int)
    requires width > 0
    ensures SumRange(p + [x], origin, width, lo, n, val)
         == SumRange(p, origin, width, lo, n, val) + (if lo <= BinIndex(x.t, origin, width) < lo + n then val(x.f) else 0)
  {
    if n > 0 {
      var k := lo + n - 1;
      SumRangeSnoc(p, x, origin, width, lo, n - 1, val);
      MembersSnoc(p, x, origin, width, k);
      if BinIndex(x.t, origin, width) == k {
        SumOfAppend(Members(p, origin, width, k), x, val);
      }
    }
  }

  lemma {:induction false} SumRangeEmpty<F>(origin: int, width: int, lo: int, n: nat, val: F -> int)
    requires width > 0
    ensures SumRange<F>([], origin, width, lo, n, val) == 0
  {
    if n > 0 {
      SumRangeEmpty<F>(origin, width, lo, n - 1, val);
    }
  }

  /** A bin range that covers every row sums to the column total. */
  lemma {:induction false} SumRangeCovers<F>(rs: seq<Record<F>>, origin: int, width: int, lo: int, n: nat, val: F -> int)
    requires width > 0
    requires forall x :: x in rs ==> lo <= BinIndex(x.t, origin, width) < lo + n
    ensures SumRange(rs, origin, width, lo, n, val) == SumOf(rs, val)
  {
    if rs == [] {
      SumRangeEmpty<F>(origin, width, lo, n, val);
    } else {
      var p := rs[..|rs| - 1];
      var x := rs[|rs| - 1];
      assert rs == p + [x];
      SumRangeCovers(p, origin, width, lo, n, val);
      SumRangeSnoc(p, x, origin, width, lo, n, val);
    }
  }

  /** Every row falls in the bins from the first to the last, so their sums cover it. */
  lemma SumRangeAllBins<F>(rs: seq<Record<F>>, origin: int, width: int, val: F -> int)
    requires width > 0 && |rs| > 0
    ensures SumRange(rs, origin, width, FirstBin(rs, origin, width),
                     LastBin(rs, origin, width) - FirstBin(rs, origin, width) + 1, val) == SumOf(rs, val)
  {
    var lo := FirstBin(rs, origin, width);
    var n := LastBin(rs, origin, width) - lo + 1;
    forall x | x in rs
      ensures lo <= BinIndex(x.t, origin, width) < lo + n
    {
      RowsInBinRange(rs, origin, width, x);
    }
    SumRangeCovers(rs, origin, width, lo, n, val);
  }

  /** Resampling with `sum` conserves the column total. */
  lemma BucketsConserveSum<F>(rs: seq<Record<F>>, origin: int, width: int, val: F -> int)
    requires width > 0
    ensures SumBins(Buckets(rs, origin, width), val) == SumOf(rs, val)
  {
    if rs != [] {
      var lo := FirstBin(rs, origin, width);
      var n := LastBin(rs, origin, width) - lo + 1;
      assert Buckets(rs, origin, width) == BinRange(rs, origin, width, lo, n);
      SumRangeAllBins(rs, origin, width, val);
      SumBinRangeIsSumRange(rs, origin, width, lo, n, val);
    }
  }

  /** A table with one row per bin whose column is the bin's sum has the rows' column total. */
  lemma {:induction false} SumBinsPointwise<F, T>(bs: seq<Bin<F>>, val: F -> int, table: seq<T>, col: T -> int)
    requires |table| == |bs|
    requires forall i :: 0 <= i < |bs| ==> col(table[i]) == SumOf(bs[i].members, val)
    ensures Total(table, col) == SumBins(bs, val)
  {
    if bs != [] {
      SumBinsPointwise(bs[..|bs| - 1], val, table[..|table| - 1], col);
    }
  }
}
