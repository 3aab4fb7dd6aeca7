/**
 * The `load_*_data` functions: drop the machine column, put the rows in time
 * order in place, and for the OEE log forward-fill the programmed rate, drop
 * incomplete rows and add the deviation column.
 */
module Loading {
  import opened Wrappers
  import opened Records
  import opened Sorting

  /**
   * Drop `machine_identifier`, then sort by the time column in place. The
   * package loaders of all three scripts and the error and recipe loaders of
   * the reject-pack analysis take these two steps on their frame. The error
   * and recipe loaders sort the raw timestamp strings before parsing them,
   * and some loaders also move the time column into the index; the model
   * sorts by instant and keeps the time in each row.
   */
  method LoadStream<F>(raw: seq<RawRecord<F>>) returns (rows: seq<Record<F>>)
    ensures rows == SortByTime(DropMachineAll(raw))
    ensures SortedByTime(rows)
    ensures multiset(rows) == multiset(DropMachineAll(raw))
  {
    var a := new Record<F>[|raw|](i requires 0 <= i < |raw| => DropMachine(raw[i]));
    assert a[..] == DropMachineAll(raw);
    SortInPlace(a);
    rows := a[..];
    SortByTimeSortsAndPermutes(DropMachineAll(raw));
  }

  /** The programmed rate of the last row of `s` that has one (`ffill` source). */
  function LastKnown(s: seq<Record<OeeSample>>): (v: Option<real>)
    ensures v.None? <==> forall k :: 0 <= k < |s| ==> s[k].f.expected.None?
    ensures v.Some? ==> exists j :: 0 <= j < |s| && s[j].f.expected == v
                          && forall k :: j < k < |s| ==> s[k].f.expected.None?
  {
    if s == [] then None
    else if s[|s| - 1].f.expected.Some? then s[|s| - 1].f.expected
    else LastKnown(s[..|s| - 1])
  }

  /** `expected_cycles_per_minute.ffill()`: each row takes the last known rate at or before it. */
  function ForwardFill(s: seq<Record<OeeSample>>): (r: seq<Record<OeeSample>>) {
    seq(|s|, i requires 0 <= i < |s| => s[i].(f := s[i].f.(expected := LastKnown(s[..i + 1]))))
  }

  /**
   * Forward fill changes nothing but the programmed rate, keeps every known rate,
   * and leaves a rate missing exactly in the rows before the first known one.
   */
  lemma ForwardFillSpec(s: seq<Record<OeeSample>>, i: int)
    requires 0 <= i < |s|
    ensures |ForwardFill(s)| == |s|
    ensures ForwardFill(s)[i].t == s[i].t && ForwardFill(s)[i].f.actual == s[i].f.actual
    ensures s[i].f.expected.Some? ==> ForwardFill(s)[i] == s[i]
    ensures ForwardFill(s)[i].f.expected.None? <==> forall k :: 0 <= k <= i ==> s[k].f.expected.None?
    ensures ForwardFill(s)[i].f.expected.Some? ==>
              exists j :: 0 <= j <= i && s[j].f.expected == ForwardFill(s)[i].f.expected
                && forall k :: j < k <= i ==> s[k].f.expected.None?
  {
    var p := s[..i + 1];
    assert forall k :: 0 <= k <= i ==> p[k] == s[k];
  }

  /** Row `i` of the fill, from the last rate known before it. */
  lemma ForwardFillStep(s: seq<Record<OeeSample>>, i: int, last: Option<real>)
    requires 0 <= i < |s| && last == LastKnown(s[..i])
    ensures LastKnown(s[..i + 1]) == if s[i].f.expected.Some? then s[i].f.expected else last
    ensures ForwardFill(s)[i] == if s[i].f.expected.Some? then s[i] else s[i].(f := s[i].f.(expected := last))
  {
    assert s[..i + 1][..i] == s[..i];
  }

  /** The column assignment of the forward fill, done row by row in place. */
  method ForwardFillInPlace(a: array<Record<OeeSample>>)
    modifies a
    ensures a[..] == ForwardFill(old(a[..]))
  {
    ghost var input := a[..];
    var last: Option<real> := None;
    var i := 0;
    while i < a.Length
      invariant 0 <= i <= a.Length
      invariant last == LastKnown(input[..i])
      invariant forall k :: 0 <= k < i ==> a[k] == ForwardFill(input)[k]
      invariant forall k :: i <= k < a.Length ==> a[k] == input[k]
    {
      ForwardFillStep(input, i, last);
      if a[i].f.expected.Some? {
        last := a[i].f.expected;
      } else {
        a[i] := a[i].(f := a[i].f.(expected := last));
      }
      i := i + 1;
    }
    assert a[..] == ForwardFill(input);
  }

  predicate Complete(r: Record<OeeSample>) {
    r.f.expected.Some? && r.f.actual.Some?
  }

  /** The kept row for a complete input row (the deviation column is not there yet). */
  function Kept(x: Record<OeeSample>): Record<OeeRow>
    requires Complete(x)
  {
    Record(x.t, OeeRow(x.f.expected.value, x.f.actual.value, 0.0))
  }

  /** `dropna()`: keep, in order, the rows in which no field is missing. */
  function DropMissing(s: seq<Record<OeeSample>>): (r: seq<Record<OeeRow>>) {
    if s == [] then []
    else
      var init := DropMissing(s[..|s| - 1]);
      var x := s[|s| - 1];
      if Complete(x) then init + [Kept(x)]
      else init
  }

  function CountComplete(s: seq<Record<OeeSample>>): nat {
    if s == [] then 0 else CountComplete(s[..|s| - 1]) + (if Complete(s[|s| - 1]) then 1 else 0)
  }

  /**
   * The complete row `s[i]` is kept at the position given by the number of
   * complete rows before it, so the kept rows appear once each, in input order.
   */
  lemma {:induction false} DropMissingAt(s: seq<Record<OeeSample>>)
    ensures |DropMissing(s)| == CountComplete(s)
    ensures forall i :: 0 <= i < |s| && Complete(s[i]) ==>
      CountComplete(s[..i]) < |DropMissing(s)| && DropMissing(s)[CountComplete(s[..i])] == Kept(s[i])
  {
    if s != [] {
      var init, x := s[..|s| - 1], s[|s| - 1];
      DropMissingAt(init);
      forall i | 0 <= i < |s| && Complete(s[i])
        ensures CountComplete(s[..i]) < |DropMissing(s)| && DropMissing(s)[CountComplete(s[..i])] == Kept(s[i])
      {
        if i < |init| {
          assert s[..i] == init[..i] && s[i] == init[i];
        } else {
          assert s[..i] == init;
        }
      }
    }
  }

  /**
   * `dropna` removes exactly the incomplete rows: every kept row is a complete
   * input row, every complete input row is kept, once and at the position of
   * its order among the complete rows, and a sorted frame stays sorted.
   */
  lemma {:induction false} DropMissingSpec(s: seq<Record<OeeSample>>)
    ensures |DropMissing(s)| == CountComplete(s) <= |s|
    ensures forall y :: y in DropMissing(s) ==> exists i :: 0 <= i < |s| && Complete(s[i]) && y == Kept(s[i])
    ensures forall i :: 0 <= i < |s| && Complete(s[i]) ==> Kept(s[i]) in DropMissing(s)
    ensures forall i :: 0 <= i < |s| && Complete(s[i]) ==>
      CountComplete(s[..i]) < |DropMissing(s)| && DropMissing(s)[CountComplete(s[..i])] == Kept(s[i])
    ensures SortedByTime(s) ==> SortedByTime(DropMissing(s))
  {
    DropMissingAt(s);
    if s != [] {
      var init := s[..|s| - 1];
      var x := s[|s| - 1];
      DropMissingSpec(init);
      assert forall i :: 0 <= i < |init| ==> init[i] == s[i];
      if SortedByTime(s) {
        assert SortedByTime(init);
        forall y | y in DropMissing(init) ensures y.t <= x.t {
          var i :| 0 <= i < |init| && Complete(init[i]) && y == Kept(init[i]);
        }
      }
    }
  }

  /**
   * Filling runs before dropping, so a row at or after the first known
   * programmed rate is dropped only when its measured rate is missing.
   */
  lemma FillThenDropKeeps(s: seq<Record<OeeSample>>, i: int, j: int)
    requires 0 <= j <= i < |s| && s[j].f.expected.Some? && s[i].f.actual.Some?
    ensures Complete(ForwardFill(s)[i])
    ensures Kept(ForwardFill(s)[i]) in DropMissing(ForwardFill(s))
  {
    ForwardFillSpec(s, i);
    DropMissingSpec(ForwardFill(s));
  }

  /** `(expected - actual).abs()`. */
  function Deviation(expected: real, actual: real): (d: real)
    ensures d >= 0.0
    ensures d == 0.0 <==> expected == actual
    ensures d == expected - actual || d == actual - expected
  {
    if expected >= actual then expected - actual else actual - expected
  }

  /** Adds `deviation_from_programmed_throughput` to every row. */
  function WithDeviation(s: seq<Record<OeeRow>>): (r: seq<Record<OeeRow>>)
    ensures |r| == |s|
    ensures forall i :: 0 <= i < |s| ==>
              (r[i].t == s[i].t && r[i].f.expected == s[i].f.expected && r[i].f.actual == s[i].f.actual)
    ensures forall i :: 0 <= i < |s| ==> r[i].f.deviation == Deviation(s[i].f.expected, s[i].f.actual)
  {
    seq(|s|, i requires 0 <= i < |s| => s[i].(f := s[i].f.(deviation := Deviation(s[i].f.expected, s[i].f.actual))))
  }

  /** `load_oee_data`: drop the machine column, sort, forward-fill, `dropna`, add the deviation. */
  method LoadOeeData(raw: seq<RawRecord<OeeSample>>) returns (rows: seq<Record<OeeRow>>)
    ensures rows == WithDeviation(DropMissing(ForwardFill(SortByTime(DropMachineAll(raw)))))
    ensures SortedByTime(rows)
    ensures |rows| <= |raw|
    ensures forall i :: 0 <= i < |rows| ==> rows[i].f.deviation >= 0.0
  {
    var a := new Record<OeeSample>[|raw|](i requires 0 <= i < |raw| => DropMachine(raw[i]));
    assert a[..] == DropMachineAll(raw);
    SortInPlace(a);
    ghost var sorted := a[..];
    ForwardFillInPlace(a);
    var kept := DropMissing(a[..]);
    rows := WithDeviation(kept);
    SortByTimeSortsAndPermutes(DropMachineAll(raw));
    assert SortedByTime(a[..]) by {
      forall k | 0 <= k < a.Length ensures a[k].t == sorted[k].t {
        ForwardFillSpec(sorted, k);
      }
    }
    DropMissingSpec(a[..]);
  }
}
