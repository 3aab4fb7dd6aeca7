/**
 * Canonical records: one row of a log after its timestamp has been parsed.
 * `t` is the row's instant (see module Calendar) and `f` the row's other fields.
 */
module Records {
  import opened Wrappers

  datatype Record<F> = Record(t: int, f: F)

  /** A CSV row before loading: it still carries the `machine_identifier` column. */
  datatype RawRecord<F> = RawRecord(machine: string, t: int, f: F)

  /** package_data.csv: packs produced since the previous row. */
  datatype Packs = Packs(good: int, reject: int)

  /** error_messages_timeline.csv; the row's instant is `start_ts`. */
  datatype ErrorEvent = ErrorEvent(endTs: int, code: Option<int>, duration: Option<int>)

  /** recipe_data.csv: the recipe the machine switched to at the row's instant. */
  datatype RecipeChange = RecipeChange(recipe: string)

  /** oee_data.csv: programmed and measured cycle rates, either possibly empty. */
  datatype OeeSample = OeeSample(expected: Option<real>, actual: Option<real>)

  /** A loaded OEE row: both rates known, plus the derived deviation column. */
  datatype OeeRow = OeeRow(expected: real, actual: real, deviation: real)

  /** Non-decreasing timestamps. */
  predicate SortedByTime<F>(s: seq<Record<F>>) {
    forall i, j :: 0 <= i < j < |s| ==> s[i].t <= s[j].t
  }

  /** `drop(["machine_identifier"], axis=1)` on one row. */
  function DropMachine<F>(r: RawRecord<F>): Record<F> {
    Record(r.t, r.f)
  }

  function DropMachineAll<F>(raw: seq<RawRecord<F>>): (s: seq<Record<F>>)
    ensures |s| == |raw|
    ensures forall i :: 0 <= i < |raw| ==> s[i].t == raw[i].t && s[i].f == raw[i].f
  {
    seq(|raw|, i requires 0 <= i < |raw| => DropMachine(raw[i]))
  }

  /** Earliest instant (`index.min()`). */
  function MinTime<F>(s: seq<Record<F>>): (m: int)
    requires |s| > 0
    ensures forall i :: 0 <= i < |s| ==> m <= s[i].t
    ensures exists i :: 0 <= i < |s| && s[i].t == m
  {
    if |s| == 1 then s[0].t
    else
      var m' := MinTime(s[..|s| - 1]);
      if s[|s| - 1].t < m' then s[|s| - 1].t else m'
  }

  /** Latest instant (`index.max()`). */
  function MaxTime<F>(s: seq<Record<F>>): (m: int)
    requires |s| > 0
    ensures forall i :: 0 <= i < |s| ==> s[i].t <= m
    ensures exists i :: 0 <= i < |s| && s[i].t == m
  {
    if |s| == 1 then s[0].t
    else
      var m' := MaxTime(s[..|s| - 1]);
      if s[|s| - 1].t > m' then s[|s| - 1].t else m'
  }

  /** Column sum (`sum`); the empty sum is 0. */
  function SumOf<F>(s: seq<Record<F>>, val: F -> int): int {
    if s == [] then 0 else SumOf(s[..|s| - 1], val) + val(s[|s| - 1].f)
  }

  /** Column sum over a real-valued column. */
  function SumReal<F>(s: seq<Record<F>>, val: F -> real): real {
    if s == [] then 0.0 else SumReal(s[..|s| - 1], val) + val(s[|s| - 1].f)
  }

  function One<F>(f: F): int { 1 }

  lemma {:induction false} SumOfOneIsLength<F>(s: seq<Record<F>>)
    ensures SumOf(s, One) == |s|
  {
    if s != [] {
      SumOfOneIsLength(s[..|s| - 1]);
    }
  }

  lemma SumOfAppend<F>(s: seq<Record<F>>, x: Record<F>, val: F -> int)
    ensures SumOf(s + [x], val) == SumOf(s, val) + val(x.f)
  {
    assert (s + [x])[..|s|] == s;
  }

  /** A mean from a sum and a row count; pandas gives NaN for no rows. */
  function MeanOf(sum: real, n: int): Option<real> {
    if n == 0 then None else Some(sum / (n as real))
  }

  /** The mean is missing exactly for no rows, and otherwise times the count gives back the sum. */
  lemma MeanOfSpec(sum: real, n: nat)
    ensures MeanOf(sum, n).None? <==> n == 0
    ensures MeanOf(sum, n).Some? ==> MeanOf(sum, n).value * (n as real) == sum
  {
  }

  /** Column mean (`mean`). */
  function Mean<F>(s: seq<Record<F>>, val: F -> real): Option<real> {
    MeanOf(SumReal(s, val), |s|)
  }

  /** Sum of one column of an aggregate table. */
  function Total<T>(s: seq<T>, val: T -> int): int {
    if s == [] then 0 else Total(s[..|s| - 1], val) + val(s[|s| - 1])
  }

  /** Two tables whose columns agree row by row have the same column total. */
  lemma {:induction false} TotalPointwise<A, B>(s: seq<A>, f: A -> int, u: seq<B>, g: B -> int)
    requires |s| == |u|
    requires forall i :: 0 <= i < |s| ==> f(s[i]) == g(u[i])
    ensures Total(s, f) == Total(u, g)
  {
    if s != [] {
      TotalPointwise(s[..|s| - 1], f, u[..|u| - 1], g);
    }
  }
}
