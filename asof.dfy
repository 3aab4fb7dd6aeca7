/**
 * `pd.merge_asof(left, right, left_index=True, right_index=True,
 * direction="backward")`: every left row receives the fields of the right row
 * with the greatest instant at or before its own (an equal instant matches), or
 * missing values when there is none. Both frames must be sorted on the key.
 */
module Asof {
  import opened Wrappers
  import opened Records

  /** pandas raises "left keys must be sorted" / "right keys must be sorted", checking the left frame first. */
  datatype AsofError = LeftUnsorted | RightUnsorted

  /** A package row after the join: its packs plus the recipe running at that instant. */
  datatype Joined = Joined(good: int, reject: int, recipe: Option<string>)

  /** Index of the last row whose instant is at or before `t` (the naive backward search). */
  function LastAtOrBefore<F>(rs: seq<Record<F>>, t: int): (r: Option<nat>)
    ensures r.Some? ==> r.value < |rs| && rs[r.value].t <= t
    ensures r.Some? ==> forall k :: r.value < k < |rs| ==> rs[k].t > t
    ensures r.None? ==> forall k :: 0 <= k < |rs| ==> rs[k].t > t
  {
    if rs == [] then None
    else if rs[|rs| - 1].t <= t then Some(|rs| - 1)
    else LastAtOrBefore(rs[..|rs| - 1], t)
  }

  /** On a sorted frame the match carries the greatest instant at or before `t`. */
  lemma LastAtOrBeforeGreatest<F>(rs: seq<Record<F>>, t: int, k: int)
    requires SortedByTime(rs) && 0 <= k < |rs| && rs[k].t <= t
    ensures LastAtOrBefore(rs, t).Some?
    ensures k <= LastAtOrBefore(rs, t).value
    ensures rs[k].t <= rs[LastAtOrBefore(rs, t).value].t <= t
  {
  }

  /** If the rows before `j` are at or before `t` and the rest after it, the match is row `j - 1`. */
  lemma LastAtOrBeforeSplit<F>(rs: seq<Record<F>>, t: int, j: int)
    requires 0 <= j <= |rs|
    requires forall k :: 0 <= k < j ==> rs[k].t <= t
    requires forall k :: j <= k < |rs| ==> rs[k].t > t
    ensures LastAtOrBefore(rs, t) == if j == 0 then None else Some(j - 1)
  {
  }

  /** The recipe running at instant `t`. */
  function RecipeAt(right: seq<Record<RecipeChange>>, t: int): Option<string> {
    match LastAtOrBefore(right, t)
    case None => None
    case Some(j) => Some(right[j].f.recipe)
  }

  function JoinRow(l: Record<Packs>, right: seq<Record<RecipeChange>>): Record<Joined> {
    Record(l.t, Joined(l.f.good, l.f.reject, RecipeAt(right, l.t)))
  }

  /** The join as pandas defines it: the sortedness checks, then one backward search per left row. */
  function AsofJoin(left: seq<Record<Packs>>, right: seq<Record<RecipeChange>>): Result<seq<Record<Joined>>, AsofError> {
    if !SortedByTime(left) then Err(LeftUnsorted)
    else if !SortedByTime(right) then Err(RightUnsorted)
    else Ok(seq(|left|, i requires 0 <= i < |left| => JoinRow(left[i], right)))
  }

  /**
   * The join succeeds exactly on sorted frames, keeps the left rows' number,
   * order, instants and packs, and gives each the recipe of the latest change
   * at or before it, or none when no change precedes it.
   */
  lemma AsofJoinSpec(left: seq<Record<Packs>>, right: seq<Record<RecipeChange>>, i: int)
    requires 0 <= i < |left|
    ensures AsofJoin(left, right).Ok? <==> SortedByTime(left) && SortedByTime(right)
    ensures AsofJoin(left, right).Err? ==> (AsofJoin(left, right).error == LeftUnsorted <==> !SortedByTime(left))
    ensures AsofJoin(left, right).Ok? ==> |AsofJoin(left, right).value| == |left|
    ensures AsofJoin(left, right).Ok? ==>
      var row := AsofJoin(left, right).value[i];
      && row.t == left[i].t && row.f.good == left[i].f.good && row.f.reject == left[i].f.reject
      && (row.f.recipe.None? <==> forall k :: 0 <= k < |right| ==> right[k].t > left[i].t)
      && (row.f.recipe.Some? ==>
            exists k :: 0 <= k < |right| && right[k].t <= left[i].t && row.f.recipe == Some(right[k].f.recipe)
              && forall k' :: 0 <= k' < |right| && right[k'].t <= left[i].t ==> right[k'].t <= right[k].t)
  {
    if AsofJoin(left, right).Ok? {
      var row := AsofJoin(left, right).value[i];
      var m := LastAtOrBefore(right, left[i].t);
      if m.Some? {
        forall k' | 0 <= k' < |right| && right[k'].t <= left[i].t
          ensures right[k'].t <= right[m.value].t
        {
          LastAtOrBeforeGreatest(right, left[i].t, k');
        }
      }
    }
  }

  /** Is `s` in time order? Checked pair by adjacent pair. */
  method CheckSorted<F>(s: seq<Record<F>>) returns (b: bool)
    ensures b == SortedByTime(s)
  {
    if |s| == 0 {
      return true;
    }
    var k := 1;
    while k < |s|
      invariant 1 <= k <= |s|
      invariant SortedByTime(s[..k])
    {
      if s[k - 1].t > s[k].t {
        return false;
      }
      k := k + 1;
    }
    assert s[..k] == s;
    return true;
  }

  /**
   * The join with one pass over each frame: the right pointer only moves
   * forward, because the left instants do not decrease.
   */
  method MergeAsof(left: seq<Record<Packs>>, right: seq<Record<RecipeChange>>) returns (r: Result<seq<Record<Joined>>, AsofError>)
    ensures r == AsofJoin(left, right)
  {
    var leftOk := CheckSorted(left);
    if !leftOk {
      return Err(LeftUnsorted);
    }
    var rightOk := CheckSorted(right);
    if !rightOk {
      return Err(RightUnsorted);
    }
    var out: seq<Record<Joined>> := [];
    var i, j := 0, 0;
    while i < |left|
      invariant 0 <= i <= |left| && 0 <= j <= |right|
      invariant |out| == i
      invariant forall k :: 0 <= k < i ==> out[k] == JoinRow(left[k], right)
      invariant forall k :: 0 <= k < j ==> 0 < i && right[k].t <= left[i - 1].t
    {
      var t := left[i].t;
      while j < |right| && right[j].t <= t
        invariant 0 <= j <= |right|
        invariant forall k :: 0 <= k < j ==> right[k].t <= t
      {
        j := j + 1;
      }
      LastAtOrBeforeSplit(right, t, j);
      var recipe := if j == 0 then None else Some(right[j - 1].f.recipe);
      out := out + [Record(t, Joined(left[i].f.good, left[i].f.reject, recipe))];
      i := i + 1;
    }
    assert out == seq(|left|, i requires 0 <= i < |left| => JoinRow(left[i], right));
    return Ok(out);
  }
}
