/**
 * `DataFrame.groupby(<key>)[<columns>].sum()` (and `count`, which is a sum of
 * ones): one row per distinct key, keys in ascending order, no row for a key no
 * record has, and records whose key is missing left out.
 */
module GroupBy {
  import opened Wrappers
  import opened Records

  /** A group key: an integer (hour, weekday, error code) or a text (recipe). */
  datatype Key = Num(n: int) | Text(s: string)

  /** Python's `str` order: lexicographic by code point, a proper prefix first. */
  predicate StrLess(a: string, b: string)
    decreases |a|
  {
    if a == [] then b != []
    else if b == [] then false
    else if a[0] != b[0] then a[0] < b[0]
    else StrLess(a[1..], b[1..])
  }

  lemma {:induction false} StrLessIrreflexive(a: string)
    ensures !StrLess(a, a)
    decreases |a|
  {
    if a != [] {
      StrLessIrreflexive(a[1..]);
    }
  }

  lemma {:induction false} StrLessTransitive(a: string, b: string, c: string)
    requires StrLess(a, b) && StrLess(b, c)
    ensures StrLess(a, c)
    decreases |a|
  {
    if a != [] && a[0] == b[0] && b[0] == c[0] {
      StrLessTransitive(a[1..], b[1..], c[1..]);
    }
  }

  lemma {:induction false} StrLessTotal(a: string, b: string)
    requires a != b
    ensures StrLess(a, b) || StrLess(b, a)
    decreases |a|
  {
    if a != [] && b != [] && a[0] == b[0] {
      assert a == [a[0]] + a[1..] && b == [b[0]] + b[1..];
      StrLessTotal(a[1..], b[1..]);
    }
  }

  /** The order `groupby` sorts its keys by (one table never mixes the two kinds). */
  predicate KeyLess(a: Key, b: Key) {
    match (a, b)
    case (Num(m), Num(n)) => m < n
    case (Num(_), Text(_)) => true
    case (Text(_), Num(_)) => false
    case (Text(s), Text(u)) => StrLess(s, u)
  }

  lemma KeyLessIrreflexive(a: Key)
    ensures !KeyLess(a, a)
  {
    if a.Text? {
      StrLessIrreflexive(a.s);
    }
  }

  lemma KeyLessTransitive(a: Key, b: Key, c: Key)
    requires KeyLess(a, b) && KeyLess(b, c)
    ensures KeyLess(a, c)
  {
    if a.Text? {
      StrLessTransitive(a.s, b.s, c.s);
    }
  }

  lemma KeyLessTotal(a: Key, b: Key)
    requires a != b
    ensures KeyLess(a, b) || KeyLess(b, a)
  {
    if a.Text? && b.Text? {
      StrLessTotal(a.s, b.s);
    }
  }

  /** One output row: the key and the sums of the two aggregated columns. */
  datatype Group = Group(key: Key, x: int, y: int)

  function GroupX(g: Group): int { g.x }
  function GroupY(g: Group): int { g.y }

  /** Keys strictly ascending, hence pairwise distinct. */
  predicate Ascending(gs: seq<Group>) {
    forall i, j :: 0 <= i < j < |gs| ==> KeyLess(gs[i].key, gs[j].key)
  }

  predicate HasGroup(gs: seq<Group>, k: Key) {
    exists i :: 0 <= i < |gs| && gs[i].key == k
  }

  /** Fold one record's values into the group of key `k`, creating it in key order. */
  function AddTo(gs: seq<Group>, k: Key, dx: int, dy: int): seq<Group> {
    if gs == [] then [Group(k, dx, dy)]
    else if gs[0].key == k then [Group(k, gs[0].x + dx, gs[0].y + dy)] + gs[1..]
    else if KeyLess(k, gs[0].key) then [Group(k, dx, dy)] + gs
    else [gs[0]] + AddTo(gs[1..], k, dx, dy)
  }

  /** `groupby(key)[[x, y]].sum()`: records with a missing key are dropped. */
  function GroupSums<F>(rs: seq<Record<F>>, key: Record<F> -> Option<Key>, xv: F -> int, yv: F -> int): seq<Group> {
    if rs == [] then []
    else
      var gs := GroupSums(rs[..|rs| - 1], key, xv, yv);
      var r := rs[|rs| - 1];
      match key(r)
      case None => gs
      case Some(k) => AddTo(gs, k, xv(r.f), yv(r.f))
  }

  /** Sum of `val` over the records whose key is `k` (the independent definition of a group's sum). */
  function KeySum<F>(rs: seq<Record<F>>, key: Record<F> -> Option<Key>, k: Key, val: F -> int): int {
    if rs == [] then 0
    else KeySum(rs[..|rs| - 1], key, k, val) + (if key(rs[|rs| - 1]) == Some(k) then val(rs[|rs| - 1].f) else 0)
  }

  /** Sum of `val` over the records that have a key. */
  function KeyedSum<F>(rs: seq<Record<F>>, key: Record<F> -> Option<Key>, val: F -> int): int {
    if rs == [] then 0
    else KeyedSum(rs[..|rs| - 1], key, val) + (if key(rs[|rs| - 1]).Some? then val(rs[|rs| - 1].f) else 0)
  }

  /** The group of key `k`, if there is one. */
  function Find(gs: seq<Group>, k: Key): (r: Option<Group>)
    ensures r.Some? ==> r.value in gs && r.value.key == k
    ensures r.None? <==> !HasGroup(gs, k)
  {
    if gs == [] then None
    else if gs[0].key == k then Some(gs[0])
    else
      var r := Find(gs[1..], k);
      assert HasGroup(gs[1..], k) ==> HasGroup(gs, k);
      assert HasGroup(gs, k) ==> HasGroup(gs[1..], k) by {
        if HasGroup(gs, k) {
          var i :| 0 <= i < |gs| && gs[i].key == k;
          assert gs[1..][i - 1].key == k;
        }
      }
      r
  }

  function XOf(gs: seq<Group>, k: Key): int {
    match Find(gs, k)
    case None => 0
    case Some(g) => g.x
  }

  function YOf(gs: seq<Group>, k: Key): int {
    match Find(gs, k)
    case None => 0
    case Some(g) => g.y
  }

  lemma FindAt(gs: seq<Group>, i: int)
    requires Ascending(gs) && 0 <= i < |gs|
    ensures Find(gs, gs[i].key) == Some(gs[i])
  {
    if i > 0 {
      KeyLessIrreflexive(gs[0].key);
      assert KeyLess(gs[0].key, gs[i].key);
      assert Ascending(gs[1..]);
      FindAt(gs[1..], i - 1);
    }
  }

  lemma AscendingHead(gs: seq<Group>, k: Key)
    requires Ascending(gs) && gs != [] && KeyLess(k, gs[0].key)
    ensures forall i :: 0 <= i < |gs| ==> KeyLess(k, gs[i].key)
  {
    forall i | 0 < i < |gs|
      ensures KeyLess(k, gs[i].key)
    {
      KeyLessTransitive(k, gs[0].key, gs[i].key);
    }
  }

  lemma HasGroupCons(g: Group, gs: seq<Group>, k: Key)
    ensures HasGroup([g] + gs, k) <==> g.key == k || HasGroup(gs, k)
  {
    var r := [g] + gs;
    assert r[0] == g;
    if HasGroup(r, k) && g.key != k {
      var i :| 0 <= i < |r| && r[i].key == k;
      assert gs[i - 1].key == k;
    }
    if HasGroup(gs, k) {
      var i :| 0 <= i < |gs| && gs[i].key == k;
      assert r[i + 1].key == k;
    }
  }

  /** Adding to a group adds exactly the key `k`. */
  lemma {:induction false} AddToKeys(gs: seq<Group>, k: Key, dx: int, dy: int, k': Key)
    ensures HasGroup(AddTo(gs, k, dx, dy), k') <==> k' == k || HasGroup(gs, k')
  {
    if gs == [] {
      assert AddTo(gs, k, dx, dy)[0].key == k;
    } else {
      assert gs == [gs[0]] + gs[1..];
      HasGroupCons(gs[0], gs[1..], k');
      if gs[0].key == k {
        HasGroupCons(Group(k, gs[0].x + dx, gs[0].y + dy), gs[1..], k');
      } else if KeyLess(k, gs[0].key) {
        HasGroupCons(Group(k, dx, dy), gs, k');
      } else {
        AddToKeys(gs[1..], k, dx, dy, k');
        HasGroupCons(gs[0], AddTo(gs[1..], k, dx, dy), k');
      }
    }
  }

  /** Adding keeps the keys strictly ascending. */
  lemma {:induction false} AddToAscending(gs: seq<Group>, k: Key, dx: int, dy: int)
    requires Ascending(gs)
    ensures Ascending(AddTo(gs, k, dx, dy))
  {
    var r := AddTo(gs, k, dx, dy);
    if gs == [] {
    } else if gs[0].key == k {
      assert forall i :: 0 <= i < |r| ==> r[i].key == gs[i].key;
    } else if KeyLess(k, gs[0].key) {
      AscendingHead(gs, k);
      assert forall i :: 0 < i < |r| ==> r[i] == gs[i - 1];
    } else {
      var r' := AddTo(gs[1..], k, dx, dy);
      assert Ascending(gs[1..]);
      AddToAscending(gs[1..], k, dx, dy);
      KeyLessTotal(k, gs[0].key);
      assert r == [gs[0]] + r';
      forall j | 0 < j < |r|
        ensures KeyLess(r[0].key, r[j].key)
      {
        var kj := r'[j - 1].key;
        AddToKeys(gs[1..], k, dx, dy, kj);
        assert HasGroup(r', kj);
        if kj != k {
          var i :| 0 <= i < |gs[1..]| && gs[1..][i].key == kj;
          assert gs[i + 1].key == kj;
        }
      }
    }
  }

  /** Adding adds `dx` and `dy` to the sums of key `k` and changes no other key's sums. */
  lemma {:induction false} AddToSums(gs: seq<Group>, k: Key, dx: int, dy: int, k': Key)
    requires Ascending(gs)
    ensures XOf(AddTo(gs, k, dx, dy), k') == XOf(gs, k') + (if k' == k then dx else 0)
    ensures YOf(AddTo(gs, k, dx, dy), k') == YOf(gs, k') + (if k' == k then dy else 0)
  {
    var r := AddTo(gs, k, dx, dy);
    if gs == [] {
    } else if gs[0].key == k {
      assert r[1..] == gs[1..];
    } else if KeyLess(k, gs[0].key) {
      assert r[1..] == gs;
      if k' == k {
        AscendingHead(gs, k);
        forall i | 0 <= i < |gs|
          ensures gs[i].key != k
        {
          KeyLessIrreflexive(k);
        }
      }
    } else {
      assert Ascending(gs[1..]);
      AddToSums(gs[1..], k, dx, dy, k');
      assert r[1..] == AddTo(gs[1..], k, dx, dy);
    }
  }

  lemma {:induction false} TotalCons<T>(a: T, s: seq<T>, val: T -> int)
    ensures Total([a] + s, val) == val(a) + Total(s, val)
  {
    if s != [] {
      var s' := s[..|s| - 1];
      assert ([a] + s)[..|s|] == [a] + s';
      TotalCons(a, s', val);
    }
  }

  /** Adding adds `dx` and `dy` to the column totals. */
  lemma {:induction false} AddToTotals(gs: seq<Group>, k: Key, dx: int, dy: int)
    ensures Total(AddTo(gs, k, dx, dy), GroupX) == Total(gs, GroupX) + dx
    ensures Total(AddTo(gs, k, dx, dy), GroupY) == Total(gs, GroupY) + dy
  {
    if gs == [] {
      assert Total([Group(k, dx, dy)], GroupX) == Total<Group>([], GroupX) + dx;
      assert Total([Group(k, dx, dy)], GroupY) == Total<Group>([], GroupY) + dy;
    } else {
      assert gs == [gs[0]] + gs[1..];
      TotalCons(gs[0], gs[1..], GroupX);
      TotalCons(gs[0], gs[1..], GroupY);
      if gs[0].key == k {
        TotalCons(Group(k, gs[0].x + dx, gs[0].y + dy), gs[1..], GroupX);
        TotalCons(Group(k, gs[0].x + dx, gs[0].y + dy), gs[1..], GroupY);
      } else if KeyLess(k, gs[0].key) {
        TotalCons(Group(k, dx, dy), gs, GroupX);
        TotalCons(Group(k, dx, dy), gs, GroupY);
      } else {
        AddToTotals(gs[1..], k, dx, dy);
        TotalCons(gs[0], AddTo(gs[1..], k, dx, dy), GroupX);
        TotalCons(gs[0], AddTo(gs[1..], k, dx, dy), GroupY);
      }
    }
  }

  /** The group keys are strictly ascending: sorted, and each key appears once. */
  lemma {:induction false} GroupSumsAscending<F>(rs: seq<Record<F>>, key: Record<F> -> Option<Key>, xv: F -> int, yv: F -> int)
    ensures Ascending(GroupSums(rs, key, xv, yv))
  {
    if rs != [] {
      GroupSumsAscending(rs[..|rs| - 1], key, xv, yv);
      var r := rs[|rs| - 1];
      if key(r).Some? {
        AddToAscending(GroupSums(rs[..|rs| - 1], key, xv, yv), key(r).value, xv(r.f), yv(r.f));
      }
    }
  }

  /** A key has a group exactly when some record has that key. */
  lemma {:induction false} GroupSumsKeys<F>(rs: seq<Record<F>>, key: Record<F> -> Option<Key>, xv: F -> int, yv: F -> int, k: Key)
    ensures HasGroup(GroupSums(rs, key, xv, yv), k) <==> exists j :: 0 <= j < |rs| && key(rs[j]) == Some(k)
  {
    if rs != [] {
      var p := rs[..|rs| - 1];
      var r := rs[|rs| - 1];
      GroupSumsKeys(p, key, xv, yv, k);
      if key(r).Some? {
        AddToKeys(GroupSums(p, key, xv, yv), key(r).value, xv(r.f), yv(r.f), k);
      }
      if exists j :: 0 <= j < |rs| && key(rs[j]) == Some(k) {
        var j :| 0 <= j < |rs| && key(rs[j]) == Some(k);
        if j < |p| {
          assert key(p[j]) == Some(k);
        }
      }
      assert forall j :: 0 <= j < |p| ==> p[j] == rs[j];
    }
  }

  /** Each key's sums are the sums over exactly the records with that key. */
  lemma {:induction false} GroupSumsByKey<F>(rs: seq<Record<F>>, key: Record<F> -> Option<Key>, xv: F -> int, yv: F -> int, k: Key)
    ensures XOf(GroupSums(rs, key, xv, yv), k) == KeySum(rs, key, k, xv)
    ensures YOf(GroupSums(rs, key, xv, yv), k) == KeySum(rs, key, k, yv)
  {
    if rs != [] {
      var p := rs[..|rs| - 1];
      var r := rs[|rs| - 1];
      GroupSumsByKey(p, key, xv, yv, k);
      if key(r).Some? {
        GroupSumsAscending(p, key, xv, yv);
        AddToSums(GroupSums(p, key, xv, yv), key(r).value, xv(r.f), yv(r.f), k);
      }
    }
  }

  /** Row `i` of the table holds the sums over the records with its key. */
  lemma GroupSumsRow<F>(rs: seq<Record<F>>, key: Record<F> -> Option<Key>, xv: F -> int, yv: F -> int, i: int)
    requires 0 <= i < |GroupSums(rs, key, xv, yv)|
    ensures var g := GroupSums(rs, key, xv, yv)[i];
      g.x == KeySum(rs, key, g.key, xv) && g.y == KeySum(rs, key, g.key, yv)
  {
    var gs := GroupSums(rs, key, xv, yv);
    GroupSumsAscending(rs, key, xv, yv);
    FindAt(gs, i);
    GroupSumsByKey(rs, key, xv, yv, gs[i].key);
  }

  /** Every record with a key lands in exactly one group. */
  lemma GroupOfRecord<F>(rs: seq<Record<F>>, key: Record<F> -> Option<Key>, xv: F -> int, yv: F -> int, j: int) returns (i: int)
    requires 0 <= j < |rs| && key(rs[j]).Some?
    ensures 0 <= i < |GroupSums(rs, key, xv, yv)|
    ensures GroupSums(rs, key, xv, yv)[i].key == key(rs[j]).value
    ensures forall i' :: 0 <= i' < |GroupSums(rs, key, xv, yv)| && GroupSums(rs, key, xv, yv)[i'].key == key(rs[j]).value ==> i' == i
  {
    var gs := GroupSums(rs, key, xv, yv);
    var k := key(rs[j]).value;
    GroupSumsKeys(rs, key, xv, yv, k);
    GroupSumsAscending(rs, key, xv, yv);
    i :| 0 <= i < |gs| && gs[i].key == k;
    forall i' | 0 <= i' < |gs| && gs[i'].key == k
      ensures i' == i
    {
      KeyLessIrreflexive(k);
    }
  }

  /** Grouping conserves the column totals of the records that have a key. */
  lemma {:induction false} GroupSumsConserve<F>(rs: seq<Record<F>>, key: Record<F> -> Option<Key>, xv: F -> int, yv: F -> int)
    ensures Total(GroupSums(rs, key, xv, yv), GroupX) == KeyedSum(rs, key, xv)
    ensures Total(GroupSums(rs, key, xv, yv), GroupY) == KeyedSum(rs, key, yv)
  {
    if rs != [] {
      var p := rs[..|rs| - 1];
      var r := rs[|rs| - 1];
      GroupSumsConserve(p, key, xv, yv);
      if key(r).Some? {
        AddToTotals(GroupSums(p, key, xv, yv), key(r).value, xv(r.f), yv(r.f));
      }
    }
  }

  /** When every record has a key, the keyed sum is the plain column sum. */
  lemma {:induction false} KeyedSumAll<F>(rs: seq<Record<F>>, key: Record<F> -> Option<Key>, val: F -> int)
    requires forall j :: 0 <= j < |rs| ==> key(rs[j]).Some?
    ensures KeyedSum(rs, key, val) == SumOf(rs, val)
  {
    if rs != [] {
      var p := rs[..|rs| - 1];
      assert forall j :: 0 <= j < |p| ==> p[j] == rs[j];
      KeyedSumAll(p, key, val);
    }
  }

  /**
   * Integer keys drawn from 0 .. n - 1 give at most `n` groups, and exactly `n`
   * when every value occurs, in which case group `i` has key `i`.
   */
  lemma {:induction false} NumKeysBelow(gs: seq<Group>, n: int)
    requires Ascending(gs) && 0 <= n
    requires forall i :: 0 <= i < |gs| ==> gs[i].key.Num? && 0 <= gs[i].key.n < n
    ensures |gs| <= n
    ensures (forall d :: 0 <= d < n ==> HasGroup(gs, Num(d))) ==> |gs| == n && forall i :: 0 <= i < n ==> gs[i].key == Num(i)
  {
    NumKeysRise(gs);
    if |gs| > 0 {
      assert gs[|gs| - 1].key.n >= |gs| - 1;
    }
    if forall d :: 0 <= d < n ==> HasGroup(gs, Num(d)) {
      NumKeysFill(gs, n, n);
    }
  }

  lemma {:induction false} NumKeysRise(gs: seq<Group>)
    requires Ascending(gs)
    requires forall i :: 0 <= i < |gs| ==> gs[i].key.Num?
    ensures forall i :: 0 <= i < |gs| ==> gs[i].key.n >= gs[0].key.n + i
  {
    if |gs| > 1 {
      var p := gs[..|gs| - 1];
      assert Ascending(p);
      NumKeysRise(p);
      assert KeyLess(gs[|gs| - 2].key, gs[|gs| - 1].key);
    }
  }

  lemma {:induction false} NumKeysFill(gs: seq<Group>, n: int, m: int)
    requires Ascending(gs)
    requires forall i :: 0 <= i < |gs| ==> gs[i].key.Num? && 0 <= gs[i].key.n < n
    requires 0 <= m <= n
    requires forall d :: 0 <= d < n ==> HasGroup(gs, Num(d))
    ensures m <= |gs| && forall i :: 0 <= i < m ==> gs[i].key == Num(i)
    ensures m == n ==> |gs| == n
  {
    NumKeysRise(gs);
    if m > 0 {
      NumKeysFill(gs, n, m - 1);
      var d := m - 1;
      assert HasGroup(gs, Num(d));
      var j :| 0 <= j < |gs| && gs[j].key == Num(d);
      assert gs[d].key.n >= d;
      assert forall i :: 0 <= i < d ==> gs[i].key != Num(d);
      assert forall i :: d < i < |gs| ==> gs[i].key.n > d by {
        assert forall i :: d < i < |gs| ==> KeyLess(gs[d].key, gs[i].key);
      }
    }
    if |gs| > 0 {
      assert gs[|gs| - 1].key.n >= |gs| - 1;
    }
  }
}
