/** The KPIs and the two grouped sums computed from the filtered table. */
module Aggregation {
  import opened Wrappers
  import opened Frame
  import opened Filtering

  /** The numeric value a cell adds to a sum; missing values add nothing. */
  function Amount(r: Row, col: nat): int
  {
    match CellAt(r, col)
    case Num(n) => n
    case _ => 0
  }

  /** pandas can sum the column: every cell is a number or missing. */
  predicate Numeric(t: Table, col: nat)
  {
    forall x :: x in t ==> CellAt(x, col).Num? || CellAt(x, col).Missing?
  }

  /** `df[col].sum()`: missing values are skipped and an empty column sums to 0. */
  function Total(t: Table, col: nat): (s: int)
    ensures NumCount(t, col) == 0 ==> s == 0
  {
    if t == [] then 0 else Amount(t[0], col) + Total(t[1..], col)
  }

  /** The number of cells `mean()` divides by: the non-missing numbers. */
  function NumCount(t: Table, col: nat): (n: nat)
    ensures n <= |t|
  {
    if t == [] then 0 else (if CellAt(t[0], col).Num? then 1 else 0) + NumCount(t[1..], col)
  }

  function NumAt(col: nat): Row -> bool
  {
    r => CellAt(r, col).Num?
  }

  /** The count the mean divides by is the number of rows whose amount is a number. */
  lemma {:induction false} NumCountCountsNumbers(t: Table, col: nat)
    ensures NumCount(t, col) == |Where(t, NumAt(col))|
  {
    if t != [] {
      NumCountCountsNumbers(t[1..], col);
    }
  }

  lemma {:induction false} TotalAppend(a: Table, b: Table, col: nat)
    ensures Total(a + b, col) == Total(a, col) + Total(b, col)
  {
    if a == [] {
      assert a + b == b;
    } else {
      assert (a + b)[1..] == a[1..] + b;
      TotalAppend(a[1..], b, col);
    }
  }

  /** A total with only missing values, or with no rows, is 0. */
  lemma {:induction false} TotalOfMissing(t: Table, col: nat)
    requires forall x :: x in t ==> CellAt(x, col).Missing?
    ensures Total(t, col) == 0 && NumCount(t, col) == 0
  {
    if t != [] {
      assert t[0] in t;
      TotalOfMissing(t[1..], col);
    }
  }

  function Not(p: Row -> bool): Row -> bool
  {
    r => !p(r)
  }

  /** A mask splits the total into the part it keeps and the part it drops. */
  lemma {:induction false} TotalSplits(t: Table, col: nat, p: Row -> bool)
    ensures Total(Where(t, p), col) + Total(Where(t, Not(p)), col) == Total(t, col)
  {
    if t != [] {
      TotalSplits(t[1..], col, p);
      TotalAppend(if p(t[0]) then [t[0]] else [], Where(t[1..], p), col);
      TotalAppend(if Not(p)(t[0]) then [t[0]] else [], Where(t[1..], Not(p)), col);
    }
  }

  /** The mean KPI: NaN when there is no number to average. */
  datatype Average = NaN | Value(value: real)

  /** `df[col].mean()`: the sum of the non-missing numbers divided by their count. */
  function Mean(t: Table, col: nat): (m: Average)
    ensures m.NaN? <==> NumCount(t, col) == 0
    ensures m.Value? ==> m.value * (NumCount(t, col) as real) == Total(t, col) as real
  {
    var n := NumCount(t, col);
    if n == 0 then NaN else Value(Total(t, col) as real / n as real)
  }

  /** When every amount lies between `lo` and `hi`, the total lies between
      `lo` and `hi` times the number of amounts. */
  lemma {:induction false} TotalWithinBounds(t: Table, col: nat, lo: int, hi: int)
    requires forall x :: x in t && CellAt(x, col).Num? ==> lo <= CellAt(x, col).value <= hi
    ensures lo * NumCount(t, col) <= Total(t, col) <= hi * NumCount(t, col)
  {
    if t != [] {
      assert t[0] in t;
      var n, total := NumCount(t[1..], col), Total(t[1..], col);
      assert lo * n <= total <= hi * n by {
        TotalWithinBounds(t[1..], col, lo, hi);
      }
      if CellAt(t[0], col).Num? {
        var v := CellAt(t[0], col).value;
        assert NumCount(t, col) == n + 1 && Total(t, col) == v + total;
        BoundStep(lo, hi, n, total, v);
      } else {
        assert NumCount(t, col) == n && Total(t, col) == total;
      }
    }
  }

  lemma BoundStep(lo: int, hi: int, n: nat, total: int, v: int)
    requires lo * n <= total <= hi * n && lo <= v <= hi
    ensures lo * (n + 1) <= v + total <= hi * (n + 1)
  {
    assert lo * (n + 1) == lo * n + lo && hi * (n + 1) == hi * n + hi;
  }

  lemma ScaleBack(a: real, v: real, n: real)
    requires n > 0.0 && a * n <= v * n
    ensures a <= v
  {
  }

  /** The mean lies between the smallest and the largest amount. */
  lemma MeanWithinBounds(t: Table, col: nat, lo: int, hi: int)
    requires forall x :: x in t && CellAt(x, col).Num? ==> lo <= CellAt(x, col).value <= hi
    ensures Mean(t, col).Value? ==> lo as real <= Mean(t, col).value <= hi as real
  {
    var m, n, total := Mean(t, col), NumCount(t, col), Total(t, col);
    if m.Value? {
      assert n > 0 && m.value * (n as real) == total as real;
      assert lo * n <= total <= hi * n by {
        TotalWithinBounds(t, col, lo, hi);
      }
      MeanBetween(m.value, n, total, lo, hi);
    }
  }

  lemma MeanBetween(v: real, n: nat, total: int, lo: int, hi: int)
    requires n > 0 && v * (n as real) == total as real
    requires lo * n <= total <= hi * n
    ensures lo as real <= v <= hi as real
  {
    assert (lo * n) as real == lo as real * n as real;
    assert (hi * n) as real == hi as real * n as real;
    ScaleBack(lo as real, v, n as real);
    ScaleBack(v, hi as real, n as real);
  }

  // Grouped sums

  /** The amount a group key receives: the sum over the rows carrying that key. */
  function KeyTotal<K(==)>(t: Table, key: Row -> Option<K>, acol: nat, k: K): int
  {
    if t == [] then 0
    else (if key(t[0]) == Some(k) then Amount(t[0], acol) else 0) + KeyTotal(t[1..], key, acol, k)
  }

  /** The sum over the rows that carry any key (groupby drops rows whose key is missing). */
  function KeyedTotal<K>(t: Table, key: Row -> Option<K>, acol: nat): int
  {
    if t == [] then 0
    else (if key(t[0]).Some? then Amount(t[0], acol) else 0) + KeyedTotal(t[1..], key, acol)
  }

  function KeyIs<K(==)>(key: Row -> Option<K>, k: K): Row -> bool
  {
    r => key(r) == Some(k)
  }

  function HasKey<K>(key: Row -> Option<K>): Row -> bool
  {
    r => key(r).Some?
  }

  /** A group's value is the total of the rows that the key selects. */
  lemma {:induction false} KeyTotalIsSelectedTotal<K(!new)>(t: Table, key: Row -> Option<K>, acol: nat, k: K)
    ensures KeyTotal(t, key, acol, k) == Total(Where(t, KeyIs(key, k)), acol)
  {
    if t != [] {
      KeyTotalIsSelectedTotal(t[1..], key, acol, k);
      TotalAppend(if KeyIs(key, k)(t[0]) then [t[0]] else [], Where(t[1..], KeyIs(key, k)), acol);
    }
  }

  /** The keyed total is the total of the rows that have a key. */
  lemma {:induction false} KeyedTotalIsSelectedTotal<K(!new)>(t: Table, key: Row -> Option<K>, acol: nat)
    ensures KeyedTotal(t, key, acol) == Total(Where(t, HasKey(key)), acol)
  {
    if t != [] {
      KeyedTotalIsSelectedTotal(t[1..], key, acol);
      TotalAppend(if HasKey(key)(t[0]) then [t[0]] else [], Where(t[1..], HasKey(key)), acol);
    }
  }

  /** When every row has a key, the keyed total is the whole total. */
  lemma {:induction false} KeyedTotalOfKeyedRows<K>(t: Table, key: Row -> Option<K>, acol: nat)
    requires forall x :: x in t ==> key(x).Some?
    ensures KeyedTotal(t, key, acol) == Total(t, acol)
  {
    if t != [] {
      assert t[0] in t;
      KeyedTotalOfKeyedRows(t[1..], key, acol);
    }
  }

  /** `df.groupby(key)[acol].sum()` over the given keys, one entry per key. */
  function GroupSums<K(==)>(keys: seq<K>, t: Table, key: Row -> Option<K>, acol: nat): (g: seq<(K, int)>)
    ensures |g| == |keys|
    ensures forall i :: 0 <= i < |keys| ==> g[i] == (keys[i], KeyTotal(t, key, acol, keys[i]))
  {
    if keys == [] then []
    else [(keys[0], KeyTotal(t, key, acol, keys[0]))] + GroupSums(keys[1..], t, key, acol)
  }

  /** The groups' keys, in order. */
  function Keys<K>(g: seq<(K, int)>): (ks: seq<K>)
    ensures |ks| == |g| && forall i :: 0 <= i < |g| ==> ks[i] == g[i].0
  {
    if g == [] then [] else [g[0].0] + Keys(g[1..])
  }

  function SumValues<K>(g: seq<(K, int)>): int
  {
    if g == [] then 0 else g[0].1 + SumValues(g[1..])
  }

  lemma {:induction false} GroupSumsOfNoRows<K(!new)>(keys: seq<K>, key: Row -> Option<K>, acol: nat)
    ensures SumValues(GroupSums(keys, [], key, acol)) == 0
  {
    if keys != [] {
      GroupSumsOfNoRows(keys[1..], key, acol);
    }
  }

  /** Adding one row in front adds its amount to the one group of its key. */
  lemma {:induction false} GroupSumsStep<K(!new)>(keys: seq<K>, t: Table, key: Row -> Option<K>, acol: nat)
    requires t != [] && NoDuplicates(keys)
    ensures SumValues(GroupSums(keys, t, key, acol)) ==
      SumValues(GroupSums(keys, t[1..], key, acol)) +
      (if key(t[0]).Some? && key(t[0]).value in keys then Amount(t[0], acol) else 0)
  {
    if keys != [] {
      GroupSumsStep(keys[1..], t, key, acol);
      assert key(t[0]) == Some(keys[0]) ==> key(t[0]).value !in keys[1..];
    }
  }

  /** The group sums add up to the total of the keyed rows, provided the keys
      are distinct and every key that occurs is among them. */
  lemma {:induction false} GroupSumsAddUp<K(!new)>(keys: seq<K>, t: Table, key: Row -> Option<K>, acol: nat)
    requires NoDuplicates(keys)
    requires forall x :: x in t && key(x).Some? ==> key(x).value in keys
    ensures SumValues(GroupSums(keys, t, key, acol)) == KeyedTotal(t, key, acol)
  {
    if t == [] {
      GroupSumsOfNoRows(keys, key, acol);
    } else {
      assert t[0] in t;
      GroupSumsAddUp(keys, t[1..], key, acol);
      GroupSumsStep(keys, t, key, acol);
    }
  }

  // Monthly buckets

  /** A calendar month, the key of `pd.Grouper(key=date_col, freq='M')`. */
  datatype Month = Month(year: int, month: int)

  predicate MonthLt(a: Month, b: Month)
  {
    a.year < b.year || (a.year == b.year && a.month < b.month)
  }

  predicate StrictlyAscending(ms: seq<Month>)
  {
    forall i, j :: 0 <= i < j < |ms| ==> MonthLt(ms[i], ms[j])
  }

  function MonthOf(r: Row, dcol: nat): Option<Month>
  {
    match DateOf(r, dcol)
    case Some(d) => Some(Month(d.year, d.month))
    case None => None
  }

  function MonthKey(dcol: nat): Row -> Option<Month>
  {
    r => MonthOf(r, dcol)
  }

  /** Insert a month into an ascending list of distinct months. */
  function InsertMonth(ms: seq<Month>, m: Month): (r: seq<Month>)
    requires StrictlyAscending(ms)
    ensures StrictlyAscending(r)
    ensures forall x :: x in r <==> x in ms || x == m
  {
    if ms == [] then [m]
    else if m == ms[0] then ms
    else if MonthLt(m, ms[0]) then [m] + ms
    else
      var rest := InsertMonth(ms[1..], m);
      assert forall k :: 0 <= k < |rest| ==> rest[k] in ms[1..] || rest[k] == m;
      assert forall k :: 0 < k < |ms| ==> MonthLt(ms[0], ms[k]);
      [ms[0]] + rest
  }

  /** The months that occur in the date column, ascending, each once. */
  function MonthsPresent(t: Table, dcol: nat): (ms: seq<Month>)
    ensures StrictlyAscending(ms)
    ensures forall m :: m in ms <==> exists x :: x in t && MonthOf(x, dcol) == Some(m)
  {
    if t == [] then []
    else
      assert forall x :: x in t <==> x == t[0] || x in t[1..];
      var rest := MonthsPresent(t[1..], dcol);
      match MonthOf(t[0], dcol)
      case None => rest
      case Some(m) => InsertMonth(rest, m)
  }

  lemma AscendingHasNoDuplicates(ms: seq<Month>)
    requires StrictlyAscending(ms)
    ensures NoDuplicates(ms)
  {
    forall i, j | 0 <= i < j < |ms| ensures ms[i] != ms[j] {
      assert MonthLt(ms[i], ms[j]);
    }
  }

  /** The monthly series: for each month with at least one dated row, in
      ascending order, the sum of the amounts of that month's rows. */
  function MonthlySums(t: Table, dcol: nat, acol: nat): (g: seq<(Month, int)>)
    ensures StrictlyAscending(Keys(g))
    ensures forall i :: 0 <= i < |g| ==> g[i].1 == KeyTotal(t, MonthKey(dcol), acol, g[i].0)
  {
    var g := GroupSums(MonthsPresent(t, dcol), t, MonthKey(dcol), acol);
    assert Keys(g) == MonthsPresent(t, dcol);
    g
  }

  /** The buckets are in strictly ascending (year, month) order and are exactly
      the months that occur; each bucket's value is the total of its month's rows. */
  lemma MonthlyBuckets(t: Table, dcol: nat, acol: nat)
    ensures StrictlyAscending(Keys(MonthlySums(t, dcol, acol)))
    ensures forall m :: m in Keys(MonthlySums(t, dcol, acol)) <==>
      exists x :: x in t && MonthOf(x, dcol) == Some(m)
    ensures var g := MonthlySums(t, dcol, acol);
      forall i :: 0 <= i < |g| ==> g[i].1 == Total(Where(t, KeyIs(MonthKey(dcol), g[i].0)), acol)
  {
    var g := MonthlySums(t, dcol, acol);
    assert Keys(g) == MonthsPresent(t, dcol);
    forall i | 0 <= i < |g|
      ensures g[i].1 == Total(Where(t, KeyIs(MonthKey(dcol), g[i].0)), acol)
    {
      KeyTotalIsSelectedTotal(t, MonthKey(dcol), acol, g[i].0);
    }
  }

  /** Each dated row falls in exactly one bucket, the one of its (year, month). */
  lemma MonthlyBucketOfRow(t: Table, dcol: nat, acol: nat, x: Row)
    requires x in t && MonthOf(x, dcol).Some?
    ensures var g := MonthlySums(t, dcol, acol);
      exists i :: 0 <= i < |g| && g[i].0 == MonthOf(x, dcol).value &&
        forall j :: 0 <= j < |g| && g[j].0 == MonthOf(x, dcol).value ==> j == i
  {
    var ms := MonthsPresent(t, dcol);
    var m := MonthOf(x, dcol).value;
    AscendingHasNoDuplicates(ms);
    var g := MonthlySums(t, dcol, acol);
    var ks := Keys(g);
    assert ks == ms;
    var i :| 0 <= i < |ms| && ms[i] == m;
    assert g[i].0 == m;
    forall j | 0 <= j < |g| && g[j].0 == m ensures j == i {
      assert ks[j] == m && ks[i] == m;
    }
  }

  /** The monthly sums add up to the total of the dated rows, and to the
      whole total when every row has a date. */
  lemma MonthlyAddsUp(t: Table, dcol: nat, acol: nat)
    ensures SumValues(MonthlySums(t, dcol, acol)) == Total(Where(t, HasKey(MonthKey(dcol))), acol)
    ensures (forall x :: x in t ==> DateOf(x, dcol).Some?) ==> SumValues(MonthlySums(t, dcol, acol)) == Total(t, acol)
  {
    var ms := MonthsPresent(t, dcol);
    AscendingHasNoDuplicates(ms);
    GroupSumsAddUp(ms, t, MonthKey(dcol), acol);
    KeyedTotalIsSelectedTotal(t, MonthKey(dcol), acol);
    if forall x :: x in t ==> DateOf(x, dcol).Some? {
      KeyedTotalOfKeyedRows(t, MonthKey(dcol), acol);
    }
  }

  // Per-supplier sums

  /** The supplier of a row as a group key; a missing supplier has no group. */
  function SupplierKey(scol: nat): Row -> Option<Cell>
  {
    r => if CellAt(r, scol) == Missing then None else Some(CellAt(r, scol))
  }

  /** `df.groupby(supplier_col)[amount_col].sum()`: one entry per distinct
      non-missing supplier, with the sum of that supplier's amounts. */
  function SupplierSums(t: Table, scol: nat, acol: nat): (g: seq<(Cell, int)>)
    ensures NoDuplicates(Keys(g))
    ensures forall i :: 0 <= i < |g| ==> g[i].1 == KeyTotal(t, SupplierKey(scol), acol, g[i].0)
  {
    var g := GroupSums(DistinctValues(t, scol), t, SupplierKey(scol), acol);
    assert Keys(g) == DistinctValues(t, scol);
    g
  }

  /** Each distinct non-missing supplier appears exactly once: the group keys
      are distinct, and they are exactly the suppliers that occur. */
  lemma SupplierGroupsDistinct(t: Table, scol: nat, acol: nat)
    ensures NoDuplicates(Keys(SupplierSums(t, scol, acol)))
    ensures forall c :: c in Keys(SupplierSums(t, scol, acol)) <==>
      c != Missing && exists x :: x in t && CellAt(x, scol) == c
  {
    var g := SupplierSums(t, scol, acol);
    assert Keys(g) == DistinctValues(t, scol);
  }

  /** The supplier groups are the distinct suppliers, in the order of the
      first row carrying each of them. */
  lemma SupplierKeysInOrder(t: Table, scol: nat, acol: nat)
    ensures Keys(SupplierSums(t, scol, acol)) == DistinctValues(t, scol)
    ensures forall i, j :: 0 <= i < j < |SupplierSums(t, scol, acol)| ==>
      FirstPos(Column(t, scol), SupplierSums(t, scol, acol)[i].0) <
      FirstPos(Column(t, scol), SupplierSums(t, scol, acol)[j].0)
  {
    var g := SupplierSums(t, scol, acol);
    var vs := DistinctValues(t, scol);
    assert Keys(g) == vs;
    DistinctValuesInRowOrder(t, scol);
    forall i, j | 0 <= i < j < |g| ensures FirstPos(Column(t, scol), g[i].0) < FirstPos(Column(t, scol), g[j].0) {
      assert g[i].0 == vs[i] && g[j].0 == vs[j];
    }
  }

  /** Each supplier's value is the total of that supplier's rows. */
  lemma SupplierGroupValues(t: Table, scol: nat, acol: nat)
    ensures var g := SupplierSums(t, scol, acol);
      forall i :: 0 <= i < |g| ==> g[i].1 == Total(Where(t, KeyIs(SupplierKey(scol), g[i].0)), acol)
  {
    var g := SupplierSums(t, scol, acol);
    forall i | 0 <= i < |g| ensures g[i].1 == Total(Where(t, KeyIs(SupplierKey(scol), g[i].0)), acol) {
      KeyTotalIsSelectedTotal(t, SupplierKey(scol), acol, g[i].0);
    }
  }

  /** The supplier sums add up to the total of the rows that have a supplier,
      and to the whole total when no supplier is missing. */
  lemma SupplierSumsAddUp(t: Table, scol: nat, acol: nat)
    ensures SumValues(SupplierSums(t, scol, acol)) == Total(Where(t, HasSupplierMask(scol)), acol)
    ensures (forall x :: x in t ==> CellAt(x, scol) != Missing) ==>
      SumValues(SupplierSums(t, scol, acol)) == Total(t, acol)
  {
    var vs := DistinctValues(t, scol);
    GroupSumsAddUp(vs, t, SupplierKey(scol), acol);
    KeyedTotalIsSelectedTotal(t, SupplierKey(scol), acol);
    WhereAgree(t, HasKey(SupplierKey(scol)), HasSupplierMask(scol));
    if forall x :: x in t ==> CellAt(x, scol) != Missing {
      KeyedTotalOfKeyedRows(t, SupplierKey(scol), acol);
    }
  }
}
