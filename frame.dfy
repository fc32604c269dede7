/** The loaded spreadsheet: an ordered sequence of rows of loosely typed cells,
    and the generic row selection (a boolean mask) that every filter uses. */
module Frame {

  /** A calendar date, as a pandas timestamp truncated to the day. */
  datatype CalDate = CalDate(year: int, month: int, day: int)

  /** Chronological order on dates: by year, then month, then day. */
  predicate DateLe(a: CalDate, b: CalDate)
  {
    a.year < b.year ||
    (a.year == b.year && (a.month < b.month || (a.month == b.month && a.day <= b.day)))
  }

  /** A cell of the spreadsheet: text, a number, a date, or missing (NaN / NaT). */
  datatype Cell = Text(text: string) | Num(value: int) | Date(date: CalDate) | Missing

  type Row = seq<Cell>
  type Table = seq<Row>

  /** The cell of a row in column `col`; a row shorter than that reads as missing. */
  function CellAt(r: Row, col: nat): Cell
  {
    if col < |r| then r[col] else Missing
  }

  /** Every row has one cell per column. */
  predicate Rectangular(width: nat, t: Table)
  {
    forall r :: r in t ==> |r| == width
  }

  /** The cells of column `col`, one per row, in row order (`df[col]`). */
  function Column(t: Table, col: nat): (c: seq<Cell>)
    ensures |c| == |t|
    ensures forall i :: 0 <= i < |t| ==> c[i] == CellAt(t[i], col)
    ensures forall x :: x in c <==> exists r :: r in t && CellAt(r, col) == x
  {
    if t == [] then [] else [CellAt(t[0], col)] + Column(t[1..], col)
  }

  predicate NoDuplicates<T(==)>(s: seq<T>)
  {
    forall i, j :: 0 <= i < j < |s| ==> s[i] != s[j]
  }

  /** The distinct elements of `s` in order of first appearance (`unique()`). */
  function Unique<T(==,!new)>(s: seq<T>): (u: seq<T>)
    ensures forall x :: x in u <==> x in s
    ensures NoDuplicates(u)
  {
    if s == [] then []
    else
      var u := Unique(s[..|s| - 1]);
      assert forall x :: x in s <==> x in s[..|s| - 1] || x == s[|s| - 1];
      if s[|s| - 1] in u then u else u + [s[|s| - 1]]
  }

  /** The position of the first occurrence of `x` in `s`. */
  function FirstPos<T(==)>(s: seq<T>, x: T): (i: nat)
    requires x in s
    ensures i < |s| && s[i] == x
    ensures forall j :: 0 <= j < i ==> s[j] != x
  {
    if s[0] == x then 0 else 1 + FirstPos(s[1..], x)
  }

  /** An element of a prefix first occurs in the whole sequence where it
      first occurs in the prefix. */
  lemma FirstPosPrefix<T(!new)>(s: seq<T>, n: nat, x: T)
    requires n <= |s| && x in s[..n]
    ensures FirstPos(s, x) == FirstPos(s[..n], x)
  {
    assert forall j :: 0 <= j < n ==> s[..n][j] == s[j];
  }

  /** `unique()` lists the distinct elements in the order of their first
      occurrence in the input. */
  lemma {:induction false} UniqueKeepsFirstAppearance<T(!new)>(s: seq<T>)
    ensures forall i, j :: 0 <= i < j < |Unique(s)| ==> FirstPos(s, Unique(s)[i]) < FirstPos(s, Unique(s)[j])
  {
    if s != [] {
      var p, last := s[..|s| - 1], s[|s| - 1];
      var v := Unique(p);
      UniqueKeepsFirstAppearance(p);
      forall x | x in v ensures FirstPos(s, x) == FirstPos(p, x) < |p| {
        FirstPosPrefix(s, |s| - 1, x);
      }
      var u := Unique(s);
      if last !in v {
        assert last !in p;
        assert FirstPos(s, last) == |s| - 1 by {
          assert forall j :: 0 <= j < |s| - 1 ==> s[j] == p[j];
        }
      }
      assert u == if last in v then v else v + [last];
      forall i, j | 0 <= i < j < |u| ensures FirstPos(s, u[i]) < FirstPos(s, u[j]) {
        assert u[i] == v[i] && v[i] in v;
        assert FirstPos(s, v[i]) == FirstPos(p, v[i]) < |p|;
        if j < |v| {
          assert u[j] == v[j] && v[j] in v;
          assert FirstPos(s, v[j]) == FirstPos(p, v[j]);
          assert FirstPos(p, v[i]) < FirstPos(p, v[j]);
        } else {
          assert u[j] == last && last !in v;
          assert FirstPos(s, last) == |s| - 1;
        }
      }
    }
  }

  /** The elements of `s` that `keep` accepts, in their original order
      (pandas boolean indexing `df[mask]`). */
  function Where<T(==,!new)>(s: seq<T>, keep: T -> bool): (r: seq<T>)
    ensures |r| <= |s|
    ensures forall x :: x in r <==> x in s && keep(x)
  {
    if s == [] then [] else (if keep(s[0]) then [s[0]] else []) + Where(s[1..], keep)
  }

  /** Selection keeps every accepted element as often as it occurs, and no
      other element. */
  lemma {:induction false} WhereCounts<T(!new)>(s: seq<T>, keep: T -> bool)
    ensures forall x :: multiset(Where(s, keep))[x] == if keep(x) then multiset(s)[x] else 0
  {
    if s != [] {
      WhereCounts(s[1..], keep);
      assert s == [s[0]] + s[1..];
      assert Where(s, keep) == (if keep(s[0]) then [s[0]] else []) + Where(s[1..], keep);
    }
  }

  /** The distinct non-missing values of a column, in order of first
      appearance (`df[col].dropna().unique()`). */
  function DistinctValues(t: Table, col: nat): (vs: seq<Cell>)
    ensures NoDuplicates(vs)
    ensures Missing !in vs
    ensures forall c :: c in vs <==> c != Missing && exists r :: r in t && CellAt(r, col) == c
  {
    Unique(Where(Column(t, col), NotMissing))
  }

  /** `dropna().unique()` lists the values in the order of the first row
      carrying each of them. */
  lemma DistinctValuesInRowOrder(t: Table, col: nat)
    ensures forall i, j :: 0 <= i < j < |DistinctValues(t, col)| ==>
      FirstPos(Column(t, col), DistinctValues(t, col)[i]) < FirstPos(Column(t, col), DistinctValues(t, col)[j])
  {
    var c := Column(t, col);
    var w := Where(c, NotMissing);
    var vs := DistinctValues(t, col);
    assert vs == Unique(w);
    UniqueKeepsFirstAppearance(w);
    forall i, j | 0 <= i < j < |vs| ensures FirstPos(c, vs[i]) < FirstPos(c, vs[j]) {
      assert vs[i] in w && vs[j] in w;
      WhereKeepsFirstOrder(c, NotMissing, vs[i], vs[j]);
    }
  }

  predicate NotMissing(c: Cell)
  {
    c != Missing
  }

  /** `a` is `b` with some elements dropped: `idx` lists, in strictly
      increasing order, the positions of `b` that `a` keeps. */
  ghost predicate Embeds<T>(idx: seq<nat>, a: seq<T>, b: seq<T>)
  {
    && |idx| == |a|
    && (forall i :: 0 <= i < |idx| ==> idx[i] < |b| && a[i] == b[idx[i]])
    && (forall i, j :: 0 <= i < j < |idx| ==> idx[i] < idx[j])
  }

  ghost predicate IsSubsequence<T>(a: seq<T>, b: seq<T>)
  {
    exists idx :: Embeds(idx, a, b)
  }

  /** The positions of `s` that `keep` accepts, in increasing order. */
  function KeptPositions<T>(s: seq<T>, keep: T -> bool): seq<nat>
  {
    if s == [] then []
    else
      var rest := KeptPositions(s[1..], keep);
      (if keep(s[0]) then [0] else []) + Shift(rest)
  }

  /** Positions one further on: those of `s[1..]` as positions of `s`. */
  function Shift(idx: seq<nat>): (r: seq<nat>)
    ensures |r| == |idx| && forall k :: 0 <= k < |idx| ==> r[k] == idx[k] + 1
  {
    seq(|idx|, k requires 0 <= k < |idx| => idx[k] + 1)
  }

  lemma ShiftEmbeds<T>(idx: seq<nat>, a: seq<T>, s: seq<T>)
    requires s != [] && Embeds(idx, a, s[1..])
    ensures Embeds(Shift(idx), a, s)
  {
    forall k | 0 <= k < |idx| ensures Shift(idx)[k] < |s| && a[k] == s[Shift(idx)[k]] {
      assert s[1..][idx[k]] == s[idx[k] + 1];
    }
  }

  lemma ConsEmbeds<T>(idx: seq<nat>, a: seq<T>, s: seq<T>)
    requires s != [] && Embeds(idx, a, s)
    requires forall k :: 0 <= k < |idx| ==> idx[k] > 0
    ensures Embeds([0] + idx, [s[0]] + a, s)
  {
    var idx', a' := [0] + idx, [s[0]] + a;
    forall i, j | 0 <= i < j < |idx'| ensures idx'[i] < idx'[j] {
      assert idx'[j] == idx[j - 1];
      if i > 0 {
        assert idx'[i] == idx[i - 1];
      }
    }
    forall i | 0 < i < |idx'| ensures idx'[i] < |s| && a'[i] == s[idx'[i]] {
      assert idx'[i] == idx[i - 1] && a'[i] == a[i - 1];
    }
  }

  /** Selection keeps the selected elements in their original order and
      changes none of them: the positions it keeps embed the result in `s`. */
  lemma {:induction false} WhereEmbeds<T(!new)>(s: seq<T>, keep: T -> bool)
    ensures Embeds(KeptPositions(s, keep), Where(s, keep), s)
  {
    if s != [] {
      var rest, w := KeptPositions(s[1..], keep), Where(s[1..], keep);
      WhereEmbeds(s[1..], keep);
      ShiftEmbeds(rest, w, s);
      if keep(s[0]) {
        assert KeptPositions(s, keep) == [0] + Shift(rest);
        assert Where(s, keep) == [s[0]] + w;
        ConsEmbeds(Shift(rest), w, s);
      } else {
        assert KeptPositions(s, keep) == [] + Shift(rest) == Shift(rest);
        assert Where(s, keep) == w;
      }
    }
  }

  /** The kept positions are exactly the positions whose element the mask
      accepts, so together with `WhereEmbeds` the selection keeps every
      accepted element, duplicates included. */
  lemma {:induction false} KeptPositionsExact<T(!new)>(s: seq<T>, keep: T -> bool)
    ensures forall i: nat :: i in KeptPositions(s, keep) <==> i < |s| && keep(s[i])
  {
    if s != [] {
      KeptPositionsExact(s[1..], keep);
      var rest := KeptPositions(s[1..], keep);
      var shifted := Shift(rest);
      assert KeptPositions(s, keep) == (if keep(s[0]) then [0] else []) + shifted;
      forall i: nat ensures i in shifted <==> 0 < i < |s| && keep(s[i]) {
        if i in shifted {
          var k :| 0 <= k < |rest| && shifted[k] == i;
          assert s[1..][i - 1] == s[i];
        }
        if 0 < i < |s| && keep(s[i]) {
          assert s[1..][i - 1] == s[i];
          assert (i - 1) in rest;
          var k :| 0 <= k < |rest| && rest[k] == i - 1;
          assert shifted[k] == i;
        }
      }
    }
  }

  lemma WhereIsSubsequence<T(!new)>(s: seq<T>, keep: T -> bool)
    ensures IsSubsequence(Where(s, keep), s)
  {
    WhereEmbeds(s, keep);
  }

  /** A selection keeps the relative order of the first occurrences of the
      elements it accepts. */
  lemma {:induction false} WhereKeepsFirstOrder<T(!new)>(s: seq<T>, keep: T -> bool, a: T, b: T)
    requires a in s && b in s && keep(a) && keep(b)
    ensures a in Where(s, keep) && b in Where(s, keep)
    ensures FirstPos(Where(s, keep), a) < FirstPos(Where(s, keep), b) <==> FirstPos(s, a) < FirstPos(s, b)
  {
    var w := Where(s, keep);
    if s[0] == a || s[0] == b {
      assert w == [s[0]] + Where(s[1..], keep);
      assert w[0] == s[0];
      assert a in w && b in w;
    } else {
      assert a in s[1..] && b in s[1..];
      WhereKeepsFirstOrder(s[1..], keep, a, b);
      var r := Where(s[1..], keep);
      if keep(s[0]) {
        assert w == [s[0]] + r;
        assert FirstPos(w, a) == 1 + FirstPos(r, a) && FirstPos(w, b) == 1 + FirstPos(r, b);
      } else {
        assert w == r;
      }
      assert FirstPos(s, a) == 1 + FirstPos(s[1..], a) && FirstPos(s, b) == 1 + FirstPos(s[1..], b);
    }
  }

  /** A selection that accepts every element changes nothing. */
  lemma {:induction false} WhereAll<T(!new)>(s: seq<T>, keep: T -> bool)
    requires forall x :: x in s ==> keep(x)
    ensures Where(s, keep) == s
  {
    if s != [] {
      WhereAll(s[1..], keep);
    }
  }

  /** A selection that accepts no element yields the empty sequence. */
  lemma WhereNone<T(!new)>(s: seq<T>, keep: T -> bool)
    requires forall x :: x in s ==> !keep(x)
    ensures Where(s, keep) == []
  {
  }

  /** Two masks that agree on every element select the same elements. */
  lemma {:induction false} WhereAgree<T(!new)>(s: seq<T>, p: T -> bool, q: T -> bool)
    requires forall x :: x in s ==> p(x) == q(x)
    ensures Where(s, p) == Where(s, q)
  {
    if s != [] {
      WhereAgree(s[1..], p, q);
    }
  }

  function Both<T>(p: T -> bool, q: T -> bool): T -> bool
  {
    x => p(x) && q(x)
  }

  /** Successive selections compose by logical AND. */
  lemma {:induction false} WhereThenWhere<T(!new)>(s: seq<T>, p: T -> bool, q: T -> bool)
    ensures Where(Where(s, p), q) == Where(s, Both(p, q))
  {
    if s != [] {
      WhereThenWhere(s[1..], p, q);
      assert Both(p, q)(s[0]) == (p(s[0]) && q(s[0]));
      if p(s[0]) {
        assert Where(s, p) == [s[0]] + Where(s[1..], p);
        assert Where(Where(s, p), q) == (if q(s[0]) then [s[0]] else []) + Where(Where(s[1..], p), q);
      } else {
        assert Where(s, p) == [] + Where(s[1..], p) == Where(s[1..], p);
        assert Where(s, Both(p, q)) == [] + Where(s[1..], Both(p, q));
      }
    }
  }

  /** Reapplying a selection changes nothing. */
  lemma WhereIdempotent<T(!new)>(s: seq<T>, keep: T -> bool)
    ensures Where(Where(s, keep), keep) == Where(s, keep)
  {
    WhereAll(Where(s, keep), keep);
  }
}
