/** Date coercion of the date column, the inclusive date-range filter and the
    supplier-membership filter, composed as the scripts run them. */
module Filtering {
  import opened Wrappers
  import opened Frame
  import opened Inference

  /** `pd.to_datetime(..., errors='coerce')` on one cell. A timestamp stays as it
      is and a missing value stays missing; any other cell goes through the
      date parser, and a value it cannot parse becomes missing. The parser is a
      parameter: one run fixes it, including any format inferred for the column. */
  function CoerceCell(c: Cell, parse: Cell -> Option<CalDate>): (r: Cell)
    ensures r.Date? || r.Missing?
    ensures c.Date? || c.Missing? ==> r == c
    ensures !(c.Date? || c.Missing?) ==> (r.Missing? <==> parse(c).None?)
    ensures !(c.Date? || c.Missing?) && parse(c).Some? ==> r == Date(parse(c).value)
  {
    match c
    case Date(_) => c
    case Missing => Missing
    case _ => if parse(c).Some? then Date(parse(c).value) else Missing
  }

  /** `df[col] = pd.to_datetime(df[col], errors='coerce')`: the column is
      overwritten with the coerced cells and every other cell is left alone. */
  function CoerceColumn(t: Table, col: nat, parse: Cell -> Option<CalDate>): (r: Table)
    ensures |r| == |t|
    ensures forall i :: 0 <= i < |t| ==> |r[i]| == |t[i]|
    ensures forall i, j :: 0 <= i < |t| && 0 <= j < |t[i]| && j != col ==> r[i][j] == t[i][j]
    ensures forall i :: 0 <= i < |t| ==> CellAt(r[i], col).Date? || CellAt(r[i], col).Missing?
    ensures forall i :: 0 <= i < |t| && col < |t[i]| ==> r[i][col] == CoerceCell(t[i][col], parse)
  {
    seq(|t|, i requires 0 <= i < |t| =>
      if col < |t[i]| then t[i][col := CoerceCell(t[i][col], parse)] else t[i])
  }

  /** Coercion never changes the number of columns of a row. */
  lemma CoercePreservesWidth(t: Table, col: nat, parse: Cell -> Option<CalDate>, width: nat)
    requires Rectangular(width, t)
    ensures Rectangular(width, CoerceColumn(t, col, parse))
  {
    var r := CoerceColumn(t, col, parse);
    forall x | x in r ensures |x| == width {
      var i :| 0 <= i < |r| && r[i] == x;
      assert t[i] in t;
    }
  }

  /** Coercing an already coerced column changes nothing. */
  lemma {:induction false} CoerceIdempotent(t: Table, col: nat, parse: Cell -> Option<CalDate>)
    ensures CoerceColumn(CoerceColumn(t, col, parse), col, parse) == CoerceColumn(t, col, parse)
  {
    var once := CoerceColumn(t, col, parse);
    var twice := CoerceColumn(once, col, parse);
    forall i | 0 <= i < |t| ensures twice[i] == once[i] {
      if col < |once[i]| {
        assert twice[i][col] == once[i][col];
        assert once[i][col := once[i][col]] == once[i];
      }
    }
  }

  /** The parsed date of a row, None when the date cell is missing. */
  function DateOf(r: Row, col: nat): Option<CalDate>
  {
    match CellAt(r, col)
    case Date(d) => Some(d)
    case _ => None
  }

  /** `(df[col] >= start) & (df[col] <= end)` for one row. A range of None stands
      for NaT bounds: every comparison with NaT is False. */
  predicate InRange(r: Row, col: nat, range: Option<(CalDate, CalDate)>)
    ensures range.None? ==> !InRange(r, col, range)
    ensures DateOf(r, col).None? ==> !InRange(r, col, range)
    ensures (range.Some? && DateOf(r, col).Some? && DateLe(range.value.0, range.value.1) &&
             (DateOf(r, col).value == range.value.0 || DateOf(r, col).value == range.value.1)) ==>
            InRange(r, col, range)
  {
    range.Some? && DateOf(r, col).Some? &&
    DateLe(range.value.0, DateOf(r, col).value) && DateLe(DateOf(r, col).value, range.value.1)
  }

  function InRangeMask(col: nat, range: Option<(CalDate, CalDate)>): Row -> bool
  {
    r => InRange(r, col, range)
  }

  /** The inclusive date-range filter: a row survives exactly when its date is
      present and lies between the two bounds; a missing date never survives. */
  function DateFilter(t: Table, col: nat, range: Option<(CalDate, CalDate)>): (r: Table)
    ensures forall x :: x in r <==> x in t && InRange(x, col, range)
    ensures forall x :: x in r ==> DateOf(x, col).Some?
    ensures forall x :: multiset(r)[x] == if InRange(x, col, range) then multiset(t)[x] else 0
    ensures IsSubsequence(r, t)
  {
    WhereIsSubsequence(t, InRangeMask(col, range));
    WhereCounts(t, InRangeMask(col, range));
    Where(t, InRangeMask(col, range))
  }

  function MinDate(a: CalDate, b: CalDate): CalDate
  {
    if DateLe(a, b) then a else b
  }

  function MaxDate(a: CalDate, b: CalDate): CalDate
  {
    if DateLe(a, b) then b else a
  }

  /** `(df[col].min(), df[col].max())` over the parsed dates, skipping missing
      ones; None when no row has a date (both would be NaT). */
  function DateBounds(t: Table, col: nat): (b: Option<(CalDate, CalDate)>)
    ensures b.None? <==> forall x :: x in t ==> DateOf(x, col).None?
    ensures b.Some? ==> forall x :: x in t && DateOf(x, col).Some? ==>
      DateLe(b.value.0, DateOf(x, col).value) && DateLe(DateOf(x, col).value, b.value.1)
    ensures b.Some? ==> exists x :: x in t && DateOf(x, col) == Some(b.value.0)
    ensures b.Some? ==> exists x :: x in t && DateOf(x, col) == Some(b.value.1)
  {
    if t == [] then None
    else
      assert forall x :: x in t <==> x == t[0] || x in t[1..];
      var rest := DateBounds(t[1..], col);
      match DateOf(t[0], col)
      case None => rest
      case Some(d) =>
        match rest
        case None => Some((d, d))
        case Some(b) => Some((MinDate(d, b.0), MaxDate(d, b.1)))
  }

  /** With the default range [min, max], exactly the rows that have a date survive. */
  lemma DefaultRangeKeepsDatedRows(t: Table, col: nat)
    ensures DateBounds(t, col).Some? ==>
      DateFilter(t, col, DateBounds(t, col)) == Where(t, HasDateMask(col))
    ensures DateBounds(t, col).None? ==> DateFilter(t, col, DateBounds(t, col)) == []
  {
    var b := DateBounds(t, col);
    if b.Some? {
      WhereAgree(t, InRangeMask(col, b), HasDateMask(col));
    } else {
      WhereNone(t, InRangeMask(col, b));
    }
  }

  function HasDateMask(col: nat): Row -> bool
  {
    r => DateOf(r, col).Some?
  }

  /** `df[col].isin(selected)` for one row. */
  function InSelectionMask(col: nat, selected: set<Cell>): Row -> bool
  {
    r => CellAt(r, col) in selected
  }

  /** The supplier-membership filter: a row survives exactly when its supplier
      is one of the selected values. */
  function SupplierFilter(t: Table, col: nat, selected: set<Cell>): (r: Table)
    ensures forall x :: x in r <==> x in t && CellAt(x, col) in selected
    ensures forall x :: multiset(r)[x] == if CellAt(x, col) in selected then multiset(t)[x] else 0
    ensures IsSubsequence(r, t)
  {
    WhereIsSubsequence(t, InSelectionMask(col, selected));
    WhereCounts(t, InSelectionMask(col, selected));
    Where(t, InSelectionMask(col, selected))
  }

  /** The options of the supplier multiselect: the distinct non-missing
      suppliers of the rows given to it. */
  function SupplierOptions(t: Table, col: nat): (opts: set<Cell>)
    ensures Missing !in opts
    ensures forall c :: c in opts <==> c != Missing && exists x :: x in t && CellAt(x, col) == c
  {
    set c | c in DistinctValues(t, col)
  }

  function HasSupplierMask(col: nat): Row -> bool
  {
    r => CellAt(r, col) != Missing
  }

  /** With the default selection (every option), exactly the rows whose
      supplier is missing are removed. */
  lemma DefaultSelectionDropsOnlyMissing(t: Table, col: nat)
    ensures SupplierFilter(t, col, SupplierOptions(t, col)) == Where(t, HasSupplierMask(col))
  {
    WhereAgree(t, InSelectionMask(col, SupplierOptions(t, col)), HasSupplierMask(col));
  }

  /** What the user chose in the two widgets; None keeps the widget's default. */
  datatype FilterSpec = FilterSpec(range: Option<(CalDate, CalDate)>, suppliers: Option<set<Cell>>)

  /** The range the date filter compares against. */
  function EffectiveRange(t: Table, col: nat, chosen: Option<(CalDate, CalDate)>): (range: Option<(CalDate, CalDate)>)
    ensures chosen.Some? ==> range == chosen
    ensures chosen.None? ==> forall x :: x in t && DateOf(x, col).Some? ==> InRange(x, col, range)
    ensures chosen.None? ==> (range.None? <==> forall x :: x in t ==> DateOf(x, col).None?)
  {
    if chosen.Some? then chosen else DateBounds(t, col)
  }

  /** The values the supplier filter accepts: the widget offers only the
      options, and preselects all of them. */
  function EffectiveSelection(t: Table, col: nat, chosen: Option<set<Cell>>): (sel: set<Cell>)
    ensures sel <= SupplierOptions(t, col)
    ensures chosen.None? ==> sel == SupplierOptions(t, col)
    ensures chosen.Some? ==> sel <= chosen.value && chosen.value * SupplierOptions(t, col) <= sel
  {
    if chosen.Some? then chosen.value * SupplierOptions(t, col) else SupplierOptions(t, col)
  }

  /** The table as it stands after the in-place coercion of the date column. */
  function Coerced(t: Table, roles: Roles, parse: Cell -> Option<CalDate>): Table
  {
    if roles.date.Some? then CoerceColumn(t, roles.date.value, parse) else t
  }

  /** The first stage (`if date_col:`): coerce, then keep the rows in range. */
  function DateStage(t: Table, roles: Roles, parse: Cell -> Option<CalDate>, spec: FilterSpec): (r: Table)
    ensures |r| <= |t|
    ensures roles.date.None? ==> r == t
    ensures roles.date.Some? ==> forall x :: x in r ==> DateOf(x, roles.date.value).Some?
  {
    match roles.date
    case None => t
    case Some(dc) =>
      var c := CoerceColumn(t, dc, parse);
      DateFilter(c, dc, EffectiveRange(c, dc, spec.range))
  }

  /** The second stage (`if supplier_col:`), on the rows the first one kept. */
  function SupplierStage(t: Table, roles: Roles, spec: FilterSpec): (r: Table)
    ensures |r| <= |t|
    ensures roles.supplier.None? ==> r == t
    ensures roles.supplier.Some? ==> forall x :: x in r ==> x in t && CellAt(x, roles.supplier.value) != Missing
  {
    match roles.supplier
    case None => t
    case Some(sc) => SupplierFilter(t, sc, EffectiveSelection(t, sc, spec.suppliers))
  }

  /** The filtered table that every KPI, chart, preview and export uses. */
  function Filtered(t: Table, roles: Roles, parse: Cell -> Option<CalDate>, spec: FilterSpec): (r: Table)
    ensures |r| <= |t|
    ensures roles.date.None? && roles.supplier.None? ==> r == t
    ensures roles.date.Some? ==> forall x :: x in r ==> DateOf(x, roles.date.value).Some?
    ensures roles.supplier.Some? ==> forall x :: x in r ==> CellAt(x, roles.supplier.value) != Missing
  {
    SupplierStage(DateStage(t, roles, parse, spec), roles, spec)
  }

  /** A table whose date column is already coerced is left unchanged by coercion. */
  lemma CoerceFixesCoerced(t: Table, col: nat, parse: Cell -> Option<CalDate>)
    requires forall x :: x in t ==> CellAt(x, col).Date? || CellAt(x, col).Missing?
    ensures CoerceColumn(t, col, parse) == t
  {
    var r := CoerceColumn(t, col, parse);
    forall i | 0 <= i < |t| ensures r[i] == t[i] {
      assert t[i] in t;
      if col < |t[i]| {
        assert t[i][col := t[i][col]] == t[i];
      }
    }
  }

  /** Every row of the coerced table has a coerced date cell. */
  lemma CoercedRowsHaveCoercedDates(t: Table, col: nat, parse: Cell -> Option<CalDate>)
    ensures forall x :: x in CoerceColumn(t, col, parse) ==> CellAt(x, col).Date? || CellAt(x, col).Missing?
  {
    var c := CoerceColumn(t, col, parse);
    forall x | x in c ensures CellAt(x, col).Date? || CellAt(x, col).Missing? {
      var i :| 0 <= i < |c| && c[i] == x;
    }
  }

  /** The row mask of the date stage (every row passes without a date column). */
  function DateMask(t: Table, roles: Roles, parse: Cell -> Option<CalDate>, spec: FilterSpec): Row -> bool
  {
    if roles.date.Some?
    then InRangeMask(roles.date.value, EffectiveRange(Coerced(t, roles, parse), roles.date.value, spec.range))
    else (r: Row) => true
  }

  /** The row mask of the supplier stage, on the rows `a` the date stage kept. */
  function SupplierMask(a: Table, roles: Roles, spec: FilterSpec): Row -> bool
  {
    if roles.supplier.Some?
    then InSelectionMask(roles.supplier.value, EffectiveSelection(a, roles.supplier.value, spec.suppliers))
    else (r: Row) => true
  }

  lemma DateStageIsWhere(t: Table, roles: Roles, parse: Cell -> Option<CalDate>, spec: FilterSpec)
    ensures DateStage(t, roles, parse, spec) == Where(Coerced(t, roles, parse), DateMask(t, roles, parse, spec))
  {
    if roles.date.None? {
      WhereAll(t, DateMask(t, roles, parse, spec));
    }
  }

  lemma SupplierStageIsWhere(a: Table, roles: Roles, spec: FilterSpec)
    ensures SupplierStage(a, roles, spec) == Where(a, SupplierMask(a, roles, spec))
  {
    if roles.supplier.None? {
      WhereAll(a, SupplierMask(a, roles, spec));
    }
  }

  /** The filtered table is the coerced table with some rows dropped: order,
      row contents and all columns are kept, and the row count never grows. */
  lemma FilteredIsSubsequence(t: Table, roles: Roles, parse: Cell -> Option<CalDate>, spec: FilterSpec)
    ensures IsSubsequence(Filtered(t, roles, parse, spec), Coerced(t, roles, parse))
    ensures |Filtered(t, roles, parse, spec)| <= |t|
  {
    var c := Coerced(t, roles, parse);
    var a := DateStage(t, roles, parse, spec);
    var keepDate, keepSupplier := DateMask(t, roles, parse, spec), SupplierMask(a, roles, spec);
    DateStageIsWhere(t, roles, parse, spec);
    SupplierStageIsWhere(a, roles, spec);
    assert Filtered(t, roles, parse, spec) == Where(Where(c, keepDate), keepSupplier);
    WhereThenWhere(c, keepDate, keepSupplier);
    WhereIsSubsequence(c, Both(keepDate, keepSupplier));
  }

  /** After the date stage every row has a date inside the effective range. */
  lemma DateStageInRange(t: Table, roles: Roles, parse: Cell -> Option<CalDate>, spec: FilterSpec)
    requires roles.date.Some?
    ensures var dc := roles.date.value; var c := CoerceColumn(t, dc, parse);
      forall x :: x in DateStage(t, roles, parse, spec) ==>
        x in c && InRange(x, dc, EffectiveRange(c, dc, spec.range))
  {
  }

  /** After both stages every row passed the date filter (when a date column was
      found) and has a selected, non-missing supplier (when a supplier column was
      found). */
  lemma FilteredRowsPassEveryActiveFilter(t: Table, roles: Roles, parse: Cell -> Option<CalDate>, spec: FilterSpec)
    ensures roles.date.Some? ==>
      var dc := roles.date.value; var c := CoerceColumn(t, dc, parse);
      forall x :: x in Filtered(t, roles, parse, spec) ==> InRange(x, dc, EffectiveRange(c, dc, spec.range))
    ensures roles.supplier.Some? ==>
      var sc := roles.supplier.value; var a := DateStage(t, roles, parse, spec);
      forall x :: x in Filtered(t, roles, parse, spec) ==>
        CellAt(x, sc) in EffectiveSelection(a, sc, spec.suppliers) && CellAt(x, sc) != Missing
  {
  }

  /** Every supplier the multiselect offers occurs in a row that passed the date filter. */
  lemma OfferedSuppliersPassedDateFilter(t: Table, roles: Roles, parse: Cell -> Option<CalDate>, spec: FilterSpec, s: Cell)
    requires roles.supplier.Some?
    requires s in SupplierOptions(DateStage(t, roles, parse, spec), roles.supplier.value)
    ensures s != Missing
    ensures exists x :: (x in DateStage(t, roles, parse, spec) && CellAt(x, roles.supplier.value) == s &&
                         (roles.date.Some? ==> DateOf(x, roles.date.value).Some?))
  {
  }

  /** Without a chosen range, the date stage keeps exactly the rows whose date parsed. */
  lemma DefaultDateStage(t: Table, roles: Roles, parse: Cell -> Option<CalDate>, spec: FilterSpec)
    requires roles.date.Some? && spec.range.None?
    ensures DateStage(t, roles, parse, spec) ==
      Where(CoerceColumn(t, roles.date.value, parse), HasDateMask(roles.date.value))
  {
    var dc := roles.date.value;
    var c := CoerceColumn(t, dc, parse);
    DefaultRangeKeepsDatedRows(c, dc);
    if DateBounds(c, dc).None? {
      WhereNone(c, HasDateMask(dc));
    }
  }

  /** Without a chosen selection, the supplier stage removes exactly the rows
      whose supplier is missing. */
  lemma DefaultSupplierStage(t: Table, roles: Roles, spec: FilterSpec)
    requires roles.supplier.Some? && spec.suppliers.None?
    ensures SupplierStage(t, roles, spec) == Where(t, HasSupplierMask(roles.supplier.value))
  {
    DefaultSelectionDropsOnlyMissing(t, roles.supplier.value);
  }

  /** Reapplying the same widget choices to the filtered table changes nothing,
      also when the choices are the widget defaults, which are then recomputed
      from the filtered table. */
  lemma FilteredIdempotent(t: Table, roles: Roles, parse: Cell -> Option<CalDate>, spec: FilterSpec)
    ensures Filtered(Filtered(t, roles, parse, spec), roles, parse, spec) == Filtered(t, roles, parse, spec)
  {
    var a := DateStage(t, roles, parse, spec);
    var b := Filtered(t, roles, parse, spec);
    FilteredRowsPassEveryActiveFilter(t, roles, parse, spec);
    assert forall x :: x in b ==> x in a;
    if roles.date.Some? {
      var dc := roles.date.value;
      var c := CoerceColumn(t, dc, parse);
      CoercedRowsHaveCoercedDates(t, dc, parse);
      CoerceFixesCoerced(b, dc, parse);
      var range := EffectiveRange(b, dc, spec.range);
      forall x | x in b ensures InRange(x, dc, range) {
        if spec.range.None? {
          assert DateBounds(b, dc).Some?;
        }
      }
      WhereAll(b, InRangeMask(dc, range));
    }
    assert DateStage(b, roles, parse, spec) == b;
    if roles.supplier.Some? {
      var sc := roles.supplier.value;
      var sel := EffectiveSelection(b, sc, spec.suppliers);
      forall x | x in b ensures CellAt(x, sc) in sel {
        assert CellAt(x, sc) in SupplierOptions(b, sc);
      }
      WhereAll(b, InSelectionMask(sc, sel));
    }
  }
}
