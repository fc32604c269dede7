/** One run of a dashboard page after a file is uploaded: role inference, the
    two filters, then the KPIs and the two charts' data. The three pages run
    the same steps; only their presentation differs. */
module Dashboard {
  import opened Wrappers
  import opened Frame
  import opened Inference
  import opened Filtering
  import opened Aggregation

  /** What a page shows. An absent value is one the page does not display
      because its column role was not found. */
  datatype Report = Report(
    table: Table,                          // filtered rows: preview and export
    rowCount: nat,                         // "Numero righe" / "Total Rows"
    total: Option<int>,                    // sum of the amount column
    mean: Option<Average>,                 // mean of the amount column
    monthly: Option<seq<(Month, int)>>,    // monthly line chart
    bySupplier: Option<seq<(Cell, int)>>)  // supplier pie chart

  /** Why a run stops, with what the page had displayed by then. */
  datatype RunError =
      /** `df[amount_col].sum()` (or its `:,.2f` format) fails: a filtered
          amount cell is text or a date, or the amount column is the date
          column, which pandas refuses to sum as a datetime column. */
    | AmountNotNumeric(rowCount: nat)
      /** `df.groupby(c)[c].sum().reset_index()` fails when the supplier column
          is the amount column: the sums would be inserted under the name of
          the group column, which is already there. */
    | SupplierIsAmount(rowCount: nat, total: int, mean: Average, monthly: Option<seq<(Month, int)>>)

  function ErrorRowCount(e: RunError): nat
  {
    match e
    case AmountNotNumeric(n) => n
    case SupplierIsAmount(n, _, _, _) => n
  }

  /** The whole run as a value: what the page shows for this table, these
      column names, this date parser and these widget choices. */
  function Evaluate(columns: seq<string>, t: Table, parse: Cell -> Option<CalDate>, spec: FilterSpec): (out: Result<Report, RunError>)
    ensures var roles := Infer(columns); var f := Filtered(t, roles, parse, spec);
      out.Failure? <==>
        (roles.amount.Some? &&
         (roles.date == roles.amount || !Numeric(f, roles.amount.value) || roles.supplier == roles.amount))
    ensures var roles := Infer(columns); var f := Filtered(t, roles, parse, spec);
      out.Failure? && out.error.AmountNotNumeric? <==>
        roles.amount.Some? && (roles.date == roles.amount || !Numeric(f, roles.amount.value))
    ensures out.Failure? ==> ErrorRowCount(out.error) == |Filtered(t, Infer(columns), parse, spec)| <= |t|
    ensures var roles := Infer(columns); var f := Filtered(t, roles, parse, spec);
      out.Failure? && out.error.SupplierIsAmount? ==>
        out.error.total == Total(f, roles.amount.value) && out.error.mean == Mean(f, roles.amount.value) &&
        out.error.monthly == (if roles.date.Some? then Some(MonthlySums(f, roles.date.value, roles.amount.value)) else None)
    ensures out.Success? ==> out.value.table == Filtered(t, Infer(columns), parse, spec)
    ensures out.Success? ==> out.value.rowCount == |out.value.table| <= |t|
    ensures out.Success? ==> (out.value.total.Some? <==> Infer(columns).amount.Some?)
    ensures out.Success? ==> (out.value.mean.Some? <==> Infer(columns).amount.Some?)
    ensures out.Success? ==>
      (out.value.monthly.Some? <==> Infer(columns).date.Some? && Infer(columns).amount.Some?)
    ensures out.Success? ==>
      (out.value.bySupplier.Some? <==> Infer(columns).supplier.Some? && Infer(columns).amount.Some?)
    ensures var roles := Infer(columns); var f := Filtered(t, roles, parse, spec);
      out.Success? && roles.amount.Some? ==>
        out.value.total == Some(Total(f, roles.amount.value)) && out.value.mean == Some(Mean(f, roles.amount.value))
    ensures var roles := Infer(columns); var f := Filtered(t, roles, parse, spec);
      out.Success? && out.value.monthly.Some? ==>
        out.value.monthly.value == MonthlySums(f, roles.date.value, roles.amount.value)
    ensures var roles := Infer(columns); var f := Filtered(t, roles, parse, spec);
      out.Success? && out.value.bySupplier.Some? ==>
        out.value.bySupplier.value == SupplierSums(f, roles.supplier.value, roles.amount.value)
  {
    var roles := Infer(columns);
    var f := Filtered(t, roles, parse, spec);
    match roles.amount
    case None => Success(Report(f, |f|, None, None, None, None))
    case Some(ac) =>
      if roles.date == Some(ac) || !Numeric(f, ac) then Failure(AmountNotNumeric(|f|))
      else
        var monthly := if roles.date.Some? then Some(MonthlySums(f, roles.date.value, ac)) else None;
        if roles.supplier == Some(ac) then Failure(SupplierIsAmount(|f|, Total(f, ac), Mean(f, ac), monthly))
        else
          Success(Report(f, |f|, Some(Total(f, ac)), Some(Mean(f, ac)), monthly,
            if roles.supplier.Some? then Some(SupplierSums(f, roles.supplier.value, ac)) else None))
  }

  /** The monthly buckets add up to the total KPI: after the date filter every
      row has a date, so every amount lands in a bucket. */
  lemma MonthlyMatchesTotal(columns: seq<string>, t: Table, parse: Cell -> Option<CalDate>, spec: FilterSpec)
    requires Evaluate(columns, t, parse, spec).Success?
    requires Evaluate(columns, t, parse, spec).value.monthly.Some?
    ensures var r := Evaluate(columns, t, parse, spec).value;
      r.total.Some? && SumValues(r.monthly.value) == r.total.value
  {
    var roles := Infer(columns);
    var f := Filtered(t, roles, parse, spec);
    FilteredRowsPassEveryActiveFilter(t, roles, parse, spec);
    MonthlyAddsUp(f, roles.date.value, roles.amount.value);
  }

  /** The per-supplier sums add up to the total KPI: after the supplier filter
      no row has a missing supplier. */
  lemma SupplierMatchesTotal(columns: seq<string>, t: Table, parse: Cell -> Option<CalDate>, spec: FilterSpec)
    requires Evaluate(columns, t, parse, spec).Success?
    requires Evaluate(columns, t, parse, spec).value.bySupplier.Some?
    ensures var r := Evaluate(columns, t, parse, spec).value;
      r.total.Some? && SumValues(r.bySupplier.value) == r.total.value
  {
    var roles := Infer(columns);
    var f := Filtered(t, roles, parse, spec);
    FilteredRowsPassEveryActiveFilter(t, roles, parse, spec);
    SupplierSumsAddUp(f, roles.supplier.value, roles.amount.value);
  }

  /** With all three roles found, the two charts and the total KPI agree. */
  lemma ChartsAgreeWithTotal(columns: seq<string>, t: Table, parse: Cell -> Option<CalDate>, spec: FilterSpec)
    requires Infer(columns).date.Some? && Infer(columns).amount.Some? && Infer(columns).supplier.Some?
    requires Evaluate(columns, t, parse, spec).Success?
    ensures var r := Evaluate(columns, t, parse, spec).value;
      r.total.Some? && r.monthly.Some? && r.bySupplier.Some? &&
      SumValues(r.monthly.value) == r.total.value == SumValues(r.bySupplier.value)
  {
    MonthlyMatchesTotal(columns, t, parse, spec);
    SupplierMatchesTotal(columns, t, parse, spec);
  }

  /** With no row left, the row count is 0, the total is 0 and the mean is NaN
      (pandas' sum and mean of an empty column), and both charts are empty. The
      run still fails when one column plays the amount role and another role. */
  lemma EmptyFilteredTable(columns: seq<string>, t: Table, parse: Cell -> Option<CalDate>, spec: FilterSpec)
    requires Filtered(t, Infer(columns), parse, spec) == []
    ensures var out := Evaluate(columns, t, parse, spec); var roles := Infer(columns);
      (out.Success? <==> roles.amount.None? || (roles.date != roles.amount && roles.supplier != roles.amount)) &&
      (out.Success? ==> out.value.rowCount == 0) &&
      (out.Success? && roles.amount.Some? ==> out.value.total == Some(0) && out.value.mean == Some(NaN)) &&
      (out.Success? && out.value.monthly.Some? ==> out.value.monthly.value == []) &&
      (out.Success? && out.value.bySupplier.Some? ==> out.value.bySupplier.value == [])
  {
    var roles := Infer(columns);
    if roles.amount.Some? {
      TotalOfMissing([], roles.amount.value);
    }
  }

  /** A column that takes both the date and the amount role makes the run fail
      at the total. After coercion the column holds no number, so once a row
      survives even its cells cannot be summed. */
  lemma DateAmountColumnFails(columns: seq<string>, t: Table, parse: Cell -> Option<CalDate>, spec: FilterSpec)
    requires Infer(columns).date.Some? && Infer(columns).date == Infer(columns).amount
    ensures var f := Filtered(t, Infer(columns), parse, spec);
      Evaluate(columns, t, parse, spec) == Failure(AmountNotNumeric(|f|)) &&
      (f != [] ==> !Numeric(f, Infer(columns).amount.value))
  {
    var roles := Infer(columns);
    var f := Filtered(t, roles, parse, spec);
    var dc := roles.date.value;
    if f != [] {
      assert DateOf(f[0], dc).Some? by {
        assert f[0] in f;
      }
      assert !(CellAt(f[0], dc).Num? || CellAt(f[0], dc).Missing?);
    }
  }

  /** A numeric column that takes both the supplier and the amount role makes
      the run fail at the supplier chart, after the KPIs, whatever the rows. */
  lemma SupplierAmountColumnFails(columns: seq<string>, t: Table, parse: Cell -> Option<CalDate>, spec: FilterSpec)
    requires Infer(columns).supplier.Some? && Infer(columns).supplier == Infer(columns).amount
    requires Infer(columns).date != Infer(columns).amount
    requires Numeric(Filtered(t, Infer(columns), parse, spec), Infer(columns).amount.value)
    ensures var f := Filtered(t, Infer(columns), parse, spec); var ac := Infer(columns).amount.value;
      Evaluate(columns, t, parse, spec).Failure? &&
      Evaluate(columns, t, parse, spec).error.SupplierIsAmount? &&
      Evaluate(columns, t, parse, spec).error.total == Total(f, ac) &&
      Evaluate(columns, t, parse, spec).error.mean == Mean(f, ac) &&
      Evaluate(columns, t, parse, spec).error.monthly ==
        (if Infer(columns).date.Some? then Some(MonthlySums(f, Infer(columns).date.value, ac)) else None)
  {
  }

  /** The pandas DataFrame of one page. `rows` is updated in place by the date
      coercion; boolean-mask selection yields a new frame. */
  class DataFrame {
    const columns: seq<string>
    var rows: Table

    ghost predicate Valid()
      reads this
    {
      Rectangular(|columns|, rows)
    }

    /** `pd.read_excel`: the frame as loaded. */
    constructor (columns: seq<string>, rows: Table)
      requires Rectangular(|columns|, rows)
      ensures Valid() && this.columns == columns && this.rows == rows
    {
      this.columns := columns;
      this.rows := rows;
    }

    /** `df[col] = pd.to_datetime(df[col], errors='coerce')`. */
    method CoerceDates(col: nat, parse: Cell -> Option<CalDate>)
      requires Valid() && col < |columns|
      modifies this
      ensures Valid()
      ensures rows == CoerceColumn(old(rows), col, parse)
    {
      CoercePreservesWidth(rows, col, parse, |columns|);
      rows := CoerceColumn(rows, col, parse);
    }

    /** `df[mask]`: a new frame with the same columns and the rows the mask keeps. */
    method Select(keep: Row -> bool) returns (f: DataFrame)
      requires Valid()
      ensures fresh(f) && f.Valid()
      ensures f.columns == columns && f.rows == Where(rows, keep)
    {
      f := new DataFrame(columns, Where(rows, keep));
    }
  }

  /** The page script from the upload on: the date column of the uploaded frame
      is overwritten in place, `df` is rebound to each filtered frame, and the
      KPIs and chart data are computed from the last one. */
  method Run(df: DataFrame, parse: Cell -> Option<CalDate>, spec: FilterSpec) returns (out: Result<Report, RunError>)
    requires df.Valid()
    modifies df
    ensures df.Valid()
    ensures df.rows == Coerced(old(df.rows), Infer(df.columns), parse)
    ensures out == Evaluate(df.columns, old(df.rows), parse, spec)
  {
    var roles := Infer(df.columns);
    var view := df;
    if roles.date.Some? {
      var dc := roles.date.value;
      df.CoerceDates(dc, parse);
      var range := EffectiveRange(df.rows, dc, spec.range);
      view := df.Select(InRangeMask(dc, range));
    }
    if roles.supplier.Some? {
      var sc := roles.supplier.value;
      var selected := EffectiveSelection(view.rows, sc, spec.suppliers);
      view := view.Select(InSelectionMask(sc, selected));
    }
    var n := |view.rows|;
    if roles.amount.None? {
      out := Success(Report(view.rows, n, None, None, None, None));
      return;
    }
    var ac := roles.amount.value;
    if roles.date == Some(ac) || !Numeric(view.rows, ac) {
      out := Failure(AmountNotNumeric(n));
      return;
    }
    var total, mean := Total(view.rows, ac), Mean(view.rows, ac);
    var monthly := if roles.date.Some? then Some(MonthlySums(view.rows, roles.date.value, ac)) else None;
    if roles.supplier == Some(ac) {
      out := Failure(SupplierIsAmount(n, total, mean, monthly));
      return;
    }
    var bySupplier := if roles.supplier.Some? then Some(SupplierSums(view.rows, roles.supplier.value, ac)) else None;
    out := Success(Report(view.rows, n, Some(total), Some(mean), monthly, bySupplier));
  }
}
