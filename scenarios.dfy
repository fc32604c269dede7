/** Worked runs of the pipeline on a three-invoice sheet. */
module Scenarios {
  import opened Wrappers
  import opened Frame
  import opened Inference
  import opened Filtering
  import opened Aggregation
  import opened Dashboard

  const Acme: Cell := Text("Acme")
  const Globex: Cell := Text("Globex")
  const Row1: Row := [Date(CalDate(2024, 1, 5)), Num(100), Acme]
  const Row2: Row := [Date(CalDate(2024, 1, 20)), Num(50), Acme]
  const Row3: Row := [Date(CalDate(2024, 2, 10)), Num(30), Globex]
  const Invoices: Table := [Row1, Row2, Row3]
  const AcmeRows: Table := [Row1, Row2]

  lemma InvoiceTails()
    ensures Invoices[1..] == [Row2, Row3] && [Row2, Row3][1..] == [Row3] && [Row3][1..] == []
    ensures AcmeRows[1..] == [Row2] && [Row2][1..] == []
  {
  }

  lemma InvoiceAmounts()
    ensures Numeric(Invoices, 1) && Total(Invoices, 1) == 180 && NumCount(Invoices, 1) == 3
    ensures Numeric(AcmeRows, 1) && Total(AcmeRows, 1) == 150 && NumCount(AcmeRows, 1) == 2
  {
    InvoiceTails();
    assert CellAt(Row1, 1) == Num(100) && CellAt(Row2, 1) == Num(50) && CellAt(Row3, 1) == Num(30);
    assert NumCount([Row3], 1) == 1 + NumCount([], 1);
    assert NumCount([Row2, Row3], 1) == 1 + NumCount([Row3], 1);
    assert NumCount(Invoices, 1) == 1 + NumCount([Row2, Row3], 1);
    assert NumCount([Row2], 1) == 1 + NumCount([], 1);
    assert NumCount(AcmeRows, 1) == 1 + NumCount([Row2], 1);
    assert Total([Row3], 1) == 30 + Total([], 1);
    assert Total([Row2, Row3], 1) == 50 + Total([Row3], 1);
    assert Total(Invoices, 1) == 100 + Total([Row2, Row3], 1);
    assert Total([Row2], 1) == 50 + Total([], 1);
    assert Total(AcmeRows, 1) == 100 + Total([Row2], 1);
  }

  lemma InvoiceSupplierColumn()
    ensures Column(Invoices, 2) == [Acme, Acme, Globex]
    ensures Column(AcmeRows, 2) == [Acme, Acme]
  {
    InvoiceTails();
    assert Column([Row3], 2) == [Globex];
    assert Column([Row2, Row3], 2) == [Acme, Globex];
    assert Column([Row2], 2) == [Acme];
  }

  lemma UniqueSuppliers()
    ensures Unique([Acme, Acme, Globex]) == [Acme, Globex]
    ensures Unique([Acme, Acme]) == [Acme]
  {
    var all := [Acme, Acme, Globex];
    assert all[..2] == [Acme, Acme] && [Acme, Acme][..1] == [Acme] && [Acme][..0] == [];
    assert Unique([Acme]) == [Acme];
  }

  lemma InvoiceSuppliers()
    ensures DistinctValues(Invoices, 2) == [Acme, Globex]
    ensures SupplierOptions(Invoices, 2) == {Acme, Globex}
    ensures DistinctValues(AcmeRows, 2) == [Acme]
  {
    InvoiceDistinctSuppliers();
    AcmeDistinctSuppliers();
    var vs := DistinctValues(Invoices, 2);
    assert forall c :: c in vs <==> c == Acme || c == Globex;
  }

  lemma InvoiceDistinctSuppliers()
    ensures DistinctValues(Invoices, 2) == [Acme, Globex]
  {
    var all := [Acme, Acme, Globex];
    assert Where(Column(Invoices, 2), NotMissing) == all by {
      InvoiceSupplierColumn();
      WhereAll(all, NotMissing);
    }
    assert Unique(all) == [Acme, Globex] by {
      UniqueSuppliers();
    }
  }

  lemma AcmeDistinctSuppliers()
    ensures DistinctValues(AcmeRows, 2) == [Acme]
  {
    var acme := [Acme, Acme];
    assert Where(Column(AcmeRows, 2), NotMissing) == acme by {
      InvoiceSupplierColumn();
      WhereAll(acme, NotMissing);
    }
    assert Unique(acme) == [Acme] by {
      UniqueSuppliers();
    }
  }

  lemma SupplierKeyTotals()
    ensures KeyTotal(Invoices, SupplierKey(2), 1, Acme) == 150
    ensures KeyTotal(Invoices, SupplierKey(2), 1, Globex) == 30
    ensures KeyTotal(AcmeRows, SupplierKey(2), 1, Acme) == 150
  {
    InvoiceTails();
    var key := SupplierKey(2);
    assert key(Row1) == Some(Acme) && key(Row2) == Some(Acme) && key(Row3) == Some(Globex);
    assert KeyTotal([Row3], key, 1, Acme) == 0 && KeyTotal([Row3], key, 1, Globex) == 30;
    assert KeyTotal([Row2, Row3], key, 1, Acme) == 50 && KeyTotal([Row2, Row3], key, 1, Globex) == 30;
    assert KeyTotal([Row2], key, 1, Acme) == 50;
  }

  lemma InvoiceSupplierSums()
    ensures SupplierSums(Invoices, 2, 1) == [(Acme, 150), (Globex, 30)]
    ensures SupplierSums(AcmeRows, 2, 1) == [(Acme, 150)]
  {
    InvoiceSupplierGroups();
    AcmeSupplierGroups();
  }

  lemma InvoiceSupplierGroups()
    ensures SupplierSums(Invoices, 2, 1) == [(Acme, 150), (Globex, 30)]
  {
    var g := SupplierSums(Invoices, 2, 1);
    assert Keys(g) == [Acme, Globex] by {
      InvoiceSuppliers();
      SupplierKeysInOrder(Invoices, 2, 1);
    }
    assert g[0].1 == 150 && g[1].1 == 30 by {
      SupplierKeyTotals();
    }
    assert g == [g[0], g[1]];
  }

  lemma AcmeSupplierGroups()
    ensures SupplierSums(AcmeRows, 2, 1) == [(Acme, 150)]
  {
    var h := SupplierSums(AcmeRows, 2, 1);
    assert Keys(h) == [Acme] by {
      InvoiceSuppliers();
      SupplierKeysInOrder(AcmeRows, 2, 1);
    }
    assert h[0].1 == 150 by {
      SupplierKeyTotals();
    }
    assert h == [h[0]];
  }

  lemma InvoiceMonths()
    ensures MonthsPresent(Invoices, 0) == [Month(2024, 1), Month(2024, 2)]
    ensures MonthsPresent(AcmeRows, 0) == [Month(2024, 1)]
  {
    InvoiceTails();
    var jan, feb := Month(2024, 1), Month(2024, 2);
    assert MonthOf(Row1, 0) == Some(jan) && MonthOf(Row2, 0) == Some(jan) && MonthOf(Row3, 0) == Some(feb);
    assert MonthsPresent([Row3], 0) == [feb];
    assert InsertMonth([feb], jan) == [jan, feb];
    assert MonthsPresent([Row2, Row3], 0) == [jan, feb];
    assert MonthsPresent([Row2], 0) == [jan];
  }

  lemma MonthKeyTotals()
    ensures KeyTotal(Invoices, MonthKey(0), 1, Month(2024, 1)) == 150
    ensures KeyTotal(Invoices, MonthKey(0), 1, Month(2024, 2)) == 30
    ensures KeyTotal(AcmeRows, MonthKey(0), 1, Month(2024, 1)) == 150
  {
    InvoiceTails();
    var key := MonthKey(0);
    var jan, feb := Month(2024, 1), Month(2024, 2);
    assert key(Row1) == Some(jan) && key(Row2) == Some(jan) && key(Row3) == Some(feb);
    assert KeyTotal([Row3], key, 1, jan) == 0 && KeyTotal([Row3], key, 1, feb) == 30;
    assert KeyTotal([Row2, Row3], key, 1, jan) == 50 && KeyTotal([Row2, Row3], key, 1, feb) == 30;
    assert KeyTotal([Row2], key, 1, jan) == 50;
  }

  lemma InvoiceMonthlySums()
    ensures MonthlySums(Invoices, 0, 1) == [(Month(2024, 1), 150), (Month(2024, 2), 30)]
    ensures MonthlySums(AcmeRows, 0, 1) == [(Month(2024, 1), 150)]
  {
    InvoiceMonths();
    MonthKeyTotals();
    var g := MonthlySums(Invoices, 0, 1);
    assert g == [g[0], g[1]];
    var h := MonthlySums(AcmeRows, 0, 1);
    assert h == [h[0]];
  }

  lemma InvoiceMeans()
    ensures Mean(Invoices, 1) == Value(60.0) && Mean(AcmeRows, 1) == Value(75.0)
  {
    InvoiceAmounts();
  }

  /** Dates, amounts and suppliers survive the date stage unchanged: they are
      already dates, and the default range spans them all. */
  lemma InvoiceDateStage(parse: Cell -> Option<CalDate>, spec: FilterSpec)
    requires spec.range.None?
    ensures DateStage(Invoices, Roles(Some(0), Some(1), Some(2)), parse, spec) == Invoices
  {
    CoerceFixesCoerced(Invoices, 0, parse);
    DefaultDateStage(Invoices, Roles(Some(0), Some(1), Some(2)), parse, spec);
    WhereAll(Invoices, HasDateMask(0));
  }

  lemma InvoiceSupplierStage(roles: Roles)
    requires roles.supplier == Some(2)
    ensures SupplierStage(Invoices, roles, FilterSpec(None, None)) == Invoices
  {
    InvoiceSuppliers();
    WhereAll(Invoices, InSelectionMask(2, {Acme, Globex}));
  }

  lemma AcmeSelection()
    ensures EffectiveSelection(Invoices, 2, Some({Acme})) == {Acme}
  {
    InvoiceSuppliers();
  }

  lemma AcmeWhere()
    ensures Where(Invoices, InSelectionMask(2, {Acme})) == AcmeRows
  {
    InvoiceTails();
    var keep := InSelectionMask(2, {Acme});
    assert keep(Row1) && keep(Row2) && !keep(Row3);
    assert Where([Row3], keep) == [];
    assert Where([Row2, Row3], keep) == [Row2];
  }

  lemma AcmeSupplierStage(roles: Roles)
    requires roles.supplier == Some(2)
    ensures SupplierStage(Invoices, roles, FilterSpec(None, Some({Acme}))) == AcmeRows
  {
    AcmeSelection();
    AcmeWhere();
  }

  /** The sheet under the headers "InvoiceDate", "Importo", "Fornitore": the
      English date header takes no role, so no monthly series is shown; three
      rows, a total of 180, a mean of 60, Acme 150 and Globex 30. */
  lemma EnglishHeaderRun(parse: Cell -> Option<CalDate>)
    ensures Evaluate(["InvoiceDate", "Importo", "Fornitore"], Invoices, parse, FilterSpec(None, None)) ==
      Success(Report(Invoices, 3, Some(180), Some(Value(60.0)), None, Some([(Acme, 150), (Globex, 30)])))
  {
    var roles := Roles(None, Some(1), Some(2));
    EnglishDateHeaderIgnored();
    assert Filtered(Invoices, roles, parse, FilterSpec(None, None)) == Invoices by {
      InvoiceSupplierStage(roles);
    }
    InvoiceAmounts();
    InvoiceMeans();
    InvoiceSupplierSums();
  }

  /** The same sheet under an Italian date header, without filters: the monthly
      series is January 150 and February 30. */
  lemma ItalianHeaderRun(parse: Cell -> Option<CalDate>)
    ensures Evaluate(["DataFattura", "Importo", "Fornitore"], Invoices, parse, FilterSpec(None, None)) ==
      Success(Report(Invoices, 3, Some(180), Some(Value(60.0)),
        Some([(Month(2024, 1), 150), (Month(2024, 2), 30)]), Some([(Acme, 150), (Globex, 30)])))
  {
    var roles := Roles(Some(0), Some(1), Some(2));
    ItalianHeaders();
    assert Filtered(Invoices, roles, parse, FilterSpec(None, None)) == Invoices by {
      InvoiceDateStage(parse, FilterSpec(None, None));
      InvoiceSupplierStage(roles);
    }
    InvoiceAmounts();
    InvoiceMeans();
    InvoiceSupplierSums();
    InvoiceMonthlySums();
  }

  /** The same run with only Acme selected: two rows, a total of 150, and a
      single January bucket. */
  lemma AcmeOnlyRun(parse: Cell -> Option<CalDate>)
    ensures Evaluate(["DataFattura", "Importo", "Fornitore"], Invoices, parse, FilterSpec(None, Some({Acme}))) ==
      Success(Report(AcmeRows, 2, Some(150), Some(Value(75.0)),
        Some([(Month(2024, 1), 150)]), Some([(Acme, 150)])))
  {
    var roles := Roles(Some(0), Some(1), Some(2));
    ItalianHeaders();
    assert Filtered(Invoices, roles, parse, FilterSpec(None, Some({Acme}))) == AcmeRows by {
      InvoiceDateStage(parse, FilterSpec(None, Some({Acme})));
      AcmeSupplierStage(roles);
    }
    InvoiceAmounts();
    InvoiceMeans();
    InvoiceSupplierSums();
    InvoiceMonthlySums();
  }

  /** Headers without any keyword: every table passes through unfiltered and
      only the row count is shown. */
  lemma NoRoleRun(t: Table, parse: Cell -> Option<CalDate>, spec: FilterSpec)
    ensures Evaluate(["Descrizione", "Quantita"], t, parse, spec) == Success(Report(t, |t|, None, None, None, None))
  {
    UnrelatedHeaders();
  }

  /** One column named both for the supplier and the amount: the KPIs are
      computed (one row, 5 in total, a mean of 5) and then the supplier chart
      fails. */
  lemma SupplierAmountRun(parse: Cell -> Option<CalDate>)
    ensures Evaluate(["Fornitore_Amount"], [[Num(5)]], parse, FilterSpec(None, None)) ==
      Failure(SupplierIsAmount(1, 5, Value(5.0), None))
  {
    var t: Table := [[Num(5)]];
    var roles := Roles(None, Some(0), Some(0));
    FornitoreAmountIsSupplierAndAmount();
    assert Filtered(t, roles, parse, FilterSpec(None, None)) == t by {
      DefaultSupplierStage(t, roles, FilterSpec(None, None));
      WhereAll(t, HasSupplierMask(0));
    }
    assert NumCount(t, 0) == 1 + NumCount([], 0);
    assert Total(t, 0) == 5 + Total([], 0);
  }
}
