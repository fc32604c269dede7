/** Column-role inference: each role takes the first column, in column order,
    whose lower-cased name contains one of that role's keywords. */
module Inference {
  import opened Wrappers

  /** ASCII lower-casing of one character. */
  function LowerChar(c: char): char
  {
    if 'A' <= c <= 'Z' then (c as int + 32) as char else c
  }

  /** `s.lower()`, restricted to ASCII letters. */
  function Lower(s: string): string
  {
    seq(|s|, i requires 0 <= i < |s| => LowerChar(s[i]))
  }

  /** `k` occurs in `s` at position `i`. */
  predicate OccursAt(s: string, k: string, i: nat)
  {
    i + |k| <= |s| && s[i..i + |k|] == k
  }

  /** Python's substring test `k in s`: `k` occurs at some position of `s`. */
  predicate Contains(s: string, k: string)
  {
    exists i: nat | i <= |s| :: OccursAt(s, k, i)
  }

  /** Date keyword: line 25 tests only the Italian "data". */
  predicate IsDateName(name: string)
  {
    Contains(Lower(name), "data")
  }

  /** Amount keywords: "importo" or "amount". */
  predicate IsAmountName(name: string)
  {
    Contains(Lower(name), "importo") || Contains(Lower(name), "amount")
  }

  /** Supplier keywords: "fornitore" or "supplier". */
  predicate IsSupplierName(name: string)
  {
    Contains(Lower(name), "fornitore") || Contains(Lower(name), "supplier")
  }

  /** `r` is the answer of `next((col for col in names if p(col)), None)`:
      the lowest index whose name satisfies `p`, or None when none does. */
  ghost predicate IsFirstMatch(names: seq<string>, p: string -> bool, r: Option<nat>)
  {
    match r
    case Some(i) => i < |names| && p(names[i]) && forall j :: 0 <= j < i ==> !p(names[j])
    case None => forall j :: 0 <= j < |names| ==> !p(names[j])
  }

  /** The first index at or after `from` whose name satisfies `p`. */
  function FirstFrom(names: seq<string>, p: string -> bool, from: nat): (r: Option<nat>)
    requires from <= |names|
    decreases |names| - from
    ensures r.Some? ==> from <= r.value < |names| && p(names[r.value])
    ensures r.Some? ==> forall j :: from <= j < r.value ==> !p(names[j])
    ensures r.None? ==> forall j :: from <= j < |names| ==> !p(names[j])
  {
    if from == |names| then None
    else if p(names[from]) then Some(from)
    else FirstFrom(names, p, from + 1)
  }

  function First(names: seq<string>, p: string -> bool): (r: Option<nat>)
    ensures IsFirstMatch(names, p, r)
  {
    FirstFrom(names, p, 0)
  }

  /** The first-match characterisation determines the answer. */
  lemma FirstMatchUnique(names: seq<string>, p: string -> bool, r1: Option<nat>, r2: Option<nat>)
    requires IsFirstMatch(names, p, r1) && IsFirstMatch(names, p, r2)
    ensures r1 == r2
  {
    match r1 {
      case Some(i) =>
        match r2 {
          case Some(j) =>
          case None =>
        }
      case None =>
    }
  }

  /** The column index chosen for each role; None when no column matched. */
  datatype Roles = Roles(date: Option<nat>, amount: Option<nat>, supplier: Option<nat>)

  /** The three `next(...)` searches of the scripts, each over all columns. */
  function Infer(names: seq<string>): (roles: Roles)
    ensures IsFirstMatch(names, IsDateName, roles.date)
    ensures IsFirstMatch(names, IsAmountName, roles.amount)
    ensures IsFirstMatch(names, IsSupplierName, roles.supplier)
  {
    Roles(First(names, IsDateName), First(names, IsAmountName), First(names, IsSupplierName))
  }

  /** A keyword cannot occur where its first or its last character is absent. */
  lemma NotContains(s: string, k: string)
    requires |k| > 0
    requires forall i: nat :: i + |k| <= |s| ==> s[i] != k[0] || s[i + |k| - 1] != k[|k| - 1]
    ensures !Contains(s, k)
  {
    forall i: nat | i <= |s| ensures !OccursAt(s, k, i) {
      if i + |k| <= |s| {
        assert s[i..i + |k|][0] == s[i] && s[i..i + |k|][|k| - 1] == s[i + |k| - 1];
      }
    }
  }

  /** A keyword cannot occur in a name that lacks one of its characters. */
  lemma Lacks(s: string, k: string, c: char)
    requires c in k && c !in s
    ensures !Contains(s, k)
  {
  }

  lemma InvoiceDateKeywords()
    ensures !Contains("invoicedate", "data")
    ensures !Contains("invoicedate", "importo") && !Contains("invoicedate", "amount")
    ensures !Contains("invoicedate", "fornitore") && !Contains("invoicedate", "supplier")
  {
    NotContains("invoicedate", "data");
    Lacks("invoicedate", "importo", 'm');
    Lacks("invoicedate", "amount", 'm');
    Lacks("invoicedate", "fornitore", 'f');
    Lacks("invoicedate", "supplier", 's');
  }

  lemma InvoiceDateHasNoRole()
    ensures !IsDateName("InvoiceDate") && !IsAmountName("InvoiceDate") && !IsSupplierName("InvoiceDate")
  {
    assert Lower("InvoiceDate") == "invoicedate";
    InvoiceDateKeywords();
  }

  lemma ImportoKeywords()
    ensures !Contains("importo", "data") && Contains("importo", "importo")
    ensures !Contains("importo", "fornitore") && !Contains("importo", "supplier")
  {
    Lacks("importo", "data", 'd');
    assert OccursAt("importo", "importo", 0);
    Lacks("importo", "fornitore", 'f');
    Lacks("importo", "supplier", 's');
  }

  lemma ImportoIsAmountOnly()
    ensures !IsDateName("Importo") && IsAmountName("Importo") && !IsSupplierName("Importo")
  {
    assert Lower("Importo") == "importo";
    ImportoKeywords();
  }

  /** A lower-cased supplier keyword contains neither a date nor an amount
      keyword: it has no 'd', no 'm' and no 'a'. */
  lemma SupplierWordKeywords(w: string)
    requires 'd' !in w && 'm' !in w && 'a' !in w
    ensures !Contains(w, "data")
    ensures !Contains(w, "importo") && !Contains(w, "amount")
  {
    Lacks(w, "data", 'd');
    Lacks(w, "importo", 'm');
    Lacks(w, "amount", 'a');
  }

  /** The Italian and the English supplier headers take the supplier role only. */
  lemma SupplierHeadersAreSupplierOnly()
    ensures !IsDateName("Fornitore") && !IsAmountName("Fornitore") && IsSupplierName("Fornitore")
    ensures !IsDateName("Supplier") && !IsAmountName("Supplier") && IsSupplierName("Supplier")
  {
    assert Lower("Fornitore") == "fornitore";
    SupplierWordKeywords("fornitore");
    assert OccursAt("fornitore", "fornitore", 0);
    assert Lower("Supplier") == "supplier";
    SupplierWordKeywords("supplier");
    assert OccursAt("supplier", "supplier", 0);
  }

  /** An English "date" header is not recognised: only "data" is a date keyword. */
  lemma EnglishDateHeaderIgnored()
    ensures Infer(["InvoiceDate", "Importo", "Fornitore"]) == Roles(None, Some(1), Some(2))
  {
    InvoiceDateHasNoRole();
    ImportoIsAmountOnly();
    SupplierHeadersAreSupplierOnly();
    var names := ["InvoiceDate", "Importo", "Fornitore"];
    FirstMatchUnique(names, IsDateName, Infer(names).date, None);
    FirstMatchUnique(names, IsAmountName, Infer(names).amount, Some(1));
    FirstMatchUnique(names, IsSupplierName, Infer(names).supplier, Some(2));
  }

  lemma DataImportoKeywords()
    ensures Contains("data_importo", "data") && Contains("data_importo", "importo")
    ensures !Contains("data_importo", "fornitore") && !Contains("data_importo", "supplier")
  {
    assert OccursAt("data_importo", "data", 0);
    assert OccursAt("data_importo", "importo", 5);
    Lacks("data_importo", "fornitore", 'f');
    Lacks("data_importo", "supplier", 's');
  }

  lemma DataImportoIsDateAndAmount()
    ensures IsDateName("Data_Importo") && IsAmountName("Data_Importo") && !IsSupplierName("Data_Importo")
  {
    assert Lower("Data_Importo") == "data_importo";
    DataImportoKeywords();
  }

  /** The roles are chosen independently, so one column can take two of them. */
  lemma OneColumnTwoRoles()
    ensures Infer(["Data_Importo", "Supplier"]) == Roles(Some(0), Some(0), Some(1))
  {
    DataImportoIsDateAndAmount();
    SupplierHeadersAreSupplierOnly();
    var names := ["Data_Importo", "Supplier"];
    FirstMatchUnique(names, IsDateName, Infer(names).date, Some(0));
    FirstMatchUnique(names, IsAmountName, Infer(names).amount, Some(0));
    FirstMatchUnique(names, IsSupplierName, Infer(names).supplier, Some(1));
  }

  lemma FornitoreAmountKeywords()
    ensures Contains("fornitore_amount", "fornitore") && Contains("fornitore_amount", "amount")
    ensures !Contains("fornitore_amount", "data") && !Contains("fornitore_amount", "importo")
    ensures !Contains("fornitore_amount", "supplier")
  {
    assert OccursAt("fornitore_amount", "fornitore", 0);
    assert OccursAt("fornitore_amount", "amount", 10);
    Lacks("fornitore_amount", "data", 'd');
    Lacks("fornitore_amount", "importo", 'p');
    Lacks("fornitore_amount", "supplier", 's');
  }

  /** "Fornitore_Amount" names both a supplier and an amount, and no date. */
  lemma FornitoreAmountIsSupplierAndAmount()
    ensures Infer(["Fornitore_Amount"]) == Roles(None, Some(0), Some(0))
  {
    assert Lower("Fornitore_Amount") == "fornitore_amount";
    FornitoreAmountKeywords();
    var names := ["Fornitore_Amount"];
    FirstMatchUnique(names, IsDateName, Infer(names).date, None);
    FirstMatchUnique(names, IsAmountName, Infer(names).amount, Some(0));
    FirstMatchUnique(names, IsSupplierName, Infer(names).supplier, Some(0));
  }

  lemma DataFatturaKeywords()
    ensures Contains("datafattura", "data")
    ensures !Contains("datafattura", "importo") && !Contains("datafattura", "amount")
    ensures !Contains("datafattura", "fornitore") && !Contains("datafattura", "supplier")
  {
    assert OccursAt("datafattura", "data", 0);
    Lacks("datafattura", "importo", 'm');
    Lacks("datafattura", "amount", 'm');
    Lacks("datafattura", "fornitore", 'o');
    Lacks("datafattura", "supplier", 's');
  }

  lemma DataFatturaIsDateOnly()
    ensures IsDateName("DataFattura") && !IsAmountName("DataFattura") && !IsSupplierName("DataFattura")
  {
    assert Lower("DataFattura") == "datafattura";
    DataFatturaKeywords();
  }

  /** An Italian "Data..." header takes the date role; the three roles fall on
      the three columns in order. */
  lemma ItalianHeaders()
    ensures Infer(["DataFattura", "Importo", "Fornitore"]) == Roles(Some(0), Some(1), Some(2))
  {
    DataFatturaIsDateOnly();
    ImportoIsAmountOnly();
    SupplierHeadersAreSupplierOnly();
    var names := ["DataFattura", "Importo", "Fornitore"];
    FirstMatchUnique(names, IsDateName, Infer(names).date, Some(0));
    FirstMatchUnique(names, IsAmountName, Infer(names).amount, Some(1));
    FirstMatchUnique(names, IsSupplierName, Infer(names).supplier, Some(2));
  }

  /** A lower-cased name with no 'm', no 'f', no 'p', and not both 'd' and
      'a', contains none of the five keywords. */
  lemma NoKeywordIn(w: string)
    requires 'd' !in w || 'a' !in w
    requires 'm' !in w && 'f' !in w && 'p' !in w
    ensures !Contains(w, "data")
    ensures !Contains(w, "importo") && !Contains(w, "amount")
    ensures !Contains(w, "fornitore") && !Contains(w, "supplier")
  {
    if 'd' !in w {
      Lacks(w, "data", 'd');
    } else {
      Lacks(w, "data", 'a');
    }
    Lacks(w, "importo", 'm');
    Lacks(w, "amount", 'm');
    Lacks(w, "fornitore", 'f');
    Lacks(w, "supplier", 'p');
  }

  lemma UnrelatedNamesHaveNoRole()
    ensures !IsDateName("Descrizione") && !IsAmountName("Descrizione") && !IsSupplierName("Descrizione")
    ensures !IsDateName("Quantita") && !IsAmountName("Quantita") && !IsSupplierName("Quantita")
  {
    assert Lower("Descrizione") == "descrizione";
    assert Lower("Quantita") == "quantita";
    NoKeywordIn("descrizione");
    NoKeywordIn("quantita");
  }

  /** Headers that contain no keyword leave every role unassigned. */
  lemma UnrelatedHeaders()
    ensures Infer(["Descrizione", "Quantita"]) == Roles(None, None, None)
  {
    UnrelatedNamesHaveNoRole();
    var names := ["Descrizione", "Quantita"];
    FirstMatchUnique(names, IsDateName, Infer(names).date, None);
    FirstMatchUnique(names, IsAmountName, Infer(names).amount, None);
    FirstMatchUnique(names, IsSupplierName, Infer(names).supplier, None);
  }
}
