/** Importing the client's open invoices (ar_pipeline/ledger/csv_import.py), from the rows the file parses to. */
module CsvImport {
  import opened Models
  import opened Matching
  import opened Balance
  import opened Posting

  /** One data row that parsed: a number with a key, a positive amount, an outstanding amount within it. */
  datatype FileRow = FileRow(
    number: string, payer: string, date: Option<Date>, amount: Money, currency: string, outstanding: Option<Money>)

  predicate ParsedRow(r: FileRow) {
    NumberKey(r.number) != "" && r.amount > 0 && (r.outstanding.Some? ==> 0 <= r.outstanding.value <= r.amount)
  }

  predicate ParsedFile(file: seq<FileRow>) { forall i | 0 <= i < |file| :: ParsedRow(file[i]) }

  function Occurrences(file: seq<FileRow>, key: string): nat {
    if file == [] then 0
    else Occurrences(file[..|file| - 1], key) + if NumberKey(file[|file| - 1].number) == key then 1 else 0
  }

  predicate HasPayments(rows: seq<Row>, key: string) { exists r | r in rows :: r.key == key }

  function NonNegative(x: Money): Money { if x < 0 then 0 else x }

  function NewInvoice(r: FileRow): Invoice {
    Invoice(r.number, r.payer, r.date, r.amount, r.currency, Books,
            if r.outstanding.Some? then r.amount - r.outstanding.value else 0)
  }

  /** The row's currency differs from that of payments already recorded. */
  predicate IsRefused(invoice: Invoice, rows: seq<Row>, r: FileRow) {
    r.currency != invoice.currency && HasPayments(rows, NumberKey(r.number))
  }

  /** An invoice after its row: the books win, and what their outstanding amount does not explain by
      payments recorded here was paid before. */
  function UpdatedInvoice(invoice: Invoice, rows: seq<Row>, r: FileRow): Invoice {
    if IsRefused(invoice, rows, r) then invoice
    else
      Invoice(r.number, if r.payer != "" then r.payer else invoice.payer, if r.date.Some? then r.date else invoice.date,
              r.amount, r.currency, Books,
              if r.outstanding.Some?
              then NonNegative(r.amount - r.outstanding.value - SettledOn(rows, NumberKey(r.number), Some(r.currency)))
              else invoice.paidBefore)
  }

  function ImportRow(l: Ledger, r: FileRow): Ledger {
    var key := NumberKey(r.number);
    l.(invoices := l.invoices[key := if key in l.invoices then UpdatedInvoice(l.invoices[key], l.rows, r)
      else NewInvoice(r)])
  }

  /** The first `n` rows of the file imported, without those whose number the file repeats. */
  function ImportedUpTo(l: Ledger, file: seq<FileRow>, n: nat): Ledger
    requires n <= |file|
  {
    if n == 0 then l
    else
      var before, r := ImportedUpTo(l, file, n - 1), file[n - 1];
      if Occurrences(file, NumberKey(r.number)) > 1 then before else ImportRow(before, r)
  }

  /** The file repeats the row's number, or its currency differs from payments already recorded. */
  predicate IsSkipped(l: Ledger, file: seq<FileRow>, n: nat)
    requires n < |file|
  {
    var before, key := ImportedUpTo(l, file, n), NumberKey(file[n].number);
    Occurrences(file, key) > 1 || (key in before.invoices && IsRefused(before.invoices[key], before.rows, file[n]))
  }

  function Imported(l: Ledger, file: seq<FileRow>): Ledger { ImportedUpTo(l, file, |file|) }

  function CountOf(counts: map<string, nat>, key: string): nat { if key in counts then counts[key] else 0 }

  /** `import_open_invoices`, once the file is parsed. */
  method ImportOpenInvoices(db: Database, file: seq<FileRow>) returns (imported: nat, updated: nat, skipped: seq<nat>)
    requires ParsedFile(file)
    modifies db`invoices
    ensures db.Books() == Imported(old(db.Books()), file)
    ensures imported + updated + |skipped| == |file|
    ensures |db.invoices| == |old(db.invoices)| + imported
    ensures forall n: nat :: n in skipped <==> n < |file| && IsSkipped(old(db.Books()), file, n)
  {
    hide NumberKey, UpdatedInvoice;
    imported, updated, skipped := 0, 0, [];
    var counts: map<string, nat> := map[];
    for i := 0 to |file|
      modifies {}
      invariant forall key :: CountOf(counts, key) == Occurrences(file[..i], key)
    {
      assert file[..i + 1][..i] == file[..i];
      var key := NumberKey(file[i].number);
      counts := counts[key := CountOf(counts, key) + 1];
    }
    assert file[..|file|] == file;
    for n := 0 to |file|
      invariant db.Books() == ImportedUpTo(old(db.Books()), file, n)
      invariant imported + updated + |skipped| == n
      invariant |db.invoices| == |old(db.invoices)| + imported
      invariant forall m: nat :: m in skipped <==> m < n && IsSkipped(old(db.Books()), file, m)
    {
      var r := file[n];
      var key := NumberKey(r.number);
      if CountOf(counts, key) > 1 {
        skipped := skipped + [n];
        continue;
      }
      if key !in db.invoices {
        db.invoices := db.invoices[key := NewInvoice(r)];
        imported := imported + 1;
        continue;
      }
      ghost var before := db.invoices;
      var refused := UpdateInvoice(db, key, r);
      assert db.invoices.Keys == before.Keys;
      SameCount(before, db.invoices);
      if refused {
        skipped := skipped + [n];
      } else {
        updated := updated + 1;
      }
    }
  }

  lemma SameCount(a: map<string, Invoice>, b: map<string, Invoice>)
    requires a.Keys == b.Keys
    ensures |a| == |b|
  {
    assert |a.Keys| == |a| && |b.Keys| == |b|;
  }

  method UpdateInvoice(db: Database, key: string, r: FileRow) returns (refused: bool)
    requires key == NumberKey(r.number) && key in db.invoices
    modifies db`invoices
    ensures db.invoices == old(db.invoices)[key := UpdatedInvoice(old(db.invoices[key]), db.rows, r)]
    ensures refused <==> IsRefused(old(db.invoices[key]), db.rows, r)
  {
    hide NumberKey;
    var existing := db.invoices[key];
    if r.currency != existing.currency && HasPayments(db.rows, key) {
      assert old(db.invoices)[key := existing] == old(db.invoices);
      return true;
    }
    existing := existing.(number := r.number, amount := r.amount, currency := r.currency, source := Books);
    if r.payer != "" {
      existing := existing.(payer := r.payer);
    }
    if r.date.Some? {
      existing := existing.(date := r.date);
    }
    if r.outstanding.Some? {
      var posted := SettledOn(db.rows, key, Some(r.currency));
      existing := existing.(paidBefore := NonNegative(r.amount - r.outstanding.value - posted));
    }
    db.invoices := db.invoices[key := existing];
    return false;
  }

  // ----- what an import does to each invoice -----

  predicate IsOnlyRow(file: seq<FileRow>, i: nat) {
    i < |file| && Occurrences(file, NumberKey(file[i].number)) == 1
  }

  /** The invoice `key` after a row for it. */
  function AfterRow(l: Ledger, key: string, r: FileRow): Invoice {
    if key in l.invoices then UpdatedInvoice(l.invoices[key], l.rows, r) else NewInvoice(r)
  }

  lemma {:induction false} OccursAt(file: seq<FileRow>, i: nat)
    requires i < |file|
    ensures Occurrences(file, NumberKey(file[i].number)) >= 1
  {
    hide NumberKey;
    if i < |file| - 1 { OccursAt(file[..|file| - 1], i); }
  }

  lemma {:induction false} OccursTwice(file: seq<FileRow>, i: nat, j: nat)
    requires i < j < |file| && NumberKey(file[i].number) == NumberKey(file[j].number)
    ensures Occurrences(file, NumberKey(file[i].number)) >= 2
  {
    hide NumberKey;
    if j < |file| - 1 {
      OccursTwice(file[..|file| - 1], i, j);
    } else {
      OccursAt(file[..j], i);
      assert file[..j][i] == file[i];
    }
  }

  lemma {:induction false} Occurring(file: seq<FileRow>, key: string) returns (i: nat)
    requires Occurrences(file, key) >= 1
    ensures i < |file| && NumberKey(file[i].number) == key
  {
    hide NumberKey;
    i := |file| - 1;
    if NumberKey(file[i].number) != key { i := Occurring(file[..i], key); }
  }

  /** After `n` rows, an invoice is as its only row leaves it if that row is among them, else as before. */
  lemma {:induction false} ImportedAt(l: Ledger, file: seq<FileRow>, n: nat, key: string)
    requires n <= |file|
    ensures var l' := ImportedUpTo(l, file, n);
      && l'.rows == l.rows
      && (forall i | 0 <= i < n && NumberKey(file[i].number) == key && Occurrences(file, key) == 1 ::
            key in l'.invoices && l'.invoices[key] == AfterRow(l, key, file[i]))
      && ((forall i | 0 <= i < n && NumberKey(file[i].number) == key :: Occurrences(file, key) > 1) ==>
            (key in l'.invoices <==> key in l.invoices) && (key in l.invoices ==> l'.invoices[key] == l.invoices[key]))
  {
    hide NumberKey, UpdatedInvoice, NewInvoice;
    if n > 0 {
      ImportedAt(l, file, n - 1, key);
      OccursAt(file, n - 1);
      var own := NumberKey(file[n - 1].number);
      if own == key && Occurrences(file, key) == 1 {
        forall i | 0 <= i < n && NumberKey(file[i].number) == key ensures i == n - 1 {
          if i < n - 1 { OccursTwice(file, i, n - 1); }
        }
      }
    }
  }

  /** The outcome for every key: its only row decides, and a key the file repeats or lacks is left alone. */
  lemma ImportPointwise(l: Ledger, file: seq<FileRow>, key: string)
    ensures Imported(l, file).rows == l.rows
    ensures forall i | 0 <= i < |file| && NumberKey(file[i].number) == key && Occurrences(file, key) == 1 ::
      key in Imported(l, file).invoices && Imported(l, file).invoices[key] == AfterRow(l, key, file[i])
    ensures Occurrences(file, key) != 1 ==>
      && (key in Imported(l, file).invoices <==> key in l.invoices)
      && (key in l.invoices ==> Imported(l, file).invoices[key] == l.invoices[key])
  {
    hide NumberKey, AfterRow;
    ImportedAt(l, file, |file|, key);
    forall i | 0 <= i < |file| && NumberKey(file[i].number) == key ensures Occurrences(file, key) >= 1 {
      OccursAt(file, i);
    }
  }

  function Min(a: Money, b: Money): Money { if a <= b then a else b }

  /** What is outstanding after the import of a row that is neither repeated nor refused. A stated
      outstanding amount holds, unless payments recorded here already leave less; without one, what was
      paid before stays and only the amount changes. */
  lemma OutstandingAfterImport(l: Ledger, file: seq<FileRow>, i: nat)
    requires RowsHaveInvoices(l) && ParsedFile(file) && IsOnlyRow(file, i)
    ensures var r, key, l' := file[i], NumberKey(file[i].number), Imported(l, file);
      && key in l'.invoices
      && (key !in l.invoices ==> Outstanding(l', key) == if r.outstanding.Some? then r.outstanding.value else r.amount)
      && (key in l.invoices && !IsRefused(l.invoices[key], l.rows, r) ==>
            && l'.invoices[key].amount == r.amount && l'.invoices[key].source == Books
            && Outstanding(l', key) ==
                 var posted := SettledOn(l.rows, key, Some(r.currency));
                 if r.outstanding.Some? then Min(r.outstanding.value, r.amount - posted)
                 else r.amount - l.invoices[key].paidBefore - posted)
      && (key in l.invoices && IsRefused(l.invoices[key], l.rows, r) ==> l'.invoices[key] == l.invoices[key])
  {
    var r, key := file[i], NumberKey(file[i].number);
    assert ParsedRow(r);
    hide NumberKey, Occurrences;
    ImportPointwise(l, file, key);
    assert Imported(l, file).invoices[key] == AfterRow(l, key, r);
    if key !in l.invoices { NothingSettled(l.rows, key, Some(r.currency)); }
  }

  lemma AfterRowTwice(l: Ledger, l': Ledger, key: string, r: FileRow)
    requires RowsHaveInvoices(l) && ParsedRow(r) && key == NumberKey(r.number)
    requires l'.rows == l.rows && key in l'.invoices && l'.invoices[key] == AfterRow(l, key, r)
    ensures AfterRow(l', key, r) == AfterRow(l, key, r)
  {
    hide NumberKey;
    if key !in l.invoices { NothingSettled(l.rows, key, Some(r.currency)); }
  }

  /** Importing the same file twice leaves the ledger as after once. */
  lemma ImportTwice(l: Ledger, file: seq<FileRow>)
    requires RowsHaveInvoices(l) && ParsedFile(file)
    ensures Imported(Imported(l, file), file) == Imported(l, file)
  {
    hide NumberKey, Occurrences, AfterRow, Imported;
    var once, twice := Imported(l, file), Imported(Imported(l, file), file);
    ImportPointwise(l, file, "");
    ImportPointwise(once, file, "");
    forall key
      ensures key in twice.invoices <==> key in once.invoices
      ensures key in once.invoices ==> twice.invoices[key] == once.invoices[key]
    {
      ImportPointwise(l, file, key);
      ImportPointwise(once, file, key);
      if Occurrences(file, key) == 1 {
        var i := Occurring(file, key);
        assert ParsedRow(file[i]);
        AfterRowTwice(l, once, key, file[i]);
      }
    }
    assert twice.invoices == once.invoices;
  }

  lemma {:induction false} OccurrencesConcat(a: seq<FileRow>, b: seq<FileRow>, key: string)
    ensures Occurrences(a + b, key) == Occurrences(a, key) + Occurrences(b, key)
  {
    hide NumberKey;
    if b == [] {
      assert a + b == a;
    } else {
      assert (a + b)[..|a + b| - 1] == a + b[..|b| - 1];
      OccurrencesConcat(a, b[..|b| - 1], key);
    }
  }

  lemma WithoutOne(front: seq<FileRow>, r: FileRow, before: seq<FileRow>, after: seq<FileRow>)
    requires multiset(front + [r]) == multiset(before + ([r] + after))
    ensures multiset(front) == multiset(before + after)
  {
    assert multiset(front + [r]) == multiset(front) + multiset{r};
    assert multiset(before + ([r] + after)) == multiset(before) + (multiset{r} + multiset(after));
    assert multiset(before + after) == multiset(before) + multiset(after);
    assert multiset(front) == multiset(front + [r]) - multiset{r};
    assert multiset(before) + multiset(after) == multiset(before + ([r] + after)) - multiset{r};
  }

  lemma {:induction false} SameOccurrences(a: seq<FileRow>, b: seq<FileRow>, key: string)
    requires multiset(a) == multiset(b)
    ensures Occurrences(a, key) == Occurrences(b, key)
  {
    hide NumberKey;
    if a == [] {
      assert |multiset(b)| == 0;
      assert |b| == 0;
    } else {
      var r := a[|a| - 1];
      assert r in multiset(a);
      var j :| 0 <= j < |b| && b[j] == r;
      var front := a[..|a| - 1];
      assert a == front + [r];
      assert b == b[..j] + ([r] + b[j + 1..]);
      WithoutOne(front, r, b[..j], b[j + 1..]);
      SameOccurrences(front, b[..j] + b[j + 1..], key);
      OccurrencesConcat(b[..j], b[j + 1..], key);
      OccurrencesConcat(b[..j], [r] + b[j + 1..], key);
      OccurrencesConcat([r], b[j + 1..], key);
      OccurrencesConcat(front, [r], key);
    }
  }

  /** The order of the file's rows does not matter. */
  lemma ImportOrderIrrelevant(l: Ledger, a: seq<FileRow>, b: seq<FileRow>)
    requires multiset(a) == multiset(b)
    ensures Imported(l, a) == Imported(l, b)
  {
    hide NumberKey, Occurrences, AfterRow, Imported;
    ImportPointwise(l, a, "");
    ImportPointwise(l, b, "");
    var la, lb := Imported(l, a), Imported(l, b);
    forall key
      ensures key in la.invoices <==> key in lb.invoices
      ensures key in la.invoices ==> la.invoices[key] == lb.invoices[key]
    {
      SameOccurrences(a, b, key);
      ImportPointwise(l, a, key);
      ImportPointwise(l, b, key);
      if Occurrences(a, key) == 1 {
        var i := Occurring(a, key);
        assert a[i] in multiset(b);
        var j :| 0 <= j < |b| && b[j] == a[i];
      }
    }
    assert la.invoices == lb.invoices;
  }

  lemma {:induction false} ImportKeepsForeignKeys(l: Ledger, file: seq<FileRow>, n: nat)
    requires n <= |file| && RowsHaveInvoices(l)
    ensures RowsHaveInvoices(ImportedUpTo(l, file, n)) && ImportedUpTo(l, file, n).rows == l.rows
  {
    hide NumberKey, UpdatedInvoice, NewInvoice, Occurrences;
    if n > 0 { ImportKeepsForeignKeys(l, file, n - 1); }
  }
}
