/** Re-running posting over every approved payment (`backfill`, ar_pipeline/ledger/posting.py). */
module Backfill {
  import opened Models
  import opened Balance
  import opened Checks
  import opened Posting

  predicate Counts(exts: seq<Extraction>, id: nat) {
    id < |exts| && IsPosted(exts[id].status) && IsPayment(exts[id])
  }

  function EntriesOf(ext: Extraction): seq<Entry>
    requires IsPayment(ext)
  {
    Ordered(ext.canonical.value.lines)
  }

  function RowOf(exts: seq<Extraction>, id: nat, e: Entry): Row
    requires Counts(exts, id)
  {
    RowFor(id, exts[id].canonical.value.header, e)
  }

  /** Posting the listed extractions one after the other. */
  function PostAll(l: Ledger, exts: seq<Extraction>, order: seq<nat>): Ledger {
    if order == [] then l
    else
      var l1, id := PostAll(l, exts, order[..|order| - 1]), order[|order| - 1];
      if Counts(exts, id) then Post(l1, id, exts[id]) else l1
  }

  /** `order` is the order in which the database lists the approved and already recorded extractions. */
  method LedgerBackfill(db: Database, order: seq<nat>) returns (extractions: nat, rows: nat)
    requires forall i | 0 <= i < |order| :: order[i] < |db.extractions| && IsPosted(db.extractions[order[i]].status)
    modifies db`invoices, db`rows
    ensures db.Books() == PostAll(old(db.Books()), db.extractions, order)
    ensures rows == |db.rows| - |old(db.rows)| && extractions <= rows
  {
    extractions, rows := 0, 0;
    for i := 0 to |order|
      invariant db.Books() == PostAll(old(db.Books()), db.extractions, order[..i])
      invariant rows == |db.rows| - |old(db.rows)| && extractions <= rows
    {
      assert order[..i + 1][..i] == order[..i];
      var n := PostExtraction(db, order[i]);
      if n > 0 {
        extractions := extractions + 1;
        rows := rows + n;
      }
    }
    assert order[..|order|] == order;
  }

  lemma {:induction false} PostAllConcat(l: Ledger, exts: seq<Extraction>, a: seq<nat>, b: seq<nat>)
    ensures PostAll(l, exts, a + b) == PostAll(PostAll(l, exts, a), exts, b)
  {
    if b == [] {
      assert a + b == a;
    } else {
      assert (a + b)[..|a + b| - 1] == a + b[..|b| - 1];
      PostAllConcat(l, exts, a, b[..|b| - 1]);
    }
  }

  // ----- what a run leaves done -----

  /** Every line of the listed payments that can be posted with these invoices has its row. */
  ghost predicate AllPosted(l: Ledger, exts: seq<Extraction>, order: seq<nat>) {
    forall id, e | id in order && Counts(exts, id) && e in EntriesOf(exts[id]) && Postable(e, l.invoices.Keys) ::
      HasRow(l.rows, id, e.0)
  }

  ghost predicate InvoiceLinesPosted(l: Ledger, exts: seq<Extraction>, order: seq<nat>) {
    forall id, e | id in order && Counts(exts, id) && e in EntriesOf(exts[id])
                   && e.1.kind == InvoiceLine && Postable(e, {}) :: HasRow(l.rows, id, e.0)
  }

  /** Keys and rows only grow. */
  ghost predicate Extends(l: Ledger, l': Ledger) {
    l.invoices.Keys <= l'.invoices.Keys && l.rows <= l'.rows
  }

  lemma HasRowExtends(l: Ledger, l': Ledger, id: nat, line: nat)
    requires Extends(l, l') && HasRow(l.rows, id, line)
    ensures HasRow(l'.rows, id, line)
  {
    var r :| r in l.rows && r.extraction == id && r.line == line;
    var j :| 0 <= j < |l.rows| && l.rows[j] == r;
    assert l'.rows[j] == r;
  }

  lemma PostExtends(l: Ledger, id: nat, ext: Extraction)
    ensures Extends(l, Post(l, id, ext))
  {
    if IsPayment(ext) {
      PostingGrows(l, id, ext.canonical.value.header, Ordered(ext.canonical.value.lines));
    }
  }

  lemma {:induction false} PostAllExtends(l: Ledger, exts: seq<Extraction>, order: seq<nat>)
    ensures Extends(l, PostAll(l, exts, order))
  {
    if order != [] {
      var front, id := order[..|order| - 1], order[|order| - 1];
      PostAllExtends(l, exts, front);
      if Counts(exts, id) { PostExtends(PostAll(l, exts, front), id, exts[id]); }
    }
  }

  /** Posting leaves a row for every line that was postable when it began. */
  lemma {:induction false} PostingCompletes(l: Ledger, id: nat, h: Header, es: seq<Entry>, e: Entry)
    requires e in es && Postable(e, l.invoices.Keys)
    ensures HasRow(PostEntries(l, id, h, es).rows, id, e.0)
  {
    var front, last := es[..|es| - 1], es[|es| - 1];
    var l1, l2 := PostEntries(l, id, h, front), PostEntries(l, id, h, es);
    PostingGrows(l, id, h, front);
    if e in front {
      PostingCompletes(l, id, h, front, e);
      HasRowExtends(l1, l2, id, e.0);
    } else {
      assert e == last;
      if !HasRow(l1.rows, id, e.0) {
        assert RowFor(id, h, e) in l2.rows;
      }
    }
  }

  /** With its invoice lines posted, a payment can add adjustment rows only, and no invoice. */
  lemma {:induction false} OnlyAdjustmentsLeft(l: Ledger, id: nat, h: Header, es: seq<Entry>)
    requires forall e | e in es && e.1.kind == InvoiceLine && Postable(e, {}) :: HasRow(l.rows, id, e.0)
    ensures var l' := PostEntries(l, id, h, es);
      && l'.invoices == l.invoices
      && l.rows <= l'.rows && forall j | |l.rows| <= j < |l'.rows| :: l'.rows[j].kind == AdjustmentRow
  {
    if es != [] {
      var front, e := es[..|es| - 1], es[|es| - 1];
      OnlyAdjustmentsLeft(l, id, h, front);
      assert e in es;
      if e.1.kind == InvoiceLine && Postable(e, {}) {
        HasRowExtends(l, PostEntries(l, id, h, front), id, e.0);
      }
    }
  }

  lemma {:induction false} NothingLeft(l: Ledger, id: nat, h: Header, es: seq<Entry>)
    requires forall e | e in es && Postable(e, l.invoices.Keys) :: HasRow(l.rows, id, e.0)
    ensures PostEntries(l, id, h, es) == l
  {
    if es != [] {
      assert es[|es| - 1] in es;
      NothingLeft(l, id, h, es[..|es| - 1]);
    }
  }

  lemma {:induction false} RunPostsInvoiceLines(l: Ledger, exts: seq<Extraction>, order: seq<nat>)
    ensures InvoiceLinesPosted(PostAll(l, exts, order), exts, order)
  {
    if order != [] {
      var front, last := order[..|order| - 1], order[|order| - 1];
      RunPostsInvoiceLines(l, exts, front);
      var l1, l2 := PostAll(l, exts, front), PostAll(l, exts, order);
      PostAllExtends(l1, exts, [last]);
      PostAllConcat(l, exts, front, [last]);
      assert order == front + [last];
      forall id, e | id in order && Counts(exts, id) && e in EntriesOf(exts[id])
                     && e.1.kind == InvoiceLine && Postable(e, {})
        ensures HasRow(l2.rows, id, e.0)
      {
        if id in front {
          HasRowExtends(l1, l2, id, e.0);
        } else {
          PostingCompletes(l1, id, exts[id].canonical.value.header, EntriesOf(exts[id]), e);
        }
      }
    }
  }

  /** A second run posts adjustments only, creates no invoice, and leaves nothing to post. */
  lemma {:induction false} SecondRunPostsAdjustments(l: Ledger, exts: seq<Extraction>, all: seq<nat>, order: seq<nat>)
    requires InvoiceLinesPosted(l, exts, all) && forall id | id in order :: id in all
    ensures var l' := PostAll(l, exts, order);
      && l'.invoices == l.invoices
      && l.rows <= l'.rows && (forall j | |l.rows| <= j < |l'.rows| :: l'.rows[j].kind == AdjustmentRow)
      && InvoiceLinesPosted(l', exts, all) && AllPosted(l', exts, order)
  {
    if order != [] {
      var front, last := order[..|order| - 1], order[|order| - 1];
      SecondRunPostsAdjustments(l, exts, all, front);
      var l1, l2 := PostAll(l, exts, front), PostAll(l, exts, order);
      if Counts(exts, last) {
        var h, es := exts[last].canonical.value.header, EntriesOf(exts[last]);
        assert last in order;
        OnlyAdjustmentsLeft(l1, last, h, es);
        forall e | e in es && Postable(e, l1.invoices.Keys) ensures HasRow(l2.rows, last, e.0) {
          PostingCompletes(l1, last, h, es, e);
        }
      }
      forall id, line | HasRow(l1.rows, id, line) ensures HasRow(l2.rows, id, line) {
        HasRowExtends(l1, l2, id, line);
      }
    }
  }

  lemma {:induction false} CompleteRunChangesNothing(l: Ledger, exts: seq<Extraction>, all: seq<nat>, order: seq<nat>)
    requires AllPosted(l, exts, all) && forall id | id in order :: id in all
    ensures PostAll(l, exts, order) == l
  {
    if order != [] {
      var last := order[|order| - 1];
      CompleteRunChangesNothing(l, exts, all, order[..|order| - 1]);
      if Counts(exts, last) {
        assert last in order;
        NothingLeft(l, last, exts[last].canonical.value.header, EntriesOf(exts[last]));
      }
    }
  }

  /** Posting converges: the first run posts every invoice line, the second only adjustments, and a third
      run posts nothing. */
  lemma BackfillConverges(l: Ledger, exts: seq<Extraction>, order: seq<nat>)
    ensures var l1 := PostAll(l, exts, order); var l2 := PostAll(l1, exts, order);
      && InvoiceLinesPosted(l1, exts, order)
      && l2.invoices == l1.invoices
      && l1.rows <= l2.rows && (forall j | |l1.rows| <= j < |l2.rows| :: l2.rows[j].kind == AdjustmentRow)
      && AllPosted(l2, exts, order)
      && PostAll(l2, exts, order) == l2
  {
    RunPostsInvoiceLines(l, exts, order);
    var l1 := PostAll(l, exts, order);
    SecondRunPostsAdjustments(l1, exts, order, order);
    CompleteRunChangesNothing(PostAll(l1, exts, order), exts, order, order);
  }

  // ----- the result does not depend on the order -----

  datatype Posted = Posted(extraction: nat, line: nat, key: string, settled: Money)

  function PostedBy(r: Row): Posted { Posted(r.extraction, r.line, r.key, r.settled) }

  ghost predicate IsIn(rows: seq<Row>, t: Posted) { exists r | r in rows :: PostedBy(r) == t }

  /** `t` is what some line of a listed payment settles, and the line had no row before. */
  ghost predicate Adds(l: Ledger, exts: seq<Extraction>, order: seq<nat>, keys: set<string>, t: Posted) {
    exists e :: AddsEntry(l, exts, order, keys, t, e)
  }

  ghost predicate AddsEntry(l: Ledger, exts: seq<Extraction>, order: seq<nat>, keys: set<string>, t: Posted, e: Entry) {
    && t.extraction in order && Counts(exts, t.extraction) && e in EntriesOf(exts[t.extraction])
    && Postable(e, keys) && !HasRow(l.rows, t.extraction, e.0) && t == PostedBy(RowOf(exts, t.extraction, e))
  }

  /** A listed payment has an invoice line for `key` without a row. */
  ghost predicate Creates(l: Ledger, exts: seq<Extraction>, order: seq<nat>, key: string) {
    exists id, e :: CreatesBy(l, exts, order, key, id, e)
  }

  ghost predicate CreatesBy(l: Ledger, exts: seq<Extraction>, order: seq<nat>, key: string, id: nat, e: Entry) {
    && id in order && Counts(exts, id) && e in EntriesOf(exts[id]) && e.1.kind == InvoiceLine
    && TargetKey(e.1) == key && Postable(e, {}) && !HasRow(l.rows, id, e.0)
  }

  lemma EntryAt(ext: Extraction, e: Entry, e': Entry)
    requires IsPayment(ext) && e in EntriesOf(ext) && e' in EntriesOf(ext) && e.0 == e'.0
    ensures e == e'
  {
    OrderedIsAllLines(ext.canonical.value.lines);
  }

  /** Every row a run writes is one of the listed payments' lines, posted because it had none. */
  lemma {:induction false} RowsAreSound(l: Ledger, exts: seq<Extraction>, order: seq<nat>, r: Row)
    requires r in PostAll(l, exts, order).rows && r !in l.rows
    ensures Adds(l, exts, order, PostAll(l, exts, order).invoices.Keys, PostedBy(r))
  {
    var front, last := order[..|order| - 1], order[|order| - 1];
    var l1, l2 := PostAll(l, exts, front), PostAll(l, exts, order);
    if Counts(exts, last) { PostExtends(l1, last, exts[last]); }
    if r in l1.rows {
      RowsAreSound(l, exts, front, r);
      var e :| AddsEntry(l, exts, front, l1.invoices.Keys, PostedBy(r), e);
      assert AddsEntry(l, exts, order, l2.invoices.Keys, PostedBy(r), e);
    } else {
      var h, es := exts[last].canonical.value.header, EntriesOf(exts[last]);
      var e := RowIsUnposted(l1, last, h, es, r);
      PostAllExtends(l, exts, front);
      if HasRow(l.rows, last, e.0) { HasRowExtends(l, l1, last, e.0); }
      assert last in order;
      assert AddsEntry(l, exts, order, l2.invoices.Keys, PostedBy(r), e);
    }
  }

  lemma {:induction false} RowIsUnposted(l: Ledger, id: nat, h: Header, es: seq<Entry>, r: Row) returns (e: Entry)
    requires r in PostEntries(l, id, h, es).rows && r !in l.rows
    ensures e in es && r == RowFor(id, h, e)
    ensures Postable(e, PostEntries(l, id, h, es).invoices.Keys) && !HasRow(l.rows, id, e.0)
  {
    var front, last := es[..|es| - 1], es[|es| - 1];
    var l1 := PostEntries(l, id, h, front);
    PostingGrows(l, id, h, front);
    if r in l1.rows {
      e := RowIsUnposted(l, id, h, front, r);
      PostingGrows(l1, id, h, [last]);
    } else {
      e := last;
      if HasRow(l.rows, id, e.0) { HasRowExtends(l, l1, id, e.0); }
    }
  }

  lemma {:induction false} PostingKeepsForeignKeys(l: Ledger, id: nat, h: Header, es: seq<Entry>)
    requires RowsHaveInvoices(l)
    ensures RowsHaveInvoices(PostEntries(l, id, h, es))
  {
    if es != [] { PostingKeepsForeignKeys(l, id, h, es[..|es| - 1]); }
  }

  /** The invoices a payment's posting adds are those of its invoice lines without a row. */
  lemma {:induction false} PostingKeys(l: Ledger, id: nat, h: Header, es: seq<Entry>, key: string)
    requires RowsHaveInvoices(l) && DistinctEntries(es)
    ensures key in PostEntries(l, id, h, es).invoices
       <==> key in l.invoices
            || exists e | e in es ::
                 e.1.kind == InvoiceLine && TargetKey(e.1) == key && Postable(e, {}) && !HasRow(l.rows, id, e.0)
  {
    if es != [] {
      var front, last := es[..|es| - 1], es[|es| - 1];
      var l1 := PostEntries(l, id, h, front);
      PostingKeys(l, id, h, front, key);
      PostingGrows(l, id, h, front);
      assert forall e | e in front :: e in es;
      assert forall e | e in es :: e in front || e == last;
      assert last in es;
      if HasRow(l.rows, id, last.0) {
        HasRowExtends(l, l1, id, last.0);
      } else if HasRow(l1.rows, id, last.0) {
        var r :| r in l1.rows && r.extraction == id && r.line == last.0;
        var e := RowIsUnposted(l, id, h, front, r);
        assert false;
      }
    }
  }

  lemma {:induction false} RunKeys(l: Ledger, exts: seq<Extraction>, order: seq<nat>, key: string)
    requires RowsHaveInvoices(l)
    ensures RowsHaveInvoices(PostAll(l, exts, order))
    ensures key in PostAll(l, exts, order).invoices <==> key in l.invoices || Creates(l, exts, order, key)
  {
    if order != [] {
      var front, last := order[..|order| - 1], order[|order| - 1];
      var l1 := PostAll(l, exts, front);
      RunKeys(l, exts, front, key);
      PostAllExtends(l, exts, front);
      if Creates(l, exts, front, key) {
        var id, e :| CreatesBy(l, exts, front, key, id, e);
        assert CreatesBy(l, exts, order, key, id, e);
      }
      if Counts(exts, last) {
        var h, es := exts[last].canonical.value.header, EntriesOf(exts[last]);
        OrderedIsAllLines(exts[last].canonical.value.lines);
        PostingKeepsForeignKeys(l1, last, h, es);
        PostingKeys(l1, last, h, es, key);
        assert last in order;
      }
      if Creates(l, exts, order, key) && !Creates(l, exts, front, key) {
        var e := CreatedByLast(l, exts, order, key);
        if HasRow(l1.rows, last, e.0) {
          RowGivesKey(l, exts, front, last, e);
        }
      } else if key in PostAll(l, exts, order).invoices && key !in l1.invoices {
        var e :| e in EntriesOf(exts[last]) && e.1.kind == InvoiceLine && TargetKey(e.1) == key && Postable(e, {})
          && !HasRow(l1.rows, last, e.0);
        if HasRow(l.rows, last, e.0) { HasRowExtends(l, l1, last, e.0); }
        assert CreatesBy(l, exts, order, key, last, e);
      }
    }
  }

  lemma CreatedByLast(l: Ledger, exts: seq<Extraction>, order: seq<nat>, key: string) returns (e: Entry)
    requires order != [] && Creates(l, exts, order, key) && !Creates(l, exts, order[..|order| - 1], key)
    ensures var last := order[|order| - 1];
      && Counts(exts, last) && e in EntriesOf(exts[last]) && e.1.kind == InvoiceLine
      && TargetKey(e.1) == key && Postable(e, {}) && !HasRow(l.rows, last, e.0)
  {
    var id, f :| CreatesBy(l, exts, order, key, id, f);
    assert !CreatesBy(l, exts, order[..|order| - 1], key, id, f);
    e := f;
  }

  /** A line that got its row earlier in the run got its invoice then. */
  lemma RowGivesKey(l: Ledger, exts: seq<Extraction>, order: seq<nat>, id: nat, e: Entry)
    requires RowsHaveInvoices(PostAll(l, exts, order)) && Counts(exts, id) && e in EntriesOf(exts[id])
    requires HasRow(PostAll(l, exts, order).rows, id, e.0) && !HasRow(l.rows, id, e.0)
    ensures TargetKey(e.1) in PostAll(l, exts, order).invoices
  {
    var r := PostedRow(l, exts, order, id, e);
  }

  lemma PostedRow(l: Ledger, exts: seq<Extraction>, order: seq<nat>, id: nat, e: Entry) returns (r: Row)
    requires Counts(exts, id) && e in EntriesOf(exts[id])
    requires HasRow(PostAll(l, exts, order).rows, id, e.0) && !HasRow(l.rows, id, e.0)
    ensures r in PostAll(l, exts, order).rows && PostedBy(r) == PostedBy(RowOf(exts, id, e))
  {
    r :| r in PostAll(l, exts, order).rows && r.extraction == id && r.line == e.0;
    RowsAreSound(l, exts, order, r);
    var f :| AddsEntry(l, exts, order, PostAll(l, exts, order).invoices.Keys, PostedBy(r), f);
    EntryAt(exts[id], e, f);
  }

  /** What two runs leave in the ledger: the rows there were, and one for every line without a row that
      can be posted with the final invoices. */
  lemma TwoRunsExactly(l: Ledger, exts: seq<Extraction>, order: seq<nat>, t: Posted)
    ensures var l2 := PostAll(PostAll(l, exts, order), exts, order);
      IsIn(l2.rows, t) <==> IsIn(l.rows, t) || Adds(l, exts, order, l2.invoices.Keys, t)
  {
    var twice := order + order;
    PostAllConcat(l, exts, order, order);
    var l2 := PostAll(l, exts, twice);
    PostAllExtends(l, exts, twice);
    if IsIn(l2.rows, t) {
      var r :| r in l2.rows && PostedBy(r) == t;
      if r !in l.rows {
        RowsAreSound(l, exts, twice, r);
        AddsSame(l, exts, order, twice, l2.invoices.Keys, t);
      }
    }
    if IsIn(l.rows, t) {
      var r :| r in l.rows && PostedBy(r) == t;
      var j :| 0 <= j < |l.rows| && l.rows[j] == r;
      assert l2.rows[j] == r;
    }
    if Adds(l, exts, order, l2.invoices.Keys, t) {
      AddedIsPosted(l, exts, order, t);
    }
  }

  lemma AddedIsPosted(l: Ledger, exts: seq<Extraction>, order: seq<nat>, t: Posted)
    requires Adds(l, exts, order, PostAll(PostAll(l, exts, order), exts, order).invoices.Keys, t)
    ensures IsIn(PostAll(PostAll(l, exts, order), exts, order).rows, t)
  {
    PostAllConcat(l, exts, order, order);
    var l2 := PostAll(l, exts, order + order);
    var e :| AddsEntry(l, exts, order, l2.invoices.Keys, t, e);
    BackfillConverges(l, exts, order);
    var r := PostedRow(l, exts, order + order, t.extraction, e);
  }

  lemma CreatesSame(l: Ledger, exts: seq<Extraction>, a: seq<nat>, b: seq<nat>, key: string)
    requires forall id :: id in a <==> id in b
    ensures Creates(l, exts, a, key) <==> Creates(l, exts, b, key)
  {
    forall id, e ensures CreatesBy(l, exts, a, key, id, e) <==> CreatesBy(l, exts, b, key, id, e) {
      assert id in a <==> id in b;
    }
  }

  lemma AddsSame(l: Ledger, exts: seq<Extraction>, a: seq<nat>, b: seq<nat>, keys: set<string>, t: Posted)
    requires forall id :: id in a <==> id in b
    ensures Adds(l, exts, a, keys, t) <==> Adds(l, exts, b, keys, t)
  {
    forall e ensures AddsEntry(l, exts, a, keys, t, e) <==> AddsEntry(l, exts, b, keys, t, e) {
      assert t.extraction in a <==> t.extraction in b;
    }
  }

  /** After two runs, the keys of the invoices known and the set of (extraction, line, invoice, amount) posted do not
      depend on the order in which the payments are processed. */
  lemma BackfillOrderIrrelevant(l: Ledger, exts: seq<Extraction>, a: seq<nat>, b: seq<nat>)
    requires RowsHaveInvoices(l) && forall id :: id in a <==> id in b
    ensures var la, lb := PostAll(PostAll(l, exts, a), exts, a), PostAll(PostAll(l, exts, b), exts, b);
      && la.invoices.Keys == lb.invoices.Keys
      && forall t :: IsIn(la.rows, t) <==> IsIn(lb.rows, t)
  {
    var la, lb := PostAll(PostAll(l, exts, a), exts, a), PostAll(PostAll(l, exts, b), exts, b);
    BackfillConverges(l, exts, a);
    BackfillConverges(l, exts, b);
    forall k ensures k in la.invoices <==> k in lb.invoices {
      RunKeys(l, exts, a, k);
      RunKeys(l, exts, b, k);
      CreatesSame(l, exts, a, b, k);
    }
    assert la.invoices.Keys == lb.invoices.Keys;
    forall t ensures IsIn(la.rows, t) <==> IsIn(lb.rows, t) {
      TwoRunsExactly(l, exts, a, t);
      TwoRunsExactly(l, exts, b, t);
      AddsSame(l, exts, a, b, la.invoices.Keys, t);
    }
  }
}
