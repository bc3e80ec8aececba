/** Writing approved payments into the ledger (ar_pipeline/ledger/posting.py). */
module Posting {
  import opened Models
  import opened Matching
  import opened Balance
  import opened Checks

  predicate HasRow(rows: seq<Row>, extraction: nat, line: nat) {
    exists r | r in rows :: r.extraction == extraction && r.line == line
  }

  /** The invoice a line creates when the ledger does not have it. */
  function EmailInvoice(h: Header, line: LineItem): Invoice {
    Invoice(Trim(line.number), h.payer, line.date,
            if line.invoiceAmount > 0 then line.invoiceAmount else LineSettled(line),
            h.currency, FromEmail, 0)
  }

  function RowFor(extraction: nat, h: Header, e: Entry): Row {
    var (i, line) := e;
    if line.kind == AdjustmentLine
    then Row(TargetKey(line), extraction, i, AdjustmentRow, 0, TargetAmount(line), h.currency, h.reference)
    else Row(TargetKey(line), extraction, i, PaymentRow, line.paid, TargetAmount(line), h.currency, h.reference)
  }

  /** Whether a line has something to post: an adjustment never invents an invoice. */
  predicate Postable(e: Entry, keys: set<string>) {
    var key := TargetKey(e.1);
    key != "" && (e.1.kind == AdjustmentLine ==> key in keys && TargetAmount(e.1) != 0)
  }

  function PostEntry(l: Ledger, extraction: nat, h: Header, e: Entry): Ledger {
    if !Postable(e, l.invoices.Keys) || HasRow(l.rows, extraction, e.0) then l
    else
      var key := TargetKey(e.1);
      Ledger(if key in l.invoices then l.invoices else l.invoices[key := EmailInvoice(h, e.1)],
             l.rows + [RowFor(extraction, h, e)])
  }

  function PostEntries(l: Ledger, extraction: nat, h: Header, es: seq<Entry>): Ledger {
    if es == [] then l
    else PostEntry(PostEntries(l, extraction, h, es[..|es| - 1]), extraction, h, es[|es| - 1])
  }

  function PostPayload(l: Ledger, extraction: nat, p: Payload): Ledger {
    PostEntries(l, extraction, p.header, Ordered(p.lines))
  }

  /** The statuses whose lines are in the ledger. */
  predicate IsPosted(status: ExtractionStatus) { status == Approved || status == AlreadyRecorded }

  predicate IsPayment(ext: Extraction) { ext.isRemittance && ext.canonical.Some? }

  function Post(l: Ledger, extraction: nat, ext: Extraction): Ledger {
    if IsPayment(ext) then PostPayload(l, extraction, ext.canonical.value) else l
  }

  /** `post_extraction`. */
  method PostExtraction(db: Database, id: nat) returns (posted: nat)
    requires id < |db.extractions|
    modifies db`invoices, db`rows
    ensures db.Books() == Post(old(db.Books()), id, db.extractions[id])
    ensures old(db.rows) <= db.rows && posted == |db.rows| - |old(db.rows)|
  {
    hide PostEntry, Ordered;
    posted := 0;
    var ext := db.extractions[id];
    if !IsPayment(ext) {
      return;
    }
    var p := ext.canonical.value;
    var ordered := Ordered(p.lines);
    for n := 0 to |ordered|
      invariant db.Books() == PostEntries(old(db.Books()), id, p.header, ordered[..n])
      invariant old(db.rows) <= db.rows && posted == |db.rows| - |old(db.rows)|
    {
      assert ordered[..n + 1][..n] == ordered[..n];
      var added := PostLine(db, id, p.header, ordered[n]);
      posted := posted + added;
    }
    assert ordered[..|ordered|] == ordered;
  }

  method PostLine(db: Database, id: nat, h: Header, e: Entry) returns (added: nat)
    modifies db`invoices, db`rows
    ensures db.Books() == PostEntry(old(db.Books()), id, h, e)
    ensures old(db.rows) <= db.rows && added == |db.rows| - |old(db.rows)|
  {
    added := 0;
    var (i, line) := e;
    var key := TargetKey(line);
    if line.kind != AdjustmentLine && key == "" {
      return;
    }
    if HasRow(db.rows, id, i) {
      return;
    }
    if line.kind == AdjustmentLine {
      if key == "" || key !in db.invoices || TargetAmount(line) == 0 {
        return; // never invent an invoice from an adjustment
      }
    } else if key !in db.invoices {
      db.invoices := db.invoices[key := EmailInvoice(h, line)];
    }
    db.rows := db.rows + [RowFor(id, h, e)];
    added := 1;
  }

  // ----- what posting adds -----

  /** Invoices keep their values, rows are only appended, and only for `extraction`. */
  ghost predicate Grows(l: Ledger, l': Ledger, extraction: nat) {
    && (forall k | k in l.invoices :: k in l'.invoices && l'.invoices[k] == l.invoices[k])
    && l.rows <= l'.rows
    && (forall j | |l.rows| <= j < |l'.rows| :: l'.rows[j].extraction == extraction)
  }

  lemma {:induction false} PostingGrows(l: Ledger, extraction: nat, h: Header, es: seq<Entry>)
    ensures Grows(l, PostEntries(l, extraction, h, es), extraction)
  {
    if es != [] { PostingGrows(l, extraction, h, es[..|es| - 1]); }
  }

  /** Rows belong to invoices: the foreign key of the payment table. */
  ghost predicate RowsHaveInvoices(l: Ledger) {
    forall r | r in l.rows :: r.key in l.invoices
  }

  ghost predicate Fresh(rows: seq<Row>, extraction: nat) {
    forall r | r in rows :: r.extraction != extraction
  }

  /** Two lines never share a position. */
  ghost predicate DistinctEntries(es: seq<Entry>) {
    forall a, b | 0 <= a < b < |es| :: es[a].0 != es[b].0
  }

  lemma {:induction false} KindDistinct(lines: seq<LineItem>, kind: LineKind)
    ensures DistinctEntries(OfKind(lines, kind))
    ensures forall e | e in OfKind(lines, kind) :: e.0 < |lines| && lines[e.0] == e.1 && e.1.kind == kind
    ensures forall i | 0 <= i < |lines| && lines[i].kind == kind :: (i, lines[i]) in OfKind(lines, kind)
  {
    if lines != [] {
      var n := |lines| - 1;
      KindDistinct(lines[..n], kind);
      var es := OfKind(lines[..n], kind);
      assert forall e | e in es :: e.0 < n;
      assert forall a | 0 <= a < |es| :: es[a] in es;
      forall i | 0 <= i < |lines| && lines[i].kind == kind ensures (i, lines[i]) in OfKind(lines, kind) {
        if i < n { assert lines[..n][i] == lines[i]; }
      }
    }
  }

  /** `Ordered` is the payload's lines with their positions, each once, invoice lines first. */
  lemma OrderedIsAllLines(lines: seq<LineItem>)
    ensures DistinctEntries(Ordered(lines))
    ensures forall e :: e in Ordered(lines) <==> e.0 < |lines| && lines[e.0] == e.1
  {
    KindDistinct(lines, InvoiceLine);
    KindDistinct(lines, AdjustmentLine);
    var a, b := OfKind(lines, InvoiceLine), OfKind(lines, AdjustmentLine);
    assert forall i | 0 <= i < |a| :: a[i] in a;
    assert forall i | 0 <= i < |b| :: b[i] in b;
  }

  lemma {:induction false} RowsComeFromEntries(l: Ledger, extraction: nat, h: Header, es: seq<Entry>)
    ensures var l' := PostEntries(l, extraction, h, es);
      forall r | r in l'.rows :: r in l.rows || exists e | e in es :: r == RowFor(extraction, h, e)
  {
    if es != [] {
      var front := es[..|es| - 1];
      RowsComeFromEntries(l, extraction, h, front);
      var l' := PostEntries(l, extraction, h, es);
      forall r | r in l'.rows && r !in l.rows ensures exists e | e in es :: r == RowFor(extraction, h, e) {
        if r in PostEntries(l, extraction, h, front).rows {
          var e :| e in front && r == RowFor(extraction, h, e);
          assert e in es;
        } else {
          assert es[|es| - 1] in es;
        }
      }
    }
  }

  /** The entry after `front` has no row yet. */
  lemma NextIsUnposted(l: Ledger, extraction: nat, h: Header, es: seq<Entry>)
    requires es != [] && DistinctEntries(es) && Fresh(l.rows, extraction)
    ensures !HasRow(PostEntries(l, extraction, h, es[..|es| - 1]).rows, extraction, es[|es| - 1].0)
  {
    RowsComeFromEntries(l, extraction, h, es[..|es| - 1]);
  }

  predicate InCurrency(currency: Option<string>, h: Header) {
    currency.None? || currency.value == h.currency
  }

  /** One more invoice line, not posted before, settles its amount on its own invoice. */
  lemma InvoiceLineSettles(l: Ledger, extraction: nat, h: Header, e: Entry, key: string, currency: Option<string>)
    requires !HasRow(l.rows, extraction, e.0) && key != "" && e.1.kind == InvoiceLine
    ensures SettledOn(PostEntry(l, extraction, h, e).rows, key, currency)
         == SettledOn(l.rows, key, currency)
            + if InCurrency(currency, h) && TargetKey(e.1) == key then TargetAmount(e.1) else 0
    ensures key in PostEntry(l, extraction, h, e).invoices <==> key in l.invoices || TargetKey(e.1) == key
  {
    hide NumberKey, LineSettled, EmailInvoice;
    var row := RowFor(extraction, h, e);
    assert (l.rows + [row])[..|l.rows|] == l.rows;
  }

  /** Posting invoice lines settles, on every invoice, exactly what they sum to there. */
  lemma {:induction false} InvoiceLinesSettle(
    l: Ledger, extraction: nat, h: Header, es: seq<Entry>, key: string, currency: Option<string>)
    requires DistinctEntries(es) && Fresh(l.rows, extraction) && key != ""
    requires forall e | e in es :: e.1.kind == InvoiceLine
    ensures SettledOn(PostEntries(l, extraction, h, es).rows, key, currency)
         == SettledOn(l.rows, key, currency) + if InCurrency(currency, h) then SumOn(es, key) else 0
    ensures key in PostEntries(l, extraction, h, es).invoices <==> key in l.invoices || Targets(es, key)
  {
    hide NumberKey, LineSettled, EmailInvoice, PostEntry, RowFor;
    if es != [] {
      var front, e := es[..|es| - 1], es[|es| - 1];
      InvoiceLinesSettle(l, extraction, h, front, key, currency);
      NextIsUnposted(l, extraction, h, es);
      assert e in es;
      InvoiceLineSettles(PostEntries(l, extraction, h, front), extraction, h, e, key, currency);
      TargetsSnoc(front, e, key);
      assert es == front + [e];
    }
  }

  lemma TargetsSnoc(es: seq<Entry>, e: Entry, key: string)
    ensures Targets(es + [e], key) <==> Targets(es, key) || TargetKey(e.1) == key
  {
    var all := es + [e];
    if Targets(es, key) {
      var j :| 0 <= j < |es| && TargetKey(es[j].1) == key;
      assert all[j] == es[j];
    }
    assert all[|es|] == e;
  }

  lemma AdjustmentSettles(l: Ledger, extraction: nat, h: Header, e: Entry, key: string, currency: Option<string>)
    requires e.1.kind == AdjustmentLine && !HasRow(l.rows, extraction, e.0) && key != ""
    ensures var l' := PostEntry(l, extraction, h, e);
      && l'.invoices == l.invoices
      && (key in l.invoices ==>
            SettledOn(l'.rows, key, currency)
            == SettledOn(l.rows, key, currency)
               + if InCurrency(currency, h) && TargetKey(e.1) == key then TargetAmount(e.1) else 0)
  {
    hide NumberKey, LineSettled, EmailInvoice;
    var row := RowFor(extraction, h, e);
    assert (l.rows + [row])[..|l.rows|] == l.rows;
  }

  /** Posting adjustments creates no invoice and settles what they sum to on the invoices there are. */
  lemma {:induction false} AdjustmentsSettle(
    l: Ledger, extraction: nat, h: Header, first: seq<Entry>, es: seq<Entry>, key: string, currency: Option<string>)
    requires DistinctEntries(first + es) && Fresh(l.rows, extraction) && key != ""
    requires forall e | e in es :: e.1.kind == AdjustmentLine
    ensures var l1, l2 := PostEntries(l, extraction, h, first), PostEntries(l, extraction, h, first + es);
      && l2.invoices == l1.invoices
      && (key in l1.invoices ==>
            SettledOn(l2.rows, key, currency)
            == SettledOn(l1.rows, key, currency) + if InCurrency(currency, h) then SumOn(es, key) else 0)
  {
    hide NumberKey, LineSettled, EmailInvoice, PostEntry, SettledOn, TargetKey, TargetAmount, InCurrency;
    if es == [] {
      assert first + es == first;
    } else {
      var front, e := es[..|es| - 1], es[|es| - 1];
      var all := first + es;
      assert all[..|all| - 1] == first + front;
      AdjustmentsSettle(l, extraction, h, first, front, key, currency);
      NextIsUnposted(l, extraction, h, all);
      assert e in es;
      AdjustmentSettles(PostEntries(l, extraction, h, first + front), extraction, h, e, key, currency);
    }
  }

  lemma {:induction false} SumAppend(a: seq<Entry>, b: seq<Entry>, key: string)
    ensures SumOn(a + b, key) == SumOn(a, key) + SumOn(b, key)
  {
    if b == [] {
      assert a + b == a;
    } else {
      assert (a + b)[..|a + b| - 1] == a + b[..|b| - 1];
      SumAppend(a, b[..|b| - 1], key);
    }
  }

  /** Posting a payload for the first time settles, on every invoice the ledger then has, exactly what
      the payload's lines sum to there; the invoices added are those its invoice lines name. */
  lemma PostingSettles(l: Ledger, extraction: nat, p: Payload, key: string, currency: Option<string>)
    requires Fresh(l.rows, extraction) && key != ""
    ensures var l' := PostPayload(l, extraction, p); var es := Ordered(p.lines);
      && (key in l'.invoices ==>
            SettledOn(l'.rows, key, currency)
            == SettledOn(l.rows, key, currency) + if InCurrency(currency, p.header) then SumOn(es, key) else 0)
      && (key in l'.invoices <==> key in l.invoices || Targets(OfKind(p.lines, InvoiceLine), key))
  {
    var a, b := OfKind(p.lines, InvoiceLine), OfKind(p.lines, AdjustmentLine);
    OrderedIsAllLines(p.lines);
    KindDistinct(p.lines, InvoiceLine);
    KindDistinct(p.lines, AdjustmentLine);
    InvoiceLinesSettle(l, extraction, p.header, a, key, currency);
    AdjustmentsSettle(l, extraction, p.header, a, b, key, currency);
    SumAppend(a, b, key);
  }

  // ----- at most one row per line, however often posting runs -----

  ghost predicate OneRowPerLine(rows: seq<Row>) {
    forall a, b | 0 <= a < b < |rows| :: rows[a].extraction != rows[b].extraction || rows[a].line != rows[b].line
  }

  lemma {:induction false} PostingKeepsOneRow(l: Ledger, extraction: nat, h: Header, es: seq<Entry>)
    requires OneRowPerLine(l.rows)
    ensures OneRowPerLine(PostEntries(l, extraction, h, es).rows)
  {
    if es != [] {
      PostingKeepsOneRow(l, extraction, h, es[..|es| - 1]);
      var rows := PostEntries(l, extraction, h, es[..|es| - 1]).rows;
      assert forall a | 0 <= a < |rows| :: rows[a] in rows;
    }
  }
}
