/** No silent overpayment: what a clean ledger check guarantees once the payment is posted. */
module Overpayment {
  import opened Models
  import opened Matching
  import opened Balance
  import opened Checks
  import opened Posting
  import opened Adjustments
  import opened Validators

  lemma {:induction false} CleanEntry(l: Ledger, h: Header, es: seq<Entry>, n: nat, j: nat)
    requires j < n <= |es| && FlagsUpTo(l, h, es, n) == []
    ensures EntryFlags(l, h, es, j) == []
  {
    hide EntryFlags;
    if j < n - 1 { CleanEntry(l, h, es, n - 1, j); }
  }

  predicate SameCurrency(l: Ledger, h: Header, key: string)
    requires key in l.invoices
  {
    l.invoices[key].currency == h.currency
  }

  /** One clean entry leaves its invoice, after everything up to it, outstanding at least -TOLERANCE. */
  lemma CleanEntryFits(l: Ledger, h: Header, es: seq<Entry>, j: nat)
    requires j < |es| && EntryFlags(l, h, es, j) == []
    requires TargetKey(es[j].1) != "" && TargetKey(es[j].1) in l.invoices
    ensures var key := TargetKey(es[j].1);
      SameCurrency(l, h, key) && Outstanding(l, key) - SumOn(es[..j + 1], key) >= -TOLERANCE
  {
    assert es[..j + 1] == es[..j] + [es[j]];
    SumSnoc(es[..j], es[j], TargetKey(es[j].1));
  }

  /** The same for a new invoice of this payment, once an adjustment of it has been checked. */
  ghost predicate ReductionFits(l: Ledger, es: seq<Entry>, j: nat)
    requires j < |es|
  {
    var key := TargetKey(es[j].1);
    es[j].1.kind == AdjustmentLine && key != "" && key !in l.invoices
    && StatedFor(es[..j], key).Some? && StatedFor(es[..j], key).value > 0 ==>
      StatedFor(es[..j], key).value - SumOn(es[..j + 1], key) >= -TOLERANCE
  }

  lemma CleanReductionFits(l: Ledger, h: Header, es: seq<Entry>, j: nat)
    requires j < |es| && EntryFlags(l, h, es, j) == []
    ensures ReductionFits(l, es, j)
  {
    assert es[..j + 1] == es[..j] + [es[j]];
    SumSnoc(es[..j], es[j], TargetKey(es[j].1));
  }

  ghost predicate ReductionsFit(l: Ledger, es: seq<Entry>) {
    forall j | 0 <= j < |es| :: ReductionFits(l, es, j)
  }

  lemma CleanReductionsFit(l: Ledger, listing: seq<string>, p: Payload)
    requires LedgerFlags(l, listing, p) == []
    ensures ReductionsFit(l, Ordered(p.lines))
  {
    var es := Ordered(p.lines);
    forall j | 0 <= j < |es| ensures ReductionFits(l, es, j) {
      CleanEntry(l, p.header, es, |es|, j);
      CleanReductionFits(l, p.header, es, j);
    }
  }

  lemma {:induction false} LastTarget(es: seq<Entry>, key: string) returns (j: nat)
    requires Targets(es, key)
    ensures j < |es| && TargetKey(es[j].1) == key && SumOn(es[..j + 1], key) == SumOn(es, key)
    ensures forall i | j < i < |es| :: TargetKey(es[i].1) != key
  {
    hide NumberKey, TargetAmount;
    var front, e := es[..|es| - 1], es[|es| - 1];
    if TargetKey(e.1) == key {
      j := |es| - 1;
      assert es[..j + 1] == es;
    } else {
      TargetsSnoc(front, e, key);
      assert es == front + [e];
      j := LastTarget(front, key);
      assert es[..j + 1] == front[..j + 1];
    }
  }

  lemma {:induction false} UntouchedSum(es: seq<Entry>, key: string)
    requires !Targets(es, key)
    ensures SumOn(es, key) == 0
  {
    if es != [] {
      TargetsSnoc(es[..|es| - 1], es[|es| - 1], key);
      assert es == es[..|es| - 1] + [es[|es| - 1]];
      UntouchedSum(es[..|es| - 1], key);
    }
  }

  predicate Touches(p: Payload, key: string) { Targets(Ordered(p.lines), key) }

  /** If the check returns no flag and the payment is then posted for the first time, every invoice the
      ledger already had keeps its values; one the payment touches, in whatever mixture of lines,
      spellings and adjustments, ends outstanding at least -TOLERANCE, and any other is unchanged. */
  lemma NoSilentOverpayment(l: Ledger, listing: seq<string>, extraction: nat, p: Payload, key: string)
    requires LedgerFlags(l, listing, p) == [] && Fresh(l.rows, extraction)
    requires key != "" && key in l.invoices
    ensures var l' := PostPayload(l, extraction, p);
      && key in l'.invoices && l'.invoices[key] == l.invoices[key]
      && (Touches(p, key) ==> SameCurrency(l, p.header, key) && Outstanding(l', key) >= -TOLERANCE)
      && (!Touches(p, key) ==> Outstanding(l', key) == Outstanding(l, key))
  {
    var es := Ordered(p.lines);
    PostingGrows(l, extraction, p.header, es);
    PostingSettles(l, extraction, p, key, Some(l.invoices[key].currency));
    if Touches(p, key) {
      var j := LastTarget(es, key);
      CleanEntry(l, p.header, es, |es|, j);
      CleanEntryFits(l, p.header, es, j);
    } else {
      UntouchedSum(es, key);
    }
  }

  // ----- over a run of approvals -----

  datatype Approval = Approval(extraction: nat, payload: Payload, listing: seq<string>)

  function PostRun(l: Ledger, run: seq<Approval>): Ledger
    decreases run
  {
    if run == [] then l
    else PostRun(PostPayload(l, run[0].extraction, run[0].payload), run[1..])
  }

  /** Each approval is of an extraction posted for the first time, with no flag on the ledger it meets. */
  ghost predicate CleanRun(l: Ledger, run: seq<Approval>)
    decreases run
  {
    run == [] ||
    (&& Fresh(l.rows, run[0].extraction)
     && LedgerFlags(l, run[0].listing, run[0].payload) == []
     && CleanRun(PostPayload(l, run[0].extraction, run[0].payload), run[1..]))
  }

  /** Over any run of flag-free approvals no invoice that is there becomes overpaid; an invoice that
      was overpaid before the run is never touched by it. */
  lemma {:induction false} CleanRunsNeverOverpay(l: Ledger, run: seq<Approval>, key: string)
    requires CleanRun(l, run) && key != "" && key in l.invoices
    ensures var l' := PostRun(l, run);
      && key in l'.invoices && l'.invoices[key] == l.invoices[key]
      && (Outstanding(l, key) >= -TOLERANCE ==> Outstanding(l', key) >= -TOLERANCE)
      && (Outstanding(l, key) < -TOLERANCE ==> Outstanding(l', key) == Outstanding(l, key))
    decreases run
  {
    if run != [] {
      var a := run[0];
      NoSilentOverpayment(l, a.listing, a.extraction, a.payload, key);
      if Outstanding(l, key) < -TOLERANCE && Touches(a.payload, key) {
        SettledInvoiceIsFlagged(l, a.listing, a.payload, key);
      }
      CleanRunsNeverOverpay(PostPayload(l, a.extraction, a.payload), run[1..], key);
    }
  }

  /** Any payment on an invoice that is already paid or overpaid is flagged. */
  lemma SettledInvoiceIsFlagged(l: Ledger, listing: seq<string>, p: Payload, key: string)
    requires key != "" && key in l.invoices && Touches(p, key)
    requires IsSettled(StatusFor(l.invoices[key].amount, PaidOn(l, key)))
    ensures LedgerFlags(l, listing, p) != []
  {
    var es := Ordered(p.lines);
    if LedgerFlags(l, listing, p) == [] {
      var j := FirstTarget(es, key);
      CleanEntry(l, p.header, es, |es|, j);
      UntouchedSum(es[..j], key);
      assert false;
    }
  }

  lemma {:induction false} FirstTarget(es: seq<Entry>, key: string) returns (j: nat)
    requires Targets(es, key)
    ensures j < |es| && TargetKey(es[j].1) == key && !Targets(es[..j], key)
  {
    var front := es[..|es| - 1];
    assert es == front + [es[|es| - 1]];
    TargetsSnoc(front, es[|es| - 1], key);
    if Targets(front, key) {
      j := FirstTarget(front, key);
      assert es[..j] == front[..j];
    } else {
      j := |es| - 1;
    }
  }

  // ----- invoices the payment itself creates -----

  predicate OneInvoiceLine(lines: seq<LineItem>, key: string, i: nat) {
    && i < |lines| && lines[i].kind == InvoiceLine && TargetKey(lines[i]) == key
    && forall n | 0 <= n < |lines| && lines[n].kind == InvoiceLine && TargetKey(lines[n]) == key :: n == i
  }

  /** A new invoice that one line states, with a positive amount the validators accept, is not overpaid
      either: its line cannot exceed the stated amount, and adjustments are checked against it. */
  lemma NewInvoiceNotOverpaid(l: Ledger, listing: seq<string>, extraction: nat, p: Payload, key: string, i: nat)
    requires LedgerFlags(l, listing, p) == [] && NetFlags(p.lines) == []
    requires Fresh(l.rows, extraction) && RowsHaveInvoices(l)
    requires key != "" && key !in l.invoices
    requires OneInvoiceLine(p.lines, key, i) && p.lines[i].invoiceAmount > 0
    ensures var l' := PostPayload(l, extraction, p);
      && key in l'.invoices && l'.invoices[key] == EmailInvoice(p.header, p.lines[i])
      && Outstanding(l', key) >= -TOLERANCE
  {
    CleanReductionsFit(l, listing, p);
    NewInvoiceFits(l, extraction, p, key, i);
  }

  lemma NewInvoiceFits(l: Ledger, extraction: nat, p: Payload, key: string, i: nat)
    requires ReductionsFit(l, Ordered(p.lines))
    requires NetFlags(p.lines) == [] && Fresh(l.rows, extraction) && RowsHaveInvoices(l)
    requires key != "" && key !in l.invoices
    requires OneInvoiceLine(p.lines, key, i) && p.lines[i].invoiceAmount > 0
    ensures var l' := PostPayload(l, extraction, p);
      && key in l'.invoices && l'.invoices[key] == EmailInvoice(p.header, p.lines[i])
      && Outstanding(l', key) >= -TOLERANCE
  {
    var a, b := OfKind(p.lines, InvoiceLine), OfKind(p.lines, AdjustmentLine);
    KindDistinct(p.lines, AdjustmentLine);
    assert forall j | 0 <= j < |b| :: b[j] in b;
    var at := LineAmongInvoices(p.lines, key, i);
    NewInvoiceSum(l, a, b, key, at, p.lines[i].invoiceAmount);
    NewInvoiceOutstanding(l, extraction, p, key, at);
  }

  lemma LineAmongInvoices(lines: seq<LineItem>, key: string, i: nat) returns (at: nat)
    requires OneInvoiceLine(lines, key, i) && NetFlags(lines) == []
    ensures var a := OfKind(lines, InvoiceLine);
      && at < |a| && a[at] == (i, lines[i])
      && (forall n | 0 <= n < |a| && TargetKey(a[n].1) == key :: n == at)
    ensures LineSettled(lines[i]) <= lines[i].invoiceAmount + TOLERANCE
  {
    var a := OfKind(lines, InvoiceLine);
    KindDistinct(lines, InvoiceLine);
    var e := (i, lines[i]);
    assert e in a;
    at :| 0 <= at < |a| && a[at] == e;
    forall n | 0 <= n < |a| && TargetKey(a[n].1) == key ensures n == at {
      assert a[n] in a;
      assert a[n].0 == i;
    }
    LineWithinInvoice(lines, i);
  }

  lemma NewInvoiceSum(l: Ledger, a: seq<Entry>, b: seq<Entry>, key: string, at: nat, stated: Money)
    requires ReductionsFit(l, a + b)
    requires key != "" && key !in l.invoices && stated > 0
    requires at < |a| && TargetKey(a[at].1) == key && a[at].1.kind == InvoiceLine && a[at].1.invoiceAmount == stated
    requires TargetAmount(a[at].1) <= stated + TOLERANCE
    requires forall n | 0 <= n < |a| && TargetKey(a[n].1) == key :: n == at
    requires forall j | 0 <= j < |b| :: b[j].1.kind == AdjustmentLine
    ensures SumOn(a + b, key) <= stated + TOLERANCE
  {
    SumAppend(a, b, key);
    if Targets(b, key) {
      var j := LastTarget(b, key);
      ReducedSum(l, a, b, key, at, j);
      SumAppend(a, b[..j + 1], key);
    } else {
      OnlyTargetSum(a, key, at);
      UntouchedSum(b, key);
    }
  }

  lemma ReducedSum(l: Ledger, a: seq<Entry>, b: seq<Entry>, key: string, at: nat, j: nat)
    requires ReductionsFit(l, a + b) && key != "" && key !in l.invoices
    requires at < |a| && TargetKey(a[at].1) == key && a[at].1.kind == InvoiceLine && a[at].1.invoiceAmount > 0
    requires forall n | 0 <= n < |a| && TargetKey(a[n].1) == key :: n == at
    requires j < |b| && b[j].1.kind == AdjustmentLine && TargetKey(b[j].1) == key
    ensures SumOn(a + b[..j + 1], key) <= a[at].1.invoiceAmount + TOLERANCE
  {
    var es, n := a + b, |a| + j;
    assert ReductionFits(l, es, n);
    assert es[n] == b[j];
    assert es[..n] == a + b[..j];
    assert es[..n + 1] == a + b[..j + 1];
    StatedByLine(a, b[..j], key, at);
  }

  lemma {:induction false} LineWithinInvoice(lines: seq<LineItem>, i: nat)
    requires NetFlags(lines) == [] && i < |lines|
    ensures LineSettled(lines[i]) <= lines[i].invoiceAmount + TOLERANCE
  {
    if i < |lines| - 1 { LineWithinInvoice(lines[..|lines| - 1], i); }
  }

  lemma {:induction false} OnlyTargetSum(es: seq<Entry>, key: string, at: nat)
    requires at < |es| && TargetKey(es[at].1) == key
    requires forall n | 0 <= n < |es| && TargetKey(es[n].1) == key :: n == at
    ensures SumOn(es, key) == TargetAmount(es[at].1)
  {
    var front := es[..|es| - 1];
    if at == |es| - 1 {
      UntouchedSum(front, key);
    } else {
      OnlyTargetSum(front, key, at);
    }
  }

  lemma {:induction false} StatedByLine(a: seq<Entry>, b: seq<Entry>, key: string, at: nat)
    requires at < |a| && TargetKey(a[at].1) == key && a[at].1.kind == InvoiceLine
    requires forall n | 0 <= n < |a| && TargetKey(a[n].1) == key :: n == at
    ensures StatedFor(a + b, key) == Some(a[at].1.invoiceAmount)
  {
    if at > 0 {
      assert (a + b)[1..] == a[1..] + b;
      StatedByLine(a[1..], b, key, at - 1);
    }
  }

  lemma {:induction false} CreatedInvoice(l: Ledger, extraction: nat, h: Header, es: seq<Entry>, key: string, at: nat)
    requires at < |es| && TargetKey(es[at].1) == key && !Targets(es[..at], key)
    requires key != "" && key !in l.invoices
    requires forall e | e in es :: e.1.kind == InvoiceLine
    requires DistinctEntries(es) && Fresh(l.rows, extraction)
    ensures var l' := PostEntries(l, extraction, h, es);
      key in l'.invoices && l'.invoices[key] == EmailInvoice(h, es[at].1)
  {
    hide NumberKey, EmailInvoice, RowFor;
    var front := es[..|es| - 1];
    NextIsUnposted(l, extraction, h, es);
    if at == |es| - 1 {
      InvoiceLinesSettle(l, extraction, h, front, key, None);
    } else {
      assert front[..at] == es[..at];
      CreatedInvoice(l, extraction, h, front, key, at);
    }
  }

  /** Posting gives an invoice the ledger lacks the amount of the first line that names it, and leaves it
      outstanding by that amount less everything the payload settles on it: whether it ends overpaid can
      be read off the payload alone. */
  lemma NewInvoiceOutstanding(l: Ledger, extraction: nat, p: Payload, key: string, at: nat)
    requires Fresh(l.rows, extraction) && RowsHaveInvoices(l) && key != "" && key !in l.invoices
    requires var a := OfKind(p.lines, InvoiceLine); at < |a| && TargetKey(a[at].1) == key && !Targets(a[..at], key)
    ensures var l', invoice := PostPayload(l, extraction, p),
      EmailInvoice(p.header, OfKind(p.lines, InvoiceLine)[at].1);
      && key in l'.invoices && l'.invoices[key] == invoice
      && Outstanding(l', key) == invoice.amount - SumOn(Ordered(p.lines), key)
  {
    var a, b := OfKind(p.lines, InvoiceLine), OfKind(p.lines, AdjustmentLine);
    KindDistinct(p.lines, InvoiceLine);
    CreatedInvoice(l, extraction, p.header, a, key, at);
    OrderedIsAllLines(p.lines);
    KindDistinct(p.lines, AdjustmentLine);
    AdjustmentsSettle(l, extraction, p.header, a, b, key, None);
    PostingSettles(l, extraction, p, key, Some(p.header.currency));
    NothingSettled(l.rows, key, Some(p.header.currency));
  }

  // ----- where the promise stops: invoices the payment itself creates -----

  function PlainHeader(total: Money): Header {
    Header("Acme", "", None, None, "INR", total, [])
  }

  function PlainLine(number: string, invoiceAmount: Money, paid: Money): LineItem {
    LineItem(number, None, invoiceAmount, [], paid, InvoiceLine, "")
  }

  predicate ClaimsWhatItPays(line: LineItem) {
    line.kind == InvoiceLine && line.invoiceAmount == LineSettled(line)
  }

  /** Before any invoice is known, lines that claim what they pay are never flagged. */
  lemma EmptyLedgerIsClean(p: Payload)
    requires forall i | 0 <= i < |p.lines| :: ClaimsWhatItPays(p.lines[i])
    ensures LedgerFlags(Ledger(map[], []), [], p) == []
  {
    var es := Ordered(p.lines);
    OrderedIsAllLines(p.lines);
    assert forall j | 0 <= j < |es| :: es[j] in es;
    EmptyLedgerFlags(p.header, es, |es|);
    NoAdjustmentNoFlag(PoolsOf(map[], [], p), p.lines, |p.lines|);
  }

  lemma EmptyLedgerEntry(h: Header, es: seq<Entry>, j: nat)
    requires j < |es| && ClaimsWhatItPays(es[j].1)
    ensures EntryFlags(Ledger(map[], []), h, es, j) == []
  {
    hide NumberKey, SumOn, StatedFor, KnownInvoiceFlags, ReductionLineFlags;
  }

  lemma {:induction false} EmptyLedgerFlags(h: Header, es: seq<Entry>, n: nat)
    requires n <= |es| && forall j | 0 <= j < |es| :: ClaimsWhatItPays(es[j].1)
    ensures FlagsUpTo(Ledger(map[], []), h, es, n) == []
  {
    hide EntryFlags, ClaimsWhatItPays;
    if n > 0 {
      EmptyLedgerFlags(h, es, n - 1);
      EmptyLedgerEntry(h, es, n - 1);
    }
  }

  function TwoLines(n1: string, n2: string, amount: Money): Payload {
    Payload(0, None, PlainHeader(2 * amount), [PlainLine(n1, amount, amount), PlainLine(n2, amount, amount)])
  }

  lemma TwoLinesOrdered(n1: string, n2: string, amount: Money)
    ensures var p := TwoLines(n1, n2, amount); var es: seq<Entry> := [(0, p.lines[0]), (1, p.lines[1])];
      Ordered(p.lines) == OfKind(p.lines, InvoiceLine) == es
  {
    var a, b := PlainLine(n1, amount, amount), PlainLine(n2, amount, amount);
    assert [a, b][..1] == [a] && [a][..0] == [];
    assert OfKind([a], InvoiceLine) == [(0, a)] && OfKind([a], AdjustmentLine) == [];
  }

  /** There are such spellings. */
  lemma TwoSpellingsOfA1()
    ensures "A1" != "A-1" && NumberKey("A1") == "A1" == NumberKey("A-1") && Trim("A1") != "" && Trim("A-1") != ""
  {
    assert "A-1"[1..] == "-1" && "-1"[1..] == "1" && "A1"[1..] == "1" && "1"[1..] == "";
    assert Keep("-1", c => !IsSeparator(c)) == "1";
    assert Keep("A-1", c => !IsSeparator(c)) == "A1";
    assert Keep("A1", c => !IsSeparator(c)) == "A1";
  }

  /** Two spellings of one new invoice, each paying its whole amount: no check flags them, and the
      invoice ends overpaid by that amount. */
  lemma TwoSpellingsOverpay(n1: string, n2: string, key: string, amount: Money, today: Date)
    requires n1 != n2 && NumberKey(n1) == NumberKey(n2) == key != "" && Trim(n1) != "" && Trim(n2) != "" && amount >= 0
    ensures LedgerFlags(Ledger(map[], []), [], TwoLines(n1, n2, amount)) == []
    ensures ValidatorFlags(TwoLines(n1, n2, amount), today) == []
    ensures var l' := PostPayload(Ledger(map[], []), 0, TwoLines(n1, n2, amount));
      key in l'.invoices && Outstanding(l', key) == -amount
  {
    EmptyLedgerIsClean(TwoLines(n1, n2, amount));
    TwoSpellingsValidate(n1, n2, amount, today);
    TwoSpellingsPost(n1, n2, key, amount);
  }

  lemma TwoSpellingsPost(n1: string, n2: string, key: string, amount: Money)
    requires NumberKey(n1) == NumberKey(n2) == key != "" && amount >= 0
    ensures var l' := PostPayload(Ledger(map[], []), 0, TwoLines(n1, n2, amount));
      key in l'.invoices && Outstanding(l', key) == -amount
  {
    var p := TwoLines(n1, n2, amount);
    TwoLinesOrdered(n1, n2, amount);
    var es: seq<Entry> := [(0, p.lines[0]), (1, p.lines[1])];
    SumSnoc([], es[0], key);
    SumSnoc([es[0]], es[1], key);
    assert [] + [es[0]] == [es[0]] && es == [es[0]] + [es[1]];
    assert !Targets(es[..0], key);
    NewInvoiceOutstanding(Ledger(map[], []), 0, p, key, 0);
  }

  lemma TwoSpellingsValidate(n1: string, n2: string, amount: Money, today: Date)
    requires n1 != n2 && Trim(n1) != "" && Trim(n2) != "" && amount >= 0
    ensures ValidatorFlags(TwoLines(n1, n2, amount), today) == []
  {
    hide NetFlags, TotalFlags, SignFlags, RepeatFlags, BlankFlags, HeaderFlags, ShapeFlags;
    var p := TwoLines(n1, n2, amount);
    WholeLinesClean(p.lines);
    NoRepeats(p.lines[0], p.lines[1]);
    PlainHeaderClean(2 * amount);
    TwoLinesTotal(n1, n2, amount);
  }

  lemma TwoLinesTotal(n1: string, n2: string, amount: Money)
    ensures TotalFlags(TwoLines(n1, n2, amount)) == []
  {
    var lines := TwoLines(n1, n2, amount).lines;
    assert lines[..1] == [lines[0]] && lines[..1][..0] == [];
    assert PaidSum(lines[..1]) == amount;
  }

  lemma PlainHeaderClean(total: Money)
    ensures HeaderFlags(PlainHeader(total)) == []
  {
    assert Trim("Acme") == "Acme";
  }

  lemma {:induction false} WholeLinesClean(lines: seq<LineItem>)
    requires forall i | 0 <= i < |lines| ::
      ClaimsWhatItPays(lines[i]) && lines[i].paid >= 0 && Trim(lines[i].number) != ""
    ensures NetFlags(lines) == [] && SignFlags(lines) == [] && BlankFlags(lines) == [] && ShapeFlags(lines) == []
  {
    if lines != [] { WholeLinesClean(lines[..|lines| - 1]); }
  }

  lemma NoRepeats(a: LineItem, b: LineItem)
    requires a.number != b.number
    ensures RepeatFlags([a, b], [a, b]) == []
  {
    assert [a, b][..1] == [a] && [a][..0] == [];
    assert Occurrences([a], a.number) == 1 && Occurrences([a], b.number) == 0;
    assert Occurrences([a, b], a.number) == 1 && Occurrences([a, b], b.number) == 1;
    assert RepeatFlags([a], [a, b]) == [];
  }
}
