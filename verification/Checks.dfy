/** A payment against the invoice ledger (ar_pipeline/ledger/checks.py). */
module Checks {
  import opened Models
  import opened Matching
  import opened Balance
  import opened Adjustments

  /** A line with its position in the payload. */
  type Entry = (nat, LineItem)

  function OfKind(lines: seq<LineItem>, kind: LineKind): seq<Entry> {
    if lines == [] then []
    else
      var n := |lines| - 1;
      OfKind(lines[..n], kind) + if lines[n].kind == kind then [(n, lines[n])] else []
  }

  /** Invoice lines first, then adjustments: the order in which lines are checked and posted. */
  function Ordered(lines: seq<LineItem>): seq<Entry> {
    OfKind(lines, InvoiceLine) + OfKind(lines, AdjustmentLine)
  }

  /** What the entries settle on invoice `key`. */
  function SumOn(es: seq<Entry>, key: string): Money {
    if es == [] then 0
    else
      var line := es[|es| - 1].1;
      SumOn(es[..|es| - 1], key) + if TargetKey(line) == key then TargetAmount(line) else 0
  }

  predicate Targets(es: seq<Entry>, key: string) {
    exists j | 0 <= j < |es| :: TargetKey(es[j].1) == key
  }

  /** What the first invoice line for `key` says the invoice is for. */
  function StatedFor(es: seq<Entry>, key: string): Option<Money> {
    if es == [] then None
    else if es[0].1.kind == InvoiceLine && TargetKey(es[0].1) == key then Some(es[0].1.invoiceAmount)
    else StatedFor(es[1..], key)
  }

  // ----- the flags of one line, given what earlier lines settle -----

  predicate IsRepeat(rows: seq<Row>, key: string, reference: string, paid: Money) {
    exists r | r in rows :: r.key == key && r.reference == reference && r.paid == paid && r.kind == PaymentRow
  }

  predicate HasNearMatch(invoices: map<string, Invoice>, number: string) {
    exists k | k in invoices :: IsNearMatch(number, invoices[k].number)
  }

  predicate BooksLoaded(invoices: map<string, Invoice>) {
    exists k | k in invoices :: invoices[k].source == Books
  }

  predicate StatesTotal(line: LineItem) {
    Abs(line.invoiceAmount - LineSettled(line)) > TOLERANCE
  }

  /** An invoice line whose invoice is not in the ledger: whether a known number is near it, and whether the
      books were ever loaded. */
  function MissingFlags(near: bool, books: bool, i: nat, line: LineItem): seq<Flag> {
    (if near then [DidYouMean(i, line.number)] else if books then [NotInBooks(i, line.number)] else [])
    + if StatesTotal(line) && LineSettled(line) < line.invoiceAmount
      then [PartialOfEmail(i, line.number, LineSettled(line), line.invoiceAmount)] else []
  }

  function UnknownInvoiceFlags(l: Ledger, i: nat, line: LineItem): seq<Flag> {
    MissingFlags(HasNearMatch(l.invoices, line.number), BooksLoaded(l.invoices), i, line)
  }

  /** An invoice line on a known invoice of which `paid` is settled, here or by earlier lines. */
  function InvoiceFlags(invoice: Invoice, paid: Money, repeated: bool, h: Header, i: nat, line: LineItem): seq<Flag> {
    var settled, outstanding := LineSettled(line), invoice.amount - paid;
    (if PayersDiffer(h.payer, invoice.payer) then [OtherPayer(i, line.number, invoice.payer, h.payer)] else [])
    + (if StatesTotal(line) && Abs(line.invoiceAmount - invoice.amount) > TOLERANCE
       then [AmountDiffers(i, line.number, line.invoiceAmount, invoice.amount, invoice.source)] else [])
    + (if repeated then [AlreadyApproved(i, line.number, h.reference, line.paid)] else [])
    + if IsSettled(StatusFor(invoice.amount, paid)) then [AlreadyPaid(i, line.number)]
      else if settled > outstanding + TOLERANCE then [Overpays(i, line.number, settled, outstanding)]
      else if settled < outstanding - TOLERANCE && invoice.source == FromEmail
        then [PartialOfUnverified(i, line.number, settled, outstanding)]
      else []
  }

  /** An invoice line whose invoice is in the ledger; `before` is what earlier lines settle on it. */
  function KnownInvoiceFlags(l: Ledger, h: Header, i: nat, line: LineItem, before: Money): seq<Flag>
    requires TargetKey(line) in l.invoices
  {
    var key := TargetKey(line);
    var invoice := l.invoices[key];
    if h.currency != invoice.currency then [OtherCurrency(i, line.number, h.currency, invoice.currency)]
    else
      InvoiceFlags(invoice, PaidOn(l, key) + before,
                   h.reference != "" && IsRepeat(l.rows, key, h.reference, line.paid), h, i, line)
  }

  /** `_adjustment_balance_flags`. */
  function ReductionFlags(i: nat, number: string, invoiceAmount: Money, paid: Money, amount: Money): seq<Flag> {
    if IsSettled(StatusFor(invoiceAmount, paid)) then [AdjustsPaid(i, number)]
    else if amount > invoiceAmount - paid + TOLERANCE then [AdjustsTooMuch(i, number, amount, invoiceAmount - paid)]
    else []
  }

  /** An adjustment; `stated` is the amount of a new invoice of the same payment. */
  function ReductionLineFlags(
    l: Ledger, h: Header, i: nat, line: LineItem, before: Money, stated: Option<Money>): seq<Flag> {
    var key, amount := TargetKey(line), TargetAmount(line);
    if key !in l.invoices then
      if stated.Some? && stated.value > 0 then ReductionFlags(i, line.appliesTo, stated.value, before, amount) else []
    else
      var target := l.invoices[key];
      if target.currency != h.currency then [AdjustsOtherCurrency(i, amount, h.currency, target.currency)]
      else
        (if PayersDiffer(h.payer, target.payer) then [AdjustsOtherPayer(i, target.number, target.payer, h.payer)]
          else [])
        + ReductionFlags(i, target.number, target.amount, PaidOn(l, key) + before, amount)
  }

  /** The flags of entry `j`, with the sums of the entries before it in place of running dictionaries. */
  function EntryFlags(l: Ledger, h: Header, es: seq<Entry>, j: nat): seq<Flag>
    requires j < |es|
  {
    var (i, line) := es[j];
    var key := TargetKey(line);
    if key == "" then []
    else if line.kind == AdjustmentLine then
      ReductionLineFlags(l, h, i, line, SumOn(es[..j], key), StatedFor(es[..j], key))
    else if key !in l.invoices then UnknownInvoiceFlags(l, i, line)
    else KnownInvoiceFlags(l, h, i, line, SumOn(es[..j], key))
  }

  function FlagsUpTo(l: Ledger, h: Header, es: seq<Entry>, n: nat): seq<Flag>
    requires n <= |es|
  {
    if n == 0 then [] else FlagsUpTo(l, h, es, n - 1) + EntryFlags(l, h, es, n - 1)
  }

  function LedgerFlags(l: Ledger, listing: seq<string>, p: Payload): seq<Flag> {
    var es := Ordered(p.lines);
    FlagsUpTo(l, p.header, es, |es|) + AdjustmentFlags(l.invoices, listing, p)
  }

  // ----- the check itself: two loops with running dictionaries -----

  /** Where a later line can read them, `earlier` holds the sums so far and `stated` the stated amounts. */
  ghost predicate AgreesAt(
    l: Ledger, h: Header, es: seq<Entry>, earlier: map<string, Money>, stated: map<string, Money>,
    adjusting: bool, k: string)
  {
    if k == "" then true
    else if k in l.invoices then l.invoices[k].currency == h.currency ==> Get(earlier, k) == SumOn(es, k)
    else
      && StatedFor(es, k) == (if k in stated then Some(stated[k]) else None)
      && ((adjusting ==> k in stated && stated[k] > 0) ==> Get(earlier, k) == SumOn(es, k))
  }

  ghost predicate Agrees(
    l: Ledger, h: Header, es: seq<Entry>, earlier: map<string, Money>, stated: map<string, Money>, adjusting: bool)
  {
    forall k :: AgreesAt(l, h, es, earlier, stated, adjusting, k)
  }

  /** Whether the line's amount is added to `earlier`. */
  predicate Adds(l: Ledger, h: Header, line: LineItem, stated: map<string, Money>) {
    var key := TargetKey(line);
    if key == "" then false
    else if key in l.invoices then l.invoices[key].currency == h.currency
    else line.kind == InvoiceLine || (key in stated && stated[key] > 0)
  }

  function AddTo(m: map<string, Money>, key: string, amount: Money): map<string, Money> {
    m[key := Get(m, key) + amount]
  }

  function EarlierAfter(
    l: Ledger, h: Header, line: LineItem, earlier: map<string, Money>, stated: map<string, Money>): map<string, Money> {
    if Adds(l, h, line, stated) then AddTo(earlier, TargetKey(line), TargetAmount(line)) else earlier
  }

  function StatedAfter(l: Ledger, line: LineItem, stated: map<string, Money>): map<string, Money> {
    var key := TargetKey(line);
    if line.kind == InvoiceLine && key != "" && key !in l.invoices && key !in stated
    then stated[key := line.invoiceAmount] else stated
  }

  lemma {:induction false} StatedForAppend(es: seq<Entry>, e: Entry, key: string)
    ensures StatedFor(es + [e], key)
         == if StatedFor(es, key).Some? then StatedFor(es, key)
            else if e.1.kind == InvoiceLine && TargetKey(e.1) == key then Some(e.1.invoiceAmount) else None
  {
    if es != [] {
      assert (es + [e])[1..] == es[1..] + [e];
      StatedForAppend(es[1..], e, key);
    }
  }

  lemma SumSnoc(es: seq<Entry>, e: Entry, key: string)
    ensures SumOn(es + [e], key) == SumOn(es, key) + if TargetKey(e.1) == key then TargetAmount(e.1) else 0
  {
    assert (es + [e])[..|es|] == es;
  }

  lemma AgreesStep(
    l: Ledger, h: Header, es: seq<Entry>, e: Entry,
    earlier: map<string, Money>, stated: map<string, Money>, adjusting: bool)
    requires Agrees(l, h, es, earlier, stated, adjusting)
    requires adjusting == (e.1.kind == AdjustmentLine)
    ensures Agrees(l, h, es + [e], EarlierAfter(l, h, e.1, earlier, stated), StatedAfter(l, e.1, stated), adjusting)
  {
    forall k: string
      ensures AgreesAt(l, h, es + [e], EarlierAfter(l, h, e.1, earlier, stated), StatedAfter(l, e.1, stated),
        adjusting, k)
    {
      assert AgreesAt(l, h, es, earlier, stated, adjusting, k);
      SumSnoc(es, e, k);
      StatedForAppend(es, e, k);
      NoInvoiceLineNoSum(es, k);
    }
  }

  lemma {:induction false} NoInvoiceLineNoSum(es: seq<Entry>, key: string)
    ensures (forall j | 0 <= j < |es| :: es[j].1.kind == InvoiceLine) && StatedFor(es, key).None? ==>
      SumOn(es, key) == 0
  {
    if es != [] {
      var front := es[..|es| - 1];
      NoInvoiceLineNoSum(front, key);
      StatedForAppend(front, es[|es| - 1], key);
      assert es == front + [es[|es| - 1]];
    }
  }

  /** The flags of a line, read off the dictionaries. */
  function LineFlags(
    l: Ledger, h: Header, e: Entry, earlier: map<string, Money>, stated: map<string, Money>): seq<Flag>
  {
    var (i, line) := e;
    var key := TargetKey(line);
    if key == "" then []
    else if line.kind == AdjustmentLine then
      ReductionLineFlags(l, h, i, line, Get(earlier, key), if key in stated then Some(stated[key]) else None)
    else if key !in l.invoices then UnknownInvoiceFlags(l, i, line)
    else KnownInvoiceFlags(l, h, i, line, Get(earlier, key))
  }

  lemma FlagsOfPrefix(l: Ledger, h: Header, es: seq<Entry>, more: seq<Entry>, n: nat)
    requires n <= |es|
    ensures FlagsUpTo(l, h, es + more, n) == FlagsUpTo(l, h, es, n)
  {
    hide NumberKey, UnknownInvoiceFlags, KnownInvoiceFlags, ReductionLineFlags;
    if n > 0 {
      FlagsOfPrefix(l, h, es, more, n - 1);
      assert (es + more)[..n - 1] == es[..n - 1];
    }
  }

  lemma FlagsSnoc(l: Ledger, h: Header, es: seq<Entry>, e: Entry)
    ensures FlagsUpTo(l, h, es + [e], |es| + 1) == FlagsUpTo(l, h, es, |es|) + EntryFlags(l, h, es + [e], |es|)
  {
    hide EntryFlags;
    FlagsOfPrefix(l, h, es, [e], |es|);
  }

  lemma EntryFlagsFromDictionaries(
    l: Ledger, h: Header, es: seq<Entry>, e: Entry,
    earlier: map<string, Money>, stated: map<string, Money>, adjusting: bool)
    requires AgreesAt(l, h, es, earlier, stated, adjusting, TargetKey(e.1))
    requires adjusting == (e.1.kind == AdjustmentLine)
    ensures EntryFlags(l, h, es + [e], |es|) == LineFlags(l, h, e, earlier, stated)
  {
    hide NumberKey, UnknownInvoiceFlags, InvoiceFlags, ReductionFlags;
    assert (es + [e])[..|es|] == es;
  }

  lemma FlagsStep(
    l: Ledger, h: Header, es: seq<Entry>, e: Entry,
    earlier: map<string, Money>, stated: map<string, Money>, adjusting: bool)
    requires Agrees(l, h, es, earlier, stated, adjusting)
    requires adjusting == (e.1.kind == AdjustmentLine)
    ensures FlagsUpTo(l, h, es + [e], |es| + 1) == FlagsUpTo(l, h, es, |es|) + LineFlags(l, h, e, earlier, stated)
  {
    hide EntryFlags, LineFlags, TargetKey;
    FlagsSnoc(l, h, es, e);
    EntryFlagsFromDictionaries(l, h, es, e, earlier, stated, adjusting);
  }

  /** `check_against_ledger`: one pass over the invoice lines and one over the adjustments, with the
      dictionaries `earlier` and `stated`, gives exactly the flags that prefix sums define. */
  method CheckAgainstLedger(db: Database, listing: seq<string>, p: Payload) returns (flags: seq<Flag>)
    ensures flags == LedgerFlags(db.Books(), listing, p)
  {
    var earlier, stated;
    flags, earlier, stated := CheckInvoiceLines(db.Books(), p.header, p.lines);
    flags := CheckAdjustments(db.Books(), p.header, p.lines, flags, earlier, stated);
    var more := FlagAdjustments(db.invoices, listing, p);
    flags := flags + more;
  }

  method CheckInvoiceLines(l: Ledger, h: Header, lines: seq<LineItem>)
    returns (flags: seq<Flag>, earlier: map<string, Money>, stated: map<string, Money>)
    ensures Agrees(l, h, OfKind(lines, InvoiceLine), earlier, stated, false)
    ensures flags == FlagsUpTo(l, h, OfKind(lines, InvoiceLine), |OfKind(lines, InvoiceLine)|)
  {
    hide EntryFlags, LineFlags, EarlierAfter, StatedAfter, AgreesAt;
    flags, earlier, stated := [], map[], map[];
    StartChecking(l, h);
    ghost var done: seq<Entry> := [];
    for i := 0 to |lines|
      invariant done == OfKind(lines[..i], InvoiceLine)
      invariant Agrees(l, h, done, earlier, stated, false)
      invariant flags == FlagsUpTo(l, h, done, |done|)
    {
      assert lines[..i + 1][..i] == lines[..i];
      if lines[i].kind == AdjustmentLine {
        continue;
      }
      AgreesStep(l, h, done, (i, lines[i]), earlier, stated, false);
      FlagsStep(l, h, done, (i, lines[i]), earlier, stated, false);
      done := done + [(i, lines[i])];
      var more;
      more, earlier, stated := CheckInvoiceLine(l, h, (i, lines[i]), earlier, stated);
      flags := flags + more;
    }
    assert lines[..|lines|] == lines;
  }

  method CheckInvoiceLine(l: Ledger, h: Header, e: Entry, earlier0: map<string, Money>, stated0: map<string, Money>)
    returns (flags: seq<Flag>, earlier: map<string, Money>, stated: map<string, Money>)
    requires e.1.kind == InvoiceLine
    ensures flags == LineFlags(l, h, e, earlier0, stated0)
    ensures earlier == EarlierAfter(l, h, e.1, earlier0, stated0) && stated == StatedAfter(l, e.1, stated0)
  {
    flags, earlier, stated := [], earlier0, stated0;
    var (i, line) := e;
    var key, settled := NumberKey(line.number), LineSettled(line);
    if key == "" {
      return; // an empty number is flagged by the validators
    }
    if key !in l.invoices {
      if key !in stated {
        stated := stated[key := line.invoiceAmount];
      }
      earlier := earlier[key := Get(earlier, key) + settled];
      flags := UnknownInvoiceFlags(l, i, line);
      return;
    }
    flags := KnownInvoiceFlags(l, h, i, line, Get(earlier, key));
    if h.currency == l.invoices[key].currency {
      earlier := earlier[key := Get(earlier, key) + settled];
    }
  }

  /** The entries handled once the adjustments before position `i` are. */
  function HandledUpTo(lines: seq<LineItem>, i: nat): seq<Entry>
    requires i <= |lines|
  {
    OfKind(lines, InvoiceLine) + OfKind(lines[..i], AdjustmentLine)
  }

  lemma HandleNext(lines: seq<LineItem>, i: nat)
    requires i < |lines|
    ensures HandledUpTo(lines, i + 1)
         == if lines[i].kind == AdjustmentLine then HandledUpTo(lines, i) + [(i, lines[i])] else HandledUpTo(lines, i)
  {
    assert lines[..i + 1][..i] == lines[..i];
  }

  lemma HandleAll(lines: seq<LineItem>)
    ensures HandledUpTo(lines, 0) == OfKind(lines, InvoiceLine)
    ensures HandledUpTo(lines, |lines|) == Ordered(lines)
  {
    assert lines[..|lines|] == lines;
  }

  method CheckAdjustments(
    l: Ledger, h: Header, lines: seq<LineItem>,
    flags0: seq<Flag>, earlier0: map<string, Money>, stated: map<string, Money>) returns (flags: seq<Flag>)
    requires Agrees(l, h, OfKind(lines, InvoiceLine), earlier0, stated, false)
    requires flags0 == FlagsUpTo(l, h, OfKind(lines, InvoiceLine), |OfKind(lines, InvoiceLine)|)
    ensures flags == FlagsUpTo(l, h, Ordered(lines), |Ordered(lines)|)
  {
    hide EntryFlags, LineFlags, EarlierAfter, AgreesAt, NumberKey, FlagsUpTo, OfKind;
    var earlier := earlier0;
    flags := flags0;
    StartAdjusting(l, h, OfKind(lines, InvoiceLine), earlier, stated);
    HandleAll(lines);
    ghost var done := HandledUpTo(lines, 0);
    for i := 0 to |lines|
      invariant done == HandledUpTo(lines, i)
      invariant Agrees(l, h, done, earlier, stated, true)
      invariant flags == FlagsUpTo(l, h, done, |done|)
    {
      HandleNext(lines, i);
      if lines[i].kind != AdjustmentLine {
        continue;
      }
      AgreesStep(l, h, done, (i, lines[i]), earlier, stated, true);
      FlagsStep(l, h, done, (i, lines[i]), earlier, stated, true);
      done := HandledUpTo(lines, i + 1);
      var more;
      more, earlier := CheckAdjustment(l, h, (i, lines[i]), earlier, stated);
      flags := flags + more;
    }
  }

  method CheckAdjustment(l: Ledger, h: Header, e: Entry, earlier0: map<string, Money>, stated: map<string, Money>)
    returns (flags: seq<Flag>, earlier: map<string, Money>)
    requires e.1.kind == AdjustmentLine
    ensures flags == LineFlags(l, h, e, earlier0, stated)
    ensures earlier == EarlierAfter(l, h, e.1, earlier0, stated)
  {
    flags, earlier := [], earlier0;
    var (i, line) := e;
    var key, amount := NumberKey(line.appliesTo), Deducted(line.deductions);
    if key == "" {
      return;
    }
    var before := Get(earlier, key);
    if key !in l.invoices {
      if key !in stated || stated[key] <= 0 {
        return;
      }
      earlier := earlier[key := before + amount];
      flags := ReductionFlags(i, line.appliesTo, stated[key], before, amount);
      return;
    }
    var target := l.invoices[key];
    if target.currency != h.currency {
      flags := [AdjustsOtherCurrency(i, amount, h.currency, target.currency)];
      return;
    }
    if PayersDiffer(h.payer, target.payer) {
      flags := [AdjustsOtherPayer(i, target.number, target.payer, h.payer)];
    }
    earlier := earlier[key := before + amount];
    flags := flags + ReductionFlags(i, target.number, target.amount, PaidOn(l, key) + before, amount);
  }

  lemma StartChecking(l: Ledger, h: Header)
    ensures Agrees(l, h, [], map[], map[], false)
  {
  }

  lemma StartAdjusting(l: Ledger, h: Header, es: seq<Entry>, earlier: map<string, Money>, stated: map<string, Money>)
    requires Agrees(l, h, es, earlier, stated, false)
    ensures Agrees(l, h, es, earlier, stated, true)
  {
    forall k: string ensures AgreesAt(l, h, es, earlier, stated, true, k) {
      assert AgreesAt(l, h, es, earlier, stated, false, k);
    }
  }
}
