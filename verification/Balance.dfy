/** Invoice balances, always derived from payment rows (ar_pipeline/ledger/balance.py). */
module Balance {
  import opened Models
  import opened Matching

  function LineSettled(line: LineItem): Money {
    line.paid + Deducted(line.deductions)
  }

  /** The number of the invoice a line settles: an adjustment settles the one it applies to. */
  function TargetNumber(line: LineItem): string {
    if line.kind == AdjustmentLine then line.appliesTo else line.number
  }

  function TargetKey(line: LineItem): string {
    NumberKey(TargetNumber(line))
  }

  function TargetAmount(line: LineItem): Money {
    if line.kind == AdjustmentLine then Deducted(line.deductions) else LineSettled(line)
  }

  datatype Status = Open | PartiallyPaid | Paid | Overpaid

  function StatusFor(amount: Money, paid: Money): Status {
    var outstanding := amount - paid;
    if outstanding < -TOLERANCE then Overpaid
    else if Abs(outstanding) <= TOLERANCE then Paid
    else if paid == 0 then Open
    else PartiallyPaid
  }

  predicate IsSettled(status: Status) { status == Paid || status == Overpaid }

  /** Settled amounts of the rows of invoice `key`, in one currency or in all of them. */
  function SettledOn(rows: seq<Row>, key: string, currency: Option<string>): Money {
    if rows == [] then 0
    else
      var last := rows[|rows| - 1];
      SettledOn(rows[..|rows| - 1], key, currency)
      + if last.key == key && (currency.None? || currency.value == last.currency) then last.settled else 0
  }

  function PaidOn(l: Ledger, key: string): Money
    requires key in l.invoices
  {
    l.invoices[key].paidBefore + SettledOn(l.rows, key, Some(l.invoices[key].currency))
  }

  function Outstanding(l: Ledger, key: string): Money
    requires key in l.invoices
  {
    l.invoices[key].amount - PaidOn(l, key)
  }

  datatype InvoiceBalance = InvoiceBalance(key: string, paid: Money, outstanding: Money, status: Status)

  function BalanceFor(l: Ledger, key: string): InvoiceBalance
    requires key in l.invoices
  {
    InvoiceBalance(key, PaidOn(l, key), Outstanding(l, key), StatusFor(l.invoices[key].amount, PaidOn(l, key)))
  }

  function Get(m: map<string, Money>, key: string): Money {
    if key in m then m[key] else 0
  }

  function Filtered(rows: seq<Row>, invoices: map<string, Invoice>, key: string): Money {
    if key in invoices then SettledOn(rows, key, Some(invoices[key].currency)) else 0
  }

  /** `balances`: one pass over the joined rows grouped by invoice, then one entry per invoice asked for. */
  method Balances(l: Ledger, keys: seq<string>) returns (out: seq<InvoiceBalance>)
    requires forall i :: 0 <= i < |keys| ==> keys[i] in l.invoices
    ensures |out| == |keys|
    ensures forall i :: 0 <= i < |keys| ==> out[i] == BalanceFor(l, keys[i])
  {
    var settled: map<string, Money> := map[];
    for n := 0 to |l.rows|
      invariant forall k :: k in l.invoices ==> Get(settled, k) == Filtered(l.rows[..n], l.invoices, k)
    {
      var row := l.rows[n];
      assert l.rows[..n + 1][..n] == l.rows[..n];
      if row.key in l.invoices && row.currency == l.invoices[row.key].currency {
        settled := settled[row.key := Get(settled, row.key) + row.settled];
      }
    }
    assert l.rows[..|l.rows|] == l.rows;
    out := [];
    for i := 0 to |keys|
      invariant |out| == i
      invariant forall j :: 0 <= j < i ==> out[j] == BalanceFor(l, keys[j])
    {
      var invoice := l.invoices[keys[i]];
      var paid := invoice.paidBefore + Get(settled, keys[i]);
      out := out + [InvoiceBalance(keys[i], paid, invoice.amount - paid, StatusFor(invoice.amount, paid))];
    }
  }

  // ----- money waiting for review -----

  function LinesOn(lines: seq<LineItem>, key: string): Money {
    if lines == [] then 0
    else
      var last := lines[|lines| - 1];
      LinesOn(lines[..|lines| - 1], key) + if TargetKey(last) == key then TargetAmount(last) else 0
  }

  function LinesOf(ext: Extraction): seq<LineItem> {
    if ext.canonical.Some? then ext.canonical.value.lines else []
  }

  predicate IsAwaiting(ext: Extraction) {
    ext.status == PendingReview && ext.isRemittance
  }

  function AwaitingOf(ext: Extraction, key: string): Money {
    if IsAwaiting(ext) then LinesOn(LinesOf(ext), key) else 0
  }

  /** What pending remittances would settle on invoice `key`. */
  function Awaiting(extractions: seq<Extraction>, key: string): Money {
    if extractions == [] then 0
    else Awaiting(extractions[..|extractions| - 1], key) + AwaitingOf(extractions[|extractions| - 1], key)
  }

  /** The part of it that is the payment `exclude`'s own. */
  function OwnAwaiting(extractions: seq<Extraction>, exclude: Option<nat>, key: string): Money {
    if exclude.Some? && exclude.value < |extractions| then AwaitingOf(extractions[exclude.value], key) else 0
  }

  /** `awaiting_by_key`: what all pending remittances, or all but one, would settle. */
  method AwaitingByKey(extractions: seq<Extraction>, exclude: Option<nat>) returns (out: map<string, Money>)
    ensures "" !in out
    ensures forall k :: k != "" ==> Get(out, k) == Awaiting(extractions, k) - OwnAwaiting(extractions, exclude, k)
  {
    hide LinesOn, TargetKey;
    out := map[];
    for i := 0 to |extractions|
      invariant "" !in out
      invariant forall k :: k != "" ==>
        Get(out, k) == Awaiting(extractions[..i], k) - OwnAwaiting(extractions[..i], exclude, k)
    {
      var ext := extractions[i];
      assert extractions[..i + 1][..i] == extractions[..i];
      if IsAwaiting(ext) && exclude != Some(i) {
        out := AddAwaiting(out, LinesOf(ext));
      }
    }
    assert extractions[..|extractions|] == extractions;
  }

  method AddAwaiting(before: map<string, Money>, lines: seq<LineItem>) returns (out: map<string, Money>)
    requires "" !in before
    ensures "" !in out
    ensures forall k :: k != "" ==> Get(out, k) == Get(before, k) + LinesOn(lines, k)
  {
    out := before;
    for j := 0 to |lines|
      invariant "" !in out
      invariant forall k :: k != "" ==> Get(out, k) == Get(before, k) + LinesOn(lines[..j], k)
    {
      assert lines[..j + 1][..j] == lines[..j];
      var key := TargetKey(lines[j]);
      if key != "" {
        out := out[key := Get(out, key) + TargetAmount(lines[j])];
      }
    }
    assert lines[..|lines|] == lines;
  }

  lemma {:induction false} SettledOnAppend(a: seq<Row>, b: seq<Row>, key: string, currency: Option<string>)
    ensures SettledOn(a + b, key, currency) == SettledOn(a, key, currency) + SettledOn(b, key, currency)
  {
    if b == [] {
      assert a + b == a;
    } else {
      assert (a + b)[..|a + b| - 1] == a + b[..|b| - 1];
      SettledOnAppend(a, b[..|b| - 1], key, currency);
    }
  }

  /** Nothing is settled on an invoice without rows. */
  lemma {:induction false} NothingSettled(rows: seq<Row>, key: string, currency: Option<string>)
    requires forall r | r in rows :: r.key != key
    ensures SettledOn(rows, key, currency) == 0
  {
    if rows != [] {
      assert rows[|rows| - 1] in rows;
      NothingSettled(rows[..|rows| - 1], key, currency);
    }
  }
}
