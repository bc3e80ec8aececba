/** Approving a payment moves its money from awaiting review to posted
    (ar_pipeline/ledger/balance.py, ar_pipeline/ledger/posting.py). */
module Conservation {
  import opened Models
  import opened Balance
  import opened Checks
  import opened Posting
  import opened Routing
  import opened Review
  import opened Invariant
  import opened Operations
  import Backfill

  /** What payments waiting for review and posted rows, in any currency, settle on an invoice. */
  function MoneyOn(db: Db, key: string): Money {
    Awaiting(db.extractions, key) + SettledOn(db.ledger.rows, key, None)
  }

  lemma {:induction false} SumOfKinds(lines: seq<LineItem>, key: string)
    ensures SumOn(OfKind(lines, InvoiceLine), key) + SumOn(OfKind(lines, AdjustmentLine), key) == LinesOn(lines, key)
  {
    hide TargetKey, TargetAmount;
    if lines != [] {
      var n := |lines| - 1;
      SumOfKinds(lines[..n], key);
      SumOfNext(lines, InvoiceLine, key);
      SumOfNext(lines, AdjustmentLine, key);
    }
  }

  lemma SumOfNext(lines: seq<LineItem>, kind: LineKind, key: string)
    requires lines != []
    ensures var n := |lines| - 1;
      SumOn(OfKind(lines, kind), key) == SumOn(OfKind(lines[..n], kind), key)
        + if lines[n].kind == kind && TargetKey(lines[n]) == key then TargetAmount(lines[n]) else 0
  {
    hide TargetKey, TargetAmount;
    var n := |lines| - 1;
    if lines[n].kind == kind {
      assert OfKind(lines, kind) == OfKind(lines[..n], kind) + [(n, lines[n])];
      SumSnoc(OfKind(lines[..n], kind), (n, lines[n]), key);
    } else {
      assert OfKind(lines, kind) == OfKind(lines[..n], kind);
    }
  }

  /** Checked and posted order sums to the same as the payload's own order. */
  lemma OrderedSum(lines: seq<LineItem>, key: string)
    ensures SumOn(Ordered(lines), key) == LinesOn(lines, key)
  {
    SumOfKinds(lines, key);
    SumAppend(OfKind(lines, InvoiceLine), OfKind(lines, AdjustmentLine), key);
  }

  lemma {:induction false} AwaitingRevised(exts: seq<Extraction>, id: nat, x: Extraction, key: string)
    requires id < |exts|
    ensures Awaiting(exts[id := x], key) == Awaiting(exts, key) - AwaitingOf(exts[id], key) + AwaitingOf(x, key)
  {
    hide LinesOn;
    var n := |exts| - 1;
    if id == n {
      assert exts[id := x][..n] == exts[..n];
    } else {
      assert exts[id := x][..n] == exts[..n][id := x];
      AwaitingRevised(exts[..n], id, x, key);
    }
  }

  lemma PendingIsFresh(db: Db, id: nat)
    requires DbOk(db) && IsPending(db.extractions, id)
    ensures Fresh(db.ledger.rows, id)
  {
    hide RowIsLine, ExtractionsOk, EmailsOk, QueueOk;
    forall r | r in db.ledger.rows ensures r.extraction != id {
      var k :| 0 <= k < |db.ledger.rows| && db.ledger.rows[k] == r;
      assert RowOk(db.extractions, db.ledger.rows[k]);
    }
  }

  /** Posting a pending payment under its reviewed row. */
  lemma PostedMoney(db: Db, id: nat, x: Extraction, key: string)
    requires DbOk(db) && IsPending(db.extractions, id) && IsPayment(db.extractions[id]) && key != ""
    requires IsPosted(x.status) && IsPayment(x) && x.canonical.value.lines == db.extractions[id].canonical.value.lines
    ensures var lines := x.canonical.value.lines; var l' := Post(db.ledger, id, x);
      Awaiting(db.extractions[id := x], key) + SettledOn(l'.rows, key, None)
      == MoneyOn(db, key) - if key in l'.invoices then 0 else LinesOn(lines, key)
  {
    PendingIsFresh(db, id);
    hide DbOk, Ordered, LinesOn, Targets, OfKind;
    var p := x.canonical.value;
    PostingSettles(db.ledger, id, p, key, None);
    OrderedSum(p.lines, key);
    AwaitingRevised(db.extractions, id, x, key);
    if key !in Post(db.ledger, id, x).invoices {
      NothingOnMissing(db.ledger, Post(db.ledger, id, x), id, key, p);
    }
  }

  lemma NothingOnMissing(l: Ledger, l': Ledger, id: nat, key: string, p: Payload)
    requires RowsHaveInvoices(l) && l' == PostPayload(l, id, p) && key !in l'.invoices
    ensures SettledOn(l'.rows, key, None) == SettledOn(l.rows, key, None) == 0
  {
    hide Ordered, PostEntries;
    Backfill.PostingKeepsForeignKeys(l, id, p.header, Ordered(p.lines));
    PostingGrows(l, id, p.header, Ordered(p.lines));
    NothingSettled(l'.rows, key, None);
    NothingSettled(l.rows, key, None);
  }

  lemma SettledMoney(db: Db, email: nat, key: string)
    ensures MoneyOn(Settled(db, email), key) == MoneyOn(db, key)
    ensures Settled(db, email).ledger == db.ledger
  {
  }

  /** Approving conserves money: on every invoice the ledger then has, awaiting plus posted is what it was.
      What leaves is exactly what the payment's adjustments would take off an invoice that does not exist. */
  lemma ApprovalConserves(db: Db, id: nat, reviewer: string, now: int, key: string)
    requires Good(db) && key != "" && Approve(db, id, reviewer, now).1 == Ok
    ensures var db', p := Approve(db, id, reviewer, now).0, db.extractions[id].canonical.value;
      MoneyOn(db', key) == MoneyOn(db, key) - if key in db'.ledger.invoices then 0 else LinesOn(p.lines, key)
  {
    hide DbOk, Post, Settled, LinesOn, Awaiting, SettledOn;
    var x := Reviewed(db.extractions[id], Approved, reviewer, now);
    PostedMoney(db, id, x, key);
    SettledMoney(Queued(db, id, reviewer, now), x.email, key);
  }

  /** So does marking a payment already recorded. */
  lemma RecordingConserves(db: Db, id: nat, reviewer: string, now: int, key: string)
    requires Good(db) && key != "" && IsRecordable(db.extractions, id)
    ensures var db', p := Recorded(db, id, reviewer, now), db.extractions[id].canonical.value;
      MoneyOn(db', key) == MoneyOn(db, key) - if key in db'.ledger.invoices then 0 else LinesOn(p.lines, key)
  {
    hide DbOk, Post, Settled, LinesOn, Awaiting, SettledOn;
    var x := Reviewed(db.extractions[id], AlreadyRecorded, reviewer, now);
    PostedMoney(db, id, x, key);
    SettledMoney(db.(ledger := Post(db.ledger, id, x), extractions := db.extractions[id := x]), x.email, key);
  }

  /** Only an adjustment can point at an invoice the ledger does not have afterwards: an invoice line's
      money is never lost. */
  lemma OnlyAdjustmentsLeave(db: Db, id: nat, reviewer: string, now: int, key: string)
    requires Good(db) && key != "" && Approve(db, id, reviewer, now).1 == Ok
    requires key !in Approve(db, id, reviewer, now).0.ledger.invoices
    ensures var lines := db.extractions[id].canonical.value.lines;
      forall i | 0 <= i < |lines| && TargetKey(lines[i]) == key :: lines[i].kind == AdjustmentLine
  {
    hide DbOk, Settled, LinesOn, Awaiting, SettledOn, TargetKey, Ordered;
    PartsOk(db);
    PendingIsFresh(db, id);
    var x := Reviewed(db.extractions[id], Approved, reviewer, now);
    var lines := x.canonical.value.lines;
    PostingSettles(db.ledger, id, x.canonical.value, key, None);
    SettledMoney(Queued(db, id, reviewer, now), x.email, key);
    forall i | 0 <= i < |lines| && lines[i].kind == InvoiceLine
      ensures Targets(OfKind(lines, InvoiceLine), TargetKey(lines[i]))
    {
      LineTargets(lines, i);
    }
  }

  lemma LineTargets(lines: seq<LineItem>, i: nat)
    requires i < |lines| && lines[i].kind == InvoiceLine
    ensures Targets(OfKind(lines, InvoiceLine), TargetKey(lines[i]))
  {
    hide TargetKey;
    KindDistinct(lines, InvoiceLine);
    var es := OfKind(lines, InvoiceLine);
    assert (i, lines[i]) in es;
    var j :| 0 <= j < |es| && es[j] == (i, lines[i]);
  }
}
