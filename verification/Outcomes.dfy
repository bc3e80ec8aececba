/** What a reviewer's decision leaves behind, exactly (ar_pipeline/review/service.py,
    ar_pipeline/pipeline/routing.py). */
module Outcomes {
  import opened Models
  import opened Matching
  import opened Balance
  import opened Checks
  import opened Posting
  import opened Routing
  import opened Review
  import opened Invariant
  import opened Operations
  import Backfill
  import Conservation
  import Overpayment

  // ----- the rows of one posting -----

  lemma {:induction false} PostConcat(l: Ledger, id: nat, h: Header, a: seq<Entry>, b: seq<Entry>)
    ensures PostEntries(l, id, h, a + b) == PostEntries(PostEntries(l, id, h, a), id, h, b)
  {
    hide PostEntry;
    if b == [] {
      assert a + b == a;
    } else {
      assert (a + b)[..|a + b| - 1] == a + b[..|b| - 1];
      PostConcat(l, id, h, a, b[..|b| - 1]);
    }
  }

  lemma RowThenPostable(l: Ledger, id: nat, p: Payload, i: nat)
    requires Fresh(l.rows, id) && i < |p.lines| && HasRow(PostPayload(l, id, p).rows, id, i)
    ensures Postable((i, p.lines[i]), PostPayload(l, id, p).invoices.Keys)
  {
    hide PostEntries, Postable, Ordered, RowFor;
    var l', es := PostPayload(l, id, p), Ordered(p.lines);
    var r :| r in l'.rows && r.extraction == id && r.line == i;
    assert r !in l.rows;
    var e := Backfill.RowIsUnposted(l, id, p.header, es, r);
    RowOfEntry(id, p.header, e);
    OrderedIsAllLines(p.lines);
  }

  lemma PostableThenRow(l: Ledger, id: nat, p: Payload, i: nat)
    requires i < |p.lines| && Postable((i, p.lines[i]), PostPayload(l, id, p).invoices.Keys) && Fresh(l.rows, id)
    ensures HasRow(PostPayload(l, id, p).rows, id, i)
  {
    var a, b, e := OfKind(p.lines, InvoiceLine), OfKind(p.lines, AdjustmentLine), (i, p.lines[i]);
    KindDistinct(p.lines, InvoiceLine);
    KindDistinct(p.lines, AdjustmentLine);
    OrderedIsAllLines(p.lines);
    var l1 := PostEntries(l, id, p.header, a);
    PostConcat(l, id, p.header, a, b);
    AdjustmentsSettle(l, id, p.header, a, b, "key", None);
    hide OfKind, PostEntries, TargetKey, TargetAmount;
    if p.lines[i].kind == InvoiceLine {
      assert e in a;
      Backfill.PostingCompletes(l, id, p.header, a, e);
      PostingGrows(l1, id, p.header, b);
      Backfill.HasRowExtends(l1, PostPayload(l, id, p), id, i);
    } else {
      assert e in b;
      Backfill.PostingCompletes(l1, id, p.header, b, e);
    }
  }

  /** Posting a payment for the first time gives a row to exactly the lines that name an invoice and, if
      they are adjustments, take something off one the ledger then has. */
  lemma PostedExactly(l: Ledger, id: nat, p: Payload, i: nat)
    requires Fresh(l.rows, id) && i < |p.lines|
    ensures HasRow(PostPayload(l, id, p).rows, id, i) <==>
      Postable((i, p.lines[i]), PostPayload(l, id, p).invoices.Keys)
  {
    hide *;
    if HasRow(PostPayload(l, id, p).rows, id, i) {
      RowThenPostable(l, id, p, i);
    } else if Postable((i, p.lines[i]), PostPayload(l, id, p).invoices.Keys) {
      PostableThenRow(l, id, p, i);
    }
  }

  /** The row a first posting writes for an invoice line. */
  lemma PostedRow(l: Ledger, id: nat, p: Payload, i: nat)
    requires Fresh(l.rows, id) && i < |p.lines| && p.lines[i].kind == InvoiceLine && TargetKey(p.lines[i]) != ""
    ensures var l' := PostPayload(l, id, p);
      RowFor(id, p.header, (i, p.lines[i])) in l'.rows && TargetKey(p.lines[i]) in l'.invoices
  {
    PostableThenRow(l, id, p, i);
    hide PostEntries, Ordered, TargetKey, TargetAmount;
    var l', es := PostPayload(l, id, p), Ordered(p.lines);
    var r :| r in l'.rows && r.extraction == id && r.line == i;
    assert r !in l.rows;
    var e := Backfill.RowIsUnposted(l, id, p.header, es, r);
    RowOfEntry(id, p.header, e);
    OrderedIsAllLines(p.lines);
    assert e == (i, p.lines[i]);
    PostedKey(l, id, p, i);
  }

  lemma PostedKey(l: Ledger, id: nat, p: Payload, i: nat)
    requires Fresh(l.rows, id) && i < |p.lines| && p.lines[i].kind == InvoiceLine && TargetKey(p.lines[i]) != ""
    ensures TargetKey(p.lines[i]) in PostPayload(l, id, p).invoices
  {
    hide PostPayload, TargetKey, Targets;
    PostingSettles(l, id, p, TargetKey(p.lines[i]), None);
    Conservation.LineTargets(p.lines, i);
  }

  /** The same money again is never silent: once a payment is posted, any payment that repeats its reference
      with a line for the same invoice and the same amount is flagged. */
  lemma RepeatedPaymentIsFlagged(l: Ledger, listing: seq<string>, id: nat, p: Payload, q: Payload, i: nat, j: nat)
    requires Fresh(l.rows, id) && i < |p.lines| && j < |q.lines|
    requires p.lines[i].kind == InvoiceLine && q.lines[j].kind == InvoiceLine
    requires TargetKey(p.lines[i]) == TargetKey(q.lines[j]) != "" && p.lines[i].paid == q.lines[j].paid
    requires p.header.reference == q.header.reference != ""
    ensures LedgerFlags(PostPayload(l, id, p), listing, q) != []
  {
    PostedRow(l, id, p, i);
    var l', es := PostPayload(l, id, p), Ordered(q.lines);
    OrderedIsAllLines(q.lines);
    assert (j, q.lines[j]) in es;
    var n :| 0 <= n < |es| && es[n] == (j, q.lines[j]);
    RepeatIsFlagged(l', q.header, es, n, RowFor(id, p.header, (i, p.lines[i])));
    hide PostPayload, EntryFlags, Ordered;
    if LedgerFlags(l', listing, q) == [] { Overpayment.CleanEntry(l', q.header, es, |es|, n); }
  }

  lemma RepeatIsFlagged(l: Ledger, h: Header, es: seq<Entry>, n: nat, r: Row)
    requires n < |es| && es[n].1.kind == InvoiceLine && TargetKey(es[n].1) != "" && TargetKey(es[n].1) in l.invoices
    requires r in l.rows && r.key == TargetKey(es[n].1) && r.reference == h.reference != "" && r.paid == es[n].1.paid
    requires r.kind == PaymentRow
    ensures EntryFlags(l, h, es, n) != []
  {
    hide TargetKey, PaidOn, SumOn, StatesTotal;
  }

  // ----- decisions -----

  /** The payment `id` becomes `x` and its lines are posted; nothing else of any payment or row changes. */
  ghost predicate PostsOnly(db: Db, db': Db, id: nat, x: Extraction)
    requires id < |db.extractions|
  {
    && db'.extractions == db.extractions[id := x] && db.ledger.rows <= db'.ledger.rows
    && IsPayment(x) && LinesPosted(db'.ledger, id, x.canonical.value.lines)
    && (forall k | |db.ledger.rows| <= k < |db'.ledger.rows| :: db'.ledger.rows[k].extraction == id)
  }

  ghost predicate LinesPosted(l: Ledger, id: nat, lines: seq<LineItem>) {
    forall i | 0 <= i < |lines| :: HasRow(l.rows, id, i) <==> Postable((i, lines[i]), l.invoices.Keys)
  }

  lemma PostsOnlyOne(db: Db, id: nat, x: Extraction)
    requires DbOk(db) && IsPending(db.extractions, id) && IsPayment(x)
    ensures var l' := Post(db.ledger, id, x);
      PostsOnly(db, db.(extractions := db.extractions[id := x], ledger := l'), id, x)
  {
    Conservation.PendingIsFresh(db, id);
    hide DbOk, PostEntries, Ordered, HasRow, Postable;
    var p := x.canonical.value;
    PostingGrows(db.ledger, id, p.header, Ordered(p.lines));
    forall i | 0 <= i < |p.lines|
      ensures HasRow(Post(db.ledger, id, x).rows, id, i) <==>
        Postable((i, p.lines[i]), Post(db.ledger, id, x).invoices.Keys)
    {
      PostedExactly(db.ledger, id, p, i);
    }
  }

  /** The email of the payment is done when nothing else of it is pending, and otherwise as before; no
      other email changes. */
  ghost predicate ClosesEmail(db: Db, db': Db, id: nat)
    requires id < |db.extractions|
  {
    var e := db.extractions[id].email;
    && e < |db.emails| && |db'.emails| == |db.emails|
    && (forall o | 0 <= o < |db.emails| && o != e :: db'.emails[o] == db.emails[o])
    && db'.emails[e] == db.emails[e].(status := if OthersPending(db.extractions, id) then db.emails[e].status else Done)
  }

  lemma SettlingCloses(db: Db, mid: Db, id: nat)
    requires id < |db.extractions| && db.extractions[id].email < |db.emails| && mid.emails == db.emails
    requires |mid.extractions| == |db.extractions| && mid.extractions[id].status != PendingReview
    requires forall i | 0 <= i < |db.extractions| && i != id :: mid.extractions[i] == db.extractions[i]
    ensures var after := Settled(mid, db.extractions[id].email);
      ClosesEmail(db, after, id) && after == mid.(emails := after.emails)
  {
    var e := db.extractions[id].email;
    if OthersPending(db.extractions, id) {
      var i :| 0 <= i < |db.extractions| && i != id && IsPendingOf(db.extractions[i], e);
      assert IsPendingOf(mid.extractions[i], e);
    }
  }

  /** Approving: refused, with nothing changed, unless the payment is pending and is a payment; otherwise
      it is approved and signed, every line that can be posted is, one delivery is queued, due now, and the
      email is closed if this was its last. */
  lemma ApproveIsExact(db: Db, id: nat, reviewer: string, now: int)
    requires Good(db)
    ensures var (db', r) := Approve(db, id, reviewer, now);
      && (r == Ok <==> IsPending(db.extractions, id) && IsPayment(db.extractions[id]))
      && (r != Ok ==> r == Refused && db' == db)
      && (r == Ok ==>
            var x := db.extractions[id].(status := Approved, reviewedBy := Some(reviewer), reviewedAt := Some(now),
                       canonical := Some(db.extractions[id].canonical.value.(reviewedBy := Some(reviewer))));
            && PostsOnly(db, db', id, x) && ClosesEmail(db, db', id)
            && db'.deliveries == db.deliveries + [Delivery(id, DeliveryPending, 0, Some(now))])
  {
    if IsPending(db.extractions, id) && IsPayment(db.extractions[id]) {
      PendingNotDone(db, id);
      var x := Reviewed(db.extractions[id], Approved, reviewer, now);
      PostsOnlyOne(db, id, x);
      hide DbOk, AllAgree, Post, HasPending, LinesPosted;
      SettlingCloses(db, Queued(db, id, reviewer, now), id);
    }
  }

  /** Marking already recorded does the same but queues nothing. */
  lemma RecordIsExact(db: Db, id: nat, reviewer: string, now: int)
    requires Good(db) && IsRecordable(db.extractions, id)
    ensures var db' := Recorded(db, id, reviewer, now);
      var x := db.extractions[id].(status := AlreadyRecorded, reviewedBy := Some(reviewer), reviewedAt := Some(now),
                 canonical := Some(db.extractions[id].canonical.value.(reviewedBy := Some(reviewer))));
      PostsOnly(db, db', id, x) && ClosesEmail(db, db', id) && db'.deliveries == db.deliveries
  {
    PendingNotDone(db, id);
    var x := Reviewed(db.extractions[id], AlreadyRecorded, reviewer, now);
    PostsOnlyOne(db, id, x);
    hide DbOk, AllAgree, Post, HasPending, LinesPosted;
    SettlingCloses(db, db.(ledger := Post(db.ledger, id, x), extractions := db.extractions[id := x]), id);
  }

  /** Rejecting: refused, with nothing changed, unless the payment is pending and a reason is given;
      otherwise only its status, reviewer and reason change, and nothing is posted or queued. */
  lemma RejectIsExact(db: Db, id: nat, reviewer: string, reason: string, now: int)
    requires Good(db)
    ensures var (db', r) := Reject(db, id, reviewer, reason, now);
      && (r == Ok <==> IsPending(db.extractions, id) && Trim(reason) != "")
      && (r != Ok ==> r == Refused && db' == db)
      && (r == Ok ==>
            && db'.extractions == db.extractions[id := db.extractions[id].(
                 status := Rejected, rejectReason := Trim(reason), reviewedBy := Some(reviewer),
                   reviewedAt := Some(now))]
            && db'.ledger == db.ledger && db'.deliveries == db.deliveries && ClosesEmail(db, db', id))
  {
    hide Trim;
    if IsPending(db.extractions, id) && Trim(reason) != "" {
      PendingNotDone(db, id);
      hide DbOk, AllAgree, HasPending;
      SettlingCloses(db, Revised(db, id, RejectedRow(db.extractions[id], reviewer, reason, now)), id);
    }
  }

  // ----- many at once -----

  /** In bulk, exactly the payments that are pending, read from history and not linked to another payment
      are recorded; every other one asked for is skipped and stays as it was. */
  lemma {:induction false} BulkRecording(db: Db, ids: seq<nat>, reviewer: string, now: int, id: nat)
    requires id < |db.extractions|
    ensures var (db', r) := RecordAll(db, ids, reviewer, true, now);
      && r == Ok && |db'.extractions| == |db.extractions|
      && db'.extractions[id] ==
           if id in ids && IsRecordable(db.extractions, id) && db.extractions[id].duplicateOf.None?
           then Reviewed(db.extractions[id], AlreadyRecorded, reviewer, now) else db.extractions[id]
  {
    if ids != [] {
      var front, last := ids[..|ids| - 1], ids[|ids| - 1];
      BulkRecording(db, front, reviewer, now, id);
      var before := RecordAll(db, front, reviewer, true, now).0;
      if last < |db.extractions| {
        RecordedExtractions(before, last, reviewer, now);
      }
      hide Recorded, RecordAll;
      assert ids == front + [last];
    }
  }

  lemma RecordedExtractions(db: Db, id: nat, reviewer: string, now: int)
    requires id < |db.extractions|
    ensures Recorded(db, id, reviewer, now).extractions
         == db.extractions[id := Reviewed(db.extractions[id], AlreadyRecorded, reviewer, now)]
  {
    hide Post, HasPending;
  }
}
