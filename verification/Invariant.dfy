/** What every reachable state of the database keeps, and the few kinds of change that operations are
    made of. */
module Invariant {
  import opened Models
  import opened References
  import opened Dedupe
  import opened Checks
  import opened Posting
  import opened Routing
  import Backfill

  // ----- the invariant -----

  ghost predicate EmailOk(e: Email) {
    && (e.status == New ==> e.sources == [])
    && forall i | 0 <= i < |e.sources| ::
         e.sources[i].raws <= 1 && (e.sources[i].message.Some? ==> e.sources[i].message.value < |e.messages|)
  }

  ghost predicate EmailsOk(emails: seq<Email>) {
    forall e | 0 <= e < |emails| :: EmailOk(emails[e])
  }

  /** A stored payment names itself in its envelope, claims no key but its payload's, and is posted only
      as a payment. */
  ghost predicate ExtractionOk(emails: seq<Email>, x: Extraction, i: nat) {
    && x.email < |emails| && emails[x.email].sources != []
    && (x.canonical.Some? ==> x.canonical.value.envelopeId == i)
    && (x.claim.Some? ==> x.claim == KeyOf(x.canonical))
    && (IsPosted(x.status) ==> IsPayment(x))
  }

  ghost predicate ExtractionsOk(emails: seq<Email>, exts: seq<Extraction>) {
    forall i | 0 <= i < |exts| :: ExtractionOk(emails, exts[i], i)
  }

  /** A ledger row is what posting writes for a line of an approved or already recorded payment. */
  ghost predicate RowOk(exts: seq<Extraction>, r: Row) {
    && r.extraction < |exts| && IsPosted(exts[r.extraction].status) && IsPayment(exts[r.extraction])
    && RowIsLine(exts[r.extraction].canonical.value, r)
  }

  ghost predicate RowIsLine(p: Payload, r: Row) {
    r.line < |p.lines| && r == RowFor(r.extraction, p.header, (r.line, p.lines[r.line]))
  }

  ghost predicate RowsOk(exts: seq<Extraction>, rows: seq<Row>) {
    forall k | 0 <= k < |rows| :: RowOk(exts, rows[k])
  }

  ghost predicate LedgerOk(exts: seq<Extraction>, l: Ledger) {
    RowsOk(exts, l.rows) && RowsHaveInvoices(l) && OneRowPerLine(l.rows)
  }

  const MAX_ATTEMPTS := 6

  ghost predicate DeliveryOk(exts: seq<Extraction>, d: Delivery) {
    && d.extraction < |exts| && exts[d.extraction].status == Approved
    && d.attempts <= MAX_ATTEMPTS && (d.status == DeliveryPending ==> d.attempts < MAX_ATTEMPTS)
  }

  ghost predicate HasDelivery(ds: seq<Delivery>, id: nat) { exists k | 0 <= k < |ds| :: ds[k].extraction == id }

  /** Each approved payment has exactly one delivery, and no other payment has any. */
  ghost predicate QueueOk(exts: seq<Extraction>, ds: seq<Delivery>) {
    && (forall k | 0 <= k < |ds| :: DeliveryOk(exts, ds[k]))
    && (forall a, b | 0 <= a < b < |ds| :: ds[a].extraction != ds[b].extraction)
    && (forall i | 0 <= i < |exts| && exts[i].status == Approved :: HasDelivery(ds, i))
  }

  ghost predicate DbOk(db: Db) {
    && EmailsOk(db.emails) && ExtractionsOk(db.emails, db.extractions) && OneOwner(db.extractions)
    && LedgerOk(db.extractions, db.ledger) && QueueOk(db.extractions, db.deliveries)
  }

  // ----- what no operation undoes -----

  /** Approved and already recorded are absorbing, and the payload approved stays what it was. */
  ghost predicate Frozen(a: Extraction, b: Extraction) {
    && b.email == a.email
    && (IsPosted(a.status) ==> b.status == a.status && b.canonical == a.canonical && b.isRemittance == a.isRemittance)
  }

  ghost predicate AllFrozen(exts: seq<Extraction>, exts': seq<Extraction>) {
    |exts| <= |exts'| && forall i | 0 <= i < |exts| :: Frozen(exts[i], exts'[i])
  }

  ghost predicate SameTargets(ds: seq<Delivery>, ds': seq<Delivery>) {
    |ds| <= |ds'| && forall k | 0 <= k < |ds| :: ds'[k].extraction == ds[k].extraction
  }

  /** Deliveries are only added, and start unattempted. */
  ghost predicate QueueGrows(ds: seq<Delivery>, ds': seq<Delivery>) {
    ds <= ds' && forall k | |ds| <= k < |ds'| :: ds'[k].status == DeliveryPending && ds'[k].attempts == 0
  }

  /** What every step does at most. */
  ghost predicate Onward(db: Db, db': Db) {
    && AllFrozen(db.extractions, db'.extractions) && db.ledger.rows <= db'.ledger.rows
    && SameTargets(db.deliveries, db'.deliveries)
  }

  /** What a step does that neither delivers nor resends. */
  ghost predicate Advances(db: Db, db': Db) {
    && AllFrozen(db.extractions, db'.extractions) && db.ledger.rows <= db'.ledger.rows
    && QueueGrows(db.deliveries, db'.deliveries)
  }

  lemma AdvancesIsOnward(db: Db, db': Db)
    requires Advances(db, db')
    ensures Onward(db, db')
  {
  }

  lemma OnwardTransitive(a: Db, b: Db, c: Db)
    requires Onward(a, b) && Onward(b, c)
    ensures Onward(a, c)
  {
    forall i | 0 <= i < |a.extractions| ensures Frozen(a.extractions[i], c.extractions[i]) {
      assert Frozen(a.extractions[i], b.extractions[i]) && Frozen(b.extractions[i], c.extractions[i]);
    }
  }

  lemma AdvancesItself(db: Db)
    ensures Advances(db, db)
  {
  }

  lemma AdvancesTransitive(a: Db, b: Db, c: Db)
    requires Advances(a, b) && Advances(b, c)
    ensures Advances(a, c)
  {
    forall i | 0 <= i < |a.extractions| ensures Frozen(a.extractions[i], c.extractions[i]) {
      assert Frozen(a.extractions[i], b.extractions[i]) && Frozen(b.extractions[i], c.extractions[i]);
    }
  }

  // ----- changing one payment -----

  /** Neither before nor after is the payment posted, or nothing that posting depends on changes. */
  ghost predicate Unposted(a: Extraction, b: Extraction) {
    || (!IsPosted(a.status) && !IsPosted(b.status))
    || (b.status == a.status && b.canonical == a.canonical && b.isRemittance == a.isRemittance)
  }

  lemma RevisedRows(exts: seq<Extraction>, rows: seq<Row>, id: nat, x: Extraction)
    requires RowsOk(exts, rows) && id < |exts| && Unposted(exts[id], x)
    ensures RowsOk(exts[id := x], rows)
  {
    hide RowIsLine;
    forall k | 0 <= k < |rows| ensures RowOk(exts[id := x], rows[k]) { assert RowOk(exts, rows[k]); }
  }

  lemma RevisedQueue(exts: seq<Extraction>, ds: seq<Delivery>, id: nat, x: Extraction)
    requires QueueOk(exts, ds) && id < |exts| && Unposted(exts[id], x)
    ensures QueueOk(exts[id := x], ds)
  {
    forall k | 0 <= k < |ds| ensures DeliveryOk(exts[id := x], ds[k]) { assert DeliveryOk(exts, ds[k]); }
  }

  function Revised(db: Db, id: nat, x: Extraction): Db
    requires id < |db.extractions|
  {
    db.(extractions := db.extractions[id := x])
  }

  lemma RevisedKeeps(db: Db, id: nat, x: Extraction)
    requires DbOk(db) && id < |db.extractions| && Unposted(db.extractions[id], x)
    requires ExtractionOk(db.emails, x, id) && x.email == db.extractions[id].email
    requires forall key | Owns(x, key) :: Unowned(db.extractions, id, key)
    ensures DbOk(Revised(db, id, x)) && Advances(db, Revised(db, id, x))
  {
    hide OneOwner, RowOk, DeliveryOk, EmailOk, ExtractionOk, Unowned, Owns;
    RevisedRows(db.extractions, db.ledger.rows, id, x);
    RevisedQueue(db.extractions, db.deliveries, id, x);
    RevisedKeepsOneOwner(db.extractions, id, x);
  }

  /** A payment that goes out of play, or stays where it is, keeps its claim. */
  lemma ShelvedKeeps(db: Db, id: nat, x: Extraction)
    requires DbOk(db) && id < |db.extractions| && Unposted(db.extractions[id], x)
    requires ExtractionOk(db.emails, x, id) && x.email == db.extractions[id].email
    requires x.claim == db.extractions[id].claim && (KeyLive(x.status) ==> KeyLive(db.extractions[id].status))
    ensures DbOk(Revised(db, id, x)) && Advances(db, Revised(db, id, x))
  {
    hide OneOwner, RowOk, DeliveryOk, EmailOk, ExtractionOk, Unowned, Owns;
    KeptClaimIsUnowned(db.extractions, id, x);
    RevisedKeeps(db, id, x);
  }

  // ----- posting one payment -----

  lemma PostedRowsOk(exts: seq<Extraction>, l: Ledger, id: nat)
    requires id < |exts| && IsPosted(exts[id].status) && LedgerOk(exts, l)
    ensures LedgerOk(exts, Post(l, id, exts[id])) && l.rows <= Post(l, id, exts[id]).rows
  {
    hide PostEntries, Ordered, RowFor, RowsHaveInvoices, OneRowPerLine;
    var x := exts[id];
    if IsPayment(x) {
      var p, es := x.canonical.value, Ordered(x.canonical.value.lines);
      PostingGrows(l, id, p.header, es);
      PostingKeepsOneRow(l, id, p.header, es);
      Backfill.PostingKeepsForeignKeys(l, id, p.header, es);
      RowsComeFromEntries(l, id, p.header, es);
      OrderedIsAllLines(p.lines);
      var l' := Post(l, id, x);
      forall k | 0 <= k < |l'.rows| ensures RowOk(exts, l'.rows[k]) {
        var r := l'.rows[k];
        assert r in l'.rows;
        if r in l.rows {
          var j :| 0 <= j < |l.rows| && l.rows[j] == r;
          assert RowOk(exts, l.rows[j]);
        } else {
          var e :| e in es && r == RowFor(id, p.header, e);
          RowOfEntry(id, p.header, e);
        }
      }
    }
  }

  lemma RowOfEntry(id: nat, h: Header, e: Entry)
    ensures RowFor(id, h, e).extraction == id && RowFor(id, h, e).line == e.0
  {
  }

  /** A pending payment becomes approved or already recorded and its lines are posted. */
  lemma PostedKeeps(db: Db, id: nat, x: Extraction, now: int)
    requires DbOk(db) && id < |db.extractions| && db.extractions[id].status == PendingReview && IsPosted(x.status)
    requires ExtractionOk(db.emails, x, id) && x.email == db.extractions[id].email
      && x.claim == db.extractions[id].claim
    ensures var db' :=
        Db(Post(db.ledger, id, x), db.extractions[id := x], db.deliveries + Queueing(id, x, now), db.emails);
      DbOk(db') && Advances(db, db')
  {
    hide OneOwner, EmailOk, Unowned, Owns, Post, RowIsLine, RowsHaveInvoices, OneRowPerLine, EmailsOk;
    var exts := db.extractions[id := x];
    KeptClaimIsUnowned(db.extractions, id, x);
    RevisedKeepsOneOwner(db.extractions, id, x);
    forall k | 0 <= k < |db.ledger.rows| ensures RowOk(exts, db.ledger.rows[k]) {
      assert RowOk(db.extractions, db.ledger.rows[k]);
    }
    PostedRowsOk(exts, db.ledger, id);
    PostedQueue(db.extractions, db.deliveries, id, x, now);
    assert ExtractionsOk(db.emails, exts) by { hide ExtractionOk; }
  }

  /** The delivery an approval adds. */
  function Queueing(id: nat, x: Extraction, now: int): seq<Delivery> {
    if x.status == Approved then [NewDelivery(id, now)] else []
  }

  lemma PostedQueue(exts: seq<Extraction>, ds: seq<Delivery>, id: nat, x: Extraction, now: int)
    requires QueueOk(exts, ds) && id < |exts| && exts[id].status == PendingReview && IsPosted(x.status)
    ensures var all := ds + Queueing(id, x, now); QueueOk(exts[id := x], all) && QueueGrows(ds, all)
  {
    var exts', all := exts[id := x], ds + Queueing(id, x, now);
    forall k | 0 <= k < |all| ensures DeliveryOk(exts', all[k]) {
      if k < |ds| { assert DeliveryOk(exts, ds[k]); }
    }
    forall i | 0 <= i < |exts'| && exts'[i].status == Approved ensures HasDelivery(all, i) {
      if i != id {
        var k :| 0 <= k < |ds| && ds[k].extraction == i;
        assert all[k].extraction == i;
      } else {
        assert all[|ds|].extraction == id;
      }
    }
  }

  // ----- storing new payments -----

  ghost predicate IsNewRow(emails: seq<Email>, x: Extraction, i: nat) {
    ExtractionOk(emails, x, i) && x.status == PendingReview && x.claim.None?
  }

  lemma UnclaimedOwnNothing(exts: seq<Extraction>, more: seq<Extraction>)
    requires OneOwner(exts) && forall k | 0 <= k < |more| :: more[k].claim.None?
    ensures OneOwner(exts + more)
  {
    var all := exts + more;
    assert forall i, key | 0 <= i < |all| && Owns(all[i], key) :: i < |exts| && Owns(exts[i], key);
  }

  lemma AppendedKeeps(db: Db, more: seq<Extraction>)
    requires DbOk(db) && forall k | 0 <= k < |more| :: IsNewRow(db.emails, more[k], |db.extractions| + k)
    ensures var db' := db.(extractions := db.extractions + more); DbOk(db') && Advances(db, db')
  {
    hide RowIsLine, EmailOk, RowsHaveInvoices, OneRowPerLine, KeyOf;
    var exts := db.extractions + more;
    forall k | 0 <= k < |db.ledger.rows| ensures RowOk(exts, db.ledger.rows[k]) {
      assert RowOk(db.extractions, db.ledger.rows[k]);
    }
    forall k | 0 <= k < |db.deliveries| ensures DeliveryOk(exts, db.deliveries[k]) {
      assert DeliveryOk(db.extractions, db.deliveries[k]);
    }
    forall i | 0 <= i < |exts| ensures ExtractionOk(db.emails, exts[i], i) {
      if i < |db.extractions| { assert ExtractionOk(db.emails, db.extractions[i], i); }
      else { assert IsNewRow(db.emails, more[i - |db.extractions|], i); }
    }
    assert forall k | 0 <= k < |more| :: IsNewRow(db.emails, more[k], |db.extractions| + k);
    UnclaimedOwnNothing(db.extractions, more);
  }

  // ----- changing emails, the ledger, deliveries -----

  ghost predicate KeepsSources(a: Email, b: Email) { a.sources != [] ==> b.sources != [] }

  ghost predicate EmailsKeepSources(a: seq<Email>, b: seq<Email>) {
    |a| <= |b| && forall e | 0 <= e < |a| :: KeepsSources(a[e], b[e])
  }

  lemma EmailsChanged(db: Db, emails: seq<Email>)
    requires DbOk(db) && EmailsOk(emails) && EmailsKeepSources(db.emails, emails)
    ensures DbOk(db.(emails := emails)) && Advances(db, db.(emails := emails))
  {
    hide OneOwner, LedgerOk, QueueOk, EmailsOk, KeyOf;
    forall i | 0 <= i < |db.extractions| ensures ExtractionOk(emails, db.extractions[i], i) {
      assert ExtractionOk(db.emails, db.extractions[i], i);
      assert KeepsSources(db.emails[db.extractions[i].email], emails[db.extractions[i].email]);
    }
  }

  lemma EmailChanged(db: Db, e: nat, email: Email)
    requires DbOk(db) && e < |db.emails| && EmailOk(email) && KeepsSources(db.emails[e], email)
    ensures var db' := db.(emails := db.emails[e := email]); DbOk(db') && Advances(db, db')
  {
    hide OneOwner, LedgerOk, QueueOk, EmailOk, ExtractionsOk;
    EmailsChanged(db, db.emails[e := email]);
  }

  /** A status other than new never breaks an email. */
  lemma StatusChanged(db: Db, e: nat, status: EmailStatus)
    requires DbOk(db) && e < |db.emails| && (status == New ==> db.emails[e].sources == [])
    ensures var db' := db.(emails := db.emails[e := db.emails[e].(status := status)]); DbOk(db') && Advances(db, db')
  {
    assert EmailOk(db.emails[e]);
    hide DbOk, Advances;
    EmailChanged(db, e, db.emails[e].(status := status));
  }

  lemma LedgerChanged(db: Db, l: Ledger)
    requires DbOk(db) && LedgerOk(db.extractions, l) && db.ledger.rows <= l.rows
    ensures DbOk(db.(ledger := l)) && Advances(db, db.(ledger := l))
  {
    hide OneOwner, LedgerOk, QueueOk, EmailsOk, ExtractionsOk;
  }

  lemma DeliveryChanged(db: Db, k: nat, d: Delivery)
    requires DbOk(db) && k < |db.deliveries| && DeliveryOk(db.extractions, d)
      && d.extraction == db.deliveries[k].extraction
    ensures var db' := db.(deliveries := db.deliveries[k := d]); DbOk(db') && Onward(db, db')
  {
    hide OneOwner, LedgerOk, EmailsOk, ExtractionsOk, DeliveryOk;
    var ds := db.deliveries[k := d];
    forall i | 0 <= i < |db.extractions| && db.extractions[i].status == Approved ensures HasDelivery(ds, i) {
      var j :| 0 <= j < |db.deliveries| && db.deliveries[j].extraction == i;
      assert ds[j].extraction == i;
    }
  }
}
