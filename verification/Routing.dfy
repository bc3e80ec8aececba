/** Approving and queueing a payment, and closing its email (ar_pipeline/pipeline/routing.py). */
module Routing {
  import opened Models
  import opened Posting

  /** The payload with the reviewer's name in its envelope. */
  function Signed(canonical: Option<Payload>, reviewer: string): Option<Payload> {
    if canonical.Some? then Some(canonical.value.(reviewedBy := Some(reviewer))) else None
  }

  function Reviewed(ext: Extraction, status: ExtractionStatus, reviewer: string, now: int): Extraction {
    ext.(status := status, reviewedBy := Some(reviewer), reviewedAt := Some(now),
      canonical := Signed(ext.canonical, reviewer))
  }

  function NewDelivery(id: nat, now: int): Delivery { Delivery(id, DeliveryPending, 0, Some(now)) }

  function Queued(db: Db, id: nat, reviewer: string, now: int): Db
    requires id < |db.extractions|
  {
    var x := Reviewed(db.extractions[id], Approved, reviewer, now);
    Db(Post(db.ledger, id, x), db.extractions[id := x], db.deliveries + [NewDelivery(id, now)], db.emails)
  }

  predicate IsPendingOf(ext: Extraction, email: nat) { ext.email == email && ext.status == PendingReview }

  predicate HasPending(exts: seq<Extraction>, email: nat) {
    exists i | 0 <= i < |exts| :: IsPendingOf(exts[i], email)
  }

  /** Some other payment of its email is pending. */
  predicate OthersPending(exts: seq<Extraction>, id: nat)
    requires id < |exts|
  {
    exists i | 0 <= i < |exts| && i != id :: IsPendingOf(exts[i], exts[id].email)
  }

  function Settled(db: Db, email: nat): Db {
    if HasPending(db.extractions, email) || email >= |db.emails| then db
    else db.(emails := db.emails[email := db.emails[email].(status := Done)])
  }

  /** `approve_and_queue`: the caller has checked that the payment may be approved. */
  method ApproveAndQueue(db: Database, id: nat, reviewer: string, now: int)
    requires id < |db.extractions|
    modifies db
    ensures db.View() == Queued(old(db.View()), id, reviewer, now)
  {
    hide Post;
    var row := db.extractions[id];
    row := row.(status := Approved, reviewedBy := Some(reviewer), reviewedAt := Some(now));
    if row.canonical.Some? {
      row := row.(canonical := Some(row.canonical.value.(reviewedBy := Some(reviewer))));
    }
    db.extractions := db.extractions[id := row];
    db.deliveries := db.deliveries + [NewDelivery(id, now)];
    var posted := PostExtraction(db, id);
  }

  /** `settle_email`. */
  method SettleEmail(db: Database, email: nat)
    requires email < |db.emails|
    modifies db`emails
    ensures db.View() == Settled(old(db.View()), email)
  {
    if !HasPending(db.extractions, email) {
      db.emails := db.emails[email := db.emails[email].(status := Done)];
    }
  }
}
