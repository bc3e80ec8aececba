/** What a reviewer can do to a payment or an email (ar_pipeline/review/service.py).

    Each call is one transaction. `Refused` stands for the errors that leave the database alone, `Blocked`
    for an approval held back although the edits are kept. */
module Review {
  import opened Models
  import opened Matching
  import opened References
  import opened Dedupe
  import opened Posting
  import opened Recheck
  import opened Routing

  datatype Outcome = Ok | Refused | Blocked

  predicate IsPending(exts: seq<Extraction>, id: nat) { id < |exts| && exts[id].status == PendingReview }

  /** Every extraction belongs to an email. */
  ghost predicate InEmails(db: Db) {
    forall i | 0 <= i < |db.extractions| :: db.extractions[i].email < |db.emails|
  }

  // ----- approve, reject -----

  function Approve(db: Db, id: nat, reviewer: string, now: int): (Db, Outcome) {
    if !IsPending(db.extractions, id) || !IsPayment(db.extractions[id]) then (db, Refused)
    else (Settled(Queued(db, id, reviewer, now), db.extractions[id].email), Ok)
  }

  method ApproveExtraction(db: Database, id: nat, reviewer: string, now: int) returns (r: Outcome)
    requires InEmails(db.View())
    modifies db
    ensures (db.View(), r) == Approve(old(db.View()), id, reviewer, now)
  {
    hide Queued, Settled;
    if !IsPending(db.extractions, id) || !IsPayment(db.extractions[id]) {
      return Refused;
    }
    var email := db.extractions[id].email;
    ApproveAndQueue(db, id, reviewer, now);
    QueuedKeepsEmails(old(db.View()), id, reviewer, now);
    SettleEmail(db, email);
    return Ok;
  }

  lemma QueuedKeepsEmails(db: Db, id: nat, reviewer: string, now: int)
    requires id < |db.extractions|
    ensures Queued(db, id, reviewer, now).emails == db.emails
  {
  }

  function RejectedRow(ext: Extraction, reviewer: string, reason: string, now: int): Extraction {
    ext.(status := Rejected, rejectReason := Trim(reason), reviewedBy := Some(reviewer), reviewedAt := Some(now))
  }

  function Reject(db: Db, id: nat, reviewer: string, reason: string, now: int): (Db, Outcome) {
    if !IsPending(db.extractions, id) || Trim(reason) == "" then (db, Refused)
    else
      var x := RejectedRow(db.extractions[id], reviewer, reason, now);
      (Settled(db.(extractions := db.extractions[id := x]), x.email), Ok)
  }

  method RejectExtraction(db: Database, id: nat, reviewer: string, reason: string, now: int) returns (r: Outcome)
    requires InEmails(db.View())
    modifies db`extractions, db`emails
    ensures (db.View(), r) == Reject(old(db.View()), id, reviewer, reason, now)
  {
    hide Settled;
    if !IsPending(db.extractions, id) {
      return Refused;
    }
    if Trim(reason) == "" {
      return Refused;
    }
    var row := db.extractions[id];
    db.extractions := db.extractions[id := RejectedRow(row, reviewer, reason, now)];
    SettleEmail(db, row.email);
    return Ok;
  }

  // ----- edits -----

  datatype Form = Form(header: Header, lines: seq<LineItem>)

  /** The stored payload with the form's header and lines; a payload has at least one line. */
  function Edited(ext: Extraction, form: Option<Form>): Option<Payload> {
    if ext.canonical.None? || form.None? || form.value.lines == [] then None
    else Some(ext.canonical.value.(header := form.value.header, lines := form.value.lines))
  }

  predicate KeyChanged(ext: Extraction, p: Payload) {
    ext.canonical.None? || !SameKeyFields(ext.canonical.value.header, p.header)
  }

  /** Somebody else owns the strong key the header would claim. */
  predicate Conflicts(exts: seq<Extraction>, id: nat, h: Header) {
    var found := PaymentKeyFor(h);
    found.Some? && found.value.strength == Strong && OtherOwner(exts, found.value.key, id).Some?
  }

  function EditedRow(l: Ledger, context: Context, ext: Extraction, p: Payload): Extraction {
    var changed := KeyChanged(ext, p);
    var x := ext.(canonical := Some(p), flags := Rechecked(l, context, ext.flags, p, changed));
    if changed then x.(claim := None, duplicateOf := None) else x
  }

  /** The edits written, and the payment keyed again if its key fields changed. */
  function Saved(db: Db, context: Context, id: nat, p: Payload): Db
    requires id < |db.extractions|
  {
    var exts := db.extractions[id := EditedRow(db.ledger, context, db.extractions[id], p)];
    db.(extractions := if KeyChanged(db.extractions[id], p) then exts[id := Assigned(exts, id)] else exts)
  }

  predicate HasNewFlag(flags: seq<Flag>, shown: seq<Flag>) { exists f | f in flags :: f !in shown }

  function Save(
    db: Db, context: Context, id: nat, reviewer: string, form: Option<Form>, approve: bool, now: int): (Db, Outcome) {
    if !IsPending(db.extractions, id) || (approve && !IsPayment(db.extractions[id])) then (db, Refused)
    else
      var ext := db.extractions[id];
      var p := Edited(ext, form);
      if p.None? || (KeyChanged(ext, p.value) && Conflicts(db.extractions, id, p.value.header)) then (db, Refused)
      else
        var saved := Saved(db, context, id, p.value);
        if !approve then (saved, Ok)
        else if HasNewFlag(saved.extractions[id].flags, ext.flags) then (saved, Blocked)
        else Approve(saved, id, reviewer, now)
  }

  /** The writing half of `save_edits`. */
  method WriteEdits(db: Database, context: Context, id: nat, p: Payload)
    requires id < |db.extractions|
    modifies db`extractions
    ensures db.View() == Saved(old(db.View()), context, id, p)
  {
    hide PaymentKeyFor, Rechecked, Assigned, SameKeyFields;
    var row := db.extractions[id];
    var changed := KeyChanged(row, p);
    var flags := RecheckPayment(db, context, row.flags, p, changed);
    row := row.(canonical := Some(p), flags := flags);
    db.extractions := db.extractions[id := row];
    if changed {
      row := row.(claim := None, duplicateOf := None);
      db.extractions := db.extractions[id := row];
      assert db.extractions == old(db.extractions)[id := EditedRow(old(db.Books()), context, old(db.extractions[id]),
        p)];
      AssignPaymentKey(db, id);
    }
  }

  method SaveEdits(
    db: Database, context: Context, id: nat, reviewer: string, form: Option<Form>, approve: bool, now: int)
    returns (r: Outcome)
    requires InEmails(db.View())
    modifies db
    ensures (db.View(), r) == Save(old(db.View()), context, id, reviewer, form, approve, now)
  {
    hide Approve, Saved, KeyChanged, Conflicts;
    if !IsPending(db.extractions, id) || (approve && !IsPayment(db.extractions[id])) {
      return Refused;
    }
    var ext := db.extractions[id];
    var p := Edited(ext, form);
    if p.None? || (KeyChanged(ext, p.value) && Conflicts(db.extractions, id, p.value.header)) {
      return Refused; // nothing has been written
    }
    SavedKeepsEmails(db.View(), context, id, p.value);
    WriteEdits(db, context, id, p.value);
    if !approve {
      return Ok;
    }
    if HasNewFlag(db.extractions[id].flags, ext.flags) {
      return Blocked;
    }
    r := ApproveExtraction(db, id, reviewer, now);
  }

  lemma SavedKeepsEmails(db: Db, context: Context, id: nat, p: Payload)
    requires id < |db.extractions| && InEmails(db)
    ensures InEmails(Saved(db, context, id, p)) && |Saved(db, context, id, p).extractions| == |db.extractions|
  {
    hide PaymentKeyFor, Rechecked, SameKeyFields, Assigned;
    var exts := db.extractions[id := EditedRow(db.ledger, context, db.extractions[id], p)];
    AssignedIs(exts, id);
  }

  // ----- already recorded -----

  predicate IsRecordable(exts: seq<Extraction>, id: nat) {
    IsPending(exts, id) && IsPayment(exts[id]) && exts[id].historical
  }

  function Recorded(db: Db, id: nat, reviewer: string, now: int): Db
    requires id < |db.extractions|
  {
    var x := Reviewed(db.extractions[id], AlreadyRecorded, reviewer, now);
    Settled(db.(ledger := Post(db.ledger, id, x), extractions := db.extractions[id := x]), x.email)
  }

  /** The first `n` of the payments asked for, one after the other. */
  function RecordAll(db: Db, ids: seq<nat>, reviewer: string, skipLinked: bool, now: int): (Db, Outcome) {
    if ids == [] then (db, Ok)
    else
      var (before, r) := RecordAll(db, ids[..|ids| - 1], reviewer, skipLinked, now);
      var id := ids[|ids| - 1];
      if r != Ok || !IsRecordable(before.extractions, id) then (before, r)
      else if before.extractions[id].duplicateOf.Some? then (before, if skipLinked then Ok else Refused)
      else (Recorded(before, id, reviewer, now), Ok)
  }

  function RecordedCount(exts: seq<Extraction>): nat {
    if exts == [] then 0
    else RecordedCount(exts[..|exts| - 1]) + if exts[|exts| - 1].status == AlreadyRecorded then 1 else 0
  }

  lemma {:induction false} OneMoreRecorded(exts: seq<Extraction>, id: nat, x: Extraction)
    requires id < |exts| && exts[id].status != AlreadyRecorded && x.status == AlreadyRecorded
    ensures RecordedCount(exts[id := x]) == RecordedCount(exts) + 1
  {
    var n := |exts| - 1;
    if id == n {
      assert exts[id := x][..n] == exts[..n];
    } else {
      assert exts[id := x][..n] == exts[..n][id := x];
      OneMoreRecorded(exts[..n], id, x);
    }
  }

  /** `mark_already_recorded`; `done` is how many payments it recorded. */
  method MarkAlreadyRecorded(db: Database, ids: seq<nat>, reviewer: string, skipLinked: bool, now: int)
    returns (r: Outcome, done: nat)
    requires InEmails(db.View())
    modifies db
    ensures (db.View(), r) == RecordAll(old(db.View()), ids, reviewer, skipLinked, now)
    ensures RecordedCount(db.extractions) == RecordedCount(old(db.extractions)) + done
  {
    hide Recorded;
    r, done := Ok, 0;
    for i := 0 to |ids|
      invariant (db.View(), r) == RecordAll(old(db.View()), ids[..i], reviewer, skipLinked, now)
      invariant InEmails(db.View()) && r == Ok
      invariant RecordedCount(db.extractions) == RecordedCount(old(db.extractions)) + done
    {
      assert ids[..i + 1][..i] == ids[..i];
      if !IsRecordable(db.extractions, ids[i]) {
        continue;
      }
      if db.extractions[ids[i]].duplicateOf.Some? {
        if skipLinked {
          continue;
        }
        RefusalStands(old(db.View()), ids, i + 1, reviewer, skipLinked, now);
        return Refused, done;
      }
      OneMoreRecorded(db.extractions, ids[i], Reviewed(db.extractions[ids[i]], AlreadyRecorded, reviewer, now));
      RecordOne(db, ids[i], reviewer, now);
      done := done + 1;
    }
    assert ids[..|ids|] == ids;
  }

  method RecordOne(db: Database, id: nat, reviewer: string, now: int)
    requires id < |db.extractions| && InEmails(db.View())
    modifies db
    ensures db.View() == Recorded(old(db.View()), id, reviewer, now) && InEmails(db.View())
    ensures db.extractions == old(db.extractions)[id := Reviewed(old(db.extractions[id]), AlreadyRecorded, reviewer,
      now)]
  {
    hide Post, Settled;
    var row := db.extractions[id];
    row := row.(status := AlreadyRecorded, reviewedBy := Some(reviewer), reviewedAt := Some(now));
    if row.canonical.Some? {
      row := row.(canonical := Some(row.canonical.value.(reviewedBy := Some(reviewer))));
    }
    db.extractions := db.extractions[id := row];
    var posted := PostExtraction(db, id);
    SettledKeepsEmails(db.View(), row.email);
    SettleEmail(db, row.email);
  }

  lemma SettledKeepsEmails(db: Db, email: nat)
    ensures Settled(db, email).extractions == db.extractions && |Settled(db, email).emails| == |db.emails|
    ensures Settled(db, email).ledger == db.ledger && Settled(db, email).deliveries == db.deliveries
  {
  }

  lemma {:induction false} RefusalStands(db: Db, ids: seq<nat>, n: nat, reviewer: string, skipLinked: bool, now: int)
    requires n <= |ids| && RecordAll(db, ids[..n], reviewer, skipLinked, now).1 == Refused
    ensures RecordAll(db, ids, reviewer, skipLinked, now) == RecordAll(db, ids[..n], reviewer, skipLinked, now)
  {
    hide Recorded;
    if n == |ids| {
      assert ids[..n] == ids;
    } else {
      var front := ids[..|ids| - 1];
      assert front[..n] == ids[..n];
      RefusalStands(db, front, n, reviewer, skipLinked, now);
    }
  }

  // ----- reading an email again -----

  /** Some payment of the email read from this message is waiting for review. */
  predicate HasPendingFrom(exts: seq<Extraction>, email: nat, message: Option<nat>) {
    exists i | 0 <= i < |exts| :: IsPendingOf(exts[i], email) && exts[i].message == message
  }

  predicate IsAffected(exts: seq<Extraction>, email: nat, ext: Extraction) {
    ext.email == email && HasPendingFrom(exts, email, ext.message)
  }

  predicate Replaceable(status: ExtractionStatus) {
    status == PendingReview || status == Rejected || status == Duplicate
  }

  function Replaced(exts: seq<Extraction>, email: nat, ext: Extraction): Extraction {
    if IsAffected(exts, email, ext) && Replaceable(ext.status) then ext.(status := Superseded) else ext
  }

  function ReplacedAll(exts: seq<Extraction>, email: nat): (r: seq<Extraction>)
    ensures |r| == |exts| && forall i | 0 <= i < |exts| :: r[i] == Replaced(exts, email, exts[i])
  {
    seq(|exts|, i requires 0 <= i < |exts| => Replaced(exts, email, exts[i]))
  }

  predicate AffectsPosted(exts: seq<Extraction>, email: nat) {
    exists i | 0 <= i < |exts| :: IsAffected(exts, email, exts[i]) && IsPosted(exts[i].status)
  }

  function Reprocess(db: Db, email: nat): (Db, Outcome) {
    if email >= |db.emails| || !HasPending(db.extractions, email) || AffectsPosted(db.extractions, email)
    then (db, Refused)
    else (db.(extractions := ReplacedAll(db.extractions, email),
              emails := db.emails[email := db.emails[email].(status := Classified)]), Ok)
  }

  method ReprocessEmail(db: Database, email: nat) returns (r: Outcome)
    modifies db`extractions, db`emails
    ensures (db.View(), r) == Reprocess(old(db.View()), email)
  {
    hide IsAffected;
    var rows := db.extractions;
    if email >= |db.emails| {
      return Refused;
    }
    if !HasPending(rows, email) || AffectsPosted(rows, email) {
      return Refused;
    }
    for i := 0 to |rows|
      invariant |db.extractions| == |rows|
      invariant forall j | 0 <= j < |rows| ::
        db.extractions[j] == if j < i then Replaced(rows, email, rows[j]) else rows[j]
      modifies db`extractions
    {
      if IsAffected(rows, email, rows[i]) && Replaceable(rows[i].status) {
        db.extractions := db.extractions[i := rows[i].(status := Superseded)];
      }
    }
    assert db.extractions == ReplacedAll(rows, email);
    db.emails := db.emails[email := db.emails[email].(status := Classified)];
    return Ok;
  }

  // ----- retries -----

  function Retried(messages: seq<MessageStatus>): (r: seq<MessageStatus>)
    ensures |r| == |messages|
    ensures forall i | 0 <= i < |r| :: r[i] == if messages[i] == MessageFailed then MessageNew else messages[i]
  {
    seq(|messages|, i requires 0 <= i < |messages| => if messages[i] == MessageFailed then MessageNew else messages[i])
  }

  function RetryOf(email: Email): Email {
    email.(status := if email.sources != [] then Classified else New, messages := Retried(email.messages))
  }

  method RetryEmail(db: Database, email: nat) returns (r: Outcome)
    modifies db`emails
    ensures email >= |old(db.emails)| || old(db.emails[email].status) != Error ==>
      r == Refused && db.emails == old(db.emails)
    ensures email < |old(db.emails)| && old(db.emails[email].status) == Error ==>
      r == Ok && db.emails == old(db.emails)[email := RetryOf(old(db.emails[email]))]
  {
    if email >= |db.emails| {
      return Refused;
    }
    var row := db.emails[email];
    if row.status != Error {
      return Refused;
    }
    row := row.(status := if row.sources != [] then Classified else New);
    var messages := row.messages;
    for i := 0 to |messages|
      invariant |messages| == |row.messages|
      invariant forall j | 0 <= j < |messages| ::
        messages[j] == if j < i && row.messages[j] == MessageFailed then MessageNew else row.messages[j]
    {
      if messages[i] == MessageFailed {
        messages := messages[i := MessageNew];
      }
    }
    assert messages == Retried(row.messages);
    db.emails := db.emails[email := row.(messages := messages)];
    return Ok;
  }

  predicate HasFailed(emails: seq<Email>, email: nat, message: nat) {
    email < |emails| && message < |emails[email].messages| && emails[email].messages[message] == MessageFailed
  }

  method RetryMessage(db: Database, email: nat, message: nat) returns (r: Outcome)
    modifies db`emails
    ensures !HasFailed(old(db.emails), email, message) ==> r == Refused && db.emails == old(db.emails)
    ensures HasFailed(old(db.emails), email, message) ==>
      r == Ok && db.emails == old(db.emails)[email := MessageRetried(old(db.emails[email]), message)]
  {
    if !HasFailed(db.emails, email, message) {
      return Refused;
    }
    var row := db.emails[email];
    row := row.(messages := row.messages[message := MessageNew]);
    row := row.(status := Extracted);
    db.emails := db.emails[email := row];
    return Ok;
  }

  function MessageRetried(email: Email, message: nat): Email
    requires message < |email.messages|
  {
    email.(status := Extracted, messages := email.messages[message := MessageNew])
  }

  function Resent(d: Delivery, now: int): Delivery {
    d.(status := DeliveryPending, attempts := 0, nextAttempt := Some(now))
  }

  method ResendDelivery(db: Database, d: nat, now: int) returns (r: Outcome)
    modifies db`deliveries
    ensures d >= |old(db.deliveries)| || old(db.deliveries[d].status) != DeliveryFailed ==>
      r == Refused && db.deliveries == old(db.deliveries)
    ensures d < |old(db.deliveries)| && old(db.deliveries[d].status) == DeliveryFailed ==>
      r == Ok && db.deliveries == old(db.deliveries)[d := Resent(old(db.deliveries[d]), now)]
  {
    if d >= |db.deliveries| || db.deliveries[d].status != DeliveryFailed {
      return Refused;
    }
    var row := db.deliveries[d];
    row := row.(status := DeliveryPending, nextAttempt := Some(now));
    row := row.(attempts := 0);
    db.deliveries := db.deliveries[d := row];
    return Ok;
  }
}
