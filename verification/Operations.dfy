/** Every operation on the database keeps its invariant, and leaves each email's status agreeing with what
    is waiting for review. */
module Operations {
  import opened Models
  import opened References
  import opened Dedupe
  import opened Posting
  import opened Recheck
  import opened Routing
  import opened Review
  import opened Normalize
  import opened Advance
  import opened Invariant
  import opened ThreadBackfill
  import Backfill

  // ----- agreement -----

  /** In review means something is pending; done means nothing is. */
  ghost predicate Agrees(db: Db, e: nat)
    requires e < |db.emails|
  {
    && (db.emails[e].status == EmailStatus.Review ==> HasPending(db.extractions, e))
    && (db.emails[e].status == Done ==> !HasPending(db.extractions, e))
  }

  ghost predicate AllAgree(db: Db) { forall e | 0 <= e < |db.emails| :: Agrees(db, e) }

  ghost predicate Good(db: Db) { DbOk(db) && AllAgree(db) }

  /** Only email `e` and its payments are touched, and payments added are its own. */
  ghost predicate TouchesOnly(db: Db, db': Db, e: nat) {
    && |db'.emails| == |db.emails| && |db.extractions| <= |db'.extractions|
    && (forall o | 0 <= o < |db.emails| && o != e :: db'.emails[o].status == db.emails[o].status)
    && (forall i | 0 <= i < |db.extractions| :: SameUnless(db.extractions[i], db'.extractions[i], e))
    && (forall i | |db.extractions| <= i < |db'.extractions| :: db'.extractions[i].email == e)
  }

  ghost predicate SameUnless(a: Extraction, b: Extraction, e: nat) {
    b.email == a.email && (a.email != e ==> b.status == a.status)
  }

  lemma TouchesTransitive(a: Db, b: Db, c: Db, e: nat)
    requires TouchesOnly(a, b, e) && TouchesOnly(b, c, e)
    ensures TouchesOnly(a, c, e)
  {
    forall i | 0 <= i < |a.extractions| ensures SameUnless(a.extractions[i], c.extractions[i], e) {
      assert SameUnless(a.extractions[i], b.extractions[i], e) && SameUnless(b.extractions[i], c.extractions[i], e);
    }
    forall i | |a.extractions| <= i < |c.extractions| ensures c.extractions[i].email == e {
      if i < |b.extractions| { assert SameUnless(b.extractions[i], c.extractions[i], e); }
    }
  }

  lemma PendingElsewhere(db: Db, db': Db, e: nat, o: nat)
    requires TouchesOnly(db, db', e) && o != e
    ensures HasPending(db'.extractions, o) <==> HasPending(db.extractions, o)
  {
    forall i | 0 <= i < |db.extractions|
      ensures IsPendingOf(db'.extractions[i], o) <==> IsPendingOf(db.extractions[i], o)
    {
      assert SameUnless(db.extractions[i], db'.extractions[i], e);
    }
    if HasPending(db.extractions, o) {
      var i :| 0 <= i < |db.extractions| && IsPendingOf(db.extractions[i], o);
      assert IsPendingOf(db'.extractions[i], o);
    }
  }

  lemma AgreeElsewhere(db: Db, db': Db, e: nat)
    requires AllAgree(db) && TouchesOnly(db, db', e) && e < |db.emails| && Agrees(db', e)
    ensures AllAgree(db')
  {
    hide HasPending;
    forall o | 0 <= o < |db'.emails| ensures Agrees(db', o) {
      if o != e {
        PendingElsewhere(db, db', e, o);
        assert Agrees(db, o);
      }
    }
  }

  /** Settling an email after work on it makes it agree. */
  lemma SettledKeeps(db: Db, db': Db, e: nat)
    requires AllAgree(db) && TouchesOnly(db, db', e) && e < |db.emails| && DbOk(db')
    requires db'.emails[e].status == Done ==> !HasPending(db'.extractions, e)
    ensures Good(Settled(db', e)) && Advances(db', Settled(db', e)) && TouchesOnly(db, Settled(db', e), e)
  {
    hide DbOk, Advances, HasPending, AllAgree;
    SettledIs(db', e);
    StatusChanged(db', e, Done);
    AdvancesItself(db');
    var s := Settled(db', e);
    assert s == db' || s == db'.(emails := db'.emails[e := db'.emails[e].(status := Done)]);
    AgreeElsewhere(db, s, e);
  }

  // ----- approve -----

  lemma ReviewedOk(emails: seq<Email>, x: Extraction, i: nat, status: ExtractionStatus, reviewer: string, now: int)
    requires ExtractionOk(emails, x, i) && IsPayment(x)
    ensures ExtractionOk(emails, Reviewed(x, status, reviewer, now), i)
  {
    hide PaymentKeyFor;
  }

  /** Approving and queueing a pending payment keeps the invariant of the database. */
  lemma QueuedKeeps(db: Db, id: nat, reviewer: string, now: int)
    requires DbOk(db) && IsPending(db.extractions, id) && IsPayment(db.extractions[id])
    ensures var db' := Queued(db, id, reviewer, now);
      DbOk(db') && Advances(db, db') && TouchesOnly(db, db', db.extractions[id].email)
  {
    hide DbOk, Advances, Post;
    var x := Reviewed(db.extractions[id], Approved, reviewer, now);
    assert ExtractionOk(db.emails, db.extractions[id], id) by { PartsOk(db); }
    ReviewedOk(db.emails, db.extractions[id], id, Approved, reviewer, now);
    PostedKeeps(db, id, x, now);
  }

  lemma PartsOk(db: Db)
    requires DbOk(db)
    ensures forall i | 0 <= i < |db.extractions| :: ExtractionOk(db.emails, db.extractions[i], i)
    ensures OneOwner(db.extractions)
    ensures forall e | 0 <= e < |db.emails| :: EmailOk(db.emails[e])
  {
  }

  lemma ApproveKeeps(db: Db, id: nat, reviewer: string, now: int)
    requires Good(db)
    ensures var db' := Approve(db, id, reviewer, now).0; Good(db') && Advances(db, db')
  {
    AdvancesItself(db);
    if IsPending(db.extractions, id) && IsPayment(db.extractions[id]) {
      hide DbOk, Advances, Queued, Settled, AllAgree;
      var queued, e := Queued(db, id, reviewer, now), db.extractions[id].email;
      QueuedKeeps(db, id, reviewer, now);
      PendingNotDone(db, id);
      QueuedKeepsEmails(db, id, reviewer, now);
      SettledKeeps(db, queued, e);
      AdvancesTransitive(db, queued, Settled(queued, e));
    }
  }

  /** An email with something pending is not done. */
  lemma PendingNotDone(db: Db, id: nat)
    requires Good(db) && IsPending(db.extractions, id)
    ensures var e := db.extractions[id].email; e < |db.emails| && db.emails[e].status != Done
  {
    PartsOk(db);
    hide DbOk;
    var e := db.extractions[id].email;
    assert ExtractionOk(db.emails, db.extractions[id], id);
    assert IsPendingOf(db.extractions[id], e);
    assert Agrees(db, e);
  }

  /** A pending payment shelved or left pending touches only its email. */
  lemma RevisedTouches(db: Db, id: nat, x: Extraction)
    requires id < |db.extractions| && x.email == db.extractions[id].email
    ensures TouchesOnly(db, Revised(db, id, x), x.email)
  {
  }

  lemma RejectKeeps(db: Db, id: nat, reviewer: string, reason: string, now: int)
    requires Good(db)
    ensures var db' := Reject(db, id, reviewer, reason, now).0; Good(db') && Advances(db, db')
  {
    AdvancesItself(db);
    if IsPending(db.extractions, id) {
      hide DbOk, Advances, Settled, AllAgree, KeyOf;
      var x := RejectedRow(db.extractions[id], reviewer, reason, now);
      PartsOk(db);
      assert ExtractionOk(db.emails, db.extractions[id], id);
      ShelvedKeeps(db, id, x);
      RevisedTouches(db, id, x);
      PendingNotDone(db, id);
      SettledKeeps(db, Revised(db, id, x), x.email);
      AdvancesTransitive(db, Revised(db, id, x), Settled(Revised(db, id, x), x.email));
    }
  }

  // ----- edits -----

  lemma SameFieldsSameKey(a: Header, b: Header)
    requires SameKeyFields(a, b)
    ensures PaymentKeyFor(a) == PaymentKeyFor(b)
  {
  }

  /** A payment's status and its email stay, so every email agrees as before. */
  lemma StillAgree(db: Db, db': Db)
    requires AllAgree(db) && db'.emails == db.emails && |db'.extractions| == |db.extractions|
    requires forall i | 0 <= i < |db.extractions| ::
      db'.extractions[i].status == db.extractions[i].status && db'.extractions[i].email == db.extractions[i].email
    ensures AllAgree(db')
  {
    forall e | 0 <= e < |db.emails| ensures Agrees(db', e) {
      assert Agrees(db, e);
      if HasPending(db.extractions, e) {
        var i :| 0 <= i < |db.extractions| && IsPendingOf(db.extractions[i], e);
        assert IsPendingOf(db'.extractions[i], e);
      }
      if HasPending(db'.extractions, e) {
        var i :| 0 <= i < |db'.extractions| && IsPendingOf(db'.extractions[i], e);
        assert IsPendingOf(db.extractions[i], e);
      }
    }
  }

  lemma EditedOk(db: Db, context: Context, id: nat, form: Option<Form>)
    requires DbOk(db) && IsPending(db.extractions, id) && Edited(db.extractions[id], form).Some?
    ensures var p := Edited(db.extractions[id], form).value;
      var x := EditedRow(db.ledger, context, db.extractions[id], p);
      && ExtractionOk(db.emails, x, id) && x.status == PendingReview && x.email == db.extractions[id].email
      && x.canonical == Some(p) && x.isRemittance == db.extractions[id].isRemittance
      && (if KeyChanged(db.extractions[id], p) then x.claim.None? else x.claim == db.extractions[id].claim)
  {
    PartsOk(db);
    hide DbOk, PaymentKeyFor, Rechecked;
    var ext := db.extractions[id];
    assert ExtractionOk(db.emails, ext, id);
    var p := Edited(ext, form).value;
    if !KeyChanged(ext, p) { SameFieldsSameKey(ext.canonical.value.header, p.header); }
  }

  lemma UnownedElsewhere(exts: seq<Extraction>, id: nat, x: Extraction, key: PaymentKey)
    requires id < |exts| && OtherOwner(exts, key, id).None?
    ensures Unowned(exts[id := x], id, key)
  {
  }

  /** Edits that are not refused leave the payment pending: a changed key never makes it a duplicate. */
  lemma SavedKeeps(db: Db, context: Context, id: nat, form: Option<Form>)
    requires DbOk(db) && IsPending(db.extractions, id) && Edited(db.extractions[id], form).Some?
    requires var p := Edited(db.extractions[id], form).value;
      !(KeyChanged(db.extractions[id], p) && Conflicts(db.extractions, id, p.header))
    ensures var db' := Saved(db, context, id, Edited(db.extractions[id], form).value);
      && DbOk(db') && Advances(db, db') && db'.emails == db.emails && |db'.extractions| == |db.extractions|
      && (forall i | 0 <= i < |db.extractions| && i != id :: db'.extractions[i] == db.extractions[i])
      && db'.extractions[id].status == PendingReview && db'.extractions[id].email == db.extractions[id].email
      && (IsPayment(db.extractions[id]) ==> IsPayment(db'.extractions[id]))
      && db'.ledger == db.ledger && db'.deliveries == db.deliveries
  {
    var ext := db.extractions[id];
    var p := Edited(ext, form).value;
    var x := EditedRow(db.ledger, context, ext, p);
    EditedOk(db, context, id, form);
    hide DbOk, Advances, EditedRow, PaymentKeyFor, Owns, OneOwner, Assigned, ExtractionOk, Conflicts, SameKeyFields;
    if !KeyChanged(ext, p) {
      ShelvedKeeps(db, id, x);
    } else {
      assert forall key | Owns(x, key) :: Unowned(db.extractions, id, key) by { UnclaimedOwnsNothing(x); }
      RevisedKeeps(db, id, x);
      var mid := Revised(db, id, x);
      forall key | KeyOf(x.canonical) == Some(Claim(key, Strong)) ensures Unowned(mid.extractions, id, key) {
        UnownedElsewhere(db.extractions, id, x, key);
      }
      RekeyedKeeps(mid, id);
      AdvancesTransitive(db, mid, Revised(mid, id, Assigned(mid.extractions, id)));
    }
  }

  /** A payment without a claim whose strong key nobody else owns gets its key and stays as it is. */
  lemma RekeyedKeeps(db: Db, id: nat)
    requires DbOk(db) && id < |db.extractions| && db.extractions[id].claim.None? && !IsPosted(db.extractions[id].status)
    requires forall key | KeyOf(db.extractions[id].canonical) == Some(Claim(key, Strong)) ::
      Unowned(db.extractions, id, key)
    ensures var x, y := db.extractions[id], Assigned(db.extractions, id);
      && DbOk(Revised(db, id, y)) && Advances(db, Revised(db, id, y))
      && y.status == x.status && y.email == x.email && y.canonical == x.canonical && y.isRemittance == x.isRemittance
  {
    PartsOk(db);
    hide DbOk, Advances, PaymentKeyFor, Owns, OneOwner, Assigned;
    AssignedIs(db.extractions, id);
    AssigningKeepsOneOwner(db.extractions, id);
    var x, found := db.extractions[id], KeyOf(db.extractions[id].canonical);
    assert ExtractionOk(db.emails, x, id);
    if found.Some? && found.value.strength == Strong { assert found == Some(Claim(found.value.key, Strong)); }
    RevisedKeeps(db, id, Assigned(db.extractions, id));
  }

  lemma UnclaimedOwnsNothing(x: Extraction)
    requires x.claim.None?
    ensures forall key :: !Owns(x, key)
  {
  }

  lemma SaveKeeps(db: Db, context: Context, id: nat, reviewer: string, form: Option<Form>, approve: bool, now: int)
    requires Good(db)
    ensures var db' := Save(db, context, id, reviewer, form, approve, now).0; Good(db') && Advances(db, db')
  {
    AdvancesItself(db);
    hide DbOk, Advances, AllAgree, Saved, Approve, KeyChanged, Conflicts, HasNewFlag;
    if !IsPending(db.extractions, id) || (approve && !IsPayment(db.extractions[id])) { return; }
    var p := Edited(db.extractions[id], form);
    if p.None? || (KeyChanged(db.extractions[id], p.value) && Conflicts(db.extractions, id, p.value.header)) { return; }
    SavedKeeps(db, context, id, form);
    var saved := Saved(db, context, id, p.value);
    StillAgree(db, saved);
    ApproveKeeps(saved, id, reviewer, now);
    AdvancesTransitive(db, saved, Approve(saved, id, reviewer, now).0);
  }

  /** A save is possible: the payment is pending, the form fits, an approval is asked for a payment only, and
      nobody else owns the strong key the edits would claim. */
  predicate CanSave(db: Db, id: nat, form: Option<Form>, approve: bool) {
    && IsPending(db.extractions, id) && (approve ==> IsPayment(db.extractions[id]))
    && var p := Edited(db.extractions[id], form);
       p.Some? && !(KeyChanged(db.extractions[id], p.value) && Conflicts(db.extractions, id, p.value.header))
  }

  /** The row `x` holds the edits made to `ext`: the payload, its key whenever the key fields changed, and the
      flags of a recheck, with those of the key behind them. */
  ghost predicate HoldsEdits(l: Ledger, context: Context, ext: Extraction, p: Payload, x: Extraction) {
    && x.canonical.Some? && x.canonical.value.header == p.header && x.canonical.value.lines == p.lines
    && (KeyChanged(ext, p) ==> x.claim == PaymentKeyFor(p.header) && x.duplicateOf.None?)
    && (!KeyChanged(ext, p) ==> x.claim == ext.claim && x.duplicateOf == ext.duplicateOf)
    && Rechecked(l, context, ext.flags, p, KeyChanged(ext, p)) <= x.flags
    && (!KeyChanged(ext, p) ==> x.flags == Rechecked(l, context, ext.flags, p, false))
  }

  /** What a save does, exactly. When it is not possible it is refused and nothing changes. Otherwise the
      edits are stored, and the payment is never made a duplicate. It is approved exactly when that was
      asked for and the edits raise no flag that was not shown; when they do, the edits stay stored with the
      flags they raise, and nothing is queued or posted. */
  lemma SaveIsExact(db: Db, context: Context, id: nat, reviewer: string, form: Option<Form>, approve: bool, now: int)
    requires Good(db)
    ensures var (db', r) := Save(db, context, id, reviewer, form, approve, now);
      && (r == Refused <==> !CanSave(db, id, form, approve))
      && (r == Refused ==> db' == db)
      && (r != Refused ==>
            && |db'.extractions| == |db.extractions|
            && (forall i | 0 <= i < |db.extractions| && i != id :: db'.extractions[i] == db.extractions[i])
            && var ext, x := db.extractions[id], db'.extractions[id];
               && HoldsEdits(db.ledger, context, ext, Edited(ext, form).value, x)
               && x.status == (if r == Ok && approve then Approved else PendingReview)
               && (r == Blocked <==> approve && HasNewFlag(x.flags, ext.flags))
               && (x.status != Approved ==> db'.ledger == db.ledger && db'.deliveries == db.deliveries
                                            && db'.emails == db.emails))
  {
    hide DbOk, AllAgree, Saved, KeyChanged, Conflicts, HasNewFlag, PaymentKeyFor, Settled, Queued, HoldsEdits, Edited;
    if CanSave(db, id, form, approve) {
      var p := Edited(db.extractions[id], form).value;
      SavedKeeps(db, context, id, form);
      SavedClaims(db, context, id, form);
      var saved := Saved(db, context, id, p);
      SettledKeepsEmails(Queued(saved, id, reviewer, now), saved.extractions[id].email);
      QueuedRow(saved, id, reviewer, now);
      ApprovedHoldsEdits(db.ledger, context, db.extractions[id], p, saved.extractions[id], reviewer, now);
    }
  }

  lemma ApprovedHoldsEdits(
    l: Ledger, context: Context, ext: Extraction, p: Payload, x: Extraction, reviewer: string, now: int)
    requires HoldsEdits(l, context, ext, p, x)
    ensures HoldsEdits(l, context, ext, p, Reviewed(x, Approved, reviewer, now))
    ensures Reviewed(x, Approved, reviewer, now).flags == x.flags
  {
    hide KeyChanged, PaymentKeyFor, Rechecked;
  }

  lemma QueuedRow(db: Db, id: nat, reviewer: string, now: int)
    requires id < |db.extractions|
    ensures Queued(db, id, reviewer, now).extractions ==
      db.extractions[id := Reviewed(db.extractions[id], Approved, reviewer, now)]
  {
  }

  lemma SavedClaims(db: Db, context: Context, id: nat, form: Option<Form>)
    requires DbOk(db) && IsPending(db.extractions, id) && Edited(db.extractions[id], form).Some?
    requires var p := Edited(db.extractions[id], form).value;
      !(KeyChanged(db.extractions[id], p) && Conflicts(db.extractions, id, p.header))
    ensures var ext, p := db.extractions[id], Edited(db.extractions[id], form).value;
      HoldsEdits(db.ledger, context, ext, p, Saved(db, context, id, p).extractions[id])
  {
    hide PaymentKeyFor, Rechecked, SameKeyFields, DbOk;
    var p := Edited(db.extractions[id], form).value;
    var exts := db.extractions[id := EditedRow(db.ledger, context, db.extractions[id], p)];
    var found := PaymentKeyFor(p.header);
    if KeyChanged(db.extractions[id], p) && found.Some? && found.value.strength == Strong {
      UnownedElsewhere(db.extractions, id, exts[id], found.value.key);
      assert OtherOwner(exts, found.value.key, id).None?;
    }
  }

  // ----- already recorded -----

  lemma RecordedKeeps(db: Db, id: nat, reviewer: string, now: int)
    requires Good(db) && IsRecordable(db.extractions, id)
    ensures var db' := Recorded(db, id, reviewer, now); Good(db') && Advances(db, db')
  {
    PartsOk(db);
    hide DbOk, Advances, Settled, AllAgree, Post, ExtractionOk, EmailOk, OneOwner;
    var ext := db.extractions[id];
    var x := Reviewed(ext, AlreadyRecorded, reviewer, now);
    assert ExtractionOk(db.emails, ext, id);
    ReviewedOk(db.emails, ext, id, AlreadyRecorded, reviewer, now);
    PostedKeeps(db, id, x, now);
    var posted := db.(ledger := Post(db.ledger, id, x), extractions := db.extractions[id := x]);
    assert posted == Db(Post(db.ledger, id, x), db.extractions[id := x], db.deliveries + Queueing(id, x, now),
      db.emails);
    PendingNotDone(db, id);
    SettledKeeps(db, posted, x.email);
    AdvancesTransitive(db, posted, Settled(posted, x.email));
  }

  lemma {:induction false} RecordAllKeeps(db: Db, ids: seq<nat>, reviewer: string, skipLinked: bool, now: int)
    requires Good(db)
    ensures var db' := RecordAll(db, ids, reviewer, skipLinked, now).0; Good(db') && Advances(db, db')
  {
    hide Good, Advances, Recorded;
    AdvancesItself(db);
    if ids != [] {
      var front, id := ids[..|ids| - 1], ids[|ids| - 1];
      RecordAllKeeps(db, front, reviewer, skipLinked, now);
      var before := RecordAll(db, front, reviewer, skipLinked, now).0;
      if IsRecordable(before.extractions, id) {
        RecordedKeeps(before, id, reviewer, now);
        AdvancesTransitive(db, before, Recorded(before, id, reviewer, now));
      }
    }
  }

  // ----- changing many payments at once -----

  /** A payment goes out of play or only its message changes. */
  ghost predicate Shelved(a: Extraction, b: Extraction) {
    && Unposted(a, b) && b.email == a.email && b.claim == a.claim && b.canonical == a.canonical
    && b.isRemittance == a.isRemittance && (KeyLive(b.status) ==> KeyLive(a.status))
  }

  ghost predicate AllShelved(exts: seq<Extraction>, exts': seq<Extraction>) {
    |exts'| == |exts| && forall i | 0 <= i < |exts| :: Shelved(exts[i], exts'[i])
  }

  lemma {:induction false} AllShelvedKeeps(db: Db, exts: seq<Extraction>, n: nat)
    requires DbOk(db) && AllShelved(db.extractions, exts) && n <= |exts|
    ensures var db' := db.(extractions := exts[..n] + db.extractions[n..]); DbOk(db') && Advances(db, db')
  {
    hide DbOk, Advances, ExtractionOk, EmailOk, OneOwner, Unposted;
    if n == 0 {
      AdvancesItself(db);
      assert exts[..0] + db.extractions[0..] == db.extractions;
    } else {
      AllShelvedKeeps(db, exts, n - 1);
      var mid := db.(extractions := exts[..n - 1] + db.extractions[n - 1..]);
      var id := n - 1;
      assert mid.extractions[id] == db.extractions[id] && Shelved(db.extractions[id], exts[id]);
      PartsOk(mid);
      ShelvedIsOk(mid.emails, mid.extractions[id], exts[id], id);
      ShelvedKeeps(mid, id, exts[id]);
      assert exts[..n] + db.extractions[n..] == mid.extractions[id := exts[id]];
      AdvancesTransitive(db, mid, Revised(mid, id, exts[id]));
    }
  }

  lemma ShelvedIsOk(emails: seq<Email>, a: Extraction, b: Extraction, i: nat)
    requires ExtractionOk(emails, a, i) && Shelved(a, b)
    ensures ExtractionOk(emails, b, i)
  {
  }

  lemma BulkKeeps(db: Db, exts: seq<Extraction>)
    requires DbOk(db) && AllShelved(db.extractions, exts)
    ensures DbOk(db.(extractions := exts)) && Advances(db, db.(extractions := exts))
  {
    hide DbOk, Advances, Shelved;
    AllShelvedKeeps(db, exts, |exts|);
    assert exts[..|exts|] + db.extractions[|exts|..] == exts;
  }

  // ----- reading again -----

  lemma ReprocessKeeps(db: Db, email: nat)
    requires Good(db)
    ensures var db' := Reprocess(db, email).0; Good(db') && Advances(db, db')
  {
    AdvancesItself(db);
    hide DbOk, Advances, IsAffected, HasPending;
    if Reprocess(db, email).1 == Ok {
      var exts := ReplacedAll(db.extractions, email);
      forall i | 0 <= i < |exts| ensures Shelved(db.extractions[i], exts[i]) {
        assert exts[i] == Replaced(db.extractions, email, db.extractions[i]);
      }
      BulkKeeps(db, exts);
      var mid := db.(extractions := exts);
      StatusChanged(mid, email, Classified);
      var db' := Reprocess(db, email).0;
      ReprocessTouches(db, email);
      AgreeElsewhere(db, db', email);
      AdvancesTransitive(db, mid, db');
    }
  }

  lemma ReprocessTouches(db: Db, email: nat)
    requires Reprocess(db, email).1 == Ok
    ensures TouchesOnly(db, Reprocess(db, email).0, email)
  {
    hide HasPending, HasPendingFrom;
  }

  /** After reprocessing nothing of the email is pending, nothing posted was touched, and every message
      that had something pending can be read afresh. */
  lemma ReprocessClears(db: Db, email: nat)
    requires Reprocess(db, email).1 == Ok
    ensures var db' := Reprocess(db, email).0;
      && !HasPending(db'.extractions, email)
      && (forall i | 0 <= i < |db.extractions| && IsPosted(db.extractions[i].status) ::
            db'.extractions[i] == db.extractions[i])
      && (forall message | HasPendingFrom(db.extractions, email, message) :: !HasLive(db'.extractions, email, message))
  {
    var exts := ReplacedAll(db.extractions, email);
    forall i | 0 <= i < |exts| ensures !IsPendingOf(exts[i], email) {
      if IsPendingOf(db.extractions[i], email) {
        assert HasPendingFrom(db.extractions, email, db.extractions[i].message);
      }
    }
    forall message | HasPendingFrom(db.extractions, email, message)
      ensures !HasLive(exts, email, message)
    {
      forall i | 0 <= i < |exts| && exts[i].email == email && exts[i].message == message
        ensures exts[i].status == Superseded
      {
        assert IsAffected(db.extractions, email, db.extractions[i]);
        assert !IsPosted(db.extractions[i].status);
      }
    }
  }

  lemma RetryEmailKeeps(db: Db, e: nat)
    requires Good(db) && e < |db.emails|
    ensures var db' := db.(emails := db.emails[e := RetryOf(db.emails[e])]); Good(db') && Advances(db, db')
  {
    PartsOk(db);
    hide DbOk, Advances;
    EmailChanged(db, e, RetryOf(db.emails[e]));
    AgreeElsewhere(db, db.(emails := db.emails[e := RetryOf(db.emails[e])]), e);
  }

  lemma RetryMessageKeeps(db: Db, e: nat, message: nat)
    requires Good(db) && HasFailed(db.emails, e, message)
    ensures var db' := db.(emails := db.emails[e := MessageRetried(db.emails[e], message)]);
      Good(db') && Advances(db, db')
  {
    PartsOk(db);
    hide DbOk, Advances;
    EmailChanged(db, e, MessageRetried(db.emails[e], message));
    AgreeElsewhere(db, db.(emails := db.emails[e := MessageRetried(db.emails[e], message)]), e);
  }

  // ----- the two backfills -----

  lemma {:induction false} PostAllKeeps(exts: seq<Extraction>, l: Ledger, order: seq<nat>)
    requires LedgerOk(exts, l)
    ensures var l' := Backfill.PostAll(l, exts, order); LedgerOk(exts, l') && l.rows <= l'.rows
  {
    hide LedgerOk, Post;
    if order != [] {
      PostAllKeeps(exts, l, order[..|order| - 1]);
      var id := order[|order| - 1];
      if Backfill.Counts(exts, id) { PostedRowsOk(exts, Backfill.PostAll(l, exts, order[..|order| - 1]), id); }
    }
  }

  lemma LedgerBackfillKeeps(db: Db, order: seq<nat>)
    requires Good(db)
    ensures var db' := db.(ledger := Backfill.PostAll(db.ledger, db.extractions, order)); Good(db') && Advances(db, db')
  {
    PostAllKeeps(db.extractions, db.ledger, order);
    hide LedgerOk, Advances, Backfill.PostAll;
    LedgerChanged(db, Backfill.PostAll(db.ledger, db.extractions, order));
    StillAgree(db, db.(ledger := Backfill.PostAll(db.ledger, db.extractions, order)));
  }

  lemma KeyedRowKeeps(db: Db, id: nat)
    requires DbOk(db) && id < |db.extractions|
    ensures DbOk(Revised(db, id, KeyedRow(db.extractions, id)))
      && Advances(db, Revised(db, id, KeyedRow(db.extractions, id)))
    ensures KeyedRow(db.extractions, id).status == db.extractions[id].status
    ensures KeyedRow(db.extractions, id).email == db.extractions[id].email
  {
    PartsOk(db);
    hide DbOk, Advances, KeyOf, OneOwner, Owns;
    KeyedRowIsUnowned(db.extractions, id);
    assert ExtractionOk(db.emails, db.extractions[id], id);
    RevisedKeeps(db, id, KeyedRow(db.extractions, id));
  }

  lemma {:induction false} KeyedAllKeeps(db: Db, order: seq<nat>)
    requires DbOk(db)
    ensures var exts := KeyedAll(db.extractions, order);
      && DbOk(db.(extractions := exts)) && Advances(db, db.(extractions := exts))
      && forall i | 0 <= i < |exts| ::
           exts[i].status == db.extractions[i].status && exts[i].email == db.extractions[i].email
  {
    hide DbOk, Advances, KeyedRow;
    AdvancesItself(db);
    if order != [] {
      var front, id := order[..|order| - 1], order[|order| - 1];
      KeyedAllKeeps(db, front);
      var mid := db.(extractions := KeyedAll(db.extractions, front));
      if id < |mid.extractions| {
        KeyedRowKeeps(mid, id);
        AdvancesTransitive(db, mid, Revised(mid, id, KeyedRow(mid.extractions, id)));
      }
    }
  }

  /** The whole of the threads backfill. */
  function ThreadsFilled(db: Db, order: seq<nat>): Db {
    db.(emails := WithMessages(db.emails), extractions := KeyedAll(MovedAll(db.emails, db.extractions), order))
  }

  lemma ThreadsFilledKeeps(db: Db, order: seq<nat>)
    requires Good(db)
    ensures Good(ThreadsFilled(db, order)) && Advances(db, ThreadsFilled(db, order))
  {
    PartsOk(db);
    hide DbOk, Advances, KeyedAll, OneOwner;
    var emails, moved := WithMessages(db.emails), MovedAll(db.emails, db.extractions);
    forall e | 0 <= e < |emails| ensures EmailOk(emails[e]) && KeepsSources(db.emails[e], emails[e]) {
      assert EmailOk(db.emails[e]);
    }
    EmailsChanged(db, emails);
    var mid := db.(emails := emails);
    assert forall i | 0 <= i < |moved| :: Shelved(db.extractions[i], moved[i]);
    BulkKeeps(mid, moved);
    var mid2 := mid.(extractions := moved);
    KeyedAllKeeps(mid2, order);
    var db' := ThreadsFilled(db, order);
    assert db' == mid2.(extractions := KeyedAll(moved, order));
    AdvancesTransitive(db, mid, mid2);
    AdvancesTransitive(db, mid2, db');
    StatusesAgree(db, db');
  }

  lemma StatusesAgree(db: Db, db': Db)
    requires AllAgree(db) && |db'.emails| == |db.emails| && |db'.extractions| == |db.extractions|
    requires forall e | 0 <= e < |db.emails| :: db'.emails[e].status == db.emails[e].status
    requires forall i | 0 <= i < |db.extractions| ::
      db'.extractions[i].status == db.extractions[i].status && db'.extractions[i].email == db.extractions[i].email
    ensures AllAgree(db')
  {
    var mid := db.(extractions := db'.extractions);
    StillAgree(db, mid);
    hide HasPending;
    forall e | 0 <= e < |db.emails| ensures Agrees(db', e) { assert Agrees(mid, e); }
  }
}
