/** A failed message put back to be read can be lost (ar_pipeline/review/service.py:876-889 and
    ar_pipeline/pipeline/routing.py:38-47): approving the last pending payment of its email closes the email,
    whether or not a message still waits to be read. */
module LostRetry {
  import opened Models
  import opened References
  import opened Dedupe
  import opened Posting
  import opened Recheck
  import opened Routing
  import opened Review
  import opened Normalize
  import Advance
  import Deliver
  import opened Operations
  import opened Intake
  import opened ThreadBackfill
  import opened Lifecycle
  import ReadOnce
  import Backfill
  import CsvImport

  // ----- when one is lost -----

  /** A message put back to be read waits in an email under way. Approving a payment of that email closes
      it, and the message is then read no more, exactly when nothing else of the email is pending. */
  lemma RetrySurvivesApproval(db: Db, id: nat, reviewer: string, now: int)
    requires Good(db) && IsPending(db.extractions, id) && IsPayment(db.extractions[id])
    requires Advance.IsUnderway(db.emails[db.extractions[id].email].status)
    ensures var db', e := Approve(db, id, reviewer, now).0, db.extractions[id].email;
      && e < |db'.emails| && db'.emails[e].messages == db.emails[e].messages
      && (Advance.IsUnderway(db'.emails[e].status) <==> OthersPending(db.extractions, id))
      && (!Advance.IsUnderway(db'.emails[e].status) ==> db'.emails[e].status == Done)
  {
    PendingNotDone(db, id);
    var e, queued := db.extractions[id].email, Queued(db, id, reviewer, now);
    QueuedRow(db, id, reviewer, now);
    QueuedKeepsEmails(db, id, reviewer, now);
    hide Queued, Good;
    var exts := queued.extractions;
    forall i | 0 <= i < |exts| && i != id ensures IsPendingOf(exts[i], e) <==> IsPendingOf(db.extractions[i], e) {
    }
    if OthersPending(db.extractions, id) {
      var i :| 0 <= i < |exts| && i != id && IsPendingOf(db.extractions[i], e);
      assert IsPendingOf(exts[i], e);
    }
    if HasPending(exts, e) {
      var i :| 0 <= i < |exts| && IsPendingOf(exts[i], e);
      assert i != id && IsPendingOf(db.extractions[i], e);
    }
  }

  // ----- a closed email without a failed message is never touched again -----

  predicate IsClosed(emails: seq<Email>, e: nat) {
    e < |emails| && emails[e].status == Done && emails[e].messages != [] && MessageFailed !in emails[e].messages
  }

  ghost predicate SameEmail(db: Db, db': Db, e: nat) {
    e < |db.emails| && e < |db'.emails| && db'.emails[e] == db.emails[e]
  }

  lemma SettlingDone(db: Db, email: nat, e: nat)
    requires IsClosed(db.emails, e)
    ensures SameEmail(db, Settled(db, email), e)
  {
    hide HasPending;
  }

  lemma ApprovingDone(db: Db, id: nat, reviewer: string, now: int, e: nat)
    requires IsClosed(db.emails, e)
    ensures SameEmail(db, Approve(db, id, reviewer, now).0, e)
  {
    if IsPending(db.extractions, id) {
      QueuedKeepsEmails(db, id, reviewer, now);
      SettlingDone(Queued(db, id, reviewer, now), db.extractions[id].email, e);
    }
    hide Queued, Settled;
  }

  lemma SavingDone(
    db: Db, context: Context, id: nat, reviewer: string, form: Option<Form>, approve: bool, now: int, e: nat)
    requires IsClosed(db.emails, e)
    ensures SameEmail(db, Save(db, context, id, reviewer, form, approve, now).0, e)
  {
    hide Approve, KeyChanged, Conflicts, HasNewFlag, EditedRow, Assigned;
    if IsPending(db.extractions, id) && Edited(db.extractions[id], form).Some? {
      ApprovingDone(Saved(db, context, id, Edited(db.extractions[id], form).value), id, reviewer, now, e);
    }
  }

  lemma {:induction false} RecordingDone(db: Db, ids: seq<nat>, reviewer: string, skip: bool, now: int, e: nat)
    requires IsClosed(db.emails, e)
    ensures SameEmail(db, RecordAll(db, ids, reviewer, skip, now).0, e)
  {
    hide Settled, Post;
    if ids != [] {
      var front, id := ids[..|ids| - 1], ids[|ids| - 1];
      RecordingDone(db, front, reviewer, skip, now, e);
      var before := RecordAll(db, front, reviewer, skip, now).0;
      if IsRecordable(before.extractions, id) {
        var x := Reviewed(before.extractions[id], AlreadyRecorded, reviewer, now);
        SettlingDone(before.(ledger := Post(before.ledger, id, x), extractions := before.extractions[id := x]),
          x.email, e);
      }
    }
  }

  lemma SteppingOthers(db: Db, k: nat, work: Advance.Work, e: nat)
    requires IsClosed(db.emails, e) && CanStep(db, k, work)
    ensures SameEmail(db, Advance.Stepped(db, k, work), e)
  {
    hide Advance.Stepped;
    Advance.StepLowersRank(db, k, work);
  }

  /** No operation touches a closed email none of whose messages failed. */
  lemma ClosedStays(w: World, op: Op, e: nat)
    requires Inv(w) && IsClosed(w.db.emails, e)
    ensures SameEmail(w.db, Step(w, op).db, e)
  {
    assert !HasPending(w.db.extractions, e) by { assert Agrees(w.db, e); }
    hide Inv, Advance.Stepped, Approve, Reject, Save, RecordAll, ThreadsFilled, CanStep, HasPending,
         Deliver.AfterAttempt, Deliver.BackendAfter, Backfill.PostAll, CsvImport.Imported, ReplacedAll,
         AffectsPosted, Agrees;
    var db := w.db;
    match op
    case StepEmail(k, work) => if CanStep(db, k, work) { SteppingOthers(db, k, work, e); }
    case ApproveOp(id, reviewer, now) => ApprovingDone(db, id, reviewer, now, e);
    case RejectOp(id, reviewer, reason, now) => RejectingDone(db, id, reviewer, reason, now, e);
    case SaveOp(context, id, reviewer, form, approve, now) =>
      SavingDone(db, context, id, reviewer, form, approve, now, e);
    case RecordOp(ids, reviewer, skip, now) => RecordingDone(db, ids, reviewer, skip, now, e);
    case FillThreads(order) => FillingDone(db, order, e);
    case _ =>
  }

  lemma RejectingDone(db: Db, id: nat, reviewer: string, reason: string, now: int, e: nat)
    requires IsClosed(db.emails, e)
    ensures SameEmail(db, Reject(db, id, reviewer, reason, now).0, e)
  {
    hide HasPending;
  }

  lemma FillingDone(db: Db, order: seq<nat>, e: nat)
    requires IsClosed(db.emails, e)
    ensures SameEmail(db, ThreadsFilled(db, order), e)
  {
    hide KeyedAll, MovedAll;
  }

  lemma {:induction false} ClosedForever(w: World, ops: seq<Op>, e: nat)
    requires Inv(w) && IsClosed(w.db.emails, e)
    ensures SameEmail(w.db, Run(w, ops).db, e)
  {
    hide Inv, Step;
    if ops != [] {
      ClosedForever(w, ops[..|ops| - 1], e);
      RunKeeps(w, ops[..|ops| - 1]);
      ClosedStays(Run(w, ops[..|ops| - 1]), ops[|ops| - 1], e);
    }
  }

  // ----- a run that loses one -----

  /** One payment read from the older message of an email, nothing from the newer. */
  function ReadsOlder(d: Draft): Reader {
    Reader(m => if m == Some(1) then Answer(true, "", [d], false) else ReadFails,
           Settings(0, l => [], Date(2026, 1, 1)), 0)
  }

  const TWO_MESSAGES: Advance.Finding :=
    Advance.Finding([MessageNew, MessageNew], false, [Source(Some(0), false, 0), Source(Some(1), false, 0)])

  function Ticked(d: Draft): Op { StepEmail(0, Advance.Work(TWO_MESSAGES, i => true, ReadsOlder(d))) }

  function Both(raws: nat): seq<Source> { [Source(Some(0), false, raws), Source(Some(1), false, raws)] }

  /** An email arrives and is classified, extracted and read; the message that failed is put back, and then
      the payment of the other one is approved. */
  function LosingRun(d: Draft, reviewer: string, now: int): seq<Op> {
    [Arrive, Ticked(d), Ticked(d), Ticked(d), RetryMessageOp(0, 0), ApproveOp(0, reviewer, now)]
  }

  ghost predicate HoldsOne(db: Db, email: Email) {
    && db.emails == [email] && db.deliveries == [] && |db.extractions| == 1
    && var x := db.extractions[0];
       x.email == 0 && x.message == Some(1) && x.status == PendingReview && IsPayment(x)
  }

  lemma RoutedAlone(db: Db, r: Reading, d: Draft, email: Email)
    requires HoldsOne(db, email) && r.settings.threshold == 0
    ensures HoldsOne(Routed(db, 0, r, d), email)
  {
    AssignedIs(db.extractions, 0);
    assert Assigned(db.extractions, 0).status == PendingReview by { hide PaymentKeyFor; }
    ReadOnce.AssignedStaysLive(db.extractions, 0);
    hide Assigned, ContextFlags;
  }

  function Unread(): Db { Db(START.db.ledger, [], [], [Email(Extracted, [MessageNew, MessageNew], Both(1))]) }

  lemma UnreadGroups()
    ensures Groups(Unread(), 0) == [Some(1), Some(0)]
  {
    var db := Unread();
    var s := db.emails[0].sources;
    assert s[0].message == Some(0) && s[1].message == Some(1);
    assert Eligible(db, 0, Some(0)) && Eligible(db, 0, Some(1)) && !Eligible(db, 0, None);
    hide Eligible;
    assert MessageGroups(db, 0, 1) == [Some(0)];
    assert MessageGroups(db, 0, 2) == [Some(1), Some(0)];
  }

  /** The older message is read to a pending payment. */
  lemma ReadsOne(d: Draft)
    ensures HoldsOne(ReadGroup(Unread(), 0, Some(1), Some(0), ReadsOlder(d)), Unread().emails[0])
  {
    var reader, db := ReadsOlder(d), Unread();
    var a, r := reader.answers(Some(1)), Reading(reader.settings, Some(1), Some(0), reader.now);
    var stored := Stored(db, reader.settings, 0, Some(1), a);
    assert HoldsOne(stored, db.emails[0]) by { hide DraftFlags, ResolvedPayload; }
    hide Stored, Routed;
    RoutedAlone(stored, r, d, db.emails[0]);
    assert RoutedAll(stored, 0, r, a.drafts, 0) == stored;
  }

  lemma ThenFails(db: Db, reader: Reader)
    requires HoldsOne(db, Unread().emails[0]) && reader.answers(Some(0)).ReadFails?
    ensures HoldsOne(OneGroup(db, 0, Some(0), Some(0), reader), Email(Extracted, [MessageFailed, MessageNew], Both(1)))
  {
    var fails := [MessageNew, MessageNew][0 := MessageFailed];
    assert fails == [MessageFailed, MessageNew];
  }

  lemma TwoGroups(d: Draft)
    ensures var db, reader := Unread(), ReadsOlder(d);
      HoldsOne(ReadGroups(db, 0, [Some(1), Some(0)], Some(0), reader, 2),
        Email(Extracted, [MessageFailed, MessageNew], Both(1)))
  {
    var db, reader, groups := Unread(), ReadsOlder(d), [Some(1), Some(0)];
    ReadsOne(d);
    assert reader.answers(Some(1)).Answer? && reader.answers(Some(0)).ReadFails?;
    var one := ReadGroup(db, 0, Some(1), Some(0), reader);
    ThenFails(one, reader);
    hide HoldsOne, Unread, ReadsOlder, ReadGroup;
    assert ReadGroups(db, 0, groups, Some(0), reader, 0) == db;
    assert ReadGroups(db, 0, groups, Some(0), reader, 1) == OneGroup(db, 0, Some(1), Some(0), reader) == one;
    assert ReadGroups(db, 0, groups, Some(0), reader, 2) == OneGroup(one, 0, Some(0), Some(0), reader);
  }

  lemma ReadsBoth(d: Draft)
    ensures HoldsOne(Normalized(Unread(), 0, ReadsOlder(d)), Email(Review, [MessageFailed, MessageNew], Both(1)))
    ensures !WholeEmailFails(Unread(), 0, ReadsOlder(d))
  {
    UnreadGroups();
    TwoGroups(d);
    var db, reader, groups := Unread(), ReadsOlder(d), [Some(1), Some(0)];
    hide ReadGroups, Groups;
    assert NewestFrom(db.emails[0].messages, 0) == Some(0);
    var after := ReadGroups(db, 0, groups, Some(0), reader, 2);
    assert reader.answers(groups[0]).Answer?;
    assert !AllFail(groups, reader, 2);
    assert IsPendingOf(after.extractions[0], 0);
  }

  // ----- the states of that run -----

  function Arrived(): Db { START.db.(emails := [Email(New, [], [])]) }

  function Classed(): Db { START.db.(emails := [Email(Classified, [MessageNew, MessageNew], Both(0))]) }

  lemma FirstTicks(d: Draft)
    ensures DbAfter(START.db, Arrive) == Arrived()
    ensures DbAfter(Arrived(), Ticked(d)) == Classed()
    ensures DbAfter(Classed(), Ticked(d)) == Unread()
    ensures DbAfter(Unread(), Ticked(d)) == Normalized(Unread(), 0, ReadsOlder(d))
  {
    hide Normalized, WholeEmailFails, ReadsOlder, Classed, TWO_MESSAGES, Both;
    Classes(d);
    Extracts(d);
    Reads(d);
  }

  lemma Reads(d: Draft)
    ensures DbAfter(Unread(), Ticked(d)) == Normalized(Unread(), 0, ReadsOlder(d))
  {
    ReadsBoth(d);
    hide Normalized, WholeEmailFails, ReadsOlder, TWO_MESSAGES, HoldsOne, Both;
  }

  lemma Classes(d: Draft)
    ensures DbAfter(Arrived(), Ticked(d)) == Classed()
  {
    var e, f := Arrived().emails[0], TWO_MESSAGES;
    assert !f.sources[0].skipped;
    assert FindingFits(e, f);
    assert Advance.ClassifiedEmail(e, f) == Classed().emails[0] by { assert [] + Both(0) + [] == Both(0); }
    hide ReadsOlder, Normalized;
  }

  lemma Extracts(d: Draft)
    ensures DbAfter(Classed(), Ticked(d)) == Unread()
  {
    var e := Classed().emails[0];
    assert !e.sources[0].skipped;
    assert Advance.ReadSources(e.sources, i => true) == Both(1);
    hide ReadsOlder, Normalized;
  }

  lemma RunsOn(w: World, ops: seq<Op>, op: Op)
    ensures Run(w, ops + [op]) == Step(Run(w, ops), op)
  {
    assert (ops + [op])[..|ops + [op]| - 1] == ops;
    hide Step;
  }

  lemma ReadRun(d: Draft)
    ensures Run(START, [Arrive, Ticked(d), Ticked(d), Ticked(d)]).db == Normalized(Unread(), 0, ReadsOlder(d))
  {
    FirstTicks(d);
    hide Arrived, Classed, Unread, Ticked, ReadsOlder, Normalized, DbAfter, Run;
    var t := Ticked(d);
    RunsOn(START, [], Arrive);
    RunsOn(START, [Arrive], t);
    RunsOn(START, [Arrive, t], t);
    RunsOn(START, [Arrive, t, t], t);
    assert [] + [Arrive] == [Arrive] && [Arrive] + [t] == [Arrive, t] && [Arrive, t] + [t] == [Arrive, t, t];
    assert [Arrive, t, t] + [t] == [Arrive, t, t, t];
    NothingRun();
  }

  lemma NothingRun()
    ensures Run(START, []) == START
  {
  }

  lemma RetryingKeepsOne(db: Db)
    requires HoldsOne(db, Email(Review, [MessageFailed, MessageNew], Both(1)))
    ensures HoldsOne(DbAfter(db, RetryMessageOp(0, 0)), Unread().emails[0])
  {
    assert [MessageFailed, MessageNew][0 := MessageNew] == [MessageNew, MessageNew];
  }

  /** After the retry the email waits to be read, with its one pending payment. */
  lemma RetriedRun(d: Draft)
    ensures HoldsOne(Run(START, [Arrive, Ticked(d), Ticked(d), Ticked(d), RetryMessageOp(0, 0)]).db, Unread().emails[0])
  {
    hide *;
    var t := Ticked(d);
    var before := [Arrive, t, t, t];
    ReadsBoth(d);
    ReadRun(d);
    RunsOn(START, before, RetryMessageOp(0, 0));
    assert before + [RetryMessageOp(0, 0)] == [Arrive, t, t, t, RetryMessageOp(0, 0)];
    RetryingKeepsOne(Run(START, before).db);
    StepsDb(Run(START, before), RetryMessageOp(0, 0));
  }

  lemma StepsDb(w: World, op: Op)
    ensures Step(w, op).db == DbAfter(w.db, op)
  {
    hide DbAfter;
  }

  lemma ApprovedRun(d: Draft, reviewer: string, now: int)
    ensures var w := Run(START, LosingRun(d, reviewer, now));
      && w.db.emails == [Email(Done, [MessageNew, MessageNew], Both(1))] && Inv(w)
      && |w.db.extractions| == 1 && w.db.extractions[0].message == Some(1)
  {
    hide *;
    var t := Ticked(d);
    var before := [Arrive, t, t, t, RetryMessageOp(0, 0)];
    RetriedRun(d);
    StartOk();
    RunKeeps(START, LosingRun(d, reviewer, now));
    RunsOn(START, before, ApproveOp(0, reviewer, now));
    LosingRunIs(d, reviewer, now);
    StepsDb(Run(START, before), ApproveOp(0, reviewer, now));
    ApprovingCloses(Run(START, before).db, reviewer, now);
  }

  lemma LosingRunIs(d: Draft, reviewer: string, now: int)
    ensures var t := Ticked(d);
      LosingRun(d, reviewer, now) == [Arrive, t, t, t, RetryMessageOp(0, 0)] + [ApproveOp(0, reviewer, now)]
  {
    hide Ticked;
  }

  lemma ApprovingCloses(db: Db, reviewer: string, now: int)
    requires HoldsOne(db, Unread().emails[0])
    ensures var db' := DbAfter(db, ApproveOp(0, reviewer, now));
      && db'.emails == [Email(Done, [MessageNew, MessageNew], Both(1))]
      && |db'.extractions| == 1 && db'.extractions[0].message == Some(1)
  {
    QueuedRow(db, 0, reviewer, now);
    QueuedKeepsEmails(db, 0, reviewer, now);
    hide Queued;
  }

  /** The message was put back, its email is closed all the same, and nothing will ever be read from it:
      however the run goes on, the email stays as it is, and no step or retry takes it up. */
  lemma RetriedMessageIsLost(d: Draft, reviewer: string, now: int, more: seq<Op>)
    ensures var before, after := Run(START, LosingRun(d, reviewer, now)).db,
      Run(START, LosingRun(d, reviewer, now) + more).db;
      && |before.extractions| == 1 && before.extractions[0].message == Some(1)
      && |after.emails| > 0 && after.emails[0] == Email(Done, [MessageNew, MessageNew], Both(1))
      && (forall work :: !CanStep(after, 0, work)) && !CanRetry(after, 0)
      && (forall m :: !HasFailed(after.emails, 0, m))
  {
    var losing := LosingRun(d, reviewer, now);
    ApprovedRun(d, reviewer, now);
    RunConcat(START, losing, more);
    hide LosingRun, Run, Inv;
    ClosedForever(Run(START, losing), more, 0);
  }
}
