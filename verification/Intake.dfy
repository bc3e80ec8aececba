/** Reading emails keeps the database's invariant: storing, routing, and the pipeline's steps. */
module Intake {
  import opened Models
  import opened References
  import opened Dedupe
  import opened Posting
  import opened Recheck
  import opened Routing
  import opened Review
  import opened Normalize
  import opened Advance
  import opened Invariant
  import opened Operations

  // ----- one payment routed -----

  /** Stored a moment ago: pending, with no claim yet. */
  predicate IsRaw(exts: seq<Extraction>, id: nat) { IsPending(exts, id) && exts[id].claim.None? }

  ghost predicate OnlyChanges(exts: seq<Extraction>, exts': seq<Extraction>, id: nat) {
    |exts'| == |exts| && forall i | 0 <= i < |exts| && i != id :: exts'[i] == exts[i]
  }

  lemma KeyedKeeps(db: Db, id: nat)
    requires DbOk(db) && IsRaw(db.extractions, id)
    ensures var db' := Keyed(db, id); var x, y := db.extractions[id], Assigned(db.extractions, id);
      && DbOk(db') && Advances(db, db') && (y.status == PendingReview || y.status == Duplicate)
      && y.email == x.email && y.canonical == x.canonical && y.isRemittance == x.isRemittance
  {
    PartsOk(db);
    hide DbOk, Advances, Assigned, PaymentKeyFor, OneOwner, Owns;
    AssignedIs(db.extractions, id);
    AssigningKeepsOneOwner(db.extractions, id);
    var x, y := db.extractions[id], Assigned(db.extractions, id);
    assert ExtractionOk(db.emails, x, id);
    assert y.status == PendingReview || y.status == Duplicate by {
      var found := KeyOf(x.canonical);
      if found.Some? && found.value.strength == Strong { assert found == Some(Claim(found.value.key, Strong)); }
    }
    RevisedKeeps(db, id, y);
  }

  lemma NotedKeeps(db: Db, id: nat, r: Reading, d: Draft)
    requires DbOk(db) && IsPending(db.extractions, id)
    ensures var x := Noted(db.ledger, db.extractions[id], r, d);
      && DbOk(Revised(db, id, x)) && Advances(db, Revised(db, id, x))
      && x.status == PendingReview && x.email == db.extractions[id].email
      && x.canonical == db.extractions[id].canonical && x.isRemittance == db.extractions[id].isRemittance
  {
    PartsOk(db);
    hide DbOk, Advances, OneOwner, ContextFlags, KeyOf;
    assert ExtractionOk(db.emails, db.extractions[id], id);
    ShelvedKeeps(db, id, Noted(db.ledger, db.extractions[id], r, d));
  }

  lemma RoutedKeeps(db: Db, id: nat, r: Reading, d: Draft)
    requires DbOk(db) && IsRaw(db.extractions, id)
    ensures var db' := Routed(db, id, r, d);
      && DbOk(db') && Advances(db, db') && OnlyChanges(db.extractions, db'.extractions, id)
      && db'.extractions[id].email == db.extractions[id].email && db'.emails == db.emails
  {
    AdvancesItself(db);
    RoutedKeepsEmails(db, id, r, d);
    hide DbOk, Advances, Assigned, Noted, Queued, Post;
    if IsPayment(db.extractions[id]) {
      var keyed := Keyed(db, id);
      KeyedKeeps(db, id);
      if keyed.extractions[id].status != Duplicate {
        NotedKeeps(keyed, id, r, d);
        var x := Noted(db.ledger, keyed.extractions[id], r, d);
        var noted := Revised(keyed, id, x);
        AdvancesTransitive(db, keyed, noted);
        if Automatic(x, r.settings.threshold) {
          QueuedKeeps(noted, id, AUTO_REVIEWER, r.now);
          QueuedRow(noted, id, AUTO_REVIEWER, r.now);
          AdvancesTransitive(db, noted, Queued(noted, id, AUTO_REVIEWER, r.now));
        }
      }
    }
  }

  lemma {:induction false} RoutedAllKeeps(db: Db, first: nat, r: Reading, drafts: seq<Draft>, n: nat)
    requires DbOk(db) && n <= |drafts| && first + |drafts| <= |db.extractions|
    requires forall id | first <= id < first + |drafts| :: IsRaw(db.extractions, id)
    ensures var db' := RoutedAll(db, first, r, drafts, n);
      && DbOk(db') && Advances(db, db') && db'.emails == db.emails
      && (forall i | 0 <= i < |db.extractions| :: db'.extractions[i].email == db.extractions[i].email)
      && (forall i | 0 <= i < |db.extractions| && !(first <= i < first + n) :: db'.extractions[i] == db.extractions[i])
  {
    hide DbOk, Advances, Routed;
    AdvancesItself(db);
    if n > 0 {
      RoutedAllKeeps(db, first, r, drafts, n - 1);
      var before := RoutedAll(db, first, r, drafts, n - 1);
      var id := first + n - 1;
      assert before.extractions[id] == db.extractions[id] && IsRaw(db.extractions, id);
      RoutedKeeps(before, id, r, drafts[n - 1]);
      AdvancesTransitive(db, before, Routed(before, id, r, drafts[n - 1]));
    }
  }

  // ----- one message read -----

  lemma NewRowOk(db: Db, settings: Settings, email: nat, message: Option<nat>, a: Read, d: Draft, id: nat)
    requires a.Answer? && email < |db.emails| && db.emails[email].sources != []
    ensures IsNewRow(db.emails, NewRow(db.ledger, settings, email, message, a, d, id), id)
    ensures IsNewRow(db.emails, EmptyRow(email, message, a), id)
    ensures NewRow(db.ledger, settings, email, message, a, d, id).email == email
  {
    hide ResolvedPayload, DraftFlags;
  }

  lemma StoredKeeps(db: Db, settings: Settings, email: nat, message: Option<nat>, a: Read)
    requires DbOk(db) && a.Answer? && email < |db.emails| && db.emails[email].sources != []
    ensures var db' := Normalize.Stored(db, settings, email, message, a);
      && DbOk(db') && Advances(db, db') && db.extractions <= db'.extractions && db'.emails == db.emails
      && |db'.extractions| >= |db.extractions| + |a.drafts|
      && (forall i | |db.extractions| <= i < |db'.extractions| ::
            IsRaw(db'.extractions, i) && db'.extractions[i].email == email)
  {
    hide DbOk, Advances, NewRow, EmptyRow;
    var more := if a.drafts == [] then [EmptyRow(email, message, a)]
                else NewRows(db.ledger, settings, email, message, a, |db.extractions|);
    forall k | 0 <= k < |more| ensures IsNewRow(db.emails, more[k], |db.extractions| + k) && more[k].email == email {
      if a.drafts != [] {
        NewRowOk(db, settings, email, message, a, a.drafts[k], |db.extractions| + k);
      } else {
        EmptyRowOk(db, email, message, a, |db.extractions| + k);
      }
    }
    AppendedKeeps(db, more);
  }

  lemma EmptyRowOk(db: Db, email: nat, message: Option<nat>, a: Read, id: nat)
    requires a.Answer? && email < |db.emails| && db.emails[email].sources != []
    ensures IsNewRow(db.emails, EmptyRow(email, message, a), id) && EmptyRow(email, message, a).email == email
  {
  }

  lemma ReadGroupKeeps(db: Db, email: nat, message: Option<nat>, newest: Option<nat>, reader: Reader)
    requires DbOk(db) && email < |db.emails| && db.emails[email].sources != [] && reader.answers(message).Answer?
    ensures var db' := ReadGroup(db, email, message, newest, reader);
      DbOk(db') && Advances(db, db') && TouchesOnly(db, db', email)
  {
    hide DbOk, Advances, Normalize.Stored, RoutedAll, IsRaw;
    var a := reader.answers(message);
    var stored, r := Normalize.Stored(db, reader.settings, email, message, a),
      Reading(reader.settings, message, newest, reader.now);
    StoredKeeps(db, reader.settings, email, message, a);
    RoutedAllKeeps(stored, |db.extractions|, r, a.drafts, |a.drafts|);
    AdvancesTransitive(db, stored, RoutedAll(stored, |db.extractions|, r, a.drafts, |a.drafts|));
  }

  lemma MessageFailsKeeps(db: Db, email: nat, message: nat)
    requires DbOk(db) && email < |db.emails| && message < |db.emails[email].messages|
    ensures var db' := MessageFails(db, email, message);
      DbOk(db') && Advances(db, db') && TouchesOnly(db, db', email)
  {
    PartsOk(db);
    hide DbOk, Advances, ExtractionOk, OneOwner;
    var e := db.emails[email];
    assert EmailOk(e);
    EmailChanged(db, email, e.(messages := e.messages[message := MessageFailed]));
  }

  lemma OneGroupKeeps(db: Db, email: nat, message: Option<nat>, newest: Option<nat>, reader: Reader)
    requires DbOk(db) && email < |db.emails| && db.emails[email].sources != []
    ensures var db' := OneGroup(db, email, message, newest, reader);
      DbOk(db') && Advances(db, db') && TouchesOnly(db, db', email)
  {
    hide DbOk, Advances, ReadGroup, MessageFails, TouchesOnly;
    AdvancesItself(db);
    TouchesItself(db, email);
    if reader.answers(message).Answer? {
      ReadGroupKeeps(db, email, message, newest, reader);
    } else if message.Some? && message.value < |db.emails[email].messages| {
      MessageFailsKeeps(db, email, message.value);
    }
  }

  lemma {:induction false} ReadGroupsKeeps(
    db: Db, email: nat, groups: seq<Option<nat>>, newest: Option<nat>, reader: Reader, n: nat)
    requires DbOk(db) && email < |db.emails| && db.emails[email].sources != [] && n <= |groups|
    ensures var db' := ReadGroups(db, email, groups, newest, reader, n);
      DbOk(db') && Advances(db, db') && TouchesOnly(db, db', email) && SameEmailsBut(db.emails, db'.emails, email)
  {
    hide DbOk, Advances, OneGroup;
    AdvancesItself(db);
    ReadGroupsKeepEmails(db, email, groups, newest, reader, n);
    if n > 0 {
      ReadGroupsKeeps(db, email, groups, newest, reader, n - 1);
      var before := ReadGroups(db, email, groups, newest, reader, n - 1);
      OneGroupKeeps(before, email, groups[n - 1], newest, reader);
      var after := OneGroup(before, email, groups[n - 1], newest, reader);
      AdvancesTransitive(db, before, after);
      TouchesTransitive(db, before, after, email);
    }
  }

  lemma GroupsNeedSources(db: Db, email: nat)
    requires email < |db.emails| && Groups(db, email) != []
    ensures db.emails[email].sources != []
  {
    GroupsAre(db, email);
    assert Groups(db, email)[0] in Groups(db, email);
    assert Eligible(db, email, Groups(db, email)[0]);
  }

  // ----- steps of the pipeline -----

  /** After an email's work, its status set to `Review` and settled. */
  lemma ReviewedKeeps(db: Db, after: Db, email: nat)
    requires Good(db) && DbOk(after) && Advances(db, after) && TouchesOnly(db, after, email) && email < |db.emails|
    ensures var db' := Settled(WithStatus(after, email, EmailStatus.Review), email); Good(db') && Advances(db, db')
  {
    hide DbOk, Advances, Settled, HasPending, AllAgree;
    var mid := WithStatus(after, email, EmailStatus.Review);
    StatusChanged(after, email, EmailStatus.Review);
    TouchesTransitive(db, after, mid, email);
    SettledKeeps(db, mid, email);
    AdvancesTransitive(db, after, mid);
    AdvancesTransitive(db, mid, Settled(mid, email));
  }

  lemma ErroredKeeps(db: Db, after: Db, email: nat)
    requires Good(db) && DbOk(after) && Advances(db, after) && TouchesOnly(db, after, email) && email < |db.emails|
    ensures var db' := WithStatus(after, email, Error); Good(db') && Advances(db, db')
  {
    hide DbOk, Advances, HasPending, AllAgree;
    var db' := WithStatus(after, email, Error);
    StatusChanged(after, email, Error);
    TouchesTransitive(db, after, db', email);
    AgreeElsewhere(db, db', email);
    AdvancesTransitive(db, after, db');
  }

  lemma TouchesItself(db: Db, e: nat)
    ensures TouchesOnly(db, db, e)
  {
  }

  lemma NormalizedKeeps(db: Db, email: nat, reader: Reader)
    requires Good(db) && email < |db.emails|
    ensures Good(Normalized(db, email, reader)) && Advances(db, Normalized(db, email, reader))
  {
    hide Good, Advances, ReadGroups, NewestFrom, AllFail, Groups, HasUnsuperseded, Settled, TouchesOnly;
    assert DbOk(db) by { GoodIs(db); }
    hide DbOk;
    var groups, newest := Groups(db, email), NewestFrom(db.emails[email].messages, 0);
    AdvancesItself(db);
    TouchesItself(db, email);
    if groups == [] {
      ReviewedKeeps(db, db, email);
      ErroredKeeps(db, db, email);
    } else {
      GroupsNeedSources(db, email);
      ReadGroupsKeeps(db, email, groups, newest, reader, |groups|);
      var after := ReadGroups(db, email, groups, newest, reader, |groups|);
      ReviewedKeeps(db, after, email);
      ErroredKeeps(db, after, email);
    }
  }

  lemma GoodIs(db: Db)
    requires Good(db)
    ensures DbOk(db) && AllAgree(db)
  {
  }

  /** What classification may find: sources not read yet, for messages the email has. */
  ghost predicate FindingFits(email: Email, f: Finding) {
    forall i | 0 <= i < |f.sources| ::
      f.sources[i].raws == 0 && (f.sources[i].message.Some? ==> f.sources[i].message.value < |MessagesOf(email, f)|)
  }

  lemma ClassifiedKeeps(db: Db, e: nat, f: Finding)
    requires Good(db) && e < |db.emails| && db.emails[e].status == New && FindingFits(db.emails[e], f)
    ensures var db' := db.(emails := db.emails[e := ClassifiedEmail(db.emails[e], f)]); Good(db') && Advances(db, db')
  {
    PartsOk(db);
    hide DbOk, Advances, OneOwner, KeyOf;
    assert EmailOk(db.emails[e]);
    EmailChanged(db, e, ClassifiedEmail(db.emails[e], f));
    forall i | 0 <= i < |db.extractions| ensures !IsPendingOf(db.extractions[i], e) {
      assert ExtractionOk(db.emails, db.extractions[i], i);
    }
    AgreeElsewhere(db, db.(emails := db.emails[e := ClassifiedEmail(db.emails[e], f)]), e);
  }

  lemma ExtractedKeeps(db: Db, e: nat, works: nat -> bool)
    requires Good(db) && e < |db.emails| && db.emails[e].status == Classified
    ensures var db' := db.(emails := db.emails[e := ExtractedEmail(db.emails[e], works)]);
      Good(db') && Advances(db, db')
  {
    PartsOk(db);
    hide DbOk, Advances, OneOwner, ExtractionOk;
    assert EmailOk(db.emails[e]);
    ExtractedOk(db.emails[e], works);
    EmailChanged(db, e, ExtractedEmail(db.emails[e], works));
    AgreeElsewhere(db, db.(emails := db.emails[e := ExtractedEmail(db.emails[e], works)]), e);
  }

  /** Each source is read at most once, however often its email is retried. */
  lemma ExtractedOk(email: Email, works: nat -> bool)
    requires EmailOk(email) && email.status == Classified
    ensures EmailOk(ExtractedEmail(email, works)) && KeepsSources(email, ExtractedEmail(email, works))
  {
    var sources := ReadSources(email.sources, works);
    assert forall i | 0 <= i < |sources| :: sources[i] == ReadSource(email.sources[i], works(i));
  }

  lemma SteppedKeeps(db: Db, e: nat, work: Work)
    requires Good(db) && e < |db.emails|
    requires work.Work? && db.emails[e].status == New ==> FindingFits(db.emails[e], work.finding)
    ensures Good(Stepped(db, e, work)) && Advances(db, Stepped(db, e, work))
  {
    hide Good, Advances, ClassifiedEmail, ExtractedEmail, WholeEmailFails, Normalized, FindingFits, TouchesOnly;
    GoodIs(db);
    hide DbOk, AllAgree;
    AdvancesItself(db);
    TouchesItself(db, e);
    ErroredKeeps(db, db, e);
    if work.Work? {
      if db.emails[e].status == New {
        ClassifiedKeeps(db, e, work.finding);
      } else if db.emails[e].status == Classified {
        ExtractedKeeps(db, e, work.works);
      } else {
        NormalizedKeeps(db, e, work.reader);
      }
    }
  }
}
