/** Each message is read once (ar_pipeline/normalize/service.py:44-80): after an email has been
    normalized nothing of it is left to read until somebody retries or reprocesses. */
module ReadOnce {
  import opened Models
  import opened References
  import opened Dedupe
  import opened Posting
  import opened Recheck
  import opened Routing
  import opened Normalize
  import opened Advance

  /** Same email and message, and superseded only if it already was. */
  predicate StaysLive(a: Extraction, b: Extraction) {
    b.email == a.email && b.message == a.message && (a.status != Superseded ==> b.status != Superseded)
  }

  ghost predicate AllStayLive(exts: seq<Extraction>, exts': seq<Extraction>) {
    |exts| <= |exts'| && forall i | 0 <= i < |exts| :: StaysLive(exts[i], exts'[i])
  }

  /** Messages keep their status, or fail. */
  ghost predicate OnlyFail(a: seq<MessageStatus>, b: seq<MessageStatus>) {
    |a| == |b| && forall i | 0 <= i < |a| :: b[i] == a[i] || b[i] == MessageFailed
  }

  ghost predicate Follows(db: Db, db': Db, email: nat) {
    && AllStayLive(db.extractions, db'.extractions)
    && email < |db.emails| && |db'.emails| == |db.emails|
    && db'.emails[email].sources == db.emails[email].sources
    && OnlyFail(db.emails[email].messages, db'.emails[email].messages)
  }

  lemma FollowsTransitive(a: Db, b: Db, c: Db, email: nat)
    requires Follows(a, b, email) && Follows(b, c, email)
    ensures Follows(a, c, email)
  {
    forall i | 0 <= i < |a.extractions| ensures StaysLive(a.extractions[i], c.extractions[i]) {
      assert StaysLive(a.extractions[i], b.extractions[i]) && StaysLive(b.extractions[i], c.extractions[i]);
    }
  }

  lemma AssignedStaysLive(exts: seq<Extraction>, id: nat)
    requires id < |exts|
    ensures StaysLive(exts[id], Assigned(exts, id))
  {
    hide KeyOf;
  }

  lemma NotedStaysLive(l: Ledger, x: Extraction, r: Reading, d: Draft)
    ensures StaysLive(x, Noted(l, x, r, d))
  {
    hide ContextFlags;
  }

  lemma RoutedStaysLive(db: Db, id: nat, r: Reading, d: Draft)
    requires id < |db.extractions|
    ensures AllStayLive(db.extractions, Routed(db, id, r, d).extractions)
  {
    AssignedStaysLive(db.extractions, id);
    NotedStaysLive(db.ledger, Assigned(db.extractions, id), r, d);
    hide Assigned, Noted, Post, Automatic;
  }

  lemma LiveTransitive(a: seq<Extraction>, b: seq<Extraction>, c: seq<Extraction>)
    requires AllStayLive(a, b) && AllStayLive(b, c)
    ensures AllStayLive(a, c)
  {
    forall i | 0 <= i < |a| ensures StaysLive(a[i], c[i]) {
      assert StaysLive(a[i], b[i]) && StaysLive(b[i], c[i]);
    }
  }

  lemma {:induction false} RoutedAllStaysLive(db: Db, first: nat, r: Reading, drafts: seq<Draft>, n: nat)
    requires n <= |drafts| && first + |drafts| <= |db.extractions|
    ensures AllStayLive(db.extractions, RoutedAll(db, first, r, drafts, n).extractions)
  {
    hide Routed;
    if n > 0 {
      RoutedAllStaysLive(db, first, r, drafts, n - 1);
      var before := RoutedAll(db, first, r, drafts, n - 1);
      RoutedStaysLive(before, first + n - 1, r, drafts[n - 1]);
      LiveTransitive(db.extractions, before.extractions, RoutedAll(db, first, r, drafts, n).extractions);
    }
  }

  /** What reading one group leaves: at least one payment of the message, or a failed message. */
  ghost predicate IsRead(db: Db, email: nat, message: Option<nat>) {
    || HasLive(db.extractions, email, message)
    || (email < |db.emails| && message.Some? && message.value < |db.emails[email].messages|
        && db.emails[email].messages[message.value] == MessageFailed)
  }

  lemma IsReadStays(db: Db, db': Db, email: nat, message: Option<nat>)
    requires Follows(db, db', email) && IsRead(db, email, message)
    ensures IsRead(db', email, message)
  {
    if HasLive(db.extractions, email, message) {
      var i :| 0 <= i < |db.extractions| && db.extractions[i].email == email && db.extractions[i].message == message
               && db.extractions[i].status != Superseded;
      assert StaysLive(db.extractions[i], db'.extractions[i]);
    }
  }

  lemma StoredHasMessage(db: Db, settings: Settings, email: nat, message: Option<nat>, a: Read)
    requires a.Answer?
    ensures var stored := Normalize.Stored(db, settings, email, message, a);
      && stored.emails == db.emails && AllStayLive(db.extractions, stored.extractions)
      && |stored.extractions| >= |db.extractions| + |a.drafts|
      && HasLive(stored.extractions, email, message)
  {
    hide ResolvedPayload, DraftFlags;
    var stored, n := Normalize.Stored(db, settings, email, message, a), |db.extractions|;
    var x := stored.extractions[n];
    assert x.email == email && x.message == message && x.status != Superseded;
  }

  lemma LiveStays(exts: seq<Extraction>, exts': seq<Extraction>, email: nat, message: Option<nat>)
    requires AllStayLive(exts, exts') && HasLive(exts, email, message)
    ensures HasLive(exts', email, message)
  {
    var i :| 0 <= i < |exts| && exts[i].email == email && exts[i].message == message && exts[i].status != Superseded;
    assert StaysLive(exts[i], exts'[i]);
  }

  lemma OneGroupReads(db: Db, email: nat, message: Option<nat>, newest: Option<nat>, reader: Reader)
    requires email < |db.emails| && IsNewMessage(db.emails[email].messages, message)
    requires message.None? ==> reader.answers(None).Answer?
    ensures var db' := OneGroup(db, email, message, newest, reader);
      Follows(db, db', email) && IsRead(db', email, message)
  {
    OneGroupKeepsEmails(db, email, message, newest, reader);
    hide Normalize.Stored, RoutedAll, HasLive;
    var a := reader.answers(message);
    if a.Answer? {
      var stored, r := Normalize.Stored(db, reader.settings, email, message, a),
        Reading(reader.settings, message, newest, reader.now);
      StoredHasMessage(db, reader.settings, email, message, a);
      RoutedAllStaysLive(stored, |db.extractions|, r, a.drafts, |a.drafts|);
      var after := RoutedAll(stored, |db.extractions|, r, a.drafts, |a.drafts|);
      LiveTransitive(db.extractions, stored.extractions, after.extractions);
      LiveStays(stored.extractions, after.extractions, email, message);
    }
  }

  /** A message not read yet is still new when its turn comes. */
  lemma StillNew(db: Db, db': Db, email: nat, message: Option<nat>)
    requires Follows(db, db', email) && IsNewMessage(db.emails[email].messages, message) && !IsRead(db', email, message)
    ensures IsNewMessage(db'.emails[email].messages, message)
  {
  }

  lemma {:induction false} GroupsAreRead(
    db: Db, email: nat, groups: seq<Option<nat>>, newest: Option<nat>, reader: Reader, n: nat)
    requires email < |db.emails| && n <= |groups|
    requires forall i | 0 <= i < |groups| :: IsNewMessage(db.emails[email].messages, groups[i])
    requires None in groups ==> reader.answers(None).Answer?
    ensures var db' := ReadGroups(db, email, groups, newest, reader, n);
      Follows(db, db', email) && forall i | 0 <= i < n :: IsRead(db', email, groups[i])
  {
    hide OneGroup, IsRead, HasLive, IsNewMessage;
    if n > 0 {
      GroupsAreRead(db, email, groups, newest, reader, n - 1);
      var before, after := ReadGroups(db, email, groups, newest, reader, n - 1),
        ReadGroups(db, email, groups, newest, reader, n);
      var g := groups[n - 1];
      assert g in groups;
      if IsRead(before, email, g) {
        OneGroupFollows(before, email, g, newest, reader);
        IsReadStays(before, after, email, g);
      } else {
        StillNew(db, before, email, g);
        OneGroupReads(before, email, g, newest, reader);
      }
      forall i | 0 <= i < n ensures IsRead(after, email, groups[i]) {
        if i < n - 1 { IsReadStays(before, after, email, groups[i]); }
      }
      FollowsTransitive(db, before, after, email);
    }
  }

  lemma OneGroupFollows(db: Db, email: nat, message: Option<nat>, newest: Option<nat>, reader: Reader)
    requires email < |db.emails|
    ensures Follows(db, OneGroup(db, email, message, newest, reader), email)
  {
    OneGroupKeepsEmails(db, email, message, newest, reader);
    hide Normalize.Stored, RoutedAll;
    var a := reader.answers(message);
    if a.Answer? {
      var stored, r := Normalize.Stored(db, reader.settings, email, message, a),
        Reading(reader.settings, message, newest, reader.now);
      StoredHasMessage(db, reader.settings, email, message, a);
      RoutedAllStaysLive(stored, |db.extractions|, r, a.drafts, |a.drafts|);
      LiveTransitive(db.extractions, stored.extractions,
        RoutedAll(stored, |db.extractions|, r, a.drafts, |a.drafts|).extractions);
    }
  }

  lemma NotEligible(db: Db, db': Db, email: nat, message: Option<nat>)
    requires Follows(db, db', email) && (Eligible(db, email, message) ==> IsRead(db', email, message))
    ensures !Eligible(db', email, message)
  {
    if !Eligible(db, email, message) && HasLive(db.extractions, email, message) {
      LiveStays(db.extractions, db'.extractions, email, message);
    }
  }

  /** After an email is normalized, no message of it is left to read: normalizing it again stores nothing. */
  lemma NothingLeftToRead(db: Db, email: nat, reader: Reader)
    requires email < |db.emails| && !WholeEmailFails(db, email, reader)
    ensures var db' := Normalized(db, email, reader); email < |db'.emails| && Groups(db', email) == []
  {
    var groups, newest := Groups(db, email), NewestFrom(db.emails[email].messages, 0);
    GroupsAre(db, email);
    forall i | 0 <= i < |groups| ensures IsNewMessage(db.emails[email].messages, groups[i]) {
      assert groups[i] in groups;
    }
    GroupsAreRead(db, email, groups, newest, reader, |groups|);
    var after := ReadGroups(db, email, groups, newest, reader, |groups|);
    NormalizedEnds(db, email, reader);
    var db' := Normalized(db, email, reader);
    SettledIs(WithStatus(db, email, Review), email);
    SettledIs(WithStatus(after, email, Review), email);
    assert groups == [] ==> after == db;
    assert Follows(after, db', email) by { StatusOnly(db, email, reader); }
    forall message ensures !Eligible(db', email, message) {
      if Eligible(db, email, message) {
        assert message in groups;
        var i :| 0 <= i < |groups| && groups[i] == message;
        IsReadStays(after, db', email, message);
      }
      FollowsTransitive(db, after, db', email);
      NotEligible(db, db', email, message);
    }
    GroupsAre(db', email);
    NoMember(Groups(db', email));
  }

  lemma NoMember(groups: seq<Option<nat>>)
    ensures (forall g :: g !in groups) ==> groups == []
  {
    if groups != [] { assert groups[0] in groups; }
  }

  /** After the groups are read only the email's status changes. */
  lemma StatusOnly(db: Db, email: nat, reader: Reader)
    requires email < |db.emails|
    ensures var groups := Groups(db, email);
      var after := ReadGroups(db, email, groups, NewestFrom(db.emails[email].messages, 0), reader, |groups|);
      Follows(after, Normalized(db, email, reader), email)
  {
    hide ReadGroups, Groups, NewestFrom, AllFail, HasUnsuperseded, HasPending;
    var groups, newest := Groups(db, email), NewestFrom(db.emails[email].messages, 0);
    ReadGroupsKeepEmails(db, email, groups, newest, reader, |groups|);
    var after := ReadGroups(db, email, groups, newest, reader, |groups|);
    SettledIs(WithStatus(db, email, Review), email);
    SettledIs(WithStatus(after, email, Review), email);
    if groups == [] { NoGroupsRead(db, email, groups, newest, reader); }
  }

  lemma NoGroupsRead(db: Db, email: nat, groups: seq<Option<nat>>, newest: Option<nat>, reader: Reader)
    requires groups == []
    ensures ReadGroups(db, email, groups, newest, reader, |groups|) == db
  {
  }
}
