/** Storing one email's payments, message by message (ar_pipeline/normalize/service.py).

    What the AI or the table reader answers for a message is an input, and so is whether reading it fails:
    a message is read inside its own savepoint, so a failure anywhere leaves nothing of it behind. */
module Normalize {
  import opened Models
  import opened Adjustments
  import opened Validators
  import Checks
  import opened Dedupe
  import opened Posting
  import opened Recheck
  import opened Routing

  const AUTO_REVIEWER: string := "auto"

  /** One payment of an answer. `extra` are flags of the read itself, `others` those of `Context`. */
  datatype Draft = Draft(payload: Payload, confidence: nat, extra: seq<Flag>, others: seq<Flag>, beforeGoLive: bool)

  datatype Read = ReadFails | Answer(isRemittance: bool, note: string, drafts: seq<Draft>, truncated: bool)

  /** `threshold` is the least confidence for automatic approval, 0 to switch it off; `listing` is the
      order in which the database lists a ledger's invoices. */
  datatype Settings = Settings(threshold: nat, listing: Ledger -> seq<string>, today: Date)

  // ----- storing a message's payments -----

  function Resolved(pools: Pools, lines: seq<LineItem>): (r: seq<LineItem>)
    ensures |r| == |lines| && forall i | 0 <= i < |lines| :: r[i] == ResolveLine(pools, lines[i])
  {
    seq(|lines|, i requires 0 <= i < |lines| => ResolveLine(pools, lines[i]))
  }

  function ResolvedPayload(l: Ledger, settings: Settings, p: Payload): Payload {
    p.(lines := Resolved(PoolsOf(l.invoices, settings.listing(l), p), p.lines))
  }

  function DraftFlags(settings: Settings, a: Read, d: Draft): seq<Flag>
    requires a.Answer?
  {
    ValidatorFlags(d.payload, settings.today) + d.extra + if a.truncated then [Truncated] else []
  }

  function NewRow(
    l: Ledger, settings: Settings, email: nat, message: Option<nat>, a: Read, d: Draft, envelope: nat): Extraction
    requires a.Answer?
  {
    Extraction(email, message, Some(ResolvedPayload(l, settings, d.payload).(envelopeId := envelope)),
               d.confidence, a.isRemittance, DraftFlags(settings, a, d), PendingReview, None, None, "", None, false,
               None)
  }

  function EmptyRow(email: nat, message: Option<nat>, a: Read): Extraction
    requires a.Answer?
  {
    Extraction(email, message, None, 0, a.isRemittance, [NothingRead(a.note)], PendingReview, None, None, "", None,
      false, None)
  }

  function NewRows(
    l: Ledger, settings: Settings, email: nat, message: Option<nat>, a: Read, first: nat): (r: seq<Extraction>)
    requires a.Answer?
    ensures |r| == |a.drafts|
    ensures forall k | 0 <= k < |r| :: r[k] == NewRow(l, settings, email, message, a, a.drafts[k], first + k)
  {
    seq(|a.drafts|, k requires 0 <= k < |a.drafts| => NewRow(l, settings, email, message, a, a.drafts[k], first + k))
  }

  /** The database with a message's payments stored, none routed yet. */
  function Stored(db: Db, settings: Settings, email: nat, message: Option<nat>, a: Read): Db
    requires a.Answer?
  {
    db.(extractions := db.extractions
      + if a.drafts == [] then [EmptyRow(email, message, a)]
        else NewRows(db.ledger, settings, email, message, a, |db.extractions|))
  }

  /** `_normalize_group`: rows first, then each envelope gets its row's id. */
  method NormalizeGroup(
    db: Database, settings: Settings, email: nat, message: Option<nat>, a: Read) returns (first: nat)
    requires a.Answer?
    modifies db`extractions
    ensures db.View() == Stored(old(db.View()), settings, email, message, a)
    ensures first == |old(db.extractions)|
  {
    hide ValidatorFlags, ResolveLine, PoolsOf;
    first := |db.extractions|;
    if a.drafts == [] {
      db.extractions := db.extractions + [EmptyRow(email, message, a)];
      return;
    }
    ghost var l := db.Books();
    var rows: seq<Extraction> := [];
    for k := 0 to |a.drafts|
      modifies {}
      invariant |rows| == k
      invariant forall j | 0 <= j < k ::
        rows[j] == NewRow(l, settings, email, message, a, a.drafts[j], a.drafts[j].payload.envelopeId)
    {
      var d := a.drafts[k];
      var checked := ValidatePayload(d.payload, settings.today);
      var flags := checked + d.extra + if a.truncated then [Truncated] else [];
      var p := ResolveAdjustments(db.invoices, settings.listing(db.Books()), d.payload);
      assert p.lines == Resolved(PoolsOf(l.invoices, settings.listing(l), d.payload), d.payload.lines);
      rows := rows + [Extraction(email, message, Some(p), d.confidence, a.isRemittance, flags, PendingReview,
                                 None, None, "", None, false, None)];
    }
    for k := 0 to |rows|
      modifies {}
      invariant |rows| == |a.drafts|
      invariant forall j | 0 <= j < |rows| ::
        rows[j] == NewRow(l, settings, email, message, a, a.drafts[j],
                          if j < k then first + j else a.drafts[j].payload.envelopeId)
    {
      rows := rows[k := rows[k].(canonical := Some(rows[k].canonical.value.(envelopeId := first + k)))];
    }
    assert rows == NewRows(l, settings, email, message, a, first);
    db.extractions := db.extractions + rows;
    assert Stored(old(db.View()), settings, email, message, a).extractions == old(db.extractions) + rows;
  }

  // ----- routing them -----

  /** An earlier message of the thread, or a payment from before the books went live. */
  function WithHistory(ext: Extraction, message: Option<nat>, newest: Option<nat>, beforeGoLive: bool): Extraction {
    if message.Some? && newest.Some? && message.value > newest.value then
      ext.(historical := true, flags := ext.flags + [EarlierMessage])
    else if beforeGoLive then ext.(historical := true, flags := ext.flags + [BeforeGoLive])
    else ext
  }

  /** `apply_history`. */
  method ApplyHistory(db: Database, id: nat, message: Option<nat>, newest: Option<nat>, beforeGoLive: bool)
    requires id < |db.extractions|
    modifies db`extractions
    ensures db.extractions == old(db.extractions)[id := WithHistory(old(db.extractions[id]), message, newest,
      beforeGoLive)]
  {
    var row := db.extractions[id];
    if message.Some? && newest.Some? && message.value > newest.value {
      row := row.(historical := true);
      row := row.(flags := row.flags + [EarlierMessage]);
      db.extractions := db.extractions[id := row];
      return;
    }
    if beforeGoLive {
      row := row.(historical := true);
      row := row.(flags := row.flags + [BeforeGoLive]);
      db.extractions := db.extractions[id := row];
    }
  }

  /** What a payment of some draft needs to be routed. */
  datatype Reading = Reading(settings: Settings, message: Option<nat>, newest: Option<nat>, now: int)

  function Keyed(db: Db, id: nat): Db
    requires id < |db.extractions|
  {
    db.(extractions := db.extractions[id := Assigned(db.extractions, id)])
  }

  function Noted(l: Ledger, ext: Extraction, r: Reading, d: Draft): Extraction {
    var x := WithHistory(ext, r.message, r.newest, d.beforeGoLive);
    if x.canonical.None? then x
    else x.(flags := x.flags + ContextFlags(l, Context(d.others, r.settings.listing(l), r.settings.today),
      x.canonical.value))
  }

  /** A payment without a single flag and with enough confidence is approved unseen. */
  predicate Automatic(ext: Extraction, threshold: nat) {
    threshold > 0 && ext.flags == [] && ext.confidence >= threshold
  }

  function Routed(db: Db, id: nat, r: Reading, d: Draft): Db
    requires id < |db.extractions|
  {
    if !IsPayment(db.extractions[id]) then db
    else
      var keyed := Keyed(db, id);
      if keyed.extractions[id].status == Duplicate then keyed
      else
        var x := Noted(db.ledger, keyed.extractions[id], r, d);
        var noted := keyed.(extractions := keyed.extractions[id := x]);
        if Automatic(x, r.settings.threshold) then Queued(noted, id, AUTO_REVIEWER, r.now) else noted
  }

  /** The first `n` payments of a message routed, in order; `first` is the first one's id. */
  function RoutedAll(db: Db, first: nat, r: Reading, drafts: seq<Draft>, n: nat): (after: Db)
    requires n <= |drafts| && first + |drafts| <= |db.extractions|
    ensures |after.extractions| == |db.extractions|
  {
    if n == 0 then db else Routed(RoutedAll(db, first, r, drafts, n - 1), first + n - 1, r, drafts[n - 1])
  }

  method RouteOne(db: Database, id: nat, r: Reading, d: Draft)
    requires id < |db.extractions|
    modifies db
    ensures db.View() == Routed(old(db.View()), id, r, d)
  {
    hide Assigned, ContextFlags, Queued;
    if !IsPayment(db.extractions[id]) {
      return;
    }
    ghost var before := db.View();
    AssignPaymentKey(db, id);
    if db.extractions[id].status == Duplicate {
      return; // never routed, delivered or posted
    }
    AssignedIs(before.extractions, id);
    ApplyHistory(db, id, r.message, r.newest, d.beforeGoLive);
    var row := db.extractions[id];
    var flags := ContextOf(db, Context(d.others, r.settings.listing(db.Books()), r.settings.today),
      row.canonical.value);
    row := row.(flags := row.flags + flags);
    db.extractions := db.extractions[id := row];
    assert db.View() == Keyed(before, id).(extractions := Keyed(before, id).extractions[id := row]);
    if r.settings.threshold > 0 && row.flags == [] && row.confidence >= r.settings.threshold {
      ApproveAndQueue(db, id, AUTO_REVIEWER, r.now);
    }
  }

  method ContextOf(db: Database, context: Context, p: Payload) returns (flags: seq<Flag>)
    ensures flags == ContextFlags(db.Books(), context, p)
  {
    var ledgerFlags := Checks.CheckAgainstLedger(db, context.listing, p);
    flags := context.others + ledgerFlags;
  }

  /** `_route`. */
  method Route(db: Database, first: nat, r: Reading, drafts: seq<Draft>)
    requires first + |drafts| <= |db.extractions|
    modifies db
    ensures db.View() == RoutedAll(old(db.View()), first, r, drafts, |drafts|)
  {
    hide Routed;
    for n := 0 to |drafts|
      invariant |db.extractions| == |old(db.extractions)|
      invariant db.View() == RoutedAll(old(db.View()), first, r, drafts, n)
    {
      RouteOne(db, first + n, r, drafts[n]);
      assert db.View() == RoutedAll(old(db.View()), first, r, drafts, n + 1);
      assert |db.View().extractions| == |old(db.extractions)|;
    }
  }

  // ----- the messages of an email -----

  predicate HasRaws(sources: seq<Source>, message: Option<nat>) {
    exists i | 0 <= i < |sources| :: sources[i].message == message && sources[i].raws > 0
  }

  /** A payment was read from this message and has not been superseded. */
  predicate HasLive(exts: seq<Extraction>, email: nat, message: Option<nat>) {
    exists i | 0 <= i < |exts| :: exts[i].email == email && exts[i].message == message && exts[i].status != Superseded
  }

  predicate IsNewMessage(messages: seq<MessageStatus>, message: Option<nat>) {
    message.Some? ==> message.value < |messages| && messages[message.value] == MessageNew
  }

  predicate Eligible(db: Db, email: nat, message: Option<nat>)
    requires email < |db.emails|
  {
    var e := db.emails[email];
    HasRaws(e.sources, message) && IsNewMessage(e.messages, message) && !HasLive(db.extractions, email, message)
  }

  /** Messages at positions below `n`, the highest (oldest) first. */
  function MessageGroups(db: Db, email: nat, n: nat): seq<Option<nat>>
    requires email < |db.emails|
  {
    if n == 0 then []
    else (if Eligible(db, email, Some(n - 1)) then [Some(n - 1)] else []) + MessageGroups(db, email, n - 1)
  }

  /** `_groups`: sources read whole come first, then the messages from the oldest to the newest. */
  function Groups(db: Db, email: nat): seq<Option<nat>>
    requires email < |db.emails|
  {
    (if Eligible(db, email, None) then [None] else []) + MessageGroups(db, email, |db.emails[email].messages|)
  }

  /** The lowest position that is not empty of content. */
  function NewestFrom(messages: seq<MessageStatus>, i: nat): Option<nat>
    requires i <= |messages|
    decreases |messages| - i
  {
    if i == |messages| then None else if messages[i] != NoContent then Some(i) else NewestFrom(messages, i + 1)
  }

  predicate HasUnsuperseded(exts: seq<Extraction>, email: nat) {
    exists i | 0 <= i < |exts| :: exts[i].email == email && exts[i].status != Superseded
  }

  function WithStatus(db: Db, email: nat, status: EmailStatus): Db
    requires email < |db.emails|
  {
    db.(emails := db.emails[email := db.emails[email].(status := status)])
  }

  function MessageFails(db: Db, email: nat, message: nat): Db
    requires email < |db.emails| && message < |db.emails[email].messages|
  {
    var e := db.emails[email];
    db.(emails := db.emails[email := e.(messages := e.messages[message := MessageFailed])])
  }

  /** What reading an email takes: the answer for each message, settings and the time. */
  datatype Reader = Reader(answers: Option<nat> -> Read, settings: Settings, now: int)

  function ReadGroup(db: Db, email: nat, message: Option<nat>, newest: Option<nat>, reader: Reader): Db
    requires reader.answers(message).Answer?
  {
    var a := reader.answers(message);
    var stored := Stored(db, reader.settings, email, message, a);
    RoutedAll(stored, |db.extractions|, Reading(reader.settings, message, newest, reader.now), a.drafts, |a.drafts|)
  }

  function OneGroup(db: Db, email: nat, message: Option<nat>, newest: Option<nat>, reader: Reader): Db {
    if reader.answers(message).Answer? then ReadGroup(db, email, message, newest, reader)
    else if message.Some? && email < |db.emails| && message.value < |db.emails[email].messages|
    then MessageFails(db, email, message.value)
    else db
  }

  /** The first `n` groups read in turn. */
  function ReadGroups(db: Db, email: nat, groups: seq<Option<nat>>, newest: Option<nat>, reader: Reader, n: nat): Db
    requires n <= |groups|
  {
    if n == 0 then db
    else OneGroup(ReadGroups(db, email, groups, newest, reader, n - 1), email, groups[n - 1], newest, reader)
  }

  predicate AllFail(groups: seq<Option<nat>>, reader: Reader, n: nat)
    requires n <= |groups|
  {
    forall i | 0 <= i < n :: reader.answers(groups[i]).ReadFails?
  }

  /** A source read whole fails the whole email. */
  predicate WholeEmailFails(db: Db, email: nat, reader: Reader)
    requires email < |db.emails|
  {
    None in Groups(db, email) && reader.answers(None).ReadFails?
  }

  /** The database after `normalize_one`, unless the whole email fails. */
  function Normalized(db: Db, email: nat, reader: Reader): Db
    requires email < |db.emails|
  {
    var groups := Groups(db, email);
    if groups == [] then
      if HasUnsuperseded(db.extractions, email) then Settled(WithStatus(db, email, Review), email)
      else WithStatus(db, email, Error)
    else
      var after := ReadGroups(db, email, groups, NewestFrom(db.emails[email].messages, 0), reader, |groups|);
      if email >= |after.emails| then after
      else if AllFail(groups, reader, |groups|) then WithStatus(after, email, Error)
      else Settled(WithStatus(after, email, Review), email)
  }

  // ----- what reading leaves alone -----

  lemma RoutedKeepsEmails(db: Db, id: nat, r: Reading, d: Draft)
    requires id < |db.extractions|
    ensures Routed(db, id, r, d).emails == db.emails && |Routed(db, id, r, d).extractions| == |db.extractions|
  {
    hide Assigned, Noted, Post;
  }

  lemma {:induction false} RoutedAllKeepsEmails(db: Db, first: nat, r: Reading, drafts: seq<Draft>, n: nat)
    requires n <= |drafts| && first + |drafts| <= |db.extractions|
    ensures RoutedAll(db, first, r, drafts, n).emails == db.emails
  {
    hide Routed;
    if n > 0 {
      RoutedAllKeepsEmails(db, first, r, drafts, n - 1);
      RoutedKeepsEmails(RoutedAll(db, first, r, drafts, n - 1), first + n - 1, r, drafts[n - 1]);
    }
  }

  /** Nothing of an email changes but the status of messages that cannot be read. */
  ghost predicate SameEmailsBut(before: seq<Email>, after: seq<Email>, email: nat) {
    && |after| == |before| && (forall e | 0 <= e < |before| && e != email :: after[e] == before[e])
    && (email < |before| ==>
          && after[email].status == before[email].status && after[email].sources == before[email].sources
          && |after[email].messages| == |before[email].messages|)
  }

  lemma OneGroupKeepsEmails(db: Db, email: nat, message: Option<nat>, newest: Option<nat>, reader: Reader)
    ensures SameEmailsBut(db.emails, OneGroup(db, email, message, newest, reader).emails, email)
    ensures reader.answers(message).Answer? ==> OneGroup(db, email, message, newest, reader).emails == db.emails
  {
    hide Stored, RoutedAll;
    var a := reader.answers(message);
    if a.Answer? {
      var stored := Stored(db, reader.settings, email, message, a);
      assert stored.emails == db.emails && |db.extractions| + |a.drafts| <= |stored.extractions| by {
        StoredIs(db, reader.settings, email, message, a);
      }
      RoutedAllKeepsEmails(stored, |db.extractions|, Reading(reader.settings, message, newest, reader.now), a.drafts,
        |a.drafts|);
    }
  }

  lemma StoredIs(db: Db, settings: Settings, email: nat, message: Option<nat>, a: Read)
    requires a.Answer?
    ensures var stored := Stored(db, settings, email, message, a);
      && stored == db.(extractions := stored.extractions) && db.extractions <= stored.extractions
      && |stored.extractions| == |db.extractions| + if a.drafts == [] then 1 else |a.drafts|
  {
    hide NewRow, EmptyRow;
  }

  lemma {:induction false} ReadGroupsKeepEmails(
    db: Db, email: nat, groups: seq<Option<nat>>, newest: Option<nat>, reader: Reader, n: nat)
    requires n <= |groups|
    ensures SameEmailsBut(db.emails, ReadGroups(db, email, groups, newest, reader, n).emails, email)
  {
    hide OneGroup;
    if n > 0 {
      ReadGroupsKeepEmails(db, email, groups, newest, reader, n - 1);
      OneGroupKeepsEmails(ReadGroups(db, email, groups, newest, reader, n - 1), email, groups[n - 1], newest, reader);
    }
  }

  /** Groups are the eligible messages, each once, the whole-email group first and older messages before newer. */
  lemma {:induction false} MessageGroupsAre(db: Db, email: nat, n: nat)
    requires email < |db.emails|
    ensures var gs := MessageGroups(db, email, n);
      && (forall g :: g in gs <==> g.Some? && g.value < n && Eligible(db, email, g))
      && (forall i, j | 0 <= i < j < |gs| :: gs[i].Some? && gs[j].Some? && gs[i].value > gs[j].value)
  {
    hide Eligible;
    if n > 0 {
      MessageGroupsAre(db, email, n - 1);
      var rest := MessageGroups(db, email, n - 1);
      assert forall i | 0 <= i < |rest| :: rest[i] in rest;
    }
  }

  lemma GroupsAre(db: Db, email: nat)
    requires email < |db.emails|
    ensures var gs := Groups(db, email);
      && (forall g :: g in gs <==> Eligible(db, email, g))
      && (forall i, j | 0 <= i < j < |gs| :: gs[j].Some? && (gs[i].Some? ==> gs[i].value > gs[j].value))
  {
    MessageGroupsAre(db, email, |db.emails[email].messages|);
    var ms := MessageGroups(db, email, |db.emails[email].messages|);
    assert forall i | 0 <= i < |ms| :: ms[i] in ms;
  }

  // ----- normalize_one -----

  method ReadOne(db: Database, email: nat, message: Option<nat>, newest: Option<nat>, reader: Reader)
    requires email < |db.emails| && reader.answers(message).Answer?
    modifies db
    ensures db.View() == OneGroup(old(db.View()), email, message, newest, reader)
  {
    hide Stored, RoutedAll;
    var a := reader.answers(message);
    ghost var before := db.View();
    StoredIs(before, reader.settings, email, message, a);
    var first := NormalizeGroup(db, reader.settings, email, message, a);
    Route(db, first, Reading(reader.settings, message, newest, reader.now), a.drafts);
  }

  method FailOne(db: Database, email: nat, message: nat)
    requires email < |db.emails| && message < |db.emails[email].messages|
    modifies db`emails
    ensures db.View() == MessageFails(old(db.View()), email, message)
  {
    var row := db.emails[email];
    db.emails := db.emails[email := row.(messages := row.messages[message := MessageFailed])];
  }

  /** `normalize_one`; `ok` is false when its exception reaches the caller, and then nothing has changed. */
  method NormalizeOne(db: Database, email: nat, reader: Reader) returns (ok: bool)
    requires email < |db.emails|
    modifies db
    ensures ok <==> !WholeEmailFails(old(db.View()), email, reader)
    ensures db.View() == if ok then Normalized(old(db.View()), email, reader) else old(db.View())
  {
    hide Eligible, OneGroup, MessageGroups, NewestFrom, HasPending;
    ghost var before := db.View();
    var groups := Groups(db.View(), email);
    GroupsAre(before, email);
    if groups == [] {
      if HasUnsuperseded(db.extractions, email) {
        db.emails := db.emails[email := db.emails[email].(status := Review)];
        SettleEmail(db, email);
      } else {
        db.emails := db.emails[email := db.emails[email].(status := Error)];
      }
      return true;
    }
    var newest := NewestFrom(db.emails[email].messages, 0);
    var added, failed := 0, 0;
    for i := 0 to |groups|
      invariant db.View() == ReadGroups(before, email, groups, newest, reader, i)
      invariant SameEmailsBut(before.emails, db.emails, email)
      invariant added == 0 <==> AllFail(groups, reader, i)
      invariant added + failed == i
      invariant i > 0 ==> !WholeEmailFails(before, email, reader)
    {
      ReadGroupsKeepEmails(before, email, groups, newest, reader, i + 1);
      var message := groups[i];
      assert message in groups;
      if reader.answers(message).ReadFails? {
        if message.None? {
          return false;
        }
        GroupInRange(before, email, message);
        OneGroupFails(db.View(), email, message, newest, reader);
        FailOne(db, email, message.value);
        failed := failed + 1;
      } else {
        ReadOne(db, email, message, newest, reader);
        added := added + 1;
      }
      NotWhole(before, email, groups, reader, i);
    }
    if added == 0 && failed > 0 {
      db.emails := db.emails[email := db.emails[email].(status := Error)];
      return true;
    }
    db.emails := db.emails[email := db.emails[email].(status := Review)];
    SettleEmail(db, email);
    return true;
  }

  lemma GroupInRange(db: Db, email: nat, message: Option<nat>)
    requires email < |db.emails| && Eligible(db, email, message) && message.Some?
    ensures message.value < |db.emails[email].messages|
  {
  }

  lemma OneGroupFails(db: Db, email: nat, message: Option<nat>, newest: Option<nat>, reader: Reader)
    requires email < |db.emails| && message.Some? && message.value < |db.emails[email].messages|
    requires reader.answers(message).ReadFails?
    ensures OneGroup(db, email, message, newest, reader) == MessageFails(db, email, message.value)
  {
  }

  lemma NotWhole(db: Db, email: nat, groups: seq<Option<nat>>, reader: Reader, i: nat)
    requires email < |db.emails| && groups == Groups(db, email) && i < |groups|
    requires groups[i].Some? || reader.answers(None).Answer?
    requires i > 0 ==> !WholeEmailFails(db, email, reader)
    ensures !WholeEmailFails(db, email, reader)
  {
    GroupsAre(db, email);
    if i == 0 && None in groups {
      var j :| 0 <= j < |groups| && groups[j] == None;
    }
  }
}
