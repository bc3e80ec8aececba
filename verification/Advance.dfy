/** Moving emails through the pipeline one state at a time (ar_pipeline/pipeline/advance.py).

    What splitting, classification and the extractors find are inputs, and so is whether a step crashes. */
module Advance {
  import opened Models
  import opened Normalize
  import opened Routing

  predicate IsUnderway(status: EmailStatus) { status == New || status == Classified || status == Extracted }

  /** How many states are still ahead of an email. */
  function Rank(status: EmailStatus): nat {
    match status
    case New => 3
    case Classified => 2
    case Extracted => 1
    case _ => 0
  }

  // ----- classify -----

  /** The messages the body splits into, whether there are attachments, and the sources to read. */
  datatype Finding = Finding(parts: seq<MessageStatus>, attachments: bool, sources: seq<Source>)

  predicate IsLive(sources: seq<Source>) { exists i | 0 <= i < |sources| :: !sources[i].skipped }

  /** Messages are split off once; a retried email keeps the ones it has. */
  function MessagesOf(email: Email, f: Finding): seq<MessageStatus> {
    if email.messages != [] then email.messages else if f.parts == [] then [MessageNew] else f.parts
  }

  predicate NothingToRead(messages: seq<MessageStatus>) {
    Seen in messages || forall i | 0 <= i < |messages| :: messages[i] == NoContent
  }

  function ClassifiedEmail(email: Email, f: Finding): Email {
    var messages := MessagesOf(email, f);
    if !IsLive(f.sources) && !f.attachments && NothingToRead(messages) then email.(status := Done, messages := messages)
    else
      var placeholder := if IsLive(f.sources) then [] else [Source(None, true, 0)];
      Email(Classified, messages, email.sources + f.sources + placeholder)
  }

  /** `_classify`. */
  method Classify(db: Database, e: nat, f: Finding)
    requires e < |db.emails|
    modifies db`emails
    ensures db.emails == old(db.emails)[e := ClassifiedEmail(old(db.emails[e]), f)]
  {
    var row := db.emails[e];
    var messages := row.messages;
    if messages == [] {
      messages := f.parts;
      if messages == [] {
        messages := [MessageNew]; // an empty body: one message so that attachments have a home
      }
    }
    row := row.(messages := messages);
    var specs := f.sources;
    if !IsLive(specs) {
      if !f.attachments && NothingToRead(messages) {
        db.emails := db.emails[e := row.(status := Done)];
        return;
      }
      specs := specs + [Source(None, true, 0)];
    }
    assert row.sources + f.sources + [] == row.sources + f.sources;
    var sources := row.sources + specs;
    assert sources == ClassifiedEmail(old(db.emails[e]), f).sources;
    db.emails := db.emails[e := row.(sources := sources, status := Classified)];
  }

  // ----- extract -----

  predicate IsWaiting(s: Source) { !s.skipped && s.raws == 0 }

  function ReadSource(s: Source, works: bool): Source {
    if IsWaiting(s) && works then s.(raws := 1) else s
  }

  function ReadSources(sources: seq<Source>, works: nat -> bool): (r: seq<Source>)
    ensures |r| == |sources| && forall i | 0 <= i < |r| :: r[i] == ReadSource(sources[i], works(i))
  {
    seq(|sources|, i requires 0 <= i < |sources| => ReadSource(sources[i], works(i)))
  }

  predicate SomeFail(sources: seq<Source>, works: nat -> bool) {
    exists i | 0 <= i < |sources| :: IsWaiting(sources[i]) && !works(i)
  }

  /** An email comes out extracted or in error: the state it started from is never its result. */
  function ExtractedEmail(email: Email, works: nat -> bool): Email {
    if !IsLive(email.sources) then email.(status := Error)
    else email.(sources := ReadSources(email.sources, works),
                status := if SomeFail(email.sources, works) then Error else Extracted)
  }

  /** `_extract`. Its last branch, which would leave the email classified, is never reached. */
  method Extract(db: Database, e: nat, works: nat -> bool)
    requires e < |db.emails|
    modifies db`emails
    ensures db.emails == old(db.emails)[e := ExtractedEmail(old(db.emails[e]), works)]
  {
    var row := db.emails[e];
    if !IsLive(row.sources) {
      db.emails := db.emails[e := row.(status := Error)];
      return;
    }
    var sources, failures := row.sources, 0;
    for i := 0 to |sources|
      modifies {}
      invariant |sources| == |row.sources|
      invariant forall j | 0 <= j < |sources| ::
        sources[j] == if j < i then ReadSource(row.sources[j], works(j)) else row.sources[j]
      invariant failures == 0 <==> forall j | 0 <= j < i :: !(IsWaiting(row.sources[j]) && !works(j))
    {
      if IsWaiting(sources[i]) {
        if works(i) {
          sources := sources[i := sources[i].(raws := sources[i].raws + 1)];
        } else {
          failures := failures + 1;
        }
      }
    }
    assert sources == ReadSources(row.sources, works);
    if failures > 0 {
      db.emails := db.emails[e := row.(sources := sources, status := Error)];
      return;
    }
    var all := forall i | 0 <= i < |sources| :: !sources[i].skipped ==> sources[i].raws > 0;
    if all {
      db.emails := db.emails[e := row.(sources := sources, status := Extracted)];
      return;
    }
    assert false;
  }

  /** An email is extracted exactly when it has a source to read and each has been read, now or before; a
      source read before is not read again. */
  lemma ExtractedExactly(email: Email, works: nat -> bool)
    requires email.status == Classified
    ensures var after := ExtractedEmail(email, works);
      && |after.sources| == |email.sources| && after.messages == email.messages
      && (after.status == Extracted <==>
            IsLive(email.sources) && forall i | 0 <= i < |email.sources| && !email.sources[i].skipped ::
              after.sources[i].raws > 0)
      && (after.status != Extracted ==> after.status == Error)
      && (forall i | 0 <= i < |email.sources| && email.sources[i].raws > 0 :: after.sources[i] == email.sources[i])
  {
    if IsLive(email.sources) {
      var sources := ReadSources(email.sources, works);
      if SomeFail(email.sources, works) {
        var i :| 0 <= i < |email.sources| && IsWaiting(email.sources[i]) && !works(i);
        assert sources[i] == ReadSource(email.sources[i], works(i));
      } else {
        forall i | 0 <= i < |sources| && !sources[i].skipped ensures sources[i].raws > 0 {
          assert sources[i] == ReadSource(email.sources[i], works(i));
          assert IsWaiting(email.sources[i]) ==> works(i);
        }
      }
    }
  }

  /** Classifying never splits an email twice, and ends it done only when it has no attachment, nothing to
      read, and a message seen before or no content at all; otherwise it has a source afterwards. */
  lemma ClassifiedMeans(email: Email, f: Finding)
    ensures var after := ClassifiedEmail(email, f);
      && (email.messages != [] ==> after.messages == email.messages) && after.messages != []
      && (after.status == Done <==> !IsLive(f.sources) && !f.attachments && NothingToRead(after.messages))
      && (after.status == Done ==> after.sources == email.sources)
      && (after.status != Done ==> after.status == Classified && email.sources < after.sources)
      && (IsLive(f.sources) ==> IsLive(after.sources))
  {
    var after := ClassifiedEmail(email, f);
    if IsLive(f.sources) {
      var i :| 0 <= i < |f.sources| && !f.sources[i].skipped;
      assert after.sources[|email.sources| + i] == f.sources[i];
    }
  }

  // ----- one step -----

  /** What happens when an email is stepped. */
  datatype Work = Crash | Work(finding: Finding, works: nat -> bool, reader: Reader)

  function Stepped(db: Db, e: nat, work: Work): Db
    requires e < |db.emails|
  {
    var email := db.emails[e];
    if work.Crash? then WithStatus(db, e, Error)
    else if email.status == New then db.(emails := db.emails[e := ClassifiedEmail(email, work.finding)])
    else if email.status == Classified then db.(emails := db.emails[e := ExtractedEmail(email, work.works)])
    else if WholeEmailFails(db, e, work.reader) then WithStatus(db, e, Error)
    else Normalized(db, e, work.reader)
  }

  /** `_step` inside its savepoint: an exception undoes the step and leaves only the error status. */
  method Step(db: Database, e: nat, work: Work)
    requires e < |db.emails|
    modifies db
    ensures db.View() == Stepped(old(db.View()), e, work)
  {
    hide ClassifiedEmail, ExtractedEmail, WholeEmailFails, Normalized;
    var ok := true;
    if work.Crash? {
      ok := false;
    } else if db.emails[e].status == New {
      Classify(db, e, work.finding);
    } else if db.emails[e].status == Classified {
      Extract(db, e, work.works);
    } else {
      ok := NormalizeOne(db, e, work.reader);
    }
    if !ok {
      db.emails := db.emails[e := db.emails[e].(status := Error)];
    }
  }

  // ----- a step makes progress -----

  lemma SettledIs(db: Db, email: nat)
    requires email < |db.emails|
    ensures var s := Settled(db, email);
      && s == db.(emails := s.emails) && |s.emails| == |db.emails|
      && (forall e | 0 <= e < |db.emails| && e != email :: s.emails[e] == db.emails[e])
      && s.emails[email] == db.emails[email].(status := if HasPending(db.extractions, email)
          then db.emails[email].status else Done)
  {
  }

  /** Reading an email ends it in review, done or in error, and touches no other email. */
  lemma NormalizedEnds(db: Db, e: nat, reader: Reader)
    requires e < |db.emails|
    ensures var after := Normalized(db, e, reader);
      && |after.emails| == |db.emails| && (forall o | 0 <= o < |db.emails| && o != e :: after.emails[o] == db.emails[o])
      && !IsUnderway(after.emails[e].status)
      && after.emails[e].sources == db.emails[e].sources && |after.emails[e].messages| == |db.emails[e].messages|
  {
    hide Groups, ReadGroups, NewestFrom, AllFail, HasUnsuperseded, Settled;
    var groups, newest := Groups(db, e), NewestFrom(db.emails[e].messages, 0);
    SettledIs(WithStatus(db, e, Review), e);
    ReadGroupsKeepEmails(db, e, groups, newest, reader, |groups|);
    var after := ReadGroups(db, e, groups, newest, reader, |groups|);
    SettledIs(WithStatus(after, e, Review), e);
  }

  /** Every step of an email under way strictly lowers its rank and leaves every other email alone. */
  lemma StepLowersRank(db: Db, e: nat, work: Work)
    requires e < |db.emails| && IsUnderway(db.emails[e].status)
    ensures var after := Stepped(db, e, work);
      && |after.emails| == |db.emails| && (forall o | 0 <= o < |db.emails| && o != e :: after.emails[o] == db.emails[o])
      && Rank(after.emails[e].status) < Rank(db.emails[e].status)
  {
    hide WholeEmailFails, Normalized;
    if work.Work? { NormalizedEnds(db, e, work.reader); }
  }

  // ----- a batch, and repeated ticks -----

  /** The emails a tick selects: all under way, none twice. */
  ghost predicate IsBatch(emails: seq<Email>, batch: seq<nat>) {
    && (forall i | 0 <= i < |batch| :: batch[i] < |emails| && IsUnderway(emails[batch[i]].status))
    && (forall i, j | 0 <= i < j < |batch| :: batch[i] != batch[j])
  }

  function Advanced(db: Db, batch: seq<nat>, work: nat -> Work): (after: Db)
    requires forall i | 0 <= i < |batch| :: batch[i] < |db.emails|
    ensures |after.emails| == |db.emails|
  {
    if batch == [] then db
    else
      var before := Advanced(db, batch[..|batch| - 1], work);
      var e := batch[|batch| - 1];
      StepKeepsCount(before, e, work(e));
      Stepped(before, e, work(e))
  }

  lemma StepKeepsCount(db: Db, e: nat, work: Work)
    requires e < |db.emails|
    ensures |Stepped(db, e, work).emails| == |db.emails|
  {
    hide WholeEmailFails, Normalized;
    if work.Work? { NormalizedEnds(db, e, work.reader); }
  }

  datatype Stats = Stats(classified: nat, extracted: nat, normalized: nat, errored: nat)

  /** One more email stepped, from one status to another. */
  function Tally(s: Stats, before: EmailStatus, after: EmailStatus): Stats {
    if after == Error then s.(errored := s.errored + 1)
    else if before == New then s.(classified := s.classified + 1)
    else if before == Classified then s.(extracted := s.extracted + 1)
    else s.(normalized := s.normalized + 1)
  }

  function Tallied(db: Db, batch: seq<nat>, work: nat -> Work): Stats
    requires forall i | 0 <= i < |batch| :: batch[i] < |db.emails|
  {
    if batch == [] then Stats(0, 0, 0, 0)
    else
      var front, e := batch[..|batch| - 1], batch[|batch| - 1];
      Tally(Tallied(db, front, work), Advanced(db, front, work).emails[e].status,
        Advanced(db, batch, work).emails[e].status)
  }

  /** `advance_once`; `batch` is what its query selects. */
  method AdvanceOnce(db: Database, batch: seq<nat>, work: nat -> Work) returns (stats: Stats)
    requires IsBatch(db.emails, batch)
    modifies db
    ensures db.View() == Advanced(old(db.View()), batch, work)
    ensures stats == Tallied(old(db.View()), batch, work)
  {
    hide Stepped, Tally;
    stats := Stats(0, 0, 0, 0);
    for i := 0 to |batch|
      invariant forall k | 0 <= k < |batch| :: batch[k] < |old(db.emails)| == |db.emails|
      invariant db.View() == Advanced(old(db.View()), batch[..i], work)
      invariant stats == Tallied(old(db.View()), batch[..i], work)
    {
      assert batch[..i + 1][..i] == batch[..i];
      var before := db.emails[batch[i]].status;
      Step(db, batch[i], work(batch[i]));
      assert db.View() == Advanced(old(db.View()), batch[..i + 1], work);
      assert |db.View().emails| == |old(db.emails)|;
      stats := Tally(stats, before, db.View().emails[batch[i]].status);
    }
    assert batch[..|batch|] == batch;
  }

  function TotalRank(emails: seq<Email>): nat {
    if emails == [] then 0 else TotalRank(emails[..|emails| - 1]) + Rank(emails[|emails| - 1].status)
  }

  lemma {:induction false} TotalRankChange(a: seq<Email>, b: seq<Email>, e: nat)
    requires |a| == |b| && e < |a| && forall o | 0 <= o < |a| && o != e :: a[o] == b[o]
    ensures TotalRank(b) - TotalRank(a) == Rank(b[e].status) - Rank(a[e].status)
  {
    if e == |a| - 1 {
      assert a[..e] == b[..e];
    } else {
      TotalRankChange(a[..|a| - 1], b[..|b| - 1], e);
    }
  }

  lemma {:induction false} RankBound(emails: seq<Email>)
    ensures TotalRank(emails) <= 3 * |emails|
  {
    if emails != [] { RankBound(emails[..|emails| - 1]); }
  }

  /** A tick lowers the total rank by at least one for each email it steps, and leaves the others. */
  lemma {:induction false} TickLowersRank(db: Db, batch: seq<nat>, work: nat -> Work)
    requires IsBatch(db.emails, batch)
    ensures var after := Advanced(db, batch, work);
      && TotalRank(after.emails) + |batch| <= TotalRank(db.emails)
      && forall o | 0 <= o < |db.emails| && o !in batch :: after.emails[o] == db.emails[o]
  {
    hide Stepped, TotalRank;
    if batch != [] {
      var front, e := batch[..|batch| - 1], batch[|batch| - 1];
      TickLowersRank(db, front, work);
      var before := Advanced(db, front, work);
      assert e !in front;
      StepLowersRank(before, e, work(e));
      TotalRankChange(before.emails, Advanced(db, batch, work).emails, e);
      assert forall o | o in front :: o in batch;
    }
  }

  datatype Tick = Tick(batch: seq<nat>, work: nat -> Work)

  ghost predicate AreTicks(db: Db, ticks: seq<Tick>)
    decreases |ticks|, 0
  {
    ticks == [] || (AreTicks(db, ticks[..|ticks| - 1])
                    && IsBatch(AfterTicks(db, ticks[..|ticks| - 1]).emails, ticks[|ticks| - 1].batch))
  }

  ghost function AfterTicks(db: Db, ticks: seq<Tick>): Db
    requires AreTicks(db, ticks)
    decreases |ticks|, 1
  {
    if ticks == [] then db
    else Advanced(AfterTicks(db, ticks[..|ticks| - 1]), ticks[|ticks| - 1].batch, ticks[|ticks| - 1].work)
  }

  function Steps(ticks: seq<Tick>): nat {
    if ticks == [] then 0 else Steps(ticks[..|ticks| - 1]) + |ticks[|ticks| - 1].batch|
  }

  /** Left to itself the pipeline comes to rest: however often it is ticked, at most three steps are taken
      for each email. */
  lemma {:induction false} TicksTerminate(db: Db, ticks: seq<Tick>)
    requires AreTicks(db, ticks)
    ensures Steps(ticks) + TotalRank(AfterTicks(db, ticks).emails) <= TotalRank(db.emails) <= 3 * |db.emails|
    decreases |ticks|
  {
    RankBound(db.emails);
    if ticks != [] {
      var front, last := ticks[..|ticks| - 1], ticks[|ticks| - 1];
      TicksTerminate(db, front);
      TickLowersRank(AfterTicks(db, front), last.batch, last.work);
    }
  }
}
