/** What the pipeline does on its own: payments approved unseen never overpay an invoice. */
module AutoApproval {
  import opened Models
  import opened Balance
  import opened Checks
  import opened Posting
  import opened Recheck
  import opened Dedupe
  import opened Routing
  import opened Review
  import opened Normalize
  import opened Advance
  import opened Invariant
  import opened Operations
  import opened Intake
  import opened Lifecycle
  import References
  import Overpayment
  import Conservation

  predicate IsEarlier(r: Reading) { r.message.Some? && r.newest.Some? && r.message.value > r.newest.value }

  /** A payment is approved unseen exactly when automatic approval is on, its confidence reaches the
      threshold, and nothing at all speaks against it: it is no duplicate, the read, its key, its age and
      the outside checks raise no flag, and the ledger as it is at that moment raises none. */
  lemma ApprovedUnseenWhen(db: Db, id: nat, r: Reading, d: Draft)
    requires DbOk(db) && IsRaw(db.extractions, id) && IsPayment(db.extractions[id])
    ensures var x, p := Assigned(db.extractions, id), db.extractions[id].canonical.value;
      Routed(db, id, r, d).extractions[id].status == Approved <==>
        && r.settings.threshold > 0 && x.confidence >= r.settings.threshold
        && x.status != Duplicate && x.flags == [] && !IsEarlier(r) && !d.beforeGoLive && d.others == []
        && LedgerFlags(db.ledger, r.settings.listing(db.ledger), p) == []
  {
    var x := Assigned(db.extractions, id);
    KeyedKeeps(db, id);
    NotedFlags(db.ledger, x, r, d);
    RoutedStatus(db, id, r, d);
    hide DbOk, Assigned, LedgerFlags, Routed, Noted, Advances;
  }

  /** Unless it is a duplicate, a payment of an earlier message or from before the books went live is marked
      historical, and no other is. It then waits for a reviewer, who can mark it already recorded, whatever
      its confidence; and its flag says why. */
  lemma HistoryIsNeverUnseen(db: Db, id: nat, r: Reading, d: Draft)
    requires DbOk(db) && IsRaw(db.extractions, id) && IsPayment(db.extractions[id]) && !db.extractions[id].historical
    ensures var exts := Routed(db, id, r, d).extractions;
      && |exts| == |db.extractions|
      && (exts[id].status != Duplicate ==> (exts[id].historical <==> IsEarlier(r) || d.beforeGoLive))
      && (exts[id].historical ==>
            IsRecordable(exts, id) && (if IsEarlier(r) then EarlierMessage else BeforeGoLive) in exts[id].flags)
  {
    var x := Assigned(db.extractions, id);
    KeyedKeeps(db, id);
    assert !x.historical by { hide References.PaymentKeyFor; }
    NotedHistory(db.ledger, x, r, d);
    hide DbOk, Assigned, LedgerFlags, Noted, Advances, Post;
    RoutedKeepsEmails(db, id, r, d);
  }

  lemma NotedHistory(l: Ledger, x: Extraction, r: Reading, d: Draft)
    requires !x.historical
    ensures var noted := Noted(l, x, r, d);
      && noted.status == x.status && noted.isRemittance == x.isRemittance && noted.canonical == x.canonical
      && (noted.historical <==> IsEarlier(r) || d.beforeGoLive)
      && (noted.historical ==>
            noted.flags != [] && (if IsEarlier(r) then EarlierMessage else BeforeGoLive) in noted.flags)
  {
    hide ContextFlags;
  }

  /** No recheck takes that flag away, whatever is edited. */
  lemma HistoryFlagStays(l: Ledger, context: Context, flags: seq<Flag>, p: Payload, keyChanged: bool, f: Flag)
    requires (f == EarlierMessage || f == BeforeGoLive) && f in flags
    ensures f in Rechecked(l, context, flags, p, keyChanged)
  {
    hide FreshFlags;
    RecheckedAre(l, context, flags, p, keyChanged);
  }

  lemma NotedFlags(l: Ledger, x: Extraction, r: Reading, d: Draft)
    requires x.canonical.Some?
    ensures Noted(l, x, r, d).flags == [] <==>
      x.flags == [] && !IsEarlier(r) && !d.beforeGoLive && d.others == []
      && LedgerFlags(l, r.settings.listing(l), x.canonical.value) == []
    ensures Noted(l, x, r, d).confidence == x.confidence && Noted(l, x, r, d).status == x.status
  {
    hide LedgerFlags;
  }

  lemma RoutedStatus(db: Db, id: nat, r: Reading, d: Draft)
    requires id < |db.extractions| && IsPayment(db.extractions[id])
    requires var s := Assigned(db.extractions, id).status; s == PendingReview || s == Duplicate
    ensures var x := Assigned(db.extractions, id);
      Routed(db, id, r, d).extractions[id].status == Approved <==>
        x.status != Duplicate && Automatic(Noted(db.ledger, x, r, d), r.settings.threshold)
  {
    NotedStatus(db.ledger, Assigned(db.extractions, id), r, d);
    hide Assigned, Noted, Post, Automatic;
  }

  lemma NotedStatus(l: Ledger, x: Extraction, r: Reading, d: Draft)
    ensures Noted(l, x, r, d).status == x.status
  {
    hide LedgerFlags;
  }

  /** Invoices that are there keep their values and do not become overpaid; one already overpaid is left
      alone. */
  ghost predicate NeverOverpays(l: Ledger, l': Ledger) {
    forall key | key != "" && key in l.invoices :: SafeFor(l, l', key)
  }

  ghost predicate SafeFor(l: Ledger, l': Ledger, key: string)
    requires key in l.invoices
  {
    && key in l'.invoices && l'.invoices[key] == l.invoices[key]
    && (Outstanding(l, key) >= -TOLERANCE ==> Outstanding(l', key) >= -TOLERANCE)
    && (Outstanding(l, key) < -TOLERANCE ==> Outstanding(l', key) == Outstanding(l, key))
  }

  lemma NeverOverpaysItself(l: Ledger)
    ensures NeverOverpays(l, l)
  {
  }

  lemma NeverOverpaysTransitive(a: Ledger, b: Ledger, c: Ledger)
    requires NeverOverpays(a, b) && NeverOverpays(b, c)
    ensures NeverOverpays(a, c)
  {
    hide Outstanding;
    forall key | key != "" && key in a.invoices ensures SafeFor(a, c, key) {
      assert SafeFor(a, b, key) && SafeFor(b, c, key);
    }
  }

  lemma CleanPostIsSafeFor(l: Ledger, listing: seq<string>, id: nat, p: Payload, key: string)
    requires LedgerFlags(l, listing, p) == [] && Fresh(l.rows, id) && key != "" && key in l.invoices
    ensures SafeFor(l, PostPayload(l, id, p), key)
  {
    hide LedgerFlags, PostPayload, Overpayment.Touches, SettledOn;
    Overpayment.NoSilentOverpayment(l, listing, id, p, key);
    if Outstanding(l, key) < -TOLERANCE && Overpayment.Touches(p, key) {
      Overpayment.SettledInvoiceIsFlagged(l, listing, p, key);
    }
  }

  lemma CleanPostIsSafe(l: Ledger, listing: seq<string>, id: nat, p: Payload)
    requires LedgerFlags(l, listing, p) == [] && Fresh(l.rows, id)
    ensures NeverOverpays(l, PostPayload(l, id, p))
  {
    hide LedgerFlags, PostPayload, SafeFor;
    forall key | key != "" && key in l.invoices ensures SafeFor(l, PostPayload(l, id, p), key) {
      CleanPostIsSafeFor(l, listing, id, p, key);
    }
  }

  /** Routing posts what it checked, on the ledger it checked it against. */
  lemma RoutedLedger(db: Db, id: nat, r: Reading, d: Draft)
    requires DbOk(db) && IsRaw(db.extractions, id)
    ensures var l' := Routed(db, id, r, d).ledger;
      || l' == db.ledger
      || (&& IsPayment(db.extractions[id])
          && LedgerFlags(db.ledger, r.settings.listing(db.ledger), db.extractions[id].canonical.value) == []
          && l' == PostPayload(db.ledger, id, db.extractions[id].canonical.value))
  {
    if IsPayment(db.extractions[id]) {
      KeyedKeeps(db, id);
      hide DbOk, Assigned, LedgerFlags, PostEntries, Ordered;
    }
  }

  lemma RoutedIsSafe(db: Db, id: nat, r: Reading, d: Draft)
    requires DbOk(db) && IsRaw(db.extractions, id)
    ensures NeverOverpays(db.ledger, Routed(db, id, r, d).ledger)
  {
    RoutedLedger(db, id, r, d);
    Conservation.PendingIsFresh(db, id);
    NeverOverpaysItself(db.ledger);
    hide DbOk, Routed, LedgerFlags, PostPayload, NeverOverpays;
    if Routed(db, id, r, d).ledger != db.ledger {
      CleanPostIsSafe(db.ledger, r.settings.listing(db.ledger), id, db.extractions[id].canonical.value);
    }
  }

  lemma {:induction false} RoutedAllIsSafe(db: Db, first: nat, r: Reading, drafts: seq<Draft>, n: nat)
    requires DbOk(db) && n <= |drafts| && first + |drafts| <= |db.extractions|
    requires forall id | first <= id < first + |drafts| :: IsRaw(db.extractions, id)
    ensures NeverOverpays(db.ledger, RoutedAll(db, first, r, drafts, n).ledger)
  {
    hide DbOk, Routed, NeverOverpays, IsRaw, Advances;
    NeverOverpaysItself(db.ledger);
    if n > 0 {
      RoutedAllIsSafe(db, first, r, drafts, n - 1);
      RoutedAllKeeps(db, first, r, drafts, n - 1);
      var before, id := RoutedAll(db, first, r, drafts, n - 1), first + n - 1;
      assert IsRaw(before.extractions, id) by { RawStays(db.extractions, before.extractions, id); }
      RoutedIsSafe(before, id, r, drafts[n - 1]);
      NeverOverpaysTransitive(db.ledger, before.ledger, RoutedAll(db, first, r, drafts, n).ledger);
    }
  }

  lemma RawStays(exts: seq<Extraction>, exts': seq<Extraction>, id: nat)
    requires IsRaw(exts, id) && id < |exts'| && exts'[id] == exts[id]
    ensures IsRaw(exts', id)
  {
  }

  lemma OneGroupIsSafe(db: Db, email: nat, message: Option<nat>, newest: Option<nat>, reader: Reader)
    requires DbOk(db) && email < |db.emails| && db.emails[email].sources != []
    ensures NeverOverpays(db.ledger, OneGroup(db, email, message, newest, reader).ledger)
  {
    hide DbOk, RoutedAll, NeverOverpays, IsRaw, Advances, Normalize.Stored;
    NeverOverpaysItself(db.ledger);
    var a := reader.answers(message);
    if a.Answer? {
      var stored, r := Normalize.Stored(db, reader.settings, email, message, a),
        Reading(reader.settings, message, newest, reader.now);
      StoredKeeps(db, reader.settings, email, message, a);
      StoredIs(db, reader.settings, email, message, a);
      RoutedAllIsSafe(stored, |db.extractions|, r, a.drafts, |a.drafts|);
    }
  }

  lemma {:induction false} ReadGroupsIsSafe(
    db: Db, email: nat, groups: seq<Option<nat>>, newest: Option<nat>, reader: Reader, n: nat)
    requires DbOk(db) && email < |db.emails| && db.emails[email].sources != [] && n <= |groups|
    ensures NeverOverpays(db.ledger, ReadGroups(db, email, groups, newest, reader, n).ledger)
  {
    hide DbOk, OneGroup, NeverOverpays, Advances;
    NeverOverpaysItself(db.ledger);
    if n > 0 {
      ReadGroupsIsSafe(db, email, groups, newest, reader, n - 1);
      ReadGroupsKeeps(db, email, groups, newest, reader, n - 1);
      var before := ReadGroups(db, email, groups, newest, reader, n - 1);
      OneGroupIsSafe(before, email, groups[n - 1], newest, reader);
      NeverOverpaysTransitive(db.ledger, before.ledger, ReadGroups(db, email, groups, newest, reader, n).ledger);
    }
  }

  lemma NormalizedLedger(db: Db, email: nat, reader: Reader)
    requires email < |db.emails|
    ensures var groups := Groups(db, email);
      Normalized(db, email, reader).ledger
      == if groups == [] then db.ledger
         else ReadGroups(db, email, groups, NewestFrom(db.emails[email].messages, 0), reader, |groups|).ledger
  {
    hide ReadGroups, Groups, NewestFrom, AllFail, HasUnsuperseded, HasPending;
  }

  lemma NormalizedIsSafe(db: Db, email: nat, reader: Reader)
    requires Good(db) && email < |db.emails|
    ensures NeverOverpays(db.ledger, Normalized(db, email, reader).ledger)
  {
    GoodIs(db);
    hide *;
    NeverOverpaysItself(db.ledger);
    NormalizedLedger(db, email, reader);
    var groups, newest := Groups(db, email), NewestFrom(db.emails[email].messages, 0);
    if groups != [] {
      GroupsNeedSources(db, email);
      ReadGroupsIsSafe(db, email, groups, newest, reader, |groups|);
    }
  }

  lemma SteppedIsSafe(db: Db, e: nat, work: Work)
    requires Good(db) && e < |db.emails|
    ensures NeverOverpays(db.ledger, Stepped(db, e, work).ledger)
  {
    hide Good, NeverOverpays, Normalized, WholeEmailFails;
    NeverOverpaysItself(db.ledger);
    if work.Work? { NormalizedIsSafe(db, e, work.reader); }
  }

  ghost predicate OnlySteps(ops: seq<Op>) { forall i | 0 <= i < |ops| :: ops[i].StepEmail? }

  lemma StepIsSafe(w: World, op: Op)
    requires Inv(w) && op.StepEmail?
    ensures NeverOverpays(w.db.ledger, Lifecycle.Step(w, op).db.ledger)
  {
    hide Good, NeverOverpays, Stepped, BackendOk;
    NeverOverpaysItself(w.db.ledger);
    if CanStep(w.db, op.email, op.work) { SteppedIsSafe(w.db, op.email, op.work); }
  }

  lemma {:induction false} StepsAreSafe(w: World, ops: seq<Op>)
    requires Inv(w) && OnlySteps(ops)
    ensures NeverOverpays(w.db.ledger, Run(w, ops).db.ledger)
  {
    hide Inv, NeverOverpays, Lifecycle.Step;
    NeverOverpaysItself(w.db.ledger);
    if ops != [] {
      var front := ops[..|ops| - 1];
      StepsAreSafe(w, front);
      RunKeeps(w, front);
      StepIsSafe(Run(w, front), ops[|ops| - 1]);
      NeverOverpaysTransitive(w.db.ledger, Run(w, front).db.ledger, Run(w, ops).db.ledger);
    }
  }

  /** From any state the system can reach, however long the pipeline then runs on its own, whatever the AI
      answers and whatever fails: no invoice that was there becomes overpaid, and one that was overpaid is
      left as it was. */
  lemma PipelineNeverOverpays(ops: seq<Op>, more: seq<Op>, key: string)
    requires OnlySteps(more) && key != "" && key in Run(START, ops).db.ledger.invoices
    ensures SafeFor(Run(START, ops).db.ledger, Run(START, ops + more).db.ledger, key)
  {
    StartOk();
    RunKeeps(START, ops);
    RunConcat(START, ops, more);
    hide Inv, Run, SafeFor;
    StepsAreSafe(Run(START, ops), more);
  }
}
