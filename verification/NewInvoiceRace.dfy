/** When two approvals of one new invoice overpay it unseen (ar_pipeline/ledger/checks.py:80-103).

    The line's lookup comes before the advisory lock on its key, and nothing looks again once the lock is
    held: the lock makes the second check wait, but not look. */
module NewInvoiceRace {
  import opened Models
  import opened Matching
  import opened Balance
  import opened Checks
  import opened Posting
  import opened Overpayment
  import opened LockProtocol

  /** A payment of one line that pays a whole invoice. */
  datatype Offer = Offer(number: string, amount: Money)

  function LineOf(o: Offer): LineItem { PlainLine(o.number, o.amount, o.amount) }

  function Whole(o: Offer): Payload { Payload(0, None, PlainHeader(o.amount), [LineOf(o)]) }

  /** Two such payments of the same invoice, however each writes its number. */
  predicate SameInvoice(w: seq<Offer>) {
    |w| == 2 && w[0].amount > 0 && w[1].amount > 0 && NumberKey(w[0].number) == NumberKey(w[1].number) != ""
  }

  function KeyOf(w: seq<Offer>): string
    requires SameInvoice(w)
  {
    NumberKey(w[0].number)
  }

  lemma WholeEntries(o: Offer)
    ensures Ordered(Whole(o).lines) == [(0, LineOf(o))]
  {
    var line := LineOf(o);
    assert [line][..0] == [];
    assert OfKind([line], InvoiceLine) == [(0, line)] && OfKind([line], AdjustmentLine) == [];
  }

  function InvoiceOf(o: Offer): Invoice { EmailInvoice(PlainHeader(o.amount), LineOf(o)) }

  function RowOf(w: seq<Offer>, t: nat): Row
    requires SameInvoice(w) && t < 2
  {
    Row(KeyOf(w), t, 0, PaymentRow, w[t].amount, w[t].amount, "INR", "")
  }

  // ----- the events of the race -----

  /** Payment `t` is approved by transaction `t`, which may be rolled back and begun again. */
  ghost predicate IsRaceEvent(w: seq<Offer>, ev: Event)
    requires SameInvoice(w)
  {
    match ev
    case Begin(t, extraction, p, checks) => t < 2 && extraction == t && p == Whole(w[t]) && checks
    case ImportInvoice(_, _) => false
    case _ => true
  }

  ghost predicate IsRace(w: seq<Offer>, run: seq<Event>)
    requires SameInvoice(w)
  {
    forall i | 0 <= i < |run| :: IsRaceEvent(w, run[i])
  }

  function START(): System { System(Ledger(map[], []), map[]) }

  /** No check looks its invoice up after a payment is committed. */
  ghost predicate LookupsFirst(run: seq<Event>) {
    forall i, j | 0 <= i < j < |run| && run[i].Commit? :: !run[j].Lookup?
  }

  ghost predicate BothCommit(run: seq<Event>) { Commit(0) in run && Commit(1) in run }

  // ----- the states they lead to -----

  /** The payments committed, in order. */
  predicate IsDone(done: seq<nat>) {
    |done| <= 2 && (forall i | 0 <= i < |done| :: done[i] < 2) && (|done| == 2 ==> done[0] != done[1])
  }

  function LedgerAfter(w: seq<Offer>, done: seq<nat>): Ledger
    requires SameInvoice(w) && IsDone(done)
  {
    if done == [] then Ledger(map[], [])
    else Ledger(map[KeyOf(w) := InvoiceOf(w[done[0]])],
                if |done| == 1 then [RowOf(w, done[0])] else [RowOf(w, done[0]), RowOf(w, done[1])])
  }

  /** Invoices that raise no flag for a missing one: none, or this one under some spelling. */
  ghost predicate Harmless(w: seq<Offer>, all: map<string, Invoice>)
    requires SameInvoice(w)
  {
    forall k | k in all :: NumberKey(all[k].number) == KeyOf(w) && all[k].source == FromEmail
  }

  ghost predicate IsTx(w: seq<Offer>, t: nat, tx: Tx, done: seq<nat>)
    requires SameInvoice(w) && t < 2
  {
    && tx.extraction == t && tx.payload == Whole(w[t]) && !tx.books
    && (tx.all.Some? ==> Harmless(w, tx.all.value))
    && tx.checked <= 1 && tx.posted <= tx.checked
    && (tx.checked == 0 ==> tx.clean) && (tx.checked == 1 ==> tx.phase == Looking)
    && tx.staged == (if tx.posted == 1 then [RowOf(w, t)] else [])
    && tx.created == (if tx.posted == 1 && done == [] then map[KeyOf(w) := InvoiceOf(w[t])] else map[])
  }

  ghost predicate Racing(w: seq<Offer>, s: System, done: seq<nat>)
    requires SameInvoice(w)
  {
    && Inv(s) && IsDone(done) && s.ledger == LedgerAfter(w, done)
    && forall t | t in s.open :: t < 2 && t !in done && IsTx(w, t, s.open[t], done)
  }

  function DoneAfter(done: seq<nat>, ev: Event): seq<nat> { if ev.Commit? then done + [ev.t] else done }

  lemma InvoiceIsHarmless(w: seq<Offer>, done: seq<nat>)
    requires SameInvoice(w) && IsDone(done)
    ensures Harmless(w, LedgerAfter(w, done).invoices) && !BooksLoaded(LedgerAfter(w, done).invoices)
  {
    if done != [] { TrimKey(w[done[0]].number); }
    hide NumberKey, Trim;
  }

  /** Read among harmless invoices, the missing invoice raises no flag. */
  lemma MissesClean(w: seq<Offer>, t: nat, all: map<string, Invoice>)
    requires SameInvoice(w) && t < 2 && Harmless(w, all)
    ensures MissingFlags(HasNearMatch(all, w[t].number), false, 0, LineOf(w[t])) == []
  {
    hide NumberKey, ZeroInsensitive;
  }

  /** Looked up after a commit, the invoice is found paid and the line is flagged. */
  lemma FindsPaid(w: seq<Offer>, t: nat, done: seq<nat>)
    requires SameInvoice(w) && t < 2 && IsDone(done) && done != []
    ensures var l := LedgerAfter(w, done); EntryFlags(l, PlainHeader(w[t].amount), Ordered(Whole(w[t]).lines), 0) != []
  {
    WholeEntries(w[t]);
    OutstandingAfter(w, done);
    hide NumberKey, Trim, SettledOn, PayersDiffer, Ordered;
  }

  lemma OutstandingAfter(w: seq<Offer>, done: seq<nat>)
    requires SameInvoice(w) && IsDone(done) && done != []
    ensures var l := LedgerAfter(w, done);
      Outstanding(l, KeyOf(w)) == (if |done| == 1 then 0 else -w[done[1]].amount)
      && l.invoices[KeyOf(w)].amount == w[done[0]].amount && l.invoices[KeyOf(w)].currency == "INR"
  {
    hide NumberKey, Trim;
    var a, key := RowOf(w, done[0]), KeyOf(w);
    assert [a][..0] == [];
    assert SettledOn([a], key, Some("INR")) == w[done[0]].amount;
    if |done| == 2 {
      var b := RowOf(w, done[1]);
      assert [a, b][..1] == [a];
    }
  }

  // ----- every event keeps them -----

  lemma Replaced(w: seq<Offer>, s: System, done: seq<nat>, t: nat, tx: Tx)
    requires SameInvoice(w) && Racing(w, s, done) && Inv(s.(open := s.open[t := tx]))
    requires t < 2 && t !in done && IsTx(w, t, tx, done)
    ensures Racing(w, s.(open := s.open[t := tx]), done)
  {
    hide Inv, IsTx, LedgerAfter, KeyOf;
  }

  lemma Unfinished(w: seq<Offer>, s: System, done: seq<nat>, t: nat)
    requires SameInvoice(w) && IsDone(done) && t < 2 && s.ledger == LedgerAfter(w, done)
    requires forall r | r in s.ledger.rows :: r.extraction != t
    ensures t !in done
  {
    hide KeyOf;
    forall i | 0 <= i < |done| ensures done[i] != t { assert RowOf(w, done[i]) in s.ledger.rows; }
  }

  lemma BeginRaces(w: seq<Offer>, s: System, done: seq<nat>, ev: Event)
    requires SameInvoice(w) && Racing(w, s, done) && Enabled(s, ev) && ev.Begin? && IsRaceEvent(w, ev)
    ensures Racing(w, Next(s, ev), done)
  {
    EventKeeps(s, ev);
    InvoiceIsHarmless(w, done);
    Unfinished(w, s, done, ev.t);
    var tx := Tx(ev.t, Whole(w[ev.t]), false, None, Looking, 0, true, 0, {}, {}, {}, {}, [], map[]);
    hide Inv, LedgerAfter, SameInvoice, BooksLoaded, Ordered, Whole, KeyOf, RowOf, InvoiceOf, Harmless;
    assert Next(s, ev) == s.(open := s.open[ev.t := tx]);
    assert IsTx(w, ev.t, tx, done);
    hide Next, IsTx, Enabled;
    Replaced(w, s, done, ev.t, tx);
  }

  lemma ChecksAs(w: seq<Offer>, t: nat, tx: Tx, done: seq<nat>)
    requires SameInvoice(w) && t < 2 && IsDone(done) && IsTx(w, t, tx, done) && tx.checked < |Entries(tx)|
    ensures var l := LedgerAfter(w, done);
      && tx.checked == 0
      && (tx.phase == Looking ==> IsTx(w, t, LookupStep(l, tx), done))
      && IsTx(w, t, LockStep(tx), done) && IsTx(w, t, ReadStep(l, tx), done)
  {
    InvoiceIsHarmless(w, done);
    WholeEntries(w[t]);
    hide EntryFlags, MissingFlags, HasNearMatch, Harmless, LedgerAfter, Ordered, SameInvoice, KeyOf, RowOf, InvoiceOf,
         Targets, TargetKey;
  }

  lemma CheckRaces(w: seq<Offer>, s: System, done: seq<nat>, ev: Event)
    requires SameInvoice(w) && Racing(w, s, done) && Enabled(s, ev) && (ev.Lookup? || ev.AdvisoryLock? || ev.ReadAll?)
    ensures Racing(w, Next(s, ev), done)
  {
    EventKeeps(s, ev);
    ChecksAs(w, ev.t, s.open[ev.t], done);
    hide Inv, LookupStep, LockStep, ReadStep, LedgerAfter, SameInvoice, KeyOf, Ordered, NextKey;
    assert Next(s, ev) == s.(open := s.open[ev.t := Next(s, ev).open[ev.t]]);
    Replaced(w, s, done, ev.t, Next(s, ev).open[ev.t]);
  }

  lemma PostedIs(w: seq<Offer>, t: nat)
    requires SameInvoice(w) && t < 2
    ensures RowFor(t, PlainHeader(w[t].amount), (0, LineOf(w[t]))) == RowOf(w, t) && TargetKey(LineOf(w[t])) == KeyOf(w)
  {
    hide NumberKey;
  }

  /** What posting makes of the transaction: the first creates the invoice, a later one finds it. */
  lemma PostStepIs(w: seq<Offer>, t: nat, tx: Tx, done: seq<nat>, l: Ledger)
    requires SameInvoice(w) && t < 2 && IsDone(done) && IsTx(w, t, tx, done) && tx.checked == 1 && tx.posted == 0
    requires KeyOf(w) in l.invoices <==> done != []
    ensures tx.posted < |Entries(tx)| && IsTx(w, t, PostStep(l, tx), done)
  {
    WholeEntries(w[t]);
    PostedIs(w, t);
    var e: Entry := (0, LineOf(w[t]));
    assert KeyOf(w) != "" && e.1.kind == InvoiceLine && tx.payload.header == PlainHeader(w[t].amount);
    hide Ordered, SameInvoice, KeyOf, RowFor, TargetKey, EmailInvoice, RowOf, Harmless, PlainHeader, LineOf, Whole;
    assert Entries(tx) == [e] && Entries(tx)[tx.posted] == e;
    assert Postable(e, l.invoices.Keys + tx.created.Keys);
    assert tx.staged == [] && tx.created == map[];
    hide Entries;
  }

  lemma PostRaces(w: seq<Offer>, s: System, done: seq<nat>, t: nat)
    requires SameInvoice(w) && Racing(w, s, done) && Enabled(s, PostNext(t))
    ensures Racing(w, Next(s, PostNext(t)), done)
  {
    EventKeeps(s, PostNext(t));
    WholeEntries(w[t]);
    assert IsTx(w, t, s.open[t], done);
    assert KeyOf(w) in s.ledger.invoices <==> done != [];
    hide Inv, Ordered, PostStep, LedgerAfter, KeyOf;
    PostStepIs(w, t, s.open[t], done, s.ledger);
    hide IsTx;
    Replaced(w, s, done, t, Next(s, PostNext(t)).open[t]);
  }

  lemma OneEntry(w: seq<Offer>, t: nat, tx: Tx, done: seq<nat>)
    requires SameInvoice(w) && t < 2 && IsDone(done) && IsTx(w, t, tx, done)
    ensures |Entries(tx)| == 1
  {
    WholeEntries(w[t]);
    hide KeyOf, Harmless, RowOf, InvoiceOf, Ordered, SameInvoice;
  }

  lemma CommitShape(s: System, t: nat)
    requires Enabled(s, Commit(t))
    ensures t in s.open && s.open[t].checked == s.open[t].posted == |Entries(s.open[t])|
    ensures Next(s, Commit(t)) == System(Published(s.ledger, s.open[t]), s.open - {t})
  {
    hide Entries, Published;
  }

  lemma CommittedIs(w: seq<Offer>, s: System, done: seq<nat>, t: nat)
    requires SameInvoice(w) && Racing(w, s, done) && Enabled(s, Commit(t))
    ensures t in s.open && t < 2 && s.open[t].posted == 1
    ensures Next(s, Commit(t)) == System(Published(s.ledger, s.open[t]), s.open - {t})
  {
    hide *;
    CommitShape(s, t);
    RacingTx(w, s, done, t);
    OneEntry(w, t, s.open[t], done);
  }

  lemma CommitRaces(w: seq<Offer>, s: System, done: seq<nat>, t: nat)
    requires SameInvoice(w) && Racing(w, s, done) && Enabled(s, Commit(t))
    ensures Racing(w, Next(s, Commit(t)), done + [t])
  {
    hide SameInvoice, Inv, IsTx, LedgerAfter, Enabled, Next, Published, IsDone;
    CommittedIs(w, s, done, t);
    RacingTx(w, s, done, t);
    EventKeeps(s, Commit(t));
    DoneGrows(done, t);
    PublishedIs(w, s, done, t);
    forall u | u in s.open && u != t ensures u < 2 && u !in done + [t] && IsTx(w, u, s.open[u], done + [t]) {
      RacingTx(w, s, done, u);
      OneCreator(w, s, done, t, u);
    }
  }

  lemma DoneGrows(done: seq<nat>, t: nat)
    requires IsDone(done) && t < 2 && t !in done
    ensures IsDone(done + [t])
  {
    assert forall i | 0 <= i < |done| :: done[i] in done && done[i] != t;
  }

  lemma PublishedIs(w: seq<Offer>, s: System, done: seq<nat>, t: nat)
    requires SameInvoice(w) && IsDone(done) && IsDone(done + [t]) && t < 2 && s.ledger == LedgerAfter(w, done)
    requires t in s.open && IsTx(w, t, s.open[t], done) && s.open[t].posted == 1
    ensures Published(s.ledger, s.open[t]) == LedgerAfter(w, done + [t])
  {
    hide NumberKey, EmailInvoice, RowOf;
    if done == [] {
      assert [t][0] == t && done + [t] == [t];
    }
  }

  lemma OthersDontCreate(s: System, t: nat, u: nat, key: string)
    requires Inv(s) && t in s.open && u in s.open && t != u
    ensures key in s.open[t].created ==> key !in s.open[u].created
  {
    hide TxInv;
  }

  lemma StillToPost(w: seq<Offer>, t: nat, u: nat, tx: Tx, done: seq<nat>)
    requires SameInvoice(w) && u < 2 && IsDone(done) && IsDone(done + [t]) && IsTx(w, u, tx, done)
    requires done == [] ==> tx.posted == 0
    ensures IsTx(w, u, tx, done + [t])
  {
    hide KeyOf, InvoiceOf, RowOf, Whole, Harmless, SameInvoice;
  }

  lemma Created(w: seq<Offer>, t: nat, tx: Tx)
    requires SameInvoice(w) && t < 2 && IsTx(w, t, tx, [])
    ensures tx.posted == 1 <==> KeyOf(w) in tx.created
  {
    hide KeyOf, InvoiceOf, RowOf, Whole, Harmless;
  }

  /** When one payment creates the invoice and commits, the other has not posted yet. */
  lemma OneCreator(w: seq<Offer>, s: System, done: seq<nat>, t: nat, u: nat)
    requires SameInvoice(w) && Racing(w, s, done) && t in s.open && u in s.open && t != u && s.open[t].posted == 1
    requires u < 2
    ensures IsTx(w, u, s.open[u], done + [t]) && u !in done + [t]
  {
    hide *;
    RacingTx(w, s, done, t);
    RacingTx(w, s, done, u);
    DoneGrows(done, t);
    OthersDontCreate(s, t, u, KeyOf(w));
    PostedBound(w, u, s.open[u], done);
    if done == [] {
      Created(w, t, s.open[t]);
      Created(w, u, s.open[u]);
    }
    StillToPost(w, t, u, s.open[u], done);
  }

  lemma RacingTx(w: seq<Offer>, s: System, done: seq<nat>, t: nat)
    requires SameInvoice(w) && Racing(w, s, done) && t in s.open
    ensures Inv(s) && IsDone(done) && t < 2 && t !in done && IsTx(w, t, s.open[t], done)
  {
    hide Inv, IsTx, LedgerAfter;
  }

  lemma PostedBound(w: seq<Offer>, t: nat, tx: Tx, done: seq<nat>)
    requires SameInvoice(w) && t < 2 && IsDone(done) && IsTx(w, t, tx, done)
    ensures tx.posted <= 1
  {
  }

  lemma RollbackRaces(w: seq<Offer>, s: System, done: seq<nat>, t: nat)
    requires SameInvoice(w) && Racing(w, s, done) && Enabled(s, Rollback(t))
    ensures Racing(w, Next(s, Rollback(t)), done)
  {
    EventKeeps(s, Rollback(t));
    hide Inv, IsTx, LedgerAfter;
  }

  lemma EventRaces(w: seq<Offer>, s: System, done: seq<nat>, ev: Event)
    requires SameInvoice(w) && Racing(w, s, done) && Enabled(s, ev) && IsRaceEvent(w, ev)
    ensures Racing(w, Next(s, ev), DoneAfter(done, ev))
  {
    hide Racing, Enabled, Next;
    match ev
    case Begin(_, _, _, _) => BeginRaces(w, s, done, ev);
    case PostNext(t) => PostRaces(w, s, done, t);
    case Commit(t) => CommitRaces(w, s, done, t);
    case Rollback(t) => RollbackRaces(w, s, done, t);
    case _ => CheckRaces(w, s, done, ev);
  }

  // ----- runs -----

  /** The payments in the order of their commits. */
  function CommitOrder(run: seq<Event>): seq<nat> {
    if run == [] then [] else DoneAfter([], run[0]) + CommitOrder(run[1..])
  }

  lemma {:induction false} InOrder(run: seq<Event>, t: nat)
    ensures t in CommitOrder(run) <==> Commit(t) in run
  {
    if run != [] {
      InOrder(run[1..], t);
      assert run == [run[0]] + run[1..];
    }
  }

  lemma Rest(w: seq<Offer>, run: seq<Event>)
    requires SameInvoice(w) && run != [] && IsRace(w, run)
    ensures IsRaceEvent(w, run[0]) && IsRace(w, run[1..])
  {
    hide IsRaceEvent;
  }

  lemma OrderStep(done: seq<nat>, run: seq<Event>)
    ensures run == [] ==> done + CommitOrder(run) == done
    ensures run != [] ==> DoneAfter(done, run[0]) + CommitOrder(run[1..]) == done + CommitOrder(run)
  {
  }

  lemma {:induction false} RunRaces(w: seq<Offer>, s: System, done: seq<nat>, run: seq<Event>)
    requires SameInvoice(w) && Racing(w, s, done) && EnabledRun(s, run) && IsRace(w, run)
    ensures Racing(w, Run(s, run), done + CommitOrder(run))
    decreases run
  {
    hide Racing, Enabled, Next, IsRaceEvent, IsRace, CommitOrder, SameInvoice;
    OrderStep(done, run);
    if run != [] {
      Rest(w, run);
      EventRaces(w, s, done, run[0]);
      RunRaces(w, Next(s, run[0]), DoneAfter(done, run[0]), run[1..]);
    }
  }

  // ----- lookups before the first commit: nothing is flagged -----

  ghost predicate AllClean(s: System) { forall t | t in s.open :: s.open[t].clean }

  ghost predicate NoLookup(run: seq<Event>) { forall i | 0 <= i < |run| :: !run[i].Lookup? }

  lemma EmptyRun(run: seq<Event>)
    requires run == []
    ensures LookupsFirst(run) && NoLookup(run)
  {
  }

  lemma LookupsFirstRest(run: seq<Event>)
    requires run != []
    ensures LookupsFirst(run) <==> LookupsFirst(run[1..]) && (run[0].Commit? ==> NoLookup(run[1..]))
    ensures NoLookup(run) <==> NoLookup(run[1..]) && !run[0].Lookup?
  {
    var rest := run[1..];
    assert forall i | 0 < i < |run| :: run[i] == rest[i - 1];
    assert forall i | 0 <= i < |rest| :: rest[i] == run[i + 1];
  }

  lemma ReadsClean(w: seq<Offer>, t: nat, tx: Tx, done: seq<nat>)
    requires SameInvoice(w) && t < 2 && IsDone(done) && IsTx(w, t, tx, done) && tx.checked < |Entries(tx)|
    ensures ReadStep(LedgerAfter(w, done), tx).clean
  {
    InvoiceIsHarmless(w, done);
    WholeEntries(w[t]);
    var all := if tx.all.Some? then tx.all.value else LedgerAfter(w, done).invoices;
    MissesClean(w, t, all);
    hide MissingFlags, HasNearMatch, Harmless, LedgerAfter, Ordered, SameInvoice, KeyOf, RowOf, InvoiceOf;
  }

  lemma FirstLookupMisses(w: seq<Offer>, t: nat, tx: Tx)
    requires SameInvoice(w) && t < 2 && IsTx(w, t, tx, []) && tx.checked < |Entries(tx)|
    ensures LookupStep(LedgerAfter(w, []), tx) == tx.(phase := Missing)
  {
    WholeEntries(w[t]);
    hide Ordered, NumberKey, Harmless, RowOf, InvoiceOf, EntryFlags;
  }

  lemma SameTxStaysClean(s: System, t: nat, tx: Tx)
    requires AllClean(s) && tx.clean
    ensures AllClean(s.(open := s.open[t := tx]))
  {
  }

  lemma EventKeepsClean(w: seq<Offer>, s: System, done: seq<nat>, ev: Event)
    requires SameInvoice(w) && Racing(w, s, done) && Enabled(s, ev) && IsRaceEvent(w, ev) && AllClean(s)
    requires ev.Lookup? ==> done == []
    ensures AllClean(Next(s, ev))
  {
    hide Inv, IsTx, LedgerAfter, LookupStep, ReadStep, PostStep, Entries, SameInvoice, IsRaceEvent, TargetKey;
    match ev
    case Begin(t, _, _, _) => BeginsClean(w, s, ev);
    case Lookup(t) =>
      RacingTx(w, s, done, t);
      FirstLookupMisses(w, t, s.open[t]);
      SameTxStaysClean(s, t, s.open[t].(phase := Missing));
    case AdvisoryLock(t) => SameTxStaysClean(s, t, LockStep(s.open[t]));
    case ReadAll(t) =>
      RacingTx(w, s, done, t);
      ReadsClean(w, t, s.open[t], done);
      SameTxStaysClean(s, t, ReadStep(s.ledger, s.open[t]));
    case PostNext(t) =>
      PostsClean(s.ledger, s.open[t]);
      SameTxStaysClean(s, t, PostStep(s.ledger, s.open[t]));
    case Commit(_) =>
    case Rollback(_) =>
    case ImportInvoice(_, _) => CleanStart(w, s, ev);
  }

  lemma BeginsClean(w: seq<Offer>, s: System, ev: Event)
    requires SameInvoice(w) && Enabled(s, ev) && IsRaceEvent(w, ev) && AllClean(s) && ev.Begin?
    ensures AllClean(Next(s, ev))
  {
    hide Ordered, BooksLoaded, Whole;
  }

  lemma PostsClean(l: Ledger, tx: Tx)
    requires tx.posted < |Entries(tx)| && tx.clean
    ensures PostStep(l, tx).clean
  {
  }

  lemma {:induction false} EarlyLookupsAreClean(w: seq<Offer>, s: System, done: seq<nat>, run: seq<Event>)
    requires SameInvoice(w) && Racing(w, s, done) && EnabledRun(s, run) && IsRace(w, run) && AllClean(s)
    requires LookupsFirst(run) && (done != [] ==> NoLookup(run))
    ensures CleanEvents(s, run, KeyOf(w))
    decreases run
  {
    hide Racing, Enabled, Next, IsRaceEvent, IsRace, AllClean, LookupsFirst, NoLookup, KeyOf;
    if run != [] {
      Rest(w, run);
      LookupsFirstRest(run);
      EventRaces(w, s, done, run[0]);
      EventKeepsClean(w, s, done, run[0]);
      EarlyLookupsAreClean(w, Next(s, run[0]), DoneAfter(done, run[0]), run[1..]);
      CleanStart(w, s, run[0]);
    }
  }

  lemma CleanStart(w: seq<Offer>, s: System, ev: Event)
    requires SameInvoice(w) && Enabled(s, ev) && AllClean(s) && IsRaceEvent(w, ev)
    ensures (ev.Commit? ==> s.open[ev.t].clean) && !ev.ImportInvoice?
  {
  }

  // ----- a lookup after a commit: that payment cannot commit unseen -----

  /** Transaction `t` is flagged, or has yet to look its invoice up. */
  ghost predicate Doomed(s: System, t: nat) {
    t in s.open ==> !s.open[t].clean || (s.open[t].checked == 0 && s.open[t].phase == Looking)
  }

  lemma LateLookupIsFlagged(w: seq<Offer>, t: nat, tx: Tx, done: seq<nat>)
    requires SameInvoice(w) && t < 2 && IsDone(done) && done != [] && IsTx(w, t, tx, done) && tx.checked < |Entries(tx)|
    ensures !LookupStep(LedgerAfter(w, done), tx).clean
  {
    FindsPaid(w, t, done);
    WholeEntries(w[t]);
    assert NextKey(tx) == KeyOf(w) && tx.checked == 0;
    hide Ordered, NumberKey, Harmless, RowOf, InvoiceOf, EntryFlags;
  }

  lemma LateLookupDooms(w: seq<Offer>, s: System, done: seq<nat>, t: nat)
    requires SameInvoice(w) && Racing(w, s, done) && Enabled(s, Lookup(t)) && done != []
    ensures Doomed(Next(s, Lookup(t)), t)
  {
    RacingTx(w, s, done, t);
    LateLookupIsFlagged(w, t, s.open[t], done);
    hide Inv, IsTx, LedgerAfter, LookupStep, Ordered, NextKey, KeyOf, SameInvoice;
  }

  lemma DoomedCannotCommit(w: seq<Offer>, s: System, done: seq<nat>, t: nat)
    requires SameInvoice(w) && Racing(w, s, done) && t in s.open && Doomed(s, t) && s.open[t].clean
    ensures !Enabled(s, Commit(t))
  {
    hide Racing, IsTx, Entries, SameInvoice;
    RacingTx(w, s, done, t);
    OneEntry(w, t, s.open[t], done);
  }

  lemma OthersStay(s: System, ev: Event, t: nat)
    requires Enabled(s, ev) && !ev.ImportInvoice? && ev.t != t
    ensures t in Next(s, ev).open <==> t in s.open
    ensures t in s.open ==> Next(s, ev).open[t] == s.open[t]
  {
    hide LookupStep, LockStep, ReadStep, PostStep, Published, Entries, NextKey, TargetKey;
  }

  lemma OwnStays(s: System, ev: Event, t: nat)
    requires Enabled(s, ev) && !ev.ImportInvoice? && ev.t == t && Doomed(s, t) && !ev.Lookup? && !ev.Commit?
    requires ev.Begin? ==> ev.checks
    ensures Doomed(Next(s, ev), t)
  {
    hide Entries, NextKey, NextLine, TargetKey, Postable, RowFor, EmailInvoice, MissingFlags, HasNearMatch, BooksLoaded;
  }

  lemma DoomedStays(w: seq<Offer>, s: System, done: seq<nat>, ev: Event, t: nat)
    requires SameInvoice(w) && Racing(w, s, done) && Enabled(s, ev) && IsRaceEvent(w, ev)
    requires done != [] && t < 2 && (Doomed(s, t) || ev == Lookup(t)) && (ev.Commit? ==> s.open[ev.t].clean)
    ensures Doomed(Next(s, ev), t) && ev != Commit(t)
  {
    hide Racing, Next, SameInvoice, Whole;
    if ev == Lookup(t) {
      LateLookupDooms(w, s, done, t);
    } else if ev == Commit(t) {
      DoomedCannotCommit(w, s, done, t);
    } else if ev.t != t {
      OthersStay(s, ev, t);
    } else {
      OwnStays(s, ev, t);
    }
  }

  lemma {:induction false} DoomedNeverCommits(w: seq<Offer>, s: System, done: seq<nat>, run: seq<Event>, t: nat)
    requires SameInvoice(w) && Racing(w, s, done) && EnabledRun(s, run) && IsRace(w, run)
    requires CleanEvents(s, run, KeyOf(w)) && done != [] && t < 2 && Doomed(s, t)
    ensures Commit(t) !in run
    decreases run
  {
    hide Racing, Enabled, Next, IsRaceEvent, IsRace, Doomed, KeyOf;
    if run != [] {
      Rest(w, run);
      EventRaces(w, s, done, run[0]);
      DoomedStays(w, s, done, run[0], t);
      DoomedNeverCommits(w, Next(s, run[0]), DoneAfter(done, run[0]), run[1..], t);
    }
  }

  lemma LooksAsOpen(w: seq<Offer>, s: System, done: seq<nat>, t: nat)
    requires SameInvoice(w) && Racing(w, s, done) && Enabled(s, Lookup(t))
    ensures t < 2 && t !in done
  {
    hide Inv, IsTx, LedgerAfter;
  }

  lemma {:induction false} CleanLookupsAreEarly(w: seq<Offer>, s: System, done: seq<nat>, run: seq<Event>)
    requires SameInvoice(w) && Racing(w, s, done) && EnabledRun(s, run) && IsRace(w, run)
    requires CleanEvents(s, run, KeyOf(w))
    requires forall t: nat | 0 <= t < 2 :: t in done || Commit(t) in run
    ensures LookupsFirst(run) && (done != [] ==> NoLookup(run))
    decreases run
  {
    hide Racing, Enabled, Next, IsRaceEvent, IsRace, Doomed, KeyOf, LookupsFirst, NoLookup;
    if run == [] {
      EmptyRun(run);
    } else {
      Rest(w, run);
      LookupsFirstRest(run);
      var done', rest := DoneAfter(done, run[0]), run[1..];
      EventRaces(w, s, done, run[0]);
      assert run == [run[0]] + rest;
      CleanLookupsAreEarly(w, Next(s, run[0]), done', rest);
      if run[0].Lookup? && done != [] {
        var t := run[0].t;
        LooksAsOpen(w, s, done, t);
        DoomedStays(w, s, done, run[0], t);
        DoomedNeverCommits(w, Next(s, run[0]), done', rest, t);
        assert false;
      }
    }
  }

  // ----- exactly when -----

  lemma StartRaces(w: seq<Offer>)
    requires SameInvoice(w)
    ensures Racing(w, START(), []) && AllClean(START())
  {
  }

  /** Two payments of one new invoice, each for all of it, in any interleaving and with any rollbacks: the
      invoice ends overpaid exactly when both commit, by the amount of the one that commits second, and both
      commit without a flag exactly when neither looked the invoice up after the first commit. The advisory
      lock does not enter: it may be granted before or after that commit. */
  lemma SilentOverpaymentExactly(w: seq<Offer>, run: seq<Event>)
    requires SameInvoice(w) && EnabledRun(START(), run) && IsRace(w, run)
    ensures var l, key, order := Run(START(), run).ledger, KeyOf(w), CommitOrder(run);
      && (key in l.invoices && Outstanding(l, key) < 0 <==> BothCommit(run))
      && (BothCommit(run) ==> |order| == 2 && order[1] < 2 && Outstanding(l, key) == -w[order[1]].amount)
      && (BothCommit(run) ==> (CleanEvents(START(), run, key) <==> LookupsFirst(run)))
  {
    hide *;
    var order := CommitOrder(run);
    StartRaces(w);
    RunRaces(w, START(), [], run);
    assert [] + order == order;
    InOrder(run, 0);
    InOrder(run, 1);
    BothDid(run);
    RacedTo(w, Run(START(), run), order);
    if BothCommit(run) && CleanEvents(START(), run, KeyOf(w)) {
      CommitsGiven(run);
      CleanLookupsAreEarly(w, START(), [], run);
    }
    if LookupsFirst(run) {
      EarlyLookupsAreClean(w, START(), [], run);
    }
  }

  lemma CommitsGiven(run: seq<Event>)
    requires BothCommit(run)
    ensures forall t: nat | 0 <= t < 2 :: Commit(t) in run
  {
  }

  lemma RacedTo(w: seq<Offer>, s: System, order: seq<nat>)
    requires SameInvoice(w) && Racing(w, s, order)
    ensures IsDone(order) && (0 in order && 1 in order <==> |order| == 2)
    ensures var key := KeyOf(w);
      && (key in s.ledger.invoices && Outstanding(s.ledger, key) < 0 <==> |order| == 2)
      && (|order| == 2 ==> Outstanding(s.ledger, key) == -w[order[1]].amount)
  {
    if order != [] { OutstandingAfter(w, order); }
    if |order| == 1 { assert order == [order[0]]; }
    if |order| == 2 { assert order == [order[0], order[1]]; }
    hide Inv, IsTx, Outstanding;
  }

  // ----- one such run -----

  /** Both look the invoice up; the second waits for the lock until the first has committed. */
  function RaceEvent(w: seq<Offer>, i: nat): Event
    requires SameInvoice(w) && i < 12
  {
    match i
    case 0 => Begin(0, 0, Whole(w[0]), true)
    case 1 => Begin(1, 1, Whole(w[1]), true)
    case 2 => Lookup(0)
    case 3 => AdvisoryLock(0)
    case 4 => Lookup(1)
    case 5 => ReadAll(0)
    case 6 => PostNext(0)
    case 7 => Commit(0)
    case 8 => AdvisoryLock(1)
    case 9 => ReadAll(1)
    case 10 => PostNext(1)
    case _ => Commit(1)
  }

  /** The events from the `i`-th on. */
  function RaceFrom(w: seq<Offer>, i: nat): seq<Event>
    requires SameInvoice(w) && i <= 12
    decreases 12 - i
  {
    if i == 12 then [] else [RaceEvent(w, i)] + RaceFrom(w, i + 1)
  }

  function Begun(w: seq<Offer>, t: nat): Tx
    requires SameInvoice(w) && t < 2
  {
    Tx(t, Whole(w[t]), false, None, Looking, 0, true, 0, {}, {}, {}, {}, [], map[])
  }

  function Held(w: seq<Offer>, t: nat): Tx
    requires SameInvoice(w) && t < 2
  {
    Begun(w, t).(phase := Holding, advisory := {KeyOf(w)})
  }

  /** The first read no invoices, the second read the one the first had created. */
  function Checked(w: seq<Offer>, t: nat): Tx
    requires SameInvoice(w) && t < 2
  {
    Held(w, t).(phase := Looking, checked := 1, all := Some(LedgerAfter(w, if t == 0 then [] else [0]).invoices))
  }

  /** The first creates the invoice, the second finds it. */
  function Posted(w: seq<Offer>, t: nat): Tx
    requires SameInvoice(w) && t < 2
  {
    var posted := Checked(w, t).(posted := 1, staged := [RowOf(w, t)]);
    if t == 0 then posted.(created := map[KeyOf(w) := InvoiceOf(w[0])]) else posted.(shared := {KeyOf(w)})
  }

  /** The system after `i` events. */
  function Stage(w: seq<Offer>, i: nat): System
    requires SameInvoice(w) && i <= 12
  {
    var none, one, both := LedgerAfter(w, []), LedgerAfter(w, [0]), LedgerAfter(w, [0, 1]);
    var a, b := Begun(w, 0), Begun(w, 1);
    match i
    case 0 => System(none, map[])
    case 1 => System(none, map[0 := a])
    case 2 => System(none, map[0 := a, 1 := b])
    case 3 => System(none, map[0 := a.(phase := Missing), 1 := b])
    case 4 => System(none, map[0 := Held(w, 0), 1 := b])
    case 5 => System(none, map[0 := Held(w, 0), 1 := b.(phase := Missing)])
    case 6 => System(none, map[0 := Checked(w, 0), 1 := b.(phase := Missing)])
    case 7 => System(none, map[0 := Posted(w, 0), 1 := b.(phase := Missing)])
    case 8 => System(one, map[1 := b.(phase := Missing)])
    case 9 => System(one, map[1 := Held(w, 1)])
    case 10 => System(one, map[1 := Checked(w, 1)])
    case 11 => System(one, map[1 := Posted(w, 1)])
    case _ => System(both, map[])
  }

  ghost predicate Leads(s: System, ev: Event, s': System) { Enabled(s, ev) && Next(s, ev) == s' }

  lemma BeginStages(w: seq<Offer>, i: nat)
    requires SameInvoice(w) && i < 2
    ensures Leads(Stage(w, i), RaceEvent(w, i), Stage(w, i + 1))
  {
    hide NumberKey;
  }

  lemma KeyIs(w: seq<Offer>, t: nat, tx: Tx)
    requires SameInvoice(w) && t < 2 && tx.payload == Whole(w[t])
    ensures |Entries(tx)| == 1 && (tx.checked == 0 ==> NextKey(tx) == KeyOf(w) && NextLine(tx) == LineOf(w[t]))
  {
    WholeEntries(w[t]);
    hide NumberKey, Ordered;
  }

  lemma LookupStages(w: seq<Offer>, i: nat)
    requires SameInvoice(w) && (i == 2 || i == 4)
    ensures Leads(Stage(w, i), RaceEvent(w, i), Stage(w, i + 1))
  {
    var t := if i == 2 then 0 else 1;
    KeyIs(w, t, Begun(w, t));
    FirstLookupMisses(w, t, Begun(w, t));
    hide Ordered, NumberKey, LookupStep, Whole, KeyOf, SameInvoice;
  }

  lemma LockIs(w: seq<Offer>, t: nat)
    requires SameInvoice(w) && t < 2
    ensures var tx := Begun(w, t).(phase := Missing); tx.checked < |Entries(tx)| && LockStep(tx) == Held(w, t)
  {
    var tx := Begun(w, t).(phase := Missing);
    KeyIs(w, t, tx);
    hide Entries, NextKey, KeyOf, SameInvoice, Whole;
    assert {} + {KeyOf(w)} == {KeyOf(w)};
  }

  lemma LockStages(w: seq<Offer>, i: nat)
    requires SameInvoice(w) && (i == 3 || i == 8)
    ensures Leads(Stage(w, i), RaceEvent(w, i), Stage(w, i + 1))
  {
    LockIs(w, if i == 3 then 0 else 1);
    hide Entries, LockStep, KeyOf, SameInvoice, LedgerAfter, Whole;
  }

  lemma ReadIs(w: seq<Offer>, t: nat)
    requires SameInvoice(w) && t < 2
    ensures |Entries(Held(w, t))| == 1
    ensures ReadStep(LedgerAfter(w, if t == 0 then [] else [0]), Held(w, t)) == Checked(w, t)
  {
    var done: seq<nat> := if t == 0 then [] else [0];
    KeyIs(w, t, Held(w, t));
    ReadsClean(w, t, Held(w, t), done);
    hide Ordered, NumberKey, MissingFlags, Whole, KeyOf, SameInvoice, HasNearMatch, LedgerAfter;
  }

  lemma FirstReads(w: seq<Offer>)
    requires SameInvoice(w)
    ensures Leads(Stage(w, 5), RaceEvent(w, 5), Stage(w, 6))
  {
    ReadIs(w, 0);
    hide Entries, ReadStep, KeyOf, SameInvoice, Whole, LedgerAfter;
  }

  lemma SecondReads(w: seq<Offer>)
    requires SameInvoice(w)
    ensures Leads(Stage(w, 9), RaceEvent(w, 9), Stage(w, 10))
  {
    ReadIs(w, 1);
    hide Entries, ReadStep, KeyOf, SameInvoice, Whole, LedgerAfter;
  }

  lemma PostIs(w: seq<Offer>, t: nat)
    requires SameInvoice(w) && t < 2
    ensures |Entries(Checked(w, t))| == 1 && TargetKey(Entries(Checked(w, t))[0].1) == KeyOf(w)
    ensures PostStep(LedgerAfter(w, if t == 0 then [] else [0]), Checked(w, t)) == Posted(w, t)
  {
    var done: seq<nat> := if t == 0 then [] else [0];
    var l, tx := LedgerAfter(w, done), Checked(w, t);
    WholeEntries(w[t]);
    PostedIs(w, t);
    var e: Entry := (0, LineOf(w[t]));
    assert KeyOf(w) != "" && e.1.kind == InvoiceLine && (KeyOf(w) in l.invoices <==> t == 1);
    hide Ordered, Whole, KeyOf, SameInvoice, RowOf, RowFor, EmailInvoice, TargetKey, LineOf, PlainHeader, LedgerAfter;
    assert Entries(tx) == [e] && Entries(tx)[tx.posted] == e;
    assert Postable(e, l.invoices.Keys + tx.created.Keys);
    assert {} + {KeyOf(w)} == {KeyOf(w)};
    hide Entries;
  }

  lemma PostLeads(s: System, t: nat)
    requires t in s.open && |Entries(s.open[t])| == 1 && s.open[t].checked == 1 && s.open[t].posted == 0
    requires forall u | u in s.open && u != t :: s.open[u].exclusive == {} && s.open[u].created == map[]
    ensures Leads(s, PostNext(t), s.(open := s.open[t := PostStep(s.ledger, s.open[t])]))
  {
    hide Entries, PostStep, TargetKey;
  }

  lemma CommitLeads(s: System, t: nat)
    requires t in s.open && s.open[t].checked == s.open[t].posted == |Entries(s.open[t])|
    ensures Leads(s, Commit(t), System(Published(s.ledger, s.open[t]), s.open - {t}))
  {
    hide Entries, Published;
  }

  lemma FirstPosts(w: seq<Offer>)
    requires SameInvoice(w)
    ensures Leads(Stage(w, 6), RaceEvent(w, 6), Stage(w, 7))
  {
    PostIs(w, 0);
    hide Entries, PostStep, TargetKey, KeyOf, SameInvoice, Whole, LedgerAfter, InvoiceOf, RowOf, Enabled, Next, Leads;
    PostLeads(Stage(w, 6), 0);
  }

  lemma SecondPosts(w: seq<Offer>)
    requires SameInvoice(w)
    ensures Leads(Stage(w, 10), RaceEvent(w, 10), Stage(w, 11))
  {
    PostIs(w, 1);
    hide Entries, PostStep, TargetKey, KeyOf, SameInvoice, Whole, LedgerAfter, InvoiceOf, RowOf, Enabled, Next, Leads;
    PostLeads(Stage(w, 10), 1);
  }

  lemma FirstCommits(w: seq<Offer>)
    requires SameInvoice(w)
    ensures Leads(Stage(w, 7), RaceEvent(w, 7), Stage(w, 8))
  {
    KeyIs(w, 0, Posted(w, 0));
    hide Entries, Whole, KeyOf, SameInvoice, RowOf, InvoiceOf, Enabled, Next, Leads, NextKey;
    CommitLeads(Stage(w, 7), 0);
  }

  lemma SecondCommits(w: seq<Offer>)
    requires SameInvoice(w)
    ensures Leads(Stage(w, 11), RaceEvent(w, 11), Stage(w, 12))
  {
    KeyIs(w, 1, Posted(w, 1));
    hide Entries, Whole, KeyOf, SameInvoice, RowOf, InvoiceOf, Enabled, Next, Leads, NextKey;
    CommitLeads(Stage(w, 11), 1);
  }

  lemma {:induction false} RaceRuns(w: seq<Offer>, i: nat)
    requires SameInvoice(w) && i <= 12
    ensures EnabledRun(Stage(w, i), RaceFrom(w, i))
    decreases 12 - i
  {
    if i < 12 {
      hide SameInvoice, Stage, RaceEvent, Enabled, Next;
      if i < 2 { BeginStages(w, i); }
      else if i == 2 || i == 4 { LookupStages(w, i); }
      else if i == 3 || i == 8 { LockStages(w, i); }
      else if i == 5 { FirstReads(w); }
      else if i == 6 { FirstPosts(w); }
      else if i == 7 { FirstCommits(w); }
      else if i == 9 { SecondReads(w); }
      else if i == 10 { SecondPosts(w); }
      else { SecondCommits(w); }
      RaceRuns(w, i + 1);
      assert RaceFrom(w, i)[1..] == RaceFrom(w, i + 1);
    }
  }

  lemma {:induction false} RaceAt(w: seq<Offer>, i: nat)
    requires SameInvoice(w) && i <= 12
    ensures |RaceFrom(w, i)| == 12 - i && forall j | 0 <= j < 12 - i :: RaceFrom(w, i)[j] == RaceEvent(w, i + j)
    decreases 12 - i
  {
    hide RaceEvent;
    if i < 12 { RaceAt(w, i + 1); }
  }

  lemma EventIs(w: seq<Offer>, i: nat)
    requires SameInvoice(w) && i < 12
    ensures var ev := RaceEvent(w, i);
      IsRaceEvent(w, ev) && (ev.Commit? <==> i == 7 || i == 11) && (ev.Lookup? <==> i == 2 || i == 4)
  {
    hide SameInvoice, Whole;
  }

  lemma RaceIsOne(w: seq<Offer>)
    requires SameInvoice(w)
    ensures IsRace(w, RaceFrom(w, 0)) && CommitOrder(RaceFrom(w, 0)) == [0, 1] && LookupsFirst(RaceFrom(w, 0))
  {
    var run := RaceFrom(w, 0);
    RaceAt(w, 0);
    assert run[7] == RaceEvent(w, 7) == Commit(0) && run[11] == RaceEvent(w, 11) == Commit(1);
    hide RaceFrom, SameInvoice, IsRaceEvent, RaceEvent, CommitOrder;
    forall i | 0 <= i < 12
      ensures IsRaceEvent(w, run[i]) && (run[i].Commit? <==> i == 7 || i == 11)
        && (run[i].Lookup? <==> i == 2 || i == 4)
    {
      assert run[i] == RaceEvent(w, 0 + i);
      EventIs(w, i);
    }
    RaceOrder(run);
  }

  /** While the first transaction is open the second cannot have the lock, and yet neither is flagged, both
      commit, and the invoice ends overpaid by the second amount. A check that found the invoice in the
      ledger cannot be fooled this way: see `CleanCommitFits`. */
  lemma NewInvoiceRaceOverpays(w: seq<Offer>)
    requires SameInvoice(w)
    ensures var key, run := KeyOf(w), RaceFrom(w, 0);
      && EnabledRun(START(), run) && CleanEvents(START(), run, key)
      && key in Run(START(), run).ledger.invoices && Outstanding(Run(START(), run).ledger, key) == -w[1].amount
    ensures forall i | 5 <= i <= 7 :: !Enabled(Stage(w, i), AdvisoryLock(1))
  {
    hide *;
    var run := RaceFrom(w, 0);
    RaceRuns(w, 0);
    StageZero(w);
    RaceIsOne(w);
    InOrder(run, 0);
    InOrder(run, 1);
    BothDid(run);
    SilentOverpaymentExactly(w, run);
    forall i | 5 <= i <= 7 ensures !Enabled(Stage(w, i), AdvisoryLock(1)) { MustWait(w, i); }
  }

  lemma StageZero(w: seq<Offer>)
    requires SameInvoice(w)
    ensures Stage(w, 0) == START() && w[1].amount > 0
  {
  }

  lemma BothDid(run: seq<Event>)
    ensures BothCommit(run) <==> Commit(0) in run && Commit(1) in run
  {
  }

  lemma MustWait(w: seq<Offer>, i: nat)
    requires SameInvoice(w) && 5 <= i <= 7
    ensures !Enabled(Stage(w, i), AdvisoryLock(1))
  {
    KeyIs(w, 1, Stage(w, i).open[1]);
    hide Ordered, NumberKey, Whole, KeyOf, SameInvoice, RowOf, InvoiceOf;
    var s := Stage(w, i);
    assert 0 in s.open && KeyOf(w) in s.open[0].advisory;
  }

  lemma RaceOrder(run: seq<Event>)
    requires |run| == 12 && run[7] == Commit(0) && run[11] == Commit(1)
    requires forall i | 0 <= i < 7 || 8 <= i < 11 :: !run[i].Commit?
    ensures CommitOrder(run) == [0, 1]
  {
    Uncommitted(run, 7);
    Uncommitted(run[8..], 3);
    assert run[7..][0] == Commit(0) && run[7..][1..] == run[8..];
    assert run[8..][3..] == [Commit(1)];
    assert CommitOrder([Commit(1)]) == [1];
  }

  lemma {:induction false} Uncommitted(run: seq<Event>, n: nat)
    requires n <= |run| && forall i | 0 <= i < n :: !run[i].Commit?
    ensures CommitOrder(run) == CommitOrder(run[n..])
    decreases n
  {
    if n > 0 {
      Uncommitted(run[1..], n - 1);
      assert run[1..][n - 1..] == run[n..];
    }
  }
}
