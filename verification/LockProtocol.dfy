/** Concurrent approvals: the row locks taken by the ledger check (ar_pipeline/ledger/checks.py:80-83,
    152) keep a clean check valid until its payment is posted and committed.

    Any interleaving of open transactions is a sequence of the events below. An event is one statement, or
    a group of statements the first of which locks all that the others read: looking a line's invoice up
    locks its row (FOR UPDATE, exclusive) before the balance and the earlier payments are read. A line whose
    invoice is not found takes three events: the lookup, the advisory lock on its key, held to the end of
    the transaction, and the reading of all invoices for near matches, which happens once in a check. A
    statement reads committed data and its own transaction's writes. Inserting a payment row locks its
    invoice against exclusive locks (the foreign key's lock, shared); writing an invoice needs it not to be
    exclusively locked, and a number key inserted by one open transaction is waited for by any other (the
    unique index). Keys that share an advisory lock would only wait more. */
module LockProtocol {
  import opened Models
  import opened Matching
  import opened Balance
  import opened Checks
  import opened Posting
  import opened Overpayment

  /** Where the check of the next line stands: not begun, its invoice not found, or its key locked. */
  datatype Phase = Looking | Missing | Holding

  /** An open transaction that checks, unless it records a payment unchecked, and then posts its payload.
      `books` and `all` are what its check read of the other invoices: at its start whether the books are
      loaded, and, once it needs them, all invoices. `known` are the invoices that were in the ledger when
      the check first came to a line on them. */
  datatype Tx = Tx(
    extraction: nat, payload: Payload, books: bool, all: Option<map<string, Invoice>>, phase: Phase,
    checked: nat, clean: bool, posted: nat,
    known: set<string>, exclusive: set<string>, shared: set<string>, advisory: set<string>,
    staged: seq<Row>, created: map<string, Invoice>)

  /** The committed ledger and the open transactions. */
  datatype System = System(ledger: Ledger, open: map<nat, Tx>)

  datatype Event =
    | Begin(t: nat, extraction: nat, payload: Payload, checks: bool)
    | Lookup(t: nat)
    | AdvisoryLock(t: nat)
    | ReadAll(t: nat)
    | PostNext(t: nat)
    | Commit(t: nat)
    | Rollback(t: nat)
    | ImportInvoice(key: string, invoice: Invoice)

  function Entries(tx: Tx): seq<Entry> { Ordered(tx.payload.lines) }

  /** The line the check is at. */
  function NextLine(tx: Tx): LineItem
    requires tx.checked < |Entries(tx)|
  {
    Entries(tx)[tx.checked].1
  }

  function NextKey(tx: Tx): string
    requires tx.checked < |Entries(tx)|
  {
    TargetKey(NextLine(tx))
  }

  /** How many lines the check has looked up. */
  function Looked(tx: Tx): nat { if tx.phase == Looking then tx.checked else tx.checked + 1 }

  predicate OthersExclusive(s: System, t: nat, key: string) {
    exists u | u in s.open :: u != t && key in s.open[u].exclusive
  }

  predicate OthersHold(s: System, t: nat, key: string) {
    exists u | u in s.open :: u != t && (key in s.open[u].exclusive || key in s.open[u].shared)
  }

  predicate OthersCreate(s: System, t: nat, key: string) {
    exists u | u in s.open :: u != t && key in s.open[u].created
  }

  predicate OthersLockKey(s: System, t: nat, key: string) {
    exists u | u in s.open :: u != t && key in s.open[u].advisory
  }

  /** A statement that must wait for a lock is not enabled. */
  predicate Enabled(s: System, ev: Event) {
    match ev
    case Begin(t, extraction, payload, _) =>
      && t !in s.open
      && (forall r | r in s.ledger.rows :: r.extraction != extraction)
      && (forall u | u in s.open :: s.open[u].extraction != extraction)
    case Lookup(t) =>
      && t in s.open && s.open[t].phase == Looking && s.open[t].checked < |Entries(s.open[t])|
      && var key := NextKey(s.open[t]);
         key in s.ledger.invoices && key != "" ==> !OthersHold(s, t, key)
    case AdvisoryLock(t) =>
      && t in s.open && s.open[t].phase == Missing && s.open[t].checked < |Entries(s.open[t])|
      && !OthersLockKey(s, t, NextKey(s.open[t]))
    case ReadAll(t) => t in s.open && s.open[t].phase == Holding && s.open[t].checked < |Entries(s.open[t])|
    case PostNext(t) =>
      && t in s.open && s.open[t].checked == |Entries(s.open[t])| && s.open[t].posted < |Entries(s.open[t])|
      && var key := TargetKey(Entries(s.open[t])[s.open[t].posted].1);
         if key in s.ledger.invoices then !OthersExclusive(s, t, key) else !OthersCreate(s, t, key)
    case Commit(t) => t in s.open && s.open[t].checked == s.open[t].posted == |Entries(s.open[t])|
    case Rollback(t) => t in s.open
    case ImportInvoice(key, _) =>
      key != "" && forall u | u in s.open :: key !in s.open[u].exclusive && key !in s.open[u].created
  }

  /** A line checked in one go: its invoice is there and locked, or it is an adjustment or has no number. */
  function CheckStep(l: Ledger, tx: Tx): Tx
    requires tx.checked < |Entries(tx)|
  {
    var key := NextKey(tx);
    tx.(checked := tx.checked + 1,
        known := if key != "" && key in l.invoices && !Targets(Entries(tx)[..tx.checked], key)
                 then tx.known + {key} else tx.known,
        exclusive := if key != "" && key in l.invoices then tx.exclusive + {key} else tx.exclusive,
        clean := tx.clean && EntryFlags(l, tx.payload.header, Entries(tx), tx.checked) == [])
  }

  predicate IsMissing(l: Ledger, tx: Tx)
    requires tx.checked < |Entries(tx)|
  {
    NextLine(tx).kind == InvoiceLine && NextKey(tx) != "" && NextKey(tx) !in l.invoices
  }

  function LookupStep(l: Ledger, tx: Tx): Tx
    requires tx.checked < |Entries(tx)|
  {
    if IsMissing(l, tx) then tx.(phase := Missing) else CheckStep(l, tx)
  }

  function LockStep(tx: Tx): Tx
    requires tx.checked < |Entries(tx)|
  {
    tx.(phase := Holding, advisory := tx.advisory + {NextKey(tx)})
  }

  /** A line whose invoice was not found: its flags come from the invoices read after the lock. */
  function ReadStep(l: Ledger, tx: Tx): Tx
    requires tx.checked < |Entries(tx)|
  {
    var all := if tx.all.Some? then tx.all.value else l.invoices;
    tx.(phase := Looking, checked := tx.checked + 1, all := Some(all),
        clean := tx.clean
          && MissingFlags(HasNearMatch(all, NextLine(tx).number), tx.books, Entries(tx)[tx.checked].0,
              NextLine(tx)) == [])
  }

  function PostStep(l: Ledger, tx: Tx): Tx
    requires tx.posted < |Entries(tx)|
  {
    var e := Entries(tx)[tx.posted];
    var key := TargetKey(e.1);
    if !Postable(e, l.invoices.Keys + tx.created.Keys) then tx.(posted := tx.posted + 1)
    else
      tx.(posted := tx.posted + 1,
          shared := if key in l.invoices then tx.shared + {key} else tx.shared,
          staged := tx.staged + [RowFor(tx.extraction, tx.payload.header, e)],
          created := if key in l.invoices || key in tx.created then tx.created
                     else tx.created[key := EmailInvoice(tx.payload.header, e.1)])
  }

  /** What a commit publishes; an invoice committed by another transaction in the meantime is kept. */
  function Published(l: Ledger, tx: Tx): Ledger {
    Ledger(tx.created + l.invoices, l.rows + tx.staged)
  }

  function Next(s: System, ev: Event): System
    requires Enabled(s, ev)
  {
    match ev
    case Begin(t, extraction, payload, checks) =>
      var skip := if checks then 0 else |Ordered(payload.lines)|;
      s.(open := s.open[t := Tx(extraction, payload, BooksLoaded(s.ledger.invoices), None, Looking,
                                skip, checks, 0, {}, {}, {}, {}, [], map[])])
    case Lookup(t) => s.(open := s.open[t := LookupStep(s.ledger, s.open[t])])
    case AdvisoryLock(t) => s.(open := s.open[t := LockStep(s.open[t])])
    case ReadAll(t) => s.(open := s.open[t := ReadStep(s.ledger, s.open[t])])
    case PostNext(t) => s.(open := s.open[t := PostStep(s.ledger, s.open[t])])
    case Commit(t) => System(Published(s.ledger, s.open[t]), s.open - {t})
    case Rollback(t) => s.(open := s.open - {t})
    case ImportInvoice(key, invoice) => s.(ledger := s.ledger.(invoices := s.ledger.invoices[key := invoice]))
  }

  // ----- the invariant -----

  /** No transaction holds any lock on an invoice another one holds exclusively. */
  ghost predicate LocksExclude(s: System) {
    forall t, u, k | t in s.open && u in s.open && t != u && k in s.open[t].exclusive ::
      k !in s.open[u].exclusive && k !in s.open[u].shared
  }

  /** Advisory locks exclude one another. */
  ghost predicate KeysExclude(s: System) {
    forall t, u | t in s.open && u in s.open && t != u :: s.open[t].advisory !! s.open[u].advisory
  }

  /** A line under way was not found, so its invoice is none of those locked. */
  ghost predicate PhaseOk(tx: Tx) {
    tx.phase != Looking ==>
      tx.checked < |Entries(tx)| && NextLine(tx).kind == InvoiceLine && NextKey(tx) != ""
        && NextKey(tx) !in tx.exclusive
  }

  /** Number keys being inserted are new and inserted by one transaction only. */
  ghost predicate CreatesNew(s: System) {
    && (forall t, k | t in s.open && k in s.open[t].created :: k !in s.ledger.invoices)
    && (forall t, u, k | t in s.open && u in s.open && t != u && k in s.open[t].created :: k !in s.open[u].created)
  }

  /** The staged rows are on invoices the transaction locked or creates, and settle what the entries
      posted so far sum to. */
  ghost predicate StagedRows(l: Ledger, tx: Tx) {
    && tx.posted <= |Entries(tx)| && tx.checked <= |Entries(tx)|
    && (tx.posted > 0 ==> tx.checked == |Entries(tx)|) && (tx.posted == 0 ==> tx.staged == [])
    && (forall r | r in tx.staged :: r.key in tx.created || r.key in tx.exclusive || r.key in tx.shared)
    && (forall r | r in tx.staged :: Targets(Entries(tx), r.key))
    && (forall k | k in tx.exclusive || k in tx.shared :: k != "" && k in l.invoices)
    && (forall k | k in tx.exclusive ::
          SettledOn(tx.staged, k, Some(tx.payload.header.currency)) == SumOn(Entries(tx)[..tx.posted], k))
  }

  /** Every line found clean, on an invoice known and locked since, would be found clean again now. */
  ghost predicate StillClean(l: Ledger, tx: Tx) {
    tx.clean && tx.checked <= |Entries(tx)| ==>
      forall j | 0 <= j < tx.checked && TargetKey(Entries(tx)[j].1) in tx.known ::
        EntryFlags(l, tx.payload.header, Entries(tx), j) == []
  }

  ghost predicate KnownAreLocked(tx: Tx) {
    && tx.known <= tx.exclusive
    && forall k | k in tx.known :: Targets(Entries(tx)[..if tx.checked <= |Entries(tx)| then tx.checked else 0], k)
  }

  ghost predicate TxInv(l: Ledger, tx: Tx) {
    StagedRows(l, tx) && StillClean(l, tx) && KnownAreLocked(tx) && PhaseOk(tx)
  }

  ghost predicate Inv(s: System) {
    LocksExclude(s) && KeysExclude(s) && CreatesNew(s) && forall t | t in s.open :: TxInv(s.ledger, s.open[t])
  }

  // ----- a check depends only on its own invoice -----

  function RowsOn(rows: seq<Row>, key: string): seq<Row> {
    if rows == [] then []
    else RowsOn(rows[..|rows| - 1], key) + if rows[|rows| - 1].key == key then [rows[|rows| - 1]] else []
  }

  /** Invoice `key` and its payment rows are the same in both ledgers. */
  ghost predicate SameOn(l: Ledger, l': Ledger, key: string) {
    && key in l.invoices && key in l'.invoices && l.invoices[key] == l'.invoices[key]
    && RowsOn(l.rows, key) == RowsOn(l'.rows, key)
  }

  lemma {:induction false} SettledOnOwnRows(rows: seq<Row>, key: string, currency: Option<string>)
    ensures SettledOn(rows, key, currency) == SettledOn(RowsOn(rows, key), key, currency)
  {
    if rows != [] {
      var front, last := rows[..|rows| - 1], rows[|rows| - 1];
      SettledOnOwnRows(front, key, currency);
      if last.key == key {
        assert RowsOn(rows, key) == RowsOn(front, key) + [last];
        SettledOnAppend(RowsOn(front, key), [last], key, currency);
        assert [last][..0] == [];
      } else {
        assert RowsOn(rows, key) == RowsOn(front, key);
      }
    }
  }

  lemma {:induction false} InOwnRows(rows: seq<Row>, key: string, r: Row)
    ensures r in RowsOn(rows, key) <==> r in rows && r.key == key
  {
    if rows != [] {
      InOwnRows(rows[..|rows| - 1], key, r);
      assert rows == rows[..|rows| - 1] + [rows[|rows| - 1]];
    }
  }

  lemma FlagsDependOnOwnInvoice(l: Ledger, l': Ledger, h: Header, es: seq<Entry>, j: nat)
    requires j < |es| && SameOn(l, l', TargetKey(es[j].1))
    ensures EntryFlags(l, h, es, j) == EntryFlags(l', h, es, j)
  {
    hide NumberKey, UnknownInvoiceFlags, InvoiceFlags, ReductionFlags;
    var (i, line) := es[j];
    var key := TargetKey(line);
    var before, stated := SumOn(es[..j], key), StatedFor(es[..j], key);
    PaidDependsOnOwnRows(l, l', key);
    RepeatDependsOnOwnRows(l.rows, l'.rows, key, h.reference, line.paid);
    assert KnownInvoiceFlags(l, h, i, line, before) == KnownInvoiceFlags(l', h, i, line, before);
    assert ReductionLineFlags(l, h, i, line, before, stated) == ReductionLineFlags(l', h, i, line, before, stated);
  }

  lemma PaidDependsOnOwnRows(l: Ledger, l': Ledger, key: string)
    requires SameOn(l, l', key)
    ensures PaidOn(l, key) == PaidOn(l', key)
  {
    SettledOnOwnRows(l.rows, key, Some(l.invoices[key].currency));
    SettledOnOwnRows(l'.rows, key, Some(l.invoices[key].currency));
  }

  lemma RepeatDependsOnOwnRows(rows: seq<Row>, rows': seq<Row>, key: string, reference: string, paid: Money)
    requires RowsOn(rows, key) == RowsOn(rows', key)
    ensures IsRepeat(rows, key, reference, paid) == IsRepeat(rows', key, reference, paid)
  {
    forall r: Row | r.key == key ensures r in rows <==> r in rows' {
      InOwnRows(rows, key, r);
      InOwnRows(rows', key, r);
    }
  }

  /** A transaction keeps its invariant when the invoices it locked keep their rows and values. */
  lemma TxUnaffected(l: Ledger, l': Ledger, tx: Tx)
    requires TxInv(l, tx) && l.invoices.Keys <= l'.invoices.Keys
    requires forall k | k in tx.exclusive :: SameOn(l, l', k)
    ensures TxInv(l', tx)
  {
    if tx.clean {
      forall j | 0 <= j < tx.checked && TargetKey(Entries(tx)[j].1) in tx.known
        ensures EntryFlags(l', tx.payload.header, Entries(tx), j) == []
      {
        FlagsDependOnOwnInvoice(l, l', tx.payload.header, Entries(tx), j);
      }
    }
  }

  // ----- every event keeps it -----

  lemma CheckKeepsTx(l: Ledger, tx: Tx)
    requires TxInv(l, tx) && tx.checked < |Entries(tx)| && tx.phase == Looking
    ensures TxInv(l, CheckStep(l, tx))
  {
    hide EntryFlags;
    var tx' := CheckStep(l, tx);
    var es, j := Entries(tx), tx.checked;
    assert es[..j + 1] == es[..j] + [es[j]];
    forall k | k in tx'.known ensures Targets(es[..j + 1], k) {
      TargetsSnoc(es[..j], es[j], k);
    }
    StillCleanAfterCheck(l, tx);
  }

  lemma StillCleanAfterCheck(l: Ledger, tx: Tx)
    requires TxInv(l, tx) && tx.checked < |Entries(tx)|
    ensures StillClean(l, CheckStep(l, tx))
  {
    hide EntryFlags;
    var es, tx' := Entries(tx), CheckStep(l, tx);
    if tx'.clean {
      forall j | 0 <= j < tx'.checked && TargetKey(es[j].1) in tx'.known
        ensures EntryFlags(l, tx.payload.header, es, j) == []
      {
        if j < tx.checked {
          assert es[..tx.checked][j] == es[j];
          assert Targets(es[..tx.checked], TargetKey(es[j].1));
        }
      }
    }
  }

  /** Replacing one transaction keeps the lock and insertion rules if its new locks and keys respect them. */
  lemma ReplaceTx(s: System, t: nat, tx: Tx)
    requires Inv(s) && t in s.open && TxInv(s.ledger, tx)
    requires forall u, k | u in s.open && u != t && k in tx.exclusive ::
      k !in s.open[u].exclusive && k !in s.open[u].shared
    requires forall u, k | u in s.open && u != t && k in tx.shared :: k !in s.open[u].exclusive
    requires forall u | u in s.open && u != t :: tx.advisory !! s.open[u].advisory
    requires forall k | k in tx.created ::
      k !in s.ledger.invoices && forall u | u in s.open && u != t :: k !in s.open[u].created
    ensures Inv(s.(open := s.open[t := tx]))
  {
    hide TxInv;
  }

  lemma LookupKeepsTx(l: Ledger, tx: Tx)
    requires TxInv(l, tx) && tx.checked < |Entries(tx)| && tx.phase == Looking
    ensures TxInv(l, LookupStep(l, tx))
  {
    hide EntryFlags;
    if !IsMissing(l, tx) { CheckKeepsTx(l, tx); }
  }

  lemma LookupKeeps(s: System, t: nat)
    requires Inv(s) && Enabled(s, Lookup(t))
    ensures Inv(Next(s, Lookup(t)))
  {
    hide TxInv, EntryFlags, TargetKey, Targets, Ordered;
    LookupKeepsTx(s.ledger, s.open[t]);
    ReplaceTx(s, t, LookupStep(s.ledger, s.open[t]));
  }

  lemma LockKeeps(s: System, t: nat)
    requires Inv(s) && Enabled(s, AdvisoryLock(t))
    ensures Inv(Next(s, AdvisoryLock(t)))
  {
    hide TxInv, EntryFlags, Targets, Ordered, NextKey, LockStep, PhaseOk;
    assert TxInv(s.ledger, s.open[t]);
    LockKeepsTx(s.ledger, s.open[t]);
    LockAdds(s.open[t]);
    OthersUnlocked(s, t);
    ReplaceTx(s, t, LockStep(s.open[t]));
  }

  lemma OthersUnlocked(s: System, t: nat)
    requires KeysExclude(s) && Enabled(s, AdvisoryLock(t))
    ensures forall u | u in s.open && u != t :: LockStep(s.open[t]).advisory !! s.open[u].advisory
  {
    hide NextKey, Entries;
  }

  lemma LockKeepsTx(l: Ledger, tx: Tx)
    requires TxInv(l, tx) && tx.checked < |Entries(tx)| && tx.phase == Missing
    ensures TxInv(l, LockStep(tx))
  {
    hide EntryFlags, TargetKey, Targets, Ordered, SettledOn, SumOn;
  }

  lemma LockAdds(tx: Tx)
    requires tx.checked < |Entries(tx)|
    ensures var tx' := LockStep(tx);
      tx'.exclusive == tx.exclusive && tx'.shared == tx.shared && tx'.created == tx.created
  {
    hide Entries, NextKey;
  }

  lemma ReadKeepsTx(l: Ledger, tx: Tx)
    requires TxInv(l, tx) && tx.checked < |Entries(tx)| && tx.phase == Holding
    ensures TxInv(l, ReadStep(l, tx))
  {
    hide EntryFlags, MissingFlags, HasNearMatch;
    var es, j := Entries(tx), tx.checked;
    assert es[..j + 1] == es[..j] + [es[j]];
    forall k | k in tx.known ensures Targets(es[..j + 1], k) {
      TargetsSnoc(es[..j], es[j], k);
    }
  }

  lemma ReadKeeps(s: System, t: nat)
    requires Inv(s) && Enabled(s, ReadAll(t))
    ensures Inv(Next(s, ReadAll(t)))
  {
    hide TxInv, EntryFlags, MissingFlags, HasNearMatch, TargetKey, Targets, Ordered;
    ReadKeepsTx(s.ledger, s.open[t]);
    ReplaceTx(s, t, ReadStep(s.ledger, s.open[t]));
  }

  lemma PostKeepsTx(l: Ledger, tx: Tx)
    requires TxInv(l, tx) && tx.checked == |Entries(tx)| && tx.posted < |Entries(tx)|
    ensures TxInv(l, PostStep(l, tx))
  {
    PostKeepsStaged(l, tx);
    hide EntryFlags, TargetKey, Targets, Postable, RowFor, EmailInvoice, StagedRows, Ordered;
  }

  lemma PostKeepsStaged(l: Ledger, tx: Tx)
    requires StagedRows(l, tx) && tx.checked == |Entries(tx)| && tx.posted < |Entries(tx)|
    ensures StagedRows(l, PostStep(l, tx))
  {
    var tx' := PostStep(l, tx);
    PostStepTargets(l, tx);
    PostStepLocks(l, tx);
    hide TargetKey, Targets, PostStep, Ordered;
    forall k | k in tx'.exclusive
      ensures SettledOn(tx'.staged, k, Some(tx.payload.header.currency)) == SumOn(Entries(tx)[..tx'.posted], k)
    {
      PostStepSettles(l, tx, k);
    }
  }

  /** What a posting step changes, and that it locks or creates the invoices of the rows it adds. */
  lemma PostStepLocks(l: Ledger, tx: Tx)
    requires tx.posted < |Entries(tx)|
    ensures var tx' := PostStep(l, tx);
      && tx' == tx.(posted := tx.posted + 1, shared := tx'.shared, staged := tx'.staged, created := tx'.created)
      && tx.shared <= tx'.shared && tx.created.Keys <= tx'.created.Keys
      && (forall r | r in tx'.staged :: r in tx.staged || r.key in tx'.created || r.key in tx'.shared)
      && (forall k | k in tx'.shared :: k in tx.shared || (k != "" && k in l.invoices))
  {
    hide EmailInvoice, NumberKey, TargetAmount;
    assert Postable(Entries(tx)[tx.posted], l.invoices.Keys + tx.created.Keys) ==>
      TargetKey(Entries(tx)[tx.posted].1) != "";
    RowSettles(tx.extraction, tx.payload.header, Entries(tx)[tx.posted]);
    hide Entries, TargetKey, Postable, RowFor;
  }

  lemma PostStepTargets(l: Ledger, tx: Tx)
    requires tx.posted < |Entries(tx)| && forall r | r in tx.staged :: Targets(Entries(tx), r.key)
    ensures forall r | r in PostStep(l, tx).staged :: Targets(Entries(tx), r.key)
  {
    assert TargetKey(Entries(tx)[tx.posted].1) == RowFor(tx.extraction, tx.payload.header, Entries(tx)[tx.posted]).key;
  }

  lemma PostStepSettles(l: Ledger, tx: Tx, k: string)
    requires tx.posted < |Entries(tx)| && k != "" && k in l.invoices
    requires SettledOn(tx.staged, k, Some(tx.payload.header.currency)) == SumOn(Entries(tx)[..tx.posted], k)
    ensures var tx' := PostStep(l, tx);
      SettledOn(tx'.staged, k, Some(tx.payload.header.currency)) == SumOn(Entries(tx)[..tx'.posted], k)
  {
    var es, n := Entries(tx), tx.posted;
    assert es[..n + 1] == es[..n] + [es[n]];
    SumSnoc(es[..n], es[n], k);
    var row := RowFor(tx.extraction, tx.payload.header, es[n]);
    RowSettles(tx.extraction, tx.payload.header, es[n]);
    SettledOnAppend(tx.staged, [row], k, Some(tx.payload.header.currency));
    SettledByOne(row, k);
    SkippedSettlesNothing(es[n], l.invoices.Keys + tx.created.Keys, k);
    hide Entries, TargetKey, TargetAmount, EmailInvoice, RowFor, SettledOn, SumOn, Postable;
  }

  lemma SkippedSettlesNothing(e: Entry, keys: set<string>, k: string)
    requires k != "" && k in keys
    ensures !Postable(e, keys) && TargetKey(e.1) == k ==> TargetAmount(e.1) == 0
  {
    hide NumberKey;
  }

  lemma RowSettles(id: nat, h: Header, e: Entry)
    ensures var row := RowFor(id, h, e);
      row.key == TargetKey(e.1) && row.settled == TargetAmount(e.1) && row.currency == h.currency
  {
    hide NumberKey;
  }

  lemma SettledByOne(row: Row, key: string)
    ensures SettledOn([row], key, Some(row.currency)) == if row.key == key then row.settled else 0
  {
    assert [row][..0] == [];
  }

  lemma PostKeeps(s: System, t: nat)
    requires Inv(s) && t in s.open && s.open[t].checked == |Entries(s.open[t])|
      && s.open[t].posted < |Entries(s.open[t])|
    requires var key := TargetKey(Entries(s.open[t])[s.open[t].posted].1);
      if key in s.ledger.invoices then !OthersExclusive(s, t, key) else !OthersCreate(s, t, key)
    ensures Inv(s.(open := s.open[t := PostStep(s.ledger, s.open[t])]))
  {
    hide TxInv, EntryFlags, TargetKey, Targets, Postable, RowFor, EmailInvoice, Ordered;
    PostKeepsTx(s.ledger, s.open[t]);
    ReplaceTx(s, t, PostStep(s.ledger, s.open[t]));
  }

  lemma {:induction false} RowsOnAppend(a: seq<Row>, b: seq<Row>, key: string)
    requires forall r | r in b :: r.key != key
    ensures RowsOn(a + b, key) == RowsOn(a, key)
  {
    if b == [] {
      assert a + b == a;
    } else {
      assert (a + b)[..|a + b| - 1] == a + b[..|b| - 1];
      RowsOnAppend(a, b[..|b| - 1], key);
    }
  }

  lemma CommitKeeps(s: System, t: nat)
    requires Inv(s) && t in s.open
    ensures Inv(System(Published(s.ledger, s.open[t]), s.open - {t}))
  {
    hide TxInv, EntryFlags, TargetKey, Targets, Ordered;
    forall u | u in s.open && u != t ensures TxInv(Published(s.ledger, s.open[t]), s.open[u]) {
      CommitKeepsOther(s, t, u);
    }
  }

  lemma CommitKeepsOther(s: System, t: nat, u: nat)
    requires Inv(s) && t in s.open && u in s.open && t != u
    ensures TxInv(Published(s.ledger, s.open[t]), s.open[u])
  {
    hide EntryFlags;
    CommitSparesOthers(s, t, u);
    TxUnaffected(s.ledger, Published(s.ledger, s.open[t]), s.open[u]);
  }

  lemma CommitSparesOthers(s: System, t: nat, u: nat)
    requires LocksExclude(s) && CreatesNew(s) && t in s.open && u in s.open && t != u
    requires StagedRows(s.ledger, s.open[t]) && StagedRows(s.ledger, s.open[u])
    ensures forall k | k in s.open[u].exclusive :: SameOn(s.ledger, Published(s.ledger, s.open[t]), k)
  {
    hide Ordered, TargetKey;
    forall k | k in s.open[u].exclusive ensures SameOn(s.ledger, Published(s.ledger, s.open[t]), k) {
      RowsOnAppend(s.ledger.rows, s.open[t].staged, k);
    }
  }

  lemma LocksAreThere(l: Ledger, tx: Tx)
    requires TxInv(l, tx)
    ensures tx.exclusive <= l.invoices.Keys
  {
  }

  lemma ImportKeeps(s: System, key: string, invoice: Invoice)
    requires Inv(s) && Enabled(s, ImportInvoice(key, invoice))
    ensures Inv(Next(s, ImportInvoice(key, invoice)))
  {
    hide EntryFlags, TargetKey, Targets, Ordered, TxInv, RowsOn;
    var l, l' := s.ledger, Next(s, ImportInvoice(key, invoice)).ledger;
    forall u | u in s.open ensures TxInv(l', s.open[u]) {
      LocksAreThere(l, s.open[u]);
      TxUnaffected(l, l', s.open[u]);
    }
  }

  lemma BeganFine(l: Ledger, tx: Tx)
    requires tx.checked <= |Entries(tx)| && tx.posted == 0 && (tx.clean ==> tx.checked == 0)
    requires tx.known == tx.exclusive == tx.shared == {} && tx.staged == [] && tx.phase == Looking
    ensures TxInv(l, tx)
  {
    hide EntryFlags, TargetKey, Ordered;
  }

  lemma BeginKeeps(s: System, ev: Event)
    requires Inv(s) && Enabled(s, ev) && ev.Begin?
    ensures Inv(Next(s, ev))
  {
    hide EntryFlags, TargetKey, Ordered, TxInv, BooksLoaded;
    var tx := Next(s, ev).open[ev.t];
    assert Entries(tx)[..0] == [];
    BeganFine(s.ledger, tx);
    hide Entries;
  }

  lemma RollbackKeeps(s: System, t: nat)
    requires Inv(s)
    ensures Inv(s.(open := s.open - {t}))
  {
    hide TxInv;
  }

  lemma EventKeeps(s: System, ev: Event)
    requires Inv(s) && Enabled(s, ev)
    ensures Inv(Next(s, ev))
  {
    match ev
    case Begin(_, _, _, _) => BeginKeeps(s, ev);
    case Lookup(t) => LookupKeeps(s, t);
    case AdvisoryLock(t) => LockKeeps(s, t);
    case ReadAll(t) => ReadKeeps(s, t);
    case PostNext(t) => PostKeeps(s, t);
    case Commit(t) => CommitKeeps(s, t);
    case Rollback(t) => RollbackKeeps(s, t);
    case ImportInvoice(key, invoice) => ImportKeeps(s, key, invoice);
  }

  // ----- what it means -----

  /** In every state of every interleaving, committing a transaction whose check was clean leaves each
      invoice its check knew outstanding at least -TOLERANCE, whatever other transactions did meanwhile. */
  lemma CleanCommitFits(s: System, t: nat, key: string)
    requires Inv(s) && Enabled(s, Commit(t)) && s.open[t].clean && key in s.open[t].known
    ensures var l' := Next(s, Commit(t)).ledger;
      key in l'.invoices && l'.invoices[key] == s.ledger.invoices[key] && Outstanding(l', key) >= -TOLERANCE
  {
    var tx := s.open[t];
    var es := Entries(tx);
    assert es[..|es|] == es;
    var j := LastTarget(es, key);
    CleanEntryFits(s.ledger, tx.payload.header, es, j);
    SettledOnAppend(s.ledger.rows, tx.staged, key, Some(tx.payload.header.currency));
  }

  predicate EnabledRun(s: System, run: seq<Event>)
    decreases run
  {
    run == [] || (Enabled(s, run[0]) && EnabledRun(Next(s, run[0]), run[1..]))
  }

  function Run(s: System, run: seq<Event>): System
    requires EnabledRun(s, run)
    decreases run
  {
    if run == [] then s else Run(Next(s, run[0]), run[1..])
  }

  lemma {:induction false} RunKeeps(s: System, run: seq<Event>)
    requires Inv(s) && EnabledRun(s, run)
    ensures Inv(Run(s, run))
    decreases run
  {
    if run != [] {
      EventKeeps(s, run[0]);
      RunKeeps(Next(s, run[0]), run[1..]);
    }
  }

  // ----- runs in which only clean checks are committed -----

  /** If its check is clean so far, the transaction found `key` in the ledger when it first looked it up. */
  ghost predicate NotMissed(tx: Tx, key: string) {
    tx.clean ==>
      Looked(tx) <= |Entries(tx)| && (Targets(Entries(tx)[..Looked(tx)], key) ==> key in tx.known)
  }

  ghost predicate NoneMissed(s: System, key: string) { forall t | t in s.open :: NotMissed(s.open[t], key) }

  ghost predicate AlwaysKnown(s: System, key: string) {
    key != "" && key in s.ledger.invoices && NoneMissed(s, key)
  }

  /** Only transactions with a clean check commit, and invoice `key` is not written by an import. */
  ghost predicate CleanEvents(s: System, run: seq<Event>, key: string)
    requires EnabledRun(s, run)
    decreases run
  {
    run == [] ||
    (&& (run[0].Commit? ==> s.open[run[0].t].clean)
     && (run[0].ImportInvoice? ==> run[0].key != key)
     && CleanEvents(Next(s, run[0]), run[1..], key))
  }

  lemma CheckStepKnows(l: Ledger, tx: Tx, key: string)
    requires key != "" && key in l.invoices && tx.checked < |Entries(tx)|
    requires Targets(Entries(tx)[..tx.checked], key) ==> key in tx.known
    ensures var tx' := CheckStep(l, tx); Targets(Entries(tx)[..tx'.checked], key) ==> key in tx'.known
  {
    hide EntryFlags;
    var es, j := Entries(tx), tx.checked;
    assert es[..j + 1] == es[..j] + [es[j]];
    TargetsSnoc(es[..j], es[j], key);
  }

  lemma LookupStepKnows(l: Ledger, tx: Tx, key: string)
    requires key != "" && key in l.invoices && tx.phase == Looking && tx.checked < |Entries(tx)|
    requires Targets(Entries(tx)[..tx.checked], key) ==> key in tx.known
    ensures var tx' := LookupStep(l, tx);
      Looked(tx') == tx.checked + 1 && (Targets(Entries(tx)[..Looked(tx')], key) ==> key in tx'.known)
  {
    hide EntryFlags;
    var es, j := Entries(tx), tx.checked;
    assert es[..j + 1] == es[..j] + [es[j]];
    TargetsSnoc(es[..j], es[j], key);
    CheckStepKnows(l, tx, key);
  }

  lemma LookupKnows(s: System, t: nat, key: string)
    requires AlwaysKnown(s, key) && Enabled(s, Lookup(t))
    ensures NotMissed(LookupStep(s.ledger, s.open[t]), key)
  {
    assert NotMissed(s.open[t], key);
    hide EntryFlags;
    if s.open[t].clean { LookupStepKnows(s.ledger, s.open[t], key); }
  }

  lemma SameLooked(tx: Tx, tx': Tx, key: string)
    requires NotMissed(tx, key) && tx'.payload == tx.payload && tx'.known == tx.known
    requires Looked(tx') == Looked(tx) && (tx'.clean ==> tx.clean)
    ensures NotMissed(tx', key)
  {
  }

  lemma EventKeepsKnown(s: System, ev: Event, key: string)
    requires Inv(s) && Enabled(s, ev) && AlwaysKnown(s, key)
    ensures AlwaysKnown(Next(s, ev), key)
  {
    hide Inv, EntryFlags, MissingFlags, HasNearMatch, Postable, RowFor, EmailInvoice, NotMissed, LookupStep, TargetKey;
    match ev
    case Begin(t, _, _, _) => assert NotMissed(Next(s, ev).open[t], key) by { BeganKnows(s, ev, key); }
    case Lookup(t) => LookupKnows(s, t, key);
    case AdvisoryLock(t) => SameLooked(s.open[t], LockStep(s.open[t]), key);
    case ReadAll(t) => SameLooked(s.open[t], ReadStep(s.ledger, s.open[t]), key);
    case PostNext(t) => SameLooked(s.open[t], PostStep(s.ledger, s.open[t]), key);
    case Commit(_) =>
    case Rollback(_) =>
    case ImportInvoice(_, _) =>
  }

  lemma BeganKnows(s: System, ev: Event, key: string)
    requires Enabled(s, ev) && ev.Begin?
    ensures NotMissed(Next(s, ev).open[ev.t], key)
  {
    assert Ordered(ev.payload.lines)[..0] == [];
  }

  lemma CleanCommitKeepsSafe(s: System, t: nat, key: string)
    requires Inv(s) && Enabled(s, Commit(t)) && s.open[t].clean && AlwaysKnown(s, key)
    requires Outstanding(s.ledger, key) >= -TOLERANCE
    ensures Outstanding(Next(s, Commit(t)).ledger, key) >= -TOLERANCE
  {
    hide EntryFlags;
    var tx := s.open[t];
    assert Entries(tx)[..|Entries(tx)|] == Entries(tx);
    if Targets(Entries(tx), key) {
      CleanCommitFits(s, t, key);
    } else {
      var currency := Some(s.ledger.invoices[key].currency);
      NothingSettled(tx.staged, key, currency);
      SettledOnAppend(s.ledger.rows, tx.staged, key, currency);
    }
  }

  lemma EventKeepsSafe(s: System, ev: Event, key: string)
    requires Inv(s) && Enabled(s, ev) && AlwaysKnown(s, key) && Outstanding(s.ledger, key) >= -TOLERANCE
    requires ev.Commit? ==> s.open[ev.t].clean
    requires ev.ImportInvoice? ==> ev.key != key
    ensures key in Next(s, ev).ledger.invoices && Outstanding(Next(s, ev).ledger, key) >= -TOLERANCE
  {
    hide TxInv, EntryFlags;
    match ev
    case Commit(t) => CleanCommitKeepsSafe(s, t, key);
    case _ =>
  }

  /** Under every interleaving of approvals of which only flag-free ones commit, no invoice that was in
      the ledger when they began becomes overpaid. */
  lemma {:induction false} ConcurrentApprovalsNeverOverpay(s: System, run: seq<Event>, key: string)
    requires Inv(s) && EnabledRun(s, run) && CleanEvents(s, run, key)
    requires AlwaysKnown(s, key) && Outstanding(s.ledger, key) >= -TOLERANCE
    ensures key in Run(s, run).ledger.invoices && Outstanding(Run(s, run).ledger, key) >= -TOLERANCE
    decreases run
  {
    hide TxInv, EntryFlags, Enabled, Next;
    if run != [] {
      EventKeeps(s, run[0]);
      EventKeepsKnown(s, run[0], key);
      EventKeepsSafe(s, run[0], key);
      ConcurrentApprovalsNeverOverpay(Next(s, run[0]), run[1..], key);
    }
  }

  /** Of the open transactions but `t`, only flagged ones have looked `key` up. */
  ghost predicate NobodyElseLooked(s: System, t: nat, key: string) {
    forall u | u in s.open && u != t && s.open[u].clean && Looked(s.open[u]) <= |Entries(s.open[u])| ::
      !Targets(Entries(s.open[u])[..Looked(s.open[u])], key)
  }

  lemma CreatedIsKnown(s: System, t: nat, key: string)
    requires Inv(s) && Enabled(s, Commit(t)) && key != "" && key in s.open[t].created && NobodyElseLooked(s, t, key)
    ensures AlwaysKnown(Next(s, Commit(t)), key)
  {
    hide Inv, TxInv, Targets, Looked, Ordered, NextKey;
    var s' := Next(s, Commit(t));
    assert key in s'.ledger.invoices && s'.open == s.open - {t};
    hide Published, Enabled, Next;
    forall u | u in s'.open ensures NotMissed(s'.open[u], key) {
      LooksInside(s, u);
    }
  }

  /** An invoice created during the run is as safe from its commit on, if no other open transaction with a
      clean check had looked it up before. */
  lemma CreatedInvoiceStaysSafe(s: System, t: nat, run: seq<Event>, key: string)
    requires Inv(s) && Enabled(s, Commit(t)) && key != "" && key in s.open[t].created && NobodyElseLooked(s, t, key)
    requires var s' := Next(s, Commit(t));
      key in s'.ledger.invoices && Outstanding(s'.ledger, key) >= -TOLERANCE
      && EnabledRun(s', run) && CleanEvents(s', run, key)
    ensures var l := Run(Next(s, Commit(t)), run).ledger; key in l.invoices && Outstanding(l, key) >= -TOLERANCE
  {
    hide *;
    EventKeeps(s, Commit(t));
    CreatedIsKnown(s, t, key);
    ConcurrentApprovalsNeverOverpay(Next(s, Commit(t)), run, key);
  }

  lemma LooksInside(s: System, t: nat)
    requires Inv(s) && t in s.open
    ensures Looked(s.open[t]) <= |Entries(s.open[t])|
  {
  }

  /** Nothing is assumed of the state in which approvals begin: with no open transaction the invariant
      holds and every invoice of the ledger is known. */
  lemma QuietStateIsFine(l: Ledger, key: string)
    requires key != "" && key in l.invoices
    ensures Inv(System(l, map[])) && AlwaysKnown(System(l, map[]), key)
  {
  }
}
