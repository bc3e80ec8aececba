/** Every run of the system: any operations, in any order, from an empty database and an empty backend. */
module Lifecycle {
  import opened Models
  import opened References
  import opened Dedupe
  import opened Posting
  import opened Recheck
  import opened Routing
  import opened Review
  import opened Advance
  import opened Deliver
  import opened Invariant
  import opened Operations
  import opened Intake
  import Backfill
  import CsvImport

  datatype World = World(db: Db, backend: Backend)

  /** One transaction. Refused operations, and those whose query would select nothing, change nothing. */
  datatype Op =
    | Arrive
    | StepEmail(email: nat, work: Work)
    | ApproveOp(id: nat, reviewer: string, now: int)
    | RejectOp(id: nat, reviewer: string, reason: string, now: int)
    | SaveOp(context: Context, id: nat, reviewer: string, form: Option<Form>, approve: bool, now: int)
    | RecordOp(ids: seq<nat>, reviewer: string, skipLinked: bool, now: int)
    | ReprocessOp(email: nat)
    | RetryEmailOp(email: nat)
    | RetryMessageOp(email: nat, message: nat)
    | ResendOp(delivery: nat, now: int)
    | DeliverOp(delivery: nat, network: Network, now: int)
    | FillThreads(order: seq<nat>)
    | FillLedger(order: seq<nat>)
    | ImportOp(file: seq<CsvImport.FileRow>)

  ghost predicate CanStep(db: Db, e: nat, work: Work) {
    && e < |db.emails| && IsUnderway(db.emails[e].status)
    && (work.Work? && db.emails[e].status == New ==> FindingFits(db.emails[e], work.finding))
  }

  predicate CanDeliver(db: Db, k: nat, now: int) { k < |db.deliveries| && IsDue(db.deliveries[k], now) }

  predicate CanResend(db: Db, k: nat) { k < |db.deliveries| && db.deliveries[k].status == DeliveryFailed }

  predicate CanRetry(db: Db, e: nat) { e < |db.emails| && db.emails[e].status == Error }

  /** The database after an operation that does not talk to the backend. */
  ghost function DbAfter(db: Db, op: Op): Db {
    match op
    case Arrive => db.(emails := db.emails + [Email(New, [], [])])
    case StepEmail(e, work) => if CanStep(db, e, work) then Stepped(db, e, work) else db
    case ApproveOp(id, reviewer, now) => Approve(db, id, reviewer, now).0
    case RejectOp(id, reviewer, reason, now) => Reject(db, id, reviewer, reason, now).0
    case SaveOp(context, id, reviewer, form, approve, now) => Save(db, context, id, reviewer, form, approve, now).0
    case RecordOp(ids, reviewer, skip, now) => RecordAll(db, ids, reviewer, skip, now).0
    case ReprocessOp(e) => Reprocess(db, e).0
    case RetryEmailOp(e) => if CanRetry(db, e) then db.(emails := db.emails[e := RetryOf(db.emails[e])]) else db
    case RetryMessageOp(e, m) =>
      if HasFailed(db.emails, e, m) then db.(emails := db.emails[e := MessageRetried(db.emails[e], m)]) else db
    case ResendOp(k, now) =>
      if CanResend(db, k) then db.(deliveries := db.deliveries[k := Resent(db.deliveries[k], now)]) else db
    case DeliverOp(k, network, now) =>
      if CanDeliver(db, k, now)
      then db.(deliveries := db.deliveries[k := AfterAttempt(db.extractions, db.deliveries[k], network, now)]) else db
    case FillThreads(order) => ThreadsFilled(db, order)
    case FillLedger(order) => db.(ledger := Backfill.PostAll(db.ledger, db.extractions, order))
    case ImportOp(file) => db.(ledger := CsvImport.Imported(db.ledger, file))
  }

  ghost function Step(w: World, op: Op): World {
    World(DbAfter(w.db, op),
          if op.DeliverOp? && CanDeliver(w.db, op.delivery, op.now)
          then BackendAfter(w.db.extractions, w.backend, w.db.deliveries[op.delivery], op.network) else w.backend)
  }

  const START: World := World(Db(Ledger(map[], []), [], [], []), Backend(map[], map[]))

  ghost function Run(w: World, ops: seq<Op>): World {
    if ops == [] then w else Step(Run(w, ops[..|ops| - 1]), ops[|ops| - 1])
  }

  // ----- the backend -----

  /** The backend holds, under its own id, only the payload an approved payment was approved with; every
      delivered row has its payload there. */
  ghost predicate BackendOk(exts: seq<Extraction>, ds: seq<Delivery>, b: Backend) {
    && b.keys.Keys == b.received.Keys && (forall id | id in b.keys :: b.keys[id] == id)
    && (forall id | id in b.received ::
          id < |exts| && exts[id].status == Approved && exts[id].canonical == Some(b.received[id]))
    && (forall k | 0 <= k < |ds| && ds[k].status == Delivered :: ds[k].extraction in b.received)
  }

  ghost predicate Inv(w: World) { Good(w.db) && BackendOk(w.db.extractions, w.db.deliveries, w.backend) }

  /** What was received stays as it was. */
  ghost predicate KeepsReceived(a: Backend, b: Backend) {
    forall id | id in a.received :: id in b.received && b.received[id] == a.received[id]
  }

  lemma BackendStays(db: Db, db': Db, b: Backend)
    requires BackendOk(db.extractions, db.deliveries, b) && Advances(db, db')
    ensures BackendOk(db'.extractions, db'.deliveries, b)
  {
    forall id | id in b.received
      ensures db'.extractions[id].status == Approved && db'.extractions[id].canonical == Some(b.received[id])
    {
      assert Frozen(db.extractions[id], db'.extractions[id]);
    }
    assert forall k | 0 <= k < |db'.deliveries| && db'.deliveries[k].status == Delivered ::
        k < |db.deliveries| && db.deliveries[k] == db'.deliveries[k];
  }

  // ----- every operation keeps the invariant -----

  lemma ArriveKeeps(db: Db)
    requires Good(db)
    ensures Good(DbAfter(db, Arrive)) && Advances(db, DbAfter(db, Arrive))
  {
    PartsOk(db);
    hide DbOk, Advances, OneOwner, KeyOf;
    var emails := db.emails + [Email(New, [], [])];
    assert forall e | 0 <= e < |db.emails| :: EmailOk(db.emails[e]) && KeepsSources(db.emails[e], emails[e]);
    EmailsChanged(db, emails);
    forall e | 0 <= e < |emails| ensures Agrees(db.(emails := emails), e) {
      if e < |db.emails| { assert Agrees(db, e); }
    }
  }

  lemma ImportKeeps(db: Db, file: seq<CsvImport.FileRow>)
    requires Good(db)
    ensures Good(DbAfter(db, ImportOp(file))) && Advances(db, DbAfter(db, ImportOp(file)))
  {
    CsvImport.ImportKeepsForeignKeys(db.ledger, file, |file|);
    hide Advances, CsvImport.Imported, RowOk, RowsHaveInvoices, OneOwner, EmailsOk, ExtractionsOk, QueueOk;
    LedgerChanged(db, CsvImport.Imported(db.ledger, file));
    StillAgree(db, DbAfter(db, ImportOp(file)));
  }

  predicate IsSending(op: Op) { op.DeliverOp? || op.ResendOp? }

  lemma DbAfterKeeps(db: Db, op: Op)
    requires Good(db) && !IsSending(op)
    ensures Good(DbAfter(db, op)) && Advances(db, DbAfter(db, op))
  {
    hide Good, Advances, Stepped, Approve, Reject, Save, RecordAll, Reprocess, ThreadsFilled, FindingFits;
    AdvancesItself(db);
    match op
    case Arrive => ArriveKeeps(db);
    case StepEmail(e, work) => if CanStep(db, e, work) { SteppedKeeps(db, e, work); }
    case ApproveOp(id, reviewer, now) => ApproveKeeps(db, id, reviewer, now);
    case RejectOp(id, reviewer, reason, now) => RejectKeeps(db, id, reviewer, reason, now);
    case SaveOp(context, id, reviewer, form, approve, now) => SaveKeeps(db, context, id, reviewer, form, approve, now);
    case RecordOp(ids, reviewer, skip, now) => RecordAllKeeps(db, ids, reviewer, skip, now);
    case ReprocessOp(e) => ReprocessKeeps(db, e);
    case RetryEmailOp(e) => if CanRetry(db, e) { RetryEmailKeeps(db, e); }
    case RetryMessageOp(e, m) => if HasFailed(db.emails, e, m) { RetryMessageKeeps(db, e, m); }
    case FillThreads(order) => ThreadsFilledKeeps(db, order);
    case FillLedger(order) => LedgerBackfillKeeps(db, order);
    case ImportOp(file) => ImportKeeps(db, file);
  }

  lemma ResendKeeps(w: World, k: nat, now: int)
    requires Inv(w) && CanResend(w.db, k)
    ensures var w' := w.(db := w.db.(deliveries := w.db.deliveries[k := Resent(w.db.deliveries[k], now)]));
      Inv(w') && Onward(w.db, w'.db)
  {
    assert DeliveryOk(w.db.extractions, w.db.deliveries[k]);
    hide DbOk, Onward;
    DeliveryChanged(w.db, k, Resent(w.db.deliveries[k], now));
    StillAgree(w.db, w.db.(deliveries := w.db.deliveries[k := Resent(w.db.deliveries[k], now)]));
  }

  /** The deliverer finds the payment still approved, so that branch of it is never taken, and its payload
      names its own id. */
  lemma DeliveredIsApproved(db: Db, k: nat)
    requires DbOk(db) && k < |db.deliveries|
    ensures var id := db.deliveries[k].extraction;
      IsApproved(db.extractions, id) && db.extractions[id].canonical.value.envelopeId == id
  {
    hide KeyOf;
    assert DeliveryOk(db.extractions, db.deliveries[k]);
    assert ExtractionOk(db.emails, db.extractions[db.deliveries[k].extraction], db.deliveries[k].extraction);
  }

  lemma AttemptOk(exts: seq<Extraction>, d: Delivery, n: Network, now: int)
    requires DeliveryOk(exts, d) && IsDue(d, now)
    ensures var d' := AfterAttempt(exts, d, n, now);
      DeliveryOk(exts, d') && d'.extraction == d.extraction && d'.attempts == d.attempts + 1
      && (d'.status == Delivered ==> Reaches(n) && IsApproved(exts, d.extraction))
  {
  }

  lemma BackendKeeps(exts: seq<Extraction>, ds: seq<Delivery>, b: Backend, k: nat, n: Network, now: int)
    requires BackendOk(exts, ds, b) && k < |ds| && DeliveryOk(exts, ds[k]) && IsDue(ds[k], now)
    requires IsApproved(exts, ds[k].extraction)
    requires exts[ds[k].extraction].canonical.value.envelopeId == ds[k].extraction
    ensures var b' := BackendAfter(exts, b, ds[k], n);
      && BackendOk(exts, ds[k := AfterAttempt(exts, ds[k], n, now)], b') && KeepsReceived(b, b')
  {
    AttemptOk(exts, ds[k], n, now);
    hide AfterAttempt;
    var id, b' := ds[k].extraction, BackendAfter(exts, b, ds[k], n);
    assert Reaches(n) ==> id in b'.received;
  }

  /** One delivery attempted. */
  function Attempted(w: World, k: nat, n: Network, now: int): World
    requires k < |w.db.deliveries|
  {
    var d := w.db.deliveries[k];
    World(w.db.(deliveries := w.db.deliveries[k := AfterAttempt(w.db.extractions, d, n, now)]),
          BackendAfter(w.db.extractions, w.backend, d, n))
  }

  lemma DeliverKeeps(w: World, k: nat, n: Network, now: int)
    requires Inv(w) && CanDeliver(w.db, k, now)
    ensures var w' := Attempted(w, k, n, now);
      Inv(w') && Onward(w.db, w'.db) && KeepsReceived(w.backend, w'.backend)
  {
    var d := w.db.deliveries[k];
    DeliveredIsApproved(w.db, k);
    assert DeliveryOk(w.db.extractions, d);
    hide DbOk, Onward, BackendOk, AfterAttempt, BackendAfter, DeliveryOk, KeepsReceived;
    AttemptOk(w.db.extractions, d, n, now);
    DeliveryChanged(w.db, k, AfterAttempt(w.db.extractions, d, n, now));
    BackendKeeps(w.db.extractions, w.db.deliveries, w.backend, k, n, now);
    StillAgree(w.db, w.db.(deliveries := w.db.deliveries[k := AfterAttempt(w.db.extractions, d, n, now)]));
  }

  /** Every operation keeps the invariant, changes nothing already posted, and leaves what the backend
      received as it was. */
  lemma StepKeeps(w: World, op: Op)
    requires Inv(w)
    ensures Inv(Step(w, op)) && Onward(w.db, Step(w, op).db) && KeepsReceived(w.backend, Step(w, op).backend)
  {
    AdvancesItself(w.db);
    AdvancesIsOnward(w.db, w.db);
    if op.DeliverOp? {
      hide Good, BackendOk, Onward, KeepsReceived;
      if CanDeliver(w.db, op.delivery, op.now) {
        DeliverKeeps(w, op.delivery, op.network, op.now);
      } else {
        SameReceived(w.backend);
      }
    } else if op.ResendOp? {
      hide Good, BackendOk, Onward, KeepsReceived;
      SameReceived(w.backend);
      if CanResend(w.db, op.delivery) { ResendKeeps(w, op.delivery, op.now); }
    } else {
      hide Good, BackendOk, Onward, Advances, DbAfter;
      DbAfterKeeps(w.db, op);
      AdvancesIsOnward(w.db, DbAfter(w.db, op));
      BackendStays(w.db, DbAfter(w.db, op), w.backend);
    }
  }

  lemma SameReceived(b: Backend)
    ensures KeepsReceived(b, b)
  {
  }

  // ----- runs -----

  lemma {:induction false} RunKeeps(w: World, ops: seq<Op>)
    requires Inv(w)
    ensures Inv(Run(w, ops)) && Onward(w.db, Run(w, ops).db) && KeepsReceived(w.backend, Run(w, ops).backend)
  {
    hide Inv, Onward, Step;
    AdvancesItself(w.db);
    AdvancesIsOnward(w.db, w.db);
    if ops != [] {
      var front := ops[..|ops| - 1];
      RunKeeps(w, front);
      StepKeeps(Run(w, front), ops[|ops| - 1]);
      OnwardTransitive(w.db, Run(w, front).db, Run(w, ops).db);
    }
  }

  lemma StartOk()
    ensures Inv(START)
  {
  }

  /** In every state a run can reach: each strong key has at most one live owner; ledger rows exist only
      for approved and already recorded payments, at most one for each line, and say what that line says;
      each approved payment has exactly one delivery and no other has any; the backend holds nothing but
      approved payloads, and all those marked delivered; in review means something is pending, done means
      nothing is; a source is read at most once. */
  lemma Reachable(ops: seq<Op>)
    ensures var w := Run(START, ops); var db, exts := w.db, w.db.extractions;
      && (forall i, j, key | 0 <= i < |exts| && 0 <= j < |exts| && Owns(exts[i], key) && Owns(exts[j], key) :: i == j)
      && (forall i | 0 <= i < |exts| && exts[i].claim.Some? :: exts[i].claim == KeyOf(exts[i].canonical))
      && (forall k | 0 <= k < |db.ledger.rows| :: RowOk(exts, db.ledger.rows[k]))
      && OneRowPerLine(db.ledger.rows) && RowsHaveInvoices(db.ledger)
      && (forall i | 0 <= i < |exts| :: exts[i].status == Approved <==> HasDelivery(db.deliveries, i))
      && (forall a, b | 0 <= a < b < |db.deliveries| :: db.deliveries[a].extraction != db.deliveries[b].extraction)
      && (forall k | 0 <= k < |db.deliveries| :: IsApproved(exts, db.deliveries[k].extraction)
                                                && db.deliveries[k].attempts <= MAX_ATTEMPTS)
      && (forall id | id in w.backend.received ::
            IsApproved(exts, id) && exts[id].canonical == Some(w.backend.received[id]))
      && (forall k | 0 <= k < |db.deliveries| && db.deliveries[k].status == Delivered ::
            db.deliveries[k].extraction in w.backend.received)
      && (forall e | 0 <= e < |db.emails| ::
            && (db.emails[e].status == EmailStatus.Review ==> HasPending(exts, e))
            && (db.emails[e].status == Done ==> !HasPending(exts, e))
            && forall i | 0 <= i < |db.emails[e].sources| :: db.emails[e].sources[i].raws <= 1)
  {
    StartOk();
    RunKeeps(START, ops);
    hide Run, KeyOf, RowOk, Owns, HasPending;
    InvMeans(Run(START, ops));
  }

  lemma InvMeans(w: World)
    requires Inv(w)
    ensures forall i | 0 <= i < |w.db.extractions| ::
      w.db.extractions[i].status == Approved <==> HasDelivery(w.db.deliveries, i)
    ensures forall k | 0 <= k < |w.db.deliveries| :: IsApproved(w.db.extractions, w.db.deliveries[k].extraction)
                                                     && w.db.deliveries[k].attempts <= MAX_ATTEMPTS
    ensures forall i | 0 <= i < |w.db.extractions| :: ExtractionOk(w.db.emails, w.db.extractions[i], i)
    ensures forall e | 0 <= e < |w.db.emails| :: EmailOk(w.db.emails[e]) && Agrees(w.db, e)
  {
    hide KeyOf, RowOk, HasPending, OneOwner;
    forall k | 0 <= k < |w.db.deliveries|
      ensures IsApproved(w.db.extractions, w.db.deliveries[k].extraction) && w.db.deliveries[k].attempts <= MAX_ATTEMPTS
    {
      DeliveredIsApproved(w.db, k);
      assert DeliveryOk(w.db.extractions, w.db.deliveries[k]);
    }
  }

  lemma {:induction false} RunConcat(w: World, ops: seq<Op>, more: seq<Op>)
    ensures Run(w, ops + more) == Run(Run(w, ops), more)
  {
    hide Step;
    if more == [] {
      assert ops + more == ops;
    } else {
      assert (ops + more)[..|ops + more| - 1] == ops + more[..|more| - 1];
      RunConcat(w, ops, more[..|more| - 1]);
    }
  }

  /** However a run goes on, a payment once approved or already recorded stays so with the same payload,
      its ledger rows stay, and what the backend once received for it is never replaced. */
  lemma PostedIsForever(ops: seq<Op>, more: seq<Op>, id: nat)
    requires id < |Run(START, ops).db.extractions|
    ensures var a, b := Run(START, ops), Run(START, ops + more);
      && id < |b.db.extractions| && Frozen(a.db.extractions[id], b.db.extractions[id])
      && a.db.ledger.rows <= b.db.ledger.rows
      && (id in a.backend.received ==> id in b.backend.received && b.backend.received[id] == a.backend.received[id])
  {
    StartOk();
    RunKeeps(START, ops);
    RunConcat(START, ops, more);
    RunKeeps(Run(START, ops), more);
    hide Run, Inv, Frozen;
  }

  // ----- how often a payment is sent -----

  predicate Sends(w: World, op: Op, k: nat) {
    op.DeliverOp? && op.delivery == k && CanDeliver(w.db, k, op.now)
  }

  ghost function SendsIn(w: World, ops: seq<Op>, k: nat): nat {
    if ops == [] then 0
    else
      var front := ops[..|ops| - 1];
      SendsIn(w, front, k) + if Sends(Run(w, front), ops[|ops| - 1], k) then 1 else 0
  }

  ghost predicate NoResend(ops: seq<Op>, k: nat) {
    forall i | 0 <= i < |ops| :: !(ops[i].ResendOp? && ops[i].delivery == k)
  }

  lemma AttemptsCount(w: World, op: Op, k: nat)
    requires Inv(w) && k < |w.db.deliveries| && !(op.ResendOp? && op.delivery == k)
    ensures var w' := Step(w, op);
      && k < |w'.db.deliveries|
      && w'.db.deliveries[k].attempts == w.db.deliveries[k].attempts + if Sends(w, op, k) then 1 else 0
  {
    if IsSending(op) {
      hide Inv, IsApproved;
      if op.DeliverOp? && CanDeliver(w.db, op.delivery, op.now) { AttemptAdds(w.db, op.delivery, op.network, op.now); }
    } else {
      hide DbAfter, Good;
      DbAfterKeeps(w.db, op);
    }
  }

  lemma AttemptAdds(db: Db, k: nat, n: Network, now: int)
    requires k < |db.deliveries|
    ensures AfterAttempt(db.extractions, db.deliveries[k], n, now).attempts == db.deliveries[k].attempts + 1
  {
  }

  lemma {:induction false} AttemptsIn(w: World, ops: seq<Op>, k: nat)
    requires Inv(w) && k < |w.db.deliveries| && NoResend(ops, k)
    ensures k < |Run(w, ops).db.deliveries|
    ensures Run(w, ops).db.deliveries[k].attempts == w.db.deliveries[k].attempts + SendsIn(w, ops, k)
  {
    hide Inv, Step, Sends;
    if ops != [] {
      var front := ops[..|ops| - 1];
      assert NoResend(front, k);
      AttemptsIn(w, front, k);
      RunKeeps(w, front);
      AttemptsCount(Run(w, front), ops[|ops| - 1], k);
    }
  }

  /** Unless a reviewer resends it, a payment is sent at most six times. */
  lemma AtMostSixSends(ops: seq<Op>, more: seq<Op>, k: nat)
    requires k < |Run(START, ops).db.deliveries| && NoResend(more, k)
    ensures Run(START, ops).db.deliveries[k].attempts + SendsIn(Run(START, ops), more, k) <= 6
  {
    StartOk();
    RunKeeps(START, ops);
    var w := Run(START, ops);
    AttemptsIn(w, more, k);
    RunKeeps(w, more);
    hide Inv, Run;
    InvMeans(Run(w, more));
  }
}
