/** Simultaneous arrivals and re-keyings: the advisory lock taken before the lookup keeps one owner for
    each strong key (ar_pipeline/threads/dedupe.py:32-110, ar_pipeline/review/service.py:656-693).

    Every event is one statement of an open transaction. A statement reads committed rows and its own
    transaction's writes; a commit publishes the columns its transaction wrote and releases its locks.
    Locks are on a hash of the key, so keys may share one. An approval writes the status of a payment it read
    as pending some time before; the unique index on live strong keys (ar_pipeline/db/models.py:197-205) is a
    check at the commit that runs may use or not. */
module KeyRace {
  import opened Models

  /** A committed payment: whether its status is live, and the strong key it claims. */
  datatype KeyRow = KeyRow(live: bool, owner: Option<PaymentKey>)

  /** An open transaction: the key locks it holds, the lookup that last came out free, and its writes:
      payments it inserts, claims it writes or clears, payments it takes out of play, and payments it had read
      as pending and approves. */
  datatype Tx = Tx(
    locks: set<int>, cleared: Option<(nat, PaymentKey)>, created: set<nat>,
    claims: map<nat, Option<PaymentKey>>, retired: set<nat>, approved: set<nat>)

  datatype System = System(rows: map<nat, KeyRow>, open: map<nat, Tx>)

  datatype Event =
    | Begin(t: nat)
    | Insert(t: nat, id: nat)
    | Lock(t: nat, key: PaymentKey)
    | Lookup(t: nat, id: nat, key: PaymentKey)
    | Claim(t: nat)
    | Unclaim(t: nat, id: nat)
    | Retire(t: nat, id: nat)
    | Approve(t: nat, id: nat)
    | Commit(t: nat)
    | Rollback(t: nat)

  /** The lock a key maps to. */
  type Hash = PaymentKey -> int

  predicate Knows(s: System, t: nat, id: nat)
    requires t in s.open
  {
    id in s.rows || id in s.open[t].created
  }

  /** A payment as transaction `t` sees it: its own writes over what is committed. */
  function Seen(s: System, t: nat, id: nat): KeyRow
    requires t in s.open && Knows(s, t, id)
  {
    After(s.rows, s.open[t], id)
  }

  predicate OwnsKey(row: KeyRow, key: PaymentKey) { row.live && row.owner == Some(key) }

  /** The lookup of `assign_payment_key` and `save_edits` finds another live owner. */
  predicate SeesOther(s: System, t: nat, id: nat, key: PaymentKey)
    requires t in s.open
  {
    exists i | i in s.rows.Keys + s.open[t].created :: i != id && OwnsKey(Seen(s, t, i), key)
  }

  /** A statement that must wait for a lock is not enabled. */
  predicate Enabled(s: System, hash: Hash, ev: Event) {
    match ev
    case Begin(t) => t !in s.open
    case Insert(t, id) => t in s.open && id !in s.rows && forall u | u in s.open :: id !in s.open[u].created
    case Lock(t, key) => t in s.open && forall u | u in s.open && u != t :: hash(key) !in s.open[u].locks
    case Lookup(t, id, key) => t in s.open && hash(key) in s.open[t].locks && Knows(s, t, id)
    case Claim(t) => t in s.open && s.open[t].cleared.Some?
    case Unclaim(t, id) => t in s.open && Knows(s, t, id)
    case Retire(t, id) =>
      t in s.open && Knows(s, t, id) && forall u | u in s.open && u != t :: id !in s.open[u].approved
    case Approve(t, id) => t in s.open && id in s.rows && forall u | u in s.open && u != t :: id !in s.open[u].retired
    case Commit(t) => t in s.open
    case Rollback(t) => t in s.open
  }

  /** A payment after a transaction's writes. */
  function After(rows: map<nat, KeyRow>, tx: Tx, id: nat): KeyRow
    requires id in rows || id in tx.created
  {
    KeyRow((if id in rows then rows[id].live || id in tx.approved else true) && id !in tx.retired,
           if id in tx.claims then tx.claims[id] else if id in rows then rows[id].owner else None)
  }

  function Next(s: System, hash: Hash, ev: Event): System
    requires Enabled(s, hash, ev)
  {
    match ev
    case Begin(t) => s.(open := s.open[t := Tx({}, None, {}, map[], {}, {})])
    case Insert(t, id) => Set(s, t, s.open[t].(created := s.open[t].created + {id}, cleared := None))
    case Lock(t, key) => Set(s, t, s.open[t].(locks := s.open[t].locks + {hash(key)}, cleared := None))
    case Lookup(t, id, key) =>
      Set(s, t, s.open[t].(cleared := if SeesOther(s, t, id, key) then None else Some((id, key))))
    case Claim(t) =>
      var (id, key) := s.open[t].cleared.value;
      Set(s, t, s.open[t].(claims := s.open[t].claims[id := Some(key)], cleared := None))
    case Unclaim(t, id) => Set(s, t, s.open[t].(claims := s.open[t].claims[id := None]))
    case Retire(t, id) => Set(s, t, s.open[t].(retired := s.open[t].retired + {id}))
    case Approve(t, id) => Set(s, t, s.open[t].(approved := s.open[t].approved + {id}))
    case Commit(t) =>
      System(map i | i in s.rows.Keys + s.open[t].created :: After(s.rows, s.open[t], i), s.open - {t})
    case Rollback(t) => s.(open := s.open - {t})
  }

  function Set(s: System, t: nat, tx: Tx): System { s.(open := s.open[t := tx]) }

  // ----- the invariant -----

  ghost predicate OneOwner(rows: map<nat, KeyRow>) {
    forall i, j, key | i in rows && j in rows && OwnsKey(rows[i], key) && OwnsKey(rows[j], key) :: i == j
  }

  ghost predicate LocksExclude(s: System) {
    forall t, u | t in s.open && u in s.open && t != u :: s.open[t].locks !! s.open[u].locks
  }

  /** As the transaction sees them, no payment but `id` owns `key`. */
  ghost predicate Alone(rows: map<nat, KeyRow>, tx: Tx, id: nat, key: PaymentKey) {
    forall i | (i in rows || i in tx.created) && i != id :: !OwnsKey(After(rows, tx, i), key)
  }

  /** No transaction takes out of play what another one approves: the row is locked by the first to write it. */
  ghost predicate RowsExclude(s: System) {
    forall t, u | t in s.open && u in s.open && t != u :: s.open[t].approved !! s.open[u].retired
  }

  /** What a transaction approves is still live. */
  ghost predicate ApprovesLive(rows: map<nat, KeyRow>, tx: Tx) {
    forall i | i in tx.approved :: i in rows && rows[i].live
  }

  /** A transaction claims only keys it holds the lock of and nobody else owns in what it sees. */
  ghost predicate TxOk(rows: map<nat, KeyRow>, tx: Tx, hash: Hash) {
    && ApprovesLive(rows, tx)
    && (forall i | i in tx.claims :: i in rows || i in tx.created)
    && (forall i | i in tx.claims && tx.claims[i].Some? ::
          hash(tx.claims[i].value) in tx.locks
          && (OwnsKey(After(rows, tx, i), tx.claims[i].value) ==> Alone(rows, tx, i, tx.claims[i].value)))
    && (tx.cleared.Some? ==>
          var (id, key) := tx.cleared.value;
          (id in rows || id in tx.created) && hash(key) in tx.locks && Alone(rows, tx, id, key))
  }

  ghost predicate CreatedApart(s: System) {
    && (forall t, i | t in s.open && i in s.open[t].created :: i !in s.rows)
    && (forall t, u | t in s.open && u in s.open && t != u :: s.open[t].created !! s.open[u].created)
  }

  ghost predicate Inv(s: System, hash: Hash) {
    && OneOwner(s.rows) && LocksExclude(s) && RowsExclude(s) && CreatedApart(s)
    && forall t | t in s.open :: TxOk(s.rows, s.open[t], hash)
  }

  // ----- a transaction's own statements -----

  /** A transaction that only gives up ownership keeps what it knows. */
  lemma GivingUpKeeps(rows: map<nat, KeyRow>, tx: Tx, tx': Tx, hash: Hash)
    requires TxOk(rows, tx, hash) && tx'.created == tx.created && tx'.locks == tx.locks && tx'.cleared == tx.cleared
    requires tx'.approved == tx.approved
    requires forall i | i in tx'.claims :: i in rows || i in tx.created
    requires forall i | i in tx'.claims && tx'.claims[i].Some? :: i in tx.claims && tx.claims[i] == tx'.claims[i]
    requires forall i, key | (i in rows || i in tx.created) && OwnsKey(After(rows, tx', i), key) ::
      OwnsKey(After(rows, tx, i), key)
    ensures TxOk(rows, tx', hash)
  {
    hide After;
    forall id, key | Alone(rows, tx, id, key) ensures Alone(rows, tx', id, key) { }
  }

  lemma OwnStatement(s: System, t: nat, tx: Tx, hash: Hash)
    requires Inv(s, hash) && t in s.open && TxOk(s.rows, tx, hash)
    requires forall u | u in s.open && u != t :: tx.locks !! s.open[u].locks && tx.created !! s.open[u].created
    requires forall u | u in s.open && u != t ::
      tx.approved !! s.open[u].retired && s.open[u].approved !! tx.retired
    requires forall i | i in tx.created :: i !in s.rows
    ensures Inv(Set(s, t, tx), hash)
  {
    hide TxOk, OneOwner;
  }

  lemma InsertOk(rows: map<nat, KeyRow>, tx: Tx, id: nat, hash: Hash)
    requires TxOk(rows, tx, hash) && id !in rows && id !in tx.created && id !in tx.claims
    ensures TxOk(rows, tx.(created := tx.created + {id}, cleared := None), hash)
  {
    var tx' := tx.(created := tx.created + {id}, cleared := None);
    assert forall i | i in rows || i in tx.created :: After(rows, tx', i) == After(rows, tx, i);
    assert After(rows, tx', id).owner.None?;
    hide After;
    forall i, key | Alone(rows, tx, i, key) ensures Alone(rows, tx', i, key) { }
  }

  lemma ClaimOk(rows: map<nat, KeyRow>, tx: Tx, hash: Hash)
    requires TxOk(rows, tx, hash) && tx.cleared.Some?
    ensures var (id, key) := tx.cleared.value;
      TxOk(rows, tx.(claims := tx.claims[id := Some(key)], cleared := None), hash)
  {
    var (id, key) := tx.cleared.value;
    var tx' := tx.(claims := tx.claims[id := Some(key)], cleared := None);
    forall i | (i in rows || i in tx.created) && i != id ensures After(rows, tx', i) == After(rows, tx, i) { }
    forall i | i in tx'.claims && tx'.claims[i].Some? && OwnsKey(After(rows, tx', i), tx'.claims[i].value)
      ensures Alone(rows, tx', i, tx'.claims[i].value)
    {
      if i != id {
        assert Alone(rows, tx, i, tx.claims[i].value);
        assert tx.claims[i].value != key;
      }
    }
  }

  // ----- a commit -----

  /** Committing keeps one owner per key: what the transaction claims it saw free, and its lock kept
      anybody else from publishing a claim since. */
  lemma CommitOneOwner(s: System, t: nat, hash: Hash)
    requires Inv(s, hash) && t in s.open
    ensures OneOwner(Next(s, hash, Commit(t)).rows)
  {
    var tx, rows := s.open[t], Next(s, hash, Commit(t)).rows;
    assert TxOk(s.rows, tx, hash);
    forall i, j, key | i in rows && j in rows && OwnsKey(rows[i], key) && OwnsKey(rows[j], key) ensures i == j {
      assert i in tx.claims ==> Alone(s.rows, tx, i, key);
      assert j in tx.claims ==> Alone(s.rows, tx, j, key);
    }
  }

  /** What another transaction sees of a key whose lock it holds does not change but for the better. */
  lemma CommitKeepsAlone(s: System, t: nat, u: nat, hash: Hash, id: nat, key: PaymentKey)
    requires Inv(s, hash) && t in s.open && u in s.open && t != u
    requires hash(key) in s.open[u].locks && Alone(s.rows, s.open[u], id, key)
    ensures Alone(Next(s, hash, Commit(t)).rows, s.open[u], id, key)
  {
    var tx, other, rows := s.open[t], s.open[u], Next(s, hash, Commit(t)).rows;
    assert TxOk(s.rows, tx, hash);
    assert tx.locks !! other.locks && hash(key) !in tx.locks;
    assert forall i | i in tx.claims :: tx.claims[i] != Some(key);
    forall i | (i in rows || i in other.created) && i != id ensures !OwnsKey(After(rows, other, i), key) {
      assert i in s.rows || i in other.created ==> !OwnsKey(After(s.rows, other, i), key);
    }
  }

  lemma CommitKeepsOther(s: System, t: nat, u: nat, hash: Hash)
    requires Inv(s, hash) && t in s.open && u in s.open && t != u
    ensures TxOk(Next(s, hash, Commit(t)).rows, s.open[u], hash)
  {
    var other, rows := s.open[u], Next(s, hash, Commit(t)).rows;
    assert TxOk(s.rows, other, hash);
    forall i | i in other.claims && other.claims[i].Some? && OwnsKey(After(rows, other, i), other.claims[i].value)
      ensures Alone(rows, other, i, other.claims[i].value)
    {
      assert OwnsKey(After(s.rows, other, i), other.claims[i].value);
      CommitKeepsAlone(s, t, u, hash, i, other.claims[i].value);
    }
    if other.cleared.Some? {
      CommitKeepsAlone(s, t, u, hash, other.cleared.value.0, other.cleared.value.1);
    }
  }

  lemma CommitKeeps(s: System, t: nat, hash: Hash)
    requires Inv(s, hash) && t in s.open
    ensures Inv(Next(s, hash, Commit(t)), hash)
  {
    CommitOneOwner(s, t, hash);
    var s' := Next(s, hash, Commit(t));
    forall u | u in s'.open ensures TxOk(s'.rows, s'.open[u], hash) {
      CommitKeepsOther(s, t, u, hash);
    }
    hide TxOk, OneOwner;
  }

  // ----- every event -----

  /** An approval writes over a payment that is still live. */
  predicate LandsLive(s: System, ev: Event) { ev.Approve? ==> ev.id in s.rows && s.rows[ev.id].live }

  lemma BeginKeeps(s: System, hash: Hash, t: nat)
    requires Inv(s, hash) && t !in s.open
    ensures Inv(Next(s, hash, Begin(t)), hash)
  {
    assert TxOk(s.rows, Tx({}, None, {}, map[], {}, {}), hash);
    hide TxOk, OneOwner;
  }

  lemma InsertKeeps(s: System, hash: Hash, t: nat, id: nat)
    requires Inv(s, hash) && Enabled(s, hash, Insert(t, id))
    ensures Inv(Next(s, hash, Insert(t, id)), hash)
  {
    assert id !in s.open[t].claims by { assert TxOk(s.rows, s.open[t], hash); }
    hide TxOk, OneOwner;
    InsertOk(s.rows, s.open[t], id, hash);
    OwnStatement(s, t, Next(s, hash, Insert(t, id)).open[t], hash);
  }

  lemma RetireKeeps(s: System, hash: Hash, t: nat, id: nat)
    requires Inv(s, hash) && Enabled(s, hash, Retire(t, id))
    ensures Inv(Next(s, hash, Retire(t, id)), hash)
  {
    hide TxOk, OneOwner;
    RetireOk(s.rows, s.open[t], id, hash);
    OwnStatement(s, t, Next(s, hash, Retire(t, id)).open[t], hash);
  }

  lemma ApproveKeeps(s: System, hash: Hash, t: nat, id: nat)
    requires Inv(s, hash) && Enabled(s, hash, Approve(t, id)) && LandsLive(s, Approve(t, id))
    ensures Inv(Next(s, hash, Approve(t, id)), hash)
  {
    hide TxOk, OneOwner;
    ApproveOk(s.rows, s.open[t], id, hash);
    OwnStatement(s, t, Next(s, hash, Approve(t, id)).open[t], hash);
  }

  lemma EventKeeps(s: System, hash: Hash, ev: Event)
    requires Inv(s, hash) && Enabled(s, hash, ev) && LandsLive(s, ev)
    ensures Inv(Next(s, hash, ev), hash)
  {
    hide After, SeesOther, Alone, OwnsKey, TxOk, OneOwner;
    match ev
    case Begin(t) => BeginKeeps(s, hash, t);
    case Insert(t, id) => InsertKeeps(s, hash, t, id);
    case Lock(t, key) =>
      LockOk(s.rows, s.open[t], hash, key);
      OwnStatement(s, t, Next(s, hash, ev).open[t], hash);
    case Lookup(t, id, key) =>
      LookupOk(s, t, hash, id, key);
      OwnStatement(s, t, Next(s, hash, ev).open[t], hash);
    case Claim(t) =>
      ClaimOk(s.rows, s.open[t], hash);
      OwnStatement(s, t, Next(s, hash, ev).open[t], hash);
    case Unclaim(t, id) =>
      UnclaimOk(s.rows, s.open[t], id, hash);
      OwnStatement(s, t, Next(s, hash, ev).open[t], hash);
    case Retire(t, id) => RetireKeeps(s, hash, t, id);
    case Approve(t, id) => ApproveKeeps(s, hash, t, id);
    case Commit(t) => CommitKeeps(s, t, hash);
    case Rollback(t) =>
  }

  lemma UnclaimOk(rows: map<nat, KeyRow>, tx: Tx, id: nat, hash: Hash)
    requires TxOk(rows, tx, hash) && (id in rows || id in tx.created)
    ensures TxOk(rows, tx.(claims := tx.claims[id := None]), hash)
  {
    GivingUpKeeps(rows, tx, tx.(claims := tx.claims[id := None]), hash);
  }

  lemma RetireOk(rows: map<nat, KeyRow>, tx: Tx, id: nat, hash: Hash)
    requires TxOk(rows, tx, hash)
    ensures TxOk(rows, tx.(retired := tx.retired + {id}), hash)
  {
    GivingUpKeeps(rows, tx, tx.(retired := tx.retired + {id}), hash);
  }

  lemma ApproveOk(rows: map<nat, KeyRow>, tx: Tx, id: nat, hash: Hash)
    requires TxOk(rows, tx, hash) && id in rows && rows[id].live
    ensures TxOk(rows, tx.(approved := tx.approved + {id}), hash)
  {
    var tx' := tx.(approved := tx.approved + {id});
    assert forall i | i in rows || i in tx.created :: After(rows, tx', i) == After(rows, tx, i);
    hide After;
    forall i, k | Alone(rows, tx, i, k) ensures Alone(rows, tx', i, k) { }
  }

  lemma LockOk(rows: map<nat, KeyRow>, tx: Tx, hash: Hash, key: PaymentKey)
    requires TxOk(rows, tx, hash)
    ensures TxOk(rows, tx.(locks := tx.locks + {hash(key)}, cleared := None), hash)
  {
    var tx' := tx.(locks := tx.locks + {hash(key)}, cleared := None);
    assert forall i | i in rows || i in tx.created :: After(rows, tx', i) == After(rows, tx, i);
    hide After;
    forall i, k | Alone(rows, tx, i, k) ensures Alone(rows, tx', i, k) { }
  }

  lemma LookupOk(s: System, t: nat, hash: Hash, id: nat, key: PaymentKey)
    requires t in s.open && TxOk(s.rows, s.open[t], hash) && Enabled(s, hash, Lookup(t, id, key))
    ensures TxOk(s.rows, Next(s, hash, Lookup(t, id, key)).open[t], hash)
  {
    var tx, tx' := s.open[t], Next(s, hash, Lookup(t, id, key)).open[t];
    assert forall i | i in s.rows || i in tx.created :: After(s.rows, tx', i) == After(s.rows, tx, i) == Seen(s, t, i);
    forall i, k | Alone(s.rows, tx, i, k) ensures Alone(s.rows, tx', i, k) { }
    if !SeesOther(s, t, id, key) {
      forall i | (i in s.rows || i in tx.created) && i != id ensures !OwnsKey(After(s.rows, tx', i), key) {
        assert i in s.rows.Keys + tx.created;
      }
    }
  }

  // ----- runs -----

  ghost predicate IsRun(s: System, hash: Hash, events: seq<Event>)
    decreases |events|, 0
  {
    events == [] || (IsRun(s, hash, events[..|events| - 1])
                     && Enabled(StateAfter(s, hash, events[..|events| - 1]), hash, events[|events| - 1]))
  }

  ghost function StateAfter(s: System, hash: Hash, events: seq<Event>): System
    requires IsRun(s, hash, events)
    decreases |events|, 1
  {
    if events == [] then s else Next(StateAfter(s, hash, events[..|events| - 1]), hash, events[|events| - 1])
  }

  /** In every step of the run an approval finds its payment still live. */
  ghost predicate ApprovalsLand(s: System, hash: Hash, events: seq<Event>)
    requires IsRun(s, hash, events)
  {
    events == [] || (ApprovalsLand(s, hash, events[..|events| - 1])
                     && LandsLive(StateAfter(s, hash, events[..|events| - 1]), events[|events| - 1]))
  }

  lemma {:induction false} RunKeeps(s: System, hash: Hash, events: seq<Event>)
    requires Inv(s, hash) && IsRun(s, hash, events) && ApprovalsLand(s, hash, events)
    ensures Inv(StateAfter(s, hash, events), hash)
  {
    hide Inv, Next, Enabled, LandsLive;
    if events != [] {
      RunKeeps(s, hash, events[..|events| - 1]);
      EventKeeps(StateAfter(s, hash, events[..|events| - 1]), hash, events[|events| - 1]);
    }
  }

  /** However arrivals, re-keyings, rejections and approvals interleave, and however keys share locks, no two
      committed live payments own the same strong key, if approvals find their payments still live. The
      unique index on strong keys is not needed for it. */
  lemma ConcurrentClaimsKeepOneOwner(rows: map<nat, KeyRow>, hash: Hash, events: seq<Event>)
    requires OneOwner(rows) && IsRun(System(rows, map[]), hash, events)
      && ApprovalsLand(System(rows, map[]), hash, events)
    ensures OneOwner(StateAfter(System(rows, map[]), hash, events).rows)
  {
    RunKeeps(System(rows, map[]), hash, events);
  }

  // ----- the unique index -----

  /** The index lets the commit pass: it has no two live rows with one strong key. */
  ghost predicate IndexAllows(s: System, hash: Hash, t: nat)
    requires t in s.open
  {
    OneOwner(Next(s, hash, Commit(t)).rows)
  }

  ghost predicate Indexed(s: System, hash: Hash, events: seq<Event>)
    requires IsRun(s, hash, events)
  {
    events == [] ||
    (var front, ev := events[..|events| - 1], events[|events| - 1];
     Indexed(s, hash, front) && (ev.Commit? ==> IndexAllows(StateAfter(s, hash, front), hash, ev.t)))
  }

  /** With the index, whatever approvals land on. */
  lemma {:induction false} IndexKeepsOneOwner(s: System, hash: Hash, events: seq<Event>)
    requires OneOwner(s.rows) && IsRun(s, hash, events) && Indexed(s, hash, events)
    ensures OneOwner(StateAfter(s, hash, events).rows)
  {
    hide OneOwner;
    if events != [] { IndexKeepsOneOwner(s, hash, events[..|events| - 1]); }
  }

  /** An approval that lands on a payment taken out of play since it was read is stopped by the index exactly
      when by then the payment's key has another owner. */
  lemma IndexStopsExactly(s: System, hash: Hash, t: nat, id: nat)
    requires Inv(s, hash) && Enabled(s, hash, Approve(t, id)) && !s.rows[id].live
    requires id !in s.open[t].retired
    ensures var s' := Next(s, hash, Approve(t, id));
      IndexAllows(s', hash, t) <==>
        forall key | After(s.rows, s.open[t], id).owner == Some(key) :: Alone(s.rows, s.open[t], id, key)
  {
    var tx, s' := s.open[t], Next(s, hash, Approve(t, id));
    var before, after := Next(s, hash, Commit(t)).rows, Next(s', hash, Commit(t)).rows;
    CommitOneOwner(s, t, hash);
    assert after.Keys == before.Keys && forall i | i in before && i != id ::
      after[i] == before[i] == After(s.rows, tx, i);
    assert after[id] == KeyRow(true, After(s.rows, tx, id).owner);
    forall key | After(s.rows, tx, id).owner == Some(key) && IndexAllows(s', hash, t)
      ensures Alone(s.rows, tx, id, key)
    {
      assert OwnsKey(after[id], key);
    }
  }

  /** Transaction 0 has read payment 0 as pending; transaction 1 rejects it, transaction 2 brings in another
      payment with its key, and then transaction 0 approves it. */
  function TakenAndApproved(key: PaymentKey, i: nat): Event
    requires i < 12
  {
    match i
    case 0 => Begin(0)
    case 1 => Begin(1)
    case 2 => Retire(1, 0)
    case 3 => Commit(1)
    case 4 => Begin(2)
    case 5 => Insert(2, 1)
    case 6 => Lock(2, key)
    case 7 => Lookup(2, 1, key)
    case 8 => Event.Claim(2)
    case 9 => Commit(2)
    case 10 => Approve(0, 0)
    case _ => Commit(0)
  }

  function FirstEvents(key: PaymentKey, n: nat): seq<Event>
    requires n <= 12
  {
    seq(n, i requires 0 <= i < n => TakenAndApproved(key, i))
  }

  /** The system after `n` of them. */
  function Stage(key: PaymentKey, hash: Hash, n: nat): System
    requires n <= 12
  {
    var live, dead, idle := KeyRow(true, Some(key)), KeyRow(false, Some(key)), Tx({}, None, {}, map[], {}, {});
    var locked := idle.(created := {1}, locks := {hash(key)});
    match n
    case 0 => System(map[0 := live], map[])
    case 1 => System(map[0 := live], map[0 := idle])
    case 2 => System(map[0 := live], map[0 := idle, 1 := idle])
    case 3 => System(map[0 := live], map[0 := idle, 1 := idle.(retired := {0})])
    case 4 => System(map[0 := dead], map[0 := idle])
    case 5 => System(map[0 := dead], map[0 := idle, 2 := idle])
    case 6 => System(map[0 := dead], map[0 := idle, 2 := idle.(created := {1})])
    case 7 => System(map[0 := dead], map[0 := idle, 2 := locked])
    case 8 => System(map[0 := dead], map[0 := idle, 2 := locked.(cleared := Some((1, key)))])
    case 9 => System(map[0 := dead], map[0 := idle, 2 := locked.(claims := map[1 := Some(key)])])
    case 10 => System(map[0 := dead, 1 := live], map[0 := idle])
    case 11 => System(map[0 := dead, 1 := live], map[0 := idle.(approved := {0})])
    case _ => System(map[0 := live, 1 := live], map[])
  }

  lemma StageStep(key: PaymentKey, hash: Hash, n: nat)
    requires n < 12
    ensures Enabled(Stage(key, hash, n), hash, TakenAndApproved(key, n))
    ensures Next(Stage(key, hash, n), hash, TakenAndApproved(key, n)) == Stage(key, hash, n + 1)
  {
    var s, ev := Stage(key, hash, n), TakenAndApproved(key, n);
    var none: set<nat>, free: set<int> := {}, {};
    assert none + {0} == {0} && none + {1} == {1} && free + {hash(key)} == {hash(key)};
    if ev.Commit? {
      CommitStep(key, hash, n);
    } else if n == 7 {
      assert forall i | i in s.rows.Keys + s.open[2].created :: i == 0 || i == 1;
      assert !SeesOther(s, 2, 1, key);
    }
    assert Next(s, hash, ev).open == Stage(key, hash, n + 1).open;
  }

  lemma CommitStep(key: PaymentKey, hash: Hash, n: nat)
    requires n == 3 || n == 9 || n == 11
    ensures Enabled(Stage(key, hash, n), hash, TakenAndApproved(key, n))
    ensures Next(Stage(key, hash, n), hash, TakenAndApproved(key, n)) == Stage(key, hash, n + 1)
  {
    var s, s' := Stage(key, hash, n), Next(Stage(key, hash, n), hash, TakenAndApproved(key, n));
    assert s'.rows.Keys == Stage(key, hash, n + 1).rows.Keys;
    assert s'.rows == Stage(key, hash, n + 1).rows;
    assert s'.open == Stage(key, hash, n + 1).open;
  }

  lemma {:induction false} StagesRun(key: PaymentKey, hash: Hash, n: nat)
    requires n <= 12
    ensures IsRun(Stage(key, hash, 0), hash, FirstEvents(key, n))
    ensures StateAfter(Stage(key, hash, 0), hash, FirstEvents(key, n)) == Stage(key, hash, n)
  {
    hide Stage, Next, Enabled, TakenAndApproved;
    if n > 0 {
      StagesRun(key, hash, n - 1);
      StageStep(key, hash, n - 1);
      assert FirstEvents(key, n)[..n - 1] == FirstEvents(key, n - 1);
    }
  }

  /** The index is needed: without it two live payments come to own the key. */
  lemma IndexIsNeeded(key: PaymentKey, hash: Hash)
    ensures var s, events := System(map[0 := KeyRow(true, Some(key))], map[]), FirstEvents(key, 12);
      IsRun(s, hash, events) && OneOwner(s.rows) && !OneOwner(StateAfter(s, hash, events).rows)
  {
    StagesRun(key, hash, 12);
    var rows := Stage(key, hash, 12).rows;
    assert OwnsKey(rows[0], key) && OwnsKey(rows[1], key);
  }
}
