/** Delivering approved payments (ar_pipeline/deliver/deliverer.py, ar_pipeline/deliver/backend_client.py)
    to a backend that answers a repeated idempotency key without storing again (stub_backend). */
module Deliver {
  import opened Models

  // ----- the backend -----

  datatype Backend = Backend(received: map<nat, Payload>, keys: map<nat, nat>)

  /** The dictionaries of stub_backend/store.py. */
  class Store {
    var received: map<nat, Payload>
    var keys: map<nat, nat>

    function View(): Backend
      reads this
    {
      Backend(received, keys)
    }

    constructor ()
      ensures View() == Backend(map[], map[])
    {
      received, keys := map[], map[];
    }

    method Record(id: nat, p: Payload, key: Option<nat>)
      modifies this
      ensures received == old(received)[id := p]
      ensures keys == if key.Some? then old(keys)[key.value := id] else old(keys)
    {
      received := received[id := p];
      if key.Some? {
        keys := keys[key.value := id];
      }
    }

    method LookupIdempotency(key: nat) returns (r: Option<nat>)
      ensures r == if key in keys then Some(keys[key]) else None
    {
      r := if key in keys then Some(keys[key]) else None;
    }

    /** `receive` of stub_backend/app.py. */
    method Receive(p: Payload, key: Option<nat>) returns (id: nat, status: nat)
      modifies this
      ensures View() == Stored(old(View()), p, key)
      ensures id == StoredAs(old(View()), p, key) && (status == 200 || status == 201)
      ensures status == 200 <==> IsRepeat(old(View()), key)
    {
      if key.Some? {
        var existing := LookupIdempotency(key.value);
        if existing.Some? {
          return existing.value, 200;
        }
      }
      Record(p.envelopeId, p, key);
      return p.envelopeId, 201;
    }
  }

  predicate IsRepeat(b: Backend, key: Option<nat>) { key.Some? && key.value in b.keys }

  function StoredAs(b: Backend, p: Payload, key: Option<nat>): nat {
    if IsRepeat(b, key) then b.keys[key.value] else p.envelopeId
  }

  function Stored(b: Backend, p: Payload, key: Option<nat>): Backend {
    if IsRepeat(b, key) then b
    else Backend(b.received[p.envelopeId := p], if key.Some? then b.keys[key.value := p.envelopeId] else b.keys)
  }

  datatype Request = Request(payload: Payload, key: Option<nat>)

  /** The backend after these requests. */
  function AfterAll(b: Backend, requests: seq<Request>): Backend {
    if requests == [] then b
    else
      var last := requests[|requests| - 1];
      Stored(AfterAll(b, requests[..|requests| - 1]), last.payload, last.key)
  }

  /** Request `n` is the first with its key. */
  predicate IsFirst(requests: seq<Request>, n: nat) {
    n < |requests| && requests[n].key.Some? && forall i | 0 <= i < n :: requests[i].key != requests[n].key
  }

  predicate KeyedById(requests: seq<Request>) {
    forall i | 0 <= i < |requests| :: requests[i].key == Some(requests[i].payload.envelopeId)
  }

  lemma {:induction false} UnaskedKey(requests: seq<Request>, key: nat)
    requires forall i | 0 <= i < |requests| :: requests[i].key != Some(key)
    ensures key !in AfterAll(Backend(map[], map[]), requests).keys
  {
    if requests != [] { UnaskedKey(requests[..|requests| - 1], key); }
  }

  /** Of all requests with one key, in whatever order they come, the first is the one stored: it decides the
      id every other is answered with, and when ids serve as keys its payload is never replaced. */
  lemma {:induction false} FirstRequestWins(requests: seq<Request>, n: nat)
    requires IsFirst(requests, n)
    ensures var b, first := AfterAll(Backend(map[], map[]), requests), requests[n];
      && first.key.value in b.keys && b.keys[first.key.value] == first.payload.envelopeId
      && (KeyedById(requests) ==>
            first.key.value in b.received && b.received[first.key.value] == first.payload)
  {
    var front := requests[..|requests| - 1];
    if n < |front| {
      assert IsFirst(front, n) && (KeyedById(requests) ==> KeyedById(front));
      FirstRequestWins(front, n);
    } else {
      UnaskedKey(front, requests[n].key.value);
    }
  }

  // ----- one request -----

  type ErrorCode = c: nat | c < 200 || c >= 300 witness 500

  /** What the network and the server do with one request: it arrives and the answer comes back or is
      lost; it never arrives; it is turned away; or the client breaks down, before or after it arrived. */
  datatype Network = Arrives(answered: bool) | NeverArrives | TurnedAway(code: ErrorCode) | Breaks(arrived: bool)

  predicate Reaches(n: Network) { n.Arrives? || (n.Breaks? && n.arrived) }

  datatype SendOutcome = SentOk | PermanentFail | TransientFail

  function OutcomeOf(code: nat): SendOutcome {
    if 200 <= code < 300 then SentOk
    else if code == 429 || code >= 500 then TransientFail
    else PermanentFail
  }

  function SendResult(n: Network): SendOutcome
    requires !n.Breaks?
  {
    match n
    case Arrives(answered) => if answered then SentOk else TransientFail
    case NeverArrives => TransientFail
    case TurnedAway(code) => OutcomeOf(code)
  }

  /** `BackendClient.send`; `None` when it raises. */
  method Send(store: Store, p: Payload, key: nat, n: Network) returns (r: Option<SendOutcome>)
    modifies store
    ensures store.View() == if Reaches(n) then Stored(old(store.View()), p, Some(key)) else old(store.View())
    ensures r == if n.Breaks? then None else Some(SendResult(n))
  {
    var code: nat := 0;
    if Reaches(n) {
      var id;
      id, code := store.Receive(p, Some(key));
    } else if n.TurnedAway? {
      code := n.code;
    }
    if n.Breaks? {
      return None;
    }
    if n.NeverArrives? || (n.Arrives? && !n.answered) {
      return Some(TransientFail);
    }
    return Some(OutcomeOf(code));
  }

  // ----- one delivery -----

  /** Waits before a retry, in seconds: 1, 5 and 30 minutes, 2 and 6 hours. */
  const BACKOFF: seq<int> := [60, 300, 1800, 7200, 21600]

  predicate IsApproved(exts: seq<Extraction>, id: nat) {
    id < |exts| && exts[id].status == Approved && exts[id].canonical.Some?
  }

  function AfterSend(d: Delivery, r: SendOutcome, now: int): Delivery {
    var tried := d.(attempts := d.attempts + 1);
    match r
    case SentOk => tried.(status := Delivered)
    case PermanentFail => tried.(status := DeliveryFailed)
    case TransientFail =>
      if tried.attempts > |BACKOFF| then tried.(status := DeliveryFailed)
      else tried.(nextAttempt := Some(now + BACKOFF[tried.attempts - 1]))
  }

  function AfterAttempt(exts: seq<Extraction>, d: Delivery, n: Network, now: int): Delivery {
    if !IsApproved(exts, d.extraction) || n.Breaks? then d.(attempts := d.attempts + 1, status := DeliveryFailed)
    else AfterSend(d, SendResult(n), now)
  }

  function BackendAfter(exts: seq<Extraction>, b: Backend, d: Delivery, n: Network): Backend {
    if IsApproved(exts, d.extraction) && Reaches(n)
      then Stored(b, exts[d.extraction].canonical.value, Some(d.extraction))
    else b
  }

  /** `_deliver_one` in its savepoint: when it raises, what it wrote is undone and the row fails. */
  method DeliverOne(db: Database, store: Store, i: nat, n: Network, now: int)
    requires i < |db.deliveries|
    modifies db`deliveries, store
    ensures db.deliveries == old(db.deliveries)[i := AfterAttempt(db.extractions, old(db.deliveries[i]), n, now)]
    ensures store.View() == BackendAfter(db.extractions, old(store.View()), old(db.deliveries[i]), n)
  {
    var saved := db.deliveries[i];
    var row := saved.(attempts := saved.attempts + 1);
    var id := row.extraction;
    if !IsApproved(db.extractions, id) {
      db.deliveries := db.deliveries[i := row.(status := DeliveryFailed)];
      return;
    }
    var r := Send(store, db.extractions[id].canonical.value, id, n);
    if r.None? {
      row := saved.(status := DeliveryFailed);
      row := row.(attempts := row.attempts + 1);
    } else if r.value == SentOk {
      row := row.(status := Delivered);
    } else if r.value == PermanentFail || row.attempts > |BACKOFF| {
      row := row.(status := DeliveryFailed);
    } else {
      row := row.(nextAttempt := Some(now + BACKOFF[row.attempts - 1]));
    }
    db.deliveries := db.deliveries[i := row];
  }

  // ----- a run over the due rows -----

  predicate IsDue(d: Delivery, now: int) {
    d.status == DeliveryPending && (d.nextAttempt.None? || d.nextAttempt.value <= now)
  }

  ghost predicate IsDueBatch(ds: seq<Delivery>, due: seq<nat>, now: int) {
    && (forall i | 0 <= i < |due| :: due[i] < |ds| && IsDue(ds[due[i]], now))
    && (forall i, j | 0 <= i < j < |due| :: due[i] != due[j])
  }

  datatype Attempt = Attempt(network: Network, at: int)

  /** The deliveries and the backend after the listed rows are tried in turn. */
  function AfterRun(
    exts: seq<Extraction>, ds: seq<Delivery>, b: Backend, due: seq<nat>, tries: nat -> Attempt)
    : (seq<Delivery>, Backend)
  {
    if due == [] then (ds, b)
    else
      var (before, backend) := AfterRun(exts, ds, b, due[..|due| - 1], tries);
      var i := due[|due| - 1];
      if i >= |before| then (before, backend)
      else (before[i := AfterAttempt(exts, before[i], tries(i).network, tries(i).at)],
            BackendAfter(exts, backend, before[i], tries(i).network))
  }

  /** How many of the listed rows have a status. */
  function CountOf(ds: seq<Delivery>, due: seq<nat>, status: DeliveryStatus): nat {
    if due == [] then 0
    else
      var i := due[|due| - 1];
      CountOf(ds, due[..|due| - 1], status) + if i < |ds| && ds[i].status == status then 1 else 0
  }

  lemma {:induction false} CountElsewhere(ds: seq<Delivery>, due: seq<nat>, i: nat, d: Delivery, status: DeliveryStatus)
    requires i < |ds| && i !in due
    ensures CountOf(ds[i := d], due, status) == CountOf(ds, due, status)
  {
    if due != [] {
      assert due[|due| - 1] in due;
      CountElsewhere(ds, due[..|due| - 1], i, d, status);
    }
  }

  /** `run_deliveries`; `due` is what its query selects. */
  method RunDeliveries(db: Database, store: Store, due: seq<nat>, now: int, tries: nat -> Attempt)
    returns (delivered: nat, failed: nat, retrying: nat)
    requires IsDueBatch(db.deliveries, due, now)
    modifies db`deliveries, store
    ensures (db.deliveries, store.View()) == AfterRun(db.extractions, old(db.deliveries), old(store.View()), due, tries)
    ensures delivered == CountOf(db.deliveries, due, Delivered) && failed == CountOf(db.deliveries, due, DeliveryFailed)
    ensures retrying == CountOf(db.deliveries, due, DeliveryPending)
  {
    hide AfterAttempt, BackendAfter;
    delivered, failed, retrying := 0, 0, 0;
    for k := 0 to |due|
      invariant |db.deliveries| == |old(db.deliveries)|
      invariant (db.deliveries, store.View())
             == AfterRun(db.extractions, old(db.deliveries), old(store.View()), due[..k], tries)
      invariant delivered == CountOf(db.deliveries, due[..k], Delivered)
      invariant failed == CountOf(db.deliveries, due[..k], DeliveryFailed)
      invariant retrying == CountOf(db.deliveries, due[..k], DeliveryPending)
    {
      assert due[..k + 1][..k] == due[..k];
      var i := due[k];
      ghost var d := AfterAttempt(db.extractions, db.deliveries[i], tries(i).network, tries(i).at);
      assert i !in due[..k];
      CountElsewhere(db.deliveries, due[..k], i, d, Delivered);
      CountElsewhere(db.deliveries, due[..k], i, d, DeliveryFailed);
      CountElsewhere(db.deliveries, due[..k], i, d, DeliveryPending);
      DeliverOne(db, store, i, tries(i).network, tries(i).at);
      match db.deliveries[i].status
      case Delivered => delivered := delivered + 1;
      case DeliveryFailed => failed := failed + 1;
      case DeliveryPending => retrying := retrying + 1;
    }
    assert due[..|due|] == due;
  }

  // ----- retries -----

  /** After a failure that may pass, the first five retries wait 1, 5, 30, 120 and 360 minutes, and are not
      due before; the sixth failure is final. An acknowledged or refused request is never retried. */
  lemma RetryLadder(exts: seq<Extraction>, d: Delivery, n: Network, now: int, later: int)
    requires IsApproved(exts, d.extraction) && IsDue(d, now) && d.attempts <= 5
    ensures var d' := AfterAttempt(exts, d, n, now);
      && d'.attempts == d.attempts + 1
      && (n == Arrives(true) ==> d'.status == Delivered)
      && (n.Breaks? || (n.TurnedAway? && n.code < 500 && n.code != 429) ==> d'.status == DeliveryFailed)
      && (n == Arrives(false) || n == NeverArrives || (n.TurnedAway? && (n.code >= 500 || n.code == 429)) ==>
            if d.attempts == 5 then d'.status == DeliveryFailed
            else
              var minutes := if d.attempts == 0 then 1 else if d.attempts == 1 then 5 else if d.attempts == 2 then 30
                             else if d.attempts == 3 then 120 else 360;
              d'.status == DeliveryPending && (IsDue(d', later) <==> later >= now + 60 * minutes))
  {
  }

  /** A repeated request is answered with the first id and stores nothing. */
  lemma SecondRequestStoresNothing(b: Backend, p: Payload, q: Payload, key: nat)
    ensures var once := Stored(b, p, Some(key));
      Stored(once, q, Some(key)) == once && StoredAs(once, q, Some(key)) == StoredAs(b, p, Some(key))
  {
  }
}
