/** Payment keys, duplicates and history of a freshly read payment (ar_pipeline/threads/dedupe.py). */
module Dedupe {
  import opened Models
  import opened References

  const DUPLICATE_TOLERANCE: Money := 100
  const SECONDS_A_DAY: int := 86400

  /** The statuses in which a payment owns its key. */
  predicate KeyLive(status: ExtractionStatus) {
    status == PendingReview || status == Approved || status == AlreadyRecorded
  }

  predicate HasKey(ext: Extraction, key: PaymentKey) { ext.claim.Some? && ext.claim.value.key == key }

  /** `ext` is a live payment claiming `key`. */
  predicate Holds(ext: Extraction, key: PaymentKey) { KeyLive(ext.status) && HasKey(ext, key) }

  /** `ext` is the live owner of strong `key`. */
  predicate Owns(ext: Extraction, key: PaymentKey) {
    KeyLive(ext.status) && ext.claim == Some(Claim(key, Strong))
  }

  /** The first live payment other than `id` that claims `key`. */
  function HolderBefore(exts: seq<Extraction>, key: PaymentKey, id: nat, n: nat): (r: Option<nat>)
    requires n <= |exts|
    ensures r.Some? ==> r.value < n && r.value != id && Holds(exts[r.value], key)
    ensures r.None? ==> forall i | 0 <= i < n && i != id :: !Holds(exts[i], key)
  {
    if n == 0 then None
    else
      var r := HolderBefore(exts, key, id, n - 1);
      if r.None? && n - 1 != id && Holds(exts[n - 1], key) then Some(n - 1) else r
  }

  /** The live owner of strong `key` other than `id`. */
  function OwnerBefore(exts: seq<Extraction>, key: PaymentKey, id: nat, n: nat): (r: Option<nat>)
    requires n <= |exts|
    ensures r.Some? ==> r.value < n && r.value != id && Owns(exts[r.value], key)
    ensures r.None? ==> forall i | 0 <= i < n && i != id :: !Owns(exts[i], key)
  {
    if n == 0 then None
    else
      var r := OwnerBefore(exts, key, id, n - 1);
      if r.None? && n - 1 != id && Owns(exts[n - 1], key) then Some(n - 1) else r
  }

  function OtherHolder(exts: seq<Extraction>, key: PaymentKey, id: nat): Option<nat> {
    HolderBefore(exts, key, id, |exts|)
  }

  function OtherOwner(exts: seq<Extraction>, key: PaymentKey, id: nat): Option<nat> {
    OwnerBefore(exts, key, id, |exts|)
  }

  predicate RejectedWith(ext: Extraction, key: PaymentKey) { ext.status == Rejected && HasKey(ext, key) }

  /** Reviewed later; never reviewed counts as earliest. */
  predicate Later(a: Option<int>, b: Option<int>) { a.Some? && (b.None? || a.value > b.value) }

  /** The rejected payment with this key that was reviewed last. */
  function LastRejected(exts: seq<Extraction>, key: PaymentKey, id: nat, n: nat): (r: Option<nat>)
    requires n <= |exts|
    ensures r.Some? ==> r.value < n && r.value != id && RejectedWith(exts[r.value], key)
    ensures forall i | 0 <= i < n && i != id && RejectedWith(exts[i], key) ::
      r.Some? && !Later(exts[i].reviewedAt, exts[r.value].reviewedAt)
  {
    if n == 0 then None
    else
      var r := LastRejected(exts, key, id, n - 1);
      if n - 1 != id && RejectedWith(exts[n - 1], key)
         && (r.None? || Later(exts[n - 1].reviewedAt, exts[r.value].reviewedAt)) then Some(n - 1)
      else r
  }

  function RejectedFlags(exts: seq<Extraction>, key: PaymentKey, id: nat): seq<Flag> {
    var r := LastRejected(exts, key, id, |exts|);
    if r.Some? && exts[r.value].reviewedAt.Some?
    then [RejectedBefore(exts[r.value].reviewedAt.value / SECONDS_A_DAY, exts[r.value].reviewedBy,
      exts[r.value].rejectReason)]
    else []
  }

  function TotalOf(ext: Extraction): Option<Money> {
    if ext.canonical.Some? then Some(ext.canonical.value.header.total) else None
  }

  predicate SameTotal(a: Option<Money>, b: Option<Money>) {
    a.Some? && b.Some? && Abs(a.value - b.value) <= DUPLICATE_TOLERANCE
  }

  /** A payment whose strong key another one owns: a duplicate, or the same reference for other money. */
  function Linked(row: Extraction, key: PaymentKey, owner: Extraction, of: nat): Extraction {
    var linked := row.(duplicateOf := Some(of));
    if SameTotal(TotalOf(row), TotalOf(owner)) then linked.(status := Duplicate)
    else
      var currency := if owner.canonical.Some? && owner.canonical.value.header.currency != ""
                      then owner.canonical.value.header.currency else "INR";
      linked.(flags := row.flags + [ReferenceUsed(key, TotalOf(owner), currency, of)])
  }

  /** The extraction `id` after `assign_payment_key`. */
  function Assigned(exts: seq<Extraction>, id: nat): Extraction
    requires id < |exts|
  {
    var row, found := exts[id], KeyOf(exts[id].canonical);
    if found.None? then row
    else if found.value.strength == Weak then
      var other := OtherHolder(exts, found.value.key, id);
      row.(claim := found, flags := row.flags + if other.Some? then [PossibleDuplicate(other.value)] else [])
    else
      var owner := OtherOwner(exts, found.value.key, id);
      if owner.None? then row.(claim := found, flags := row.flags + RejectedFlags(exts, found.value.key, id))
      else Linked(row, found.value.key, exts[owner.value], owner.value)
  }

  /** `assign_payment_key`. */
  method AssignPaymentKey(db: Database, id: nat)
    requires id < |db.extractions|
    modifies db`extractions
    ensures db.extractions == old(db.extractions)[id := Assigned(old(db.extractions), id)]
  {
    hide PaymentKeyFor;
    var row := db.extractions[id];
    assert row.flags + [] == row.flags;
    var found := KeyOf(row.canonical);
    if found.None? {
      return;
    }
    var key, strength := found.value.key, found.value.strength;
    if strength == Weak {
      var other := OtherHolder(db.extractions, key, id);
      row := row.(claim := Some(Claim(key, Weak)));
      if other.Some? {
        row := row.(flags := row.flags + [PossibleDuplicate(other.value)]);
      }
      db.extractions := db.extractions[id := row];
      return;
    }
    var owner := OtherOwner(db.extractions, key, id);
    if owner.None? {
      var rejected := LastRejected(db.extractions, key, id, |db.extractions|);
      row := row.(claim := Some(Claim(key, Strong)));
      if rejected.Some? {
        var r := db.extractions[rejected.value];
        if r.reviewedAt.Some? {
          row := row.(flags := row.flags + [RejectedBefore(r.reviewedAt.value / SECONDS_A_DAY, r.reviewedBy,
            r.rejectReason)]);
        }
      }
      db.extractions := db.extractions[id := row];
      return;
    }
    var other := db.extractions[owner.value];
    row := row.(duplicateOf := owner);
    if SameTotal(TotalOf(row), TotalOf(other)) {
      row := row.(status := Duplicate);
    } else {
      var currency := if other.canonical.Some? then other.canonical.value.header.currency else "";
      if currency == "" {
        currency := "INR";
      }
      row := row.(flags := row.flags + [ReferenceUsed(key, TotalOf(other), currency, owner.value)]);
    }
    db.extractions := db.extractions[id := row];
  }

  // ----- one owner -----

  ghost predicate OneOwner(exts: seq<Extraction>) {
    forall i, j, key | 0 <= i < |exts| && 0 <= j < |exts| && Owns(exts[i], key) && Owns(exts[j], key) :: i == j
  }

  /** No payment but `id` owns `key`. */
  ghost predicate Unowned(exts: seq<Extraction>, id: nat, key: PaymentKey) {
    forall i | 0 <= i < |exts| && i != id :: !Owns(exts[i], key)
  }

  /** Assigning a key changes the claim only to the payload's own key, takes a strong key only if nobody
      else owns it, and makes the payment a duplicate exactly when it had no claim to its strong key and
      the owner's payment is for the same money. */
  lemma AssignedIs(exts: seq<Extraction>, id: nat)
    requires id < |exts|
    ensures var row, x := exts[id], Assigned(exts, id); var found := KeyOf(row.canonical);
      && x.canonical == row.canonical && x.email == row.email && x.isRemittance == row.isRemittance
      && row.flags <= x.flags
      && (x.claim == row.claim || x.claim == found)
      && (forall key | found == Some(Claim(key, Strong)) ::
            if Unowned(exts, id, key) then x.claim == found && x.status == row.status
            else x.claim == row.claim && (x.duplicateOf.Some? && x.duplicateOf.value < |exts|)
                 && Owns(exts[x.duplicateOf.value], key)
                 && x.status
                    == if SameTotal(TotalOf(row), TotalOf(exts[x.duplicateOf.value])) then Duplicate else row.status)
      && (found.None? || found.value.strength == Weak ==>
            x.status == row.status && x.claim == if found.None? then row.claim else found)
  {
    hide PaymentKeyFor;
    var found := KeyOf(exts[id].canonical);
    if found.Some? && found.value.strength == Strong {
      var key := found.value.key;
      assert found == Some(Claim(key, Strong));
    }
  }

  /** Revising one payment keeps one owner per key, if nobody else owns what it then claims. */
  lemma RevisedKeepsOneOwner(exts: seq<Extraction>, id: nat, x: Extraction)
    requires OneOwner(exts) && id < |exts|
    requires forall key | Owns(x, key) :: Unowned(exts, id, key)
    ensures OneOwner(exts[id := x])
  {
    var new_ := exts[id := x];
    forall i, j, key | 0 <= i < |new_| && 0 <= j < |new_| && Owns(new_[i], key) && Owns(new_[j], key) ensures i == j {
      if i != id { assert Owns(exts[i], key); }
      if j != id { assert Owns(exts[j], key); }
    }
  }

  /** A payment that keeps its claim, and was live if it still is, cannot take a key from anyone. */
  lemma KeptClaimIsUnowned(exts: seq<Extraction>, id: nat, x: Extraction)
    requires OneOwner(exts) && id < |exts|
    requires x.claim == exts[id].claim && (KeyLive(x.status) ==> KeyLive(exts[id].status))
    ensures forall key | Owns(x, key) :: Unowned(exts, id, key)
  {
    forall key | Owns(x, key) ensures Unowned(exts, id, key) {
      assert Owns(exts[id], key);
    }
  }

  /** Assigning a key to a payment without one keeps one owner per key. */
  lemma AssigningKeepsOneOwner(exts: seq<Extraction>, id: nat)
    requires OneOwner(exts) && id < |exts|
    requires exts[id].claim.None? || exts[id].claim == KeyOf(exts[id].canonical)
    ensures OneOwner(exts[id := Assigned(exts, id)])
    ensures forall key | Owns(Assigned(exts, id), key) :: Unowned(exts, id, key)
  {
    hide Assigned, PaymentKeyFor;
    AssignedIs(exts, id);
    var x := Assigned(exts, id);
    forall key | Owns(x, key) ensures Unowned(exts, id, key) {
      if x.claim == exts[id].claim {
        KeptClaimIsUnowned(exts, id, exts[id]);
        if !KeyLive(exts[id].status) { assert Unowned(exts, id, key); }
      }
    }
    RevisedKeepsOneOwner(exts, id, x);
  }
}
