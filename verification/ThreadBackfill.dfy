/** Bringing rows from before threads up to date (ar_pipeline/threads/backfill.py). The app is stopped
    while it runs, so keys are assigned without a lock. */
module ThreadBackfill {
  import opened Models
  import opened References
  import opened Dedupe

  predicate InFlight(status: EmailStatus) { status == New || status == Classified || status == Error }

  predicate Lacks(e: Email) { e.messages == [] && !InFlight(e.status) }

  function SourceMoved(s: Source): Source { s.(message := Some(0)) }

  function MovedSources(sources: seq<Source>): (r: seq<Source>)
    ensures |r| == |sources| && forall i | 0 <= i < |r| :: r[i] == SourceMoved(sources[i])
  {
    seq(|sources|, i requires 0 <= i < |sources| => SourceMoved(sources[i]))
  }

  function WithMessage(e: Email): Email {
    if Lacks(e) then e.(messages := [MessageNew], sources := MovedSources(e.sources)) else e
  }

  function WithMessages(emails: seq<Email>): (r: seq<Email>)
    ensures |r| == |emails| && forall i | 0 <= i < |r| :: r[i] == WithMessage(emails[i])
  {
    seq(|emails|, i requires 0 <= i < |emails| => WithMessage(emails[i]))
  }

  /** A payment of an email that gets its message points to it. */
  function Moved(emails: seq<Email>, ext: Extraction): Extraction {
    if ext.email < |emails| && Lacks(emails[ext.email]) then ext.(message := Some(0)) else ext
  }

  function MovedAll(emails: seq<Email>, exts: seq<Extraction>): (r: seq<Extraction>)
    ensures |r| == |exts| && forall i | 0 <= i < |r| :: r[i] == Moved(emails, exts[i])
  {
    seq(|exts|, i requires 0 <= i < |exts| => Moved(emails, exts[i]))
  }

  function LackCount(emails: seq<Email>): nat {
    if emails == [] then 0 else LackCount(emails[..|emails| - 1]) + if Lacks(emails[|emails| - 1]) then 1 else 0
  }

  /** The first loop: one message for each finished email that has none. */
  method CreateMessages(db: Database) returns (created: nat)
    modifies db`emails, db`extractions
    ensures db.emails == WithMessages(old(db.emails)) && db.extractions == MovedAll(old(db.emails), old(db.extractions))
    ensures created == LackCount(old(db.emails))
  {
    created := 0;
    ghost var emails, exts := db.emails, db.extractions;
    for e := 0 to |db.emails|
      invariant |db.emails| == |emails| && |db.extractions| == |exts|
      invariant created == LackCount(emails[..e])
      invariant forall i | 0 <= i < |emails| :: db.emails[i] == if i < e then WithMessage(emails[i]) else emails[i]
      invariant forall i | 0 <= i < |exts| ::
        db.extractions[i] == if exts[i].email < e then Moved(emails, exts[i]) else exts[i]
    {
      assert emails[..e + 1][..e] == emails[..e];
      if !Lacks(db.emails[e]) {
        continue;
      }
      db.emails := db.emails[e := db.emails[e].(messages := [MessageNew],
        sources := MovedSources(db.emails[e].sources))];
      db.extractions := Pointed(db.extractions, e);
      created := created + 1;
    }
    assert emails[..|emails|] == emails;
    assert db.emails == WithMessages(emails);
    assert db.extractions == MovedAll(emails, exts);
  }

  function Pointed(exts: seq<Extraction>, email: nat): (r: seq<Extraction>)
    ensures |r| == |exts|
    ensures forall i | 0 <= i < |r| :: r[i] == if exts[i].email == email then exts[i].(message := Some(0)) else exts[i]
  {
    seq(|exts|, i requires 0 <= i < |exts| => if exts[i].email == email then exts[i].(message := Some(0)) else exts[i])
  }

  // ----- keys -----

  predicate IsUnkeyed(ext: Extraction) { ext.claim.None? && ext.isRemittance && ext.duplicateOf.None? }

  /** Only live strong keys can clash. */
  function ClashOf(exts: seq<Extraction>, id: nat, found: Claim): Option<nat>
    requires id < |exts|
  {
    if found.strength == Strong && KeyLive(exts[id].status) then OtherOwner(exts, found.key, id) else None
  }

  function KeyedRow(exts: seq<Extraction>, id: nat): Extraction
    requires id < |exts|
  {
    var row, found := exts[id], KeyOf(exts[id].canonical);
    if !IsUnkeyed(row) || found.None? then row
    else
      var clash := ClashOf(exts, id, found.value);
      if clash.Some? then row.(duplicateOf := clash, flags := row.flags + [SameReference(clash.value)])
      else row.(claim := found)
  }

  /** The listed rows keyed one after the other. */
  function KeyedAll(exts: seq<Extraction>, order: seq<nat>): (r: seq<Extraction>)
    ensures |r| == |exts|
  {
    if order == [] then exts
    else
      var before, id := KeyedAll(exts, order[..|order| - 1]), order[|order| - 1];
      if id < |before| then before[id := KeyedRow(before, id)] else before
  }

  function Claims(exts: seq<Extraction>): nat {
    if exts == [] then 0 else Claims(exts[..|exts| - 1]) + if exts[|exts| - 1].claim.Some? then 1 else 0
  }

  function Links(exts: seq<Extraction>): nat {
    if exts == [] then 0 else Links(exts[..|exts| - 1]) + if exts[|exts| - 1].duplicateOf.Some? then 1 else 0
  }

  lemma {:induction false} CountsRevised(exts: seq<Extraction>, id: nat, x: Extraction)
    requires id < |exts|
    ensures Claims(exts[id := x]) - Claims(exts)
         == (if x.claim.Some? then 1 else 0) - if exts[id].claim.Some? then 1 else 0
    ensures Links(exts[id := x]) - Links(exts)
         == (if x.duplicateOf.Some? then 1 else 0) - if exts[id].duplicateOf.Some? then 1 else 0
  {
    var n := |exts| - 1;
    if id == n {
      assert exts[id := x][..n] == exts[..n];
    } else {
      assert exts[id := x][..n] == exts[..n][id := x];
      CountsRevised(exts[..n], id, x);
    }
  }

  /** The second loop; `order` is the order in which the database lists the rows without a key. */
  method AssignKeys(db: Database, order: seq<nat>) returns (keyed: nat, conflicts: nat)
    requires forall i | 0 <= i < |order| :: order[i] < |db.extractions| && IsUnkeyed(db.extractions[order[i]])
    requires forall i, j | 0 <= i < j < |order| :: order[i] != order[j]
    modifies db`extractions
    ensures db.extractions == KeyedAll(old(db.extractions), order)
    ensures Claims(db.extractions) == Claims(old(db.extractions)) + keyed
    ensures Links(db.extractions) == Links(old(db.extractions)) + conflicts
  {
    hide PaymentKeyFor;
    keyed, conflicts := 0, 0;
    ghost var exts := db.extractions;
    for i := 0 to |order|
      invariant db.extractions == KeyedAll(exts, order[..i])
      invariant |db.extractions| == |exts|
      invariant Claims(db.extractions) == Claims(exts) + keyed && Links(db.extractions) == Links(exts) + conflicts
      invariant forall j | i <= j < |order| :: db.extractions[order[j]] == exts[order[j]]
    {
      assert order[..i + 1][..i] == order[..i];
      var id := order[i];
      var row := db.extractions[id];
      var found := KeyOf(row.canonical);
      if found.None? {
        continue;
      }
      var clash := None;
      if found.value.strength == Strong && KeyLive(row.status) {
        clash := OtherOwner(db.extractions, found.value.key, id);
      }
      if clash.Some? {
        row := row.(duplicateOf := clash, flags := row.flags + [SameReference(clash.value)]);
        conflicts := conflicts + 1;
      } else {
        row := row.(claim := found);
        keyed := keyed + 1;
      }
      CountsRevised(db.extractions, id, row);
      db.extractions := db.extractions[id := row];
    }
    assert order[..|order|] == order;
  }

  // ----- running it again -----

  /** Nothing left for the second loop: what has no key and no link cannot have a key. */
  ghost predicate IsFinished(exts: seq<Extraction>, id: nat) {
    id < |exts| ==> (IsUnkeyed(exts[id]) ==> KeyOf(exts[id].canonical).None?)
  }

  lemma {:induction false} FinishedAfter(exts: seq<Extraction>, order: seq<nat>, id: nat)
    requires id in order || IsFinished(exts, id)
    ensures IsFinished(KeyedAll(exts, order), id)
  {
    hide KeyOf;
    if order != [] {
      var front := order[..|order| - 1];
      if id in front || IsFinished(exts, id) { FinishedAfter(exts, front, id); }
    }
  }

  lemma {:induction false} FinishedStays(exts: seq<Extraction>, order: seq<nat>)
    requires forall id | 0 <= id < |exts| :: IsFinished(exts, id)
    ensures KeyedAll(exts, order) == exts
  {
    hide KeyOf;
    if order != [] {
      FinishedStays(exts, order[..|order| - 1]);
      var id := order[|order| - 1];
      if id < |exts| { assert IsFinished(exts, id); }
    }
  }

  /** A second run, over any rows in any order, changes nothing. */
  lemma BackfillTwice(emails: seq<Email>, exts: seq<Extraction>, order: seq<nat>, again: seq<nat>)
    requires forall id | 0 <= id < |exts| && IsUnkeyed(exts[id]) :: id in order
    ensures KeyedAll(KeyedAll(exts, order), again) == KeyedAll(exts, order)
    ensures WithMessages(WithMessages(emails)) == WithMessages(emails)
    ensures MovedAll(WithMessages(emails), exts) == exts
  {
    hide KeyedAll, KeyOf;
    var once := KeyedAll(exts, order);
    forall id: nat | id < |once| ensures IsFinished(once, id) {
      FinishedAfter(exts, order, id);
    }
    FinishedStays(once, again);
    assert forall i | 0 <= i < |emails| :: !Lacks(WithMessages(emails)[i]);
  }

  /** Keys assigned without a lock still have one owner each. */
  lemma {:induction false} BackfillKeepsOneOwner(exts: seq<Extraction>, order: seq<nat>)
    requires OneOwner(exts)
    ensures OneOwner(KeyedAll(exts, order))
  {
    hide KeyOf, OneOwner;
    if order != [] {
      var front, id := order[..|order| - 1], order[|order| - 1];
      BackfillKeepsOneOwner(exts, front);
      var before := KeyedAll(exts, front);
      if id < |before| {
        KeyedRowIsUnowned(before, id);
        RevisedKeepsOneOwner(before, id, KeyedRow(before, id));
      }
    }
  }

  lemma KeyedRowIsUnowned(exts: seq<Extraction>, id: nat)
    requires OneOwner(exts) && id < |exts|
    ensures forall key | Owns(KeyedRow(exts, id), key) :: Unowned(exts, id, key)
  {
    hide KeyOf;
    var x := KeyedRow(exts, id);
    if x.claim == exts[id].claim {
      KeptClaimIsUnowned(exts, id, x);
    }
  }

  /** What keying makes of a row: a remittance without key or link gets its payload's key, unless another
      live payment owns that strong key; then it is linked to that payment, and says so. Any other row, and
      everything else of it, stays. */
  lemma KeyedRowIs(exts: seq<Extraction>, id: nat)
    requires id < |exts|
    ensures var x, y, found := exts[id], KeyedRow(exts, id), KeyOf(exts[id].canonical);
      && (!IsUnkeyed(x) || found.None? ==> y == x)
      && (IsUnkeyed(x) && found.Some? ==>
            if found.value.strength == Strong && KeyLive(x.status) && !Unowned(exts, id, found.value.key)
            then y.claim.None? && y.duplicateOf.Some? && y.duplicateOf.value < |exts|
                 && Owns(exts[y.duplicateOf.value], found.value.key)
                 && y == x.(duplicateOf := y.duplicateOf, flags := x.flags + [SameReference(y.duplicateOf.value)])
            else y == x.(claim := found))
  {
    hide KeyOf;
  }
}
