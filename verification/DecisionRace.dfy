/** Simultaneous decisions on one payment (ar_pipeline/review/service.py:436-476, 578-702, 759-783). A status
    is read without a lock and written later, so two transactions can both find the payment pending.

    An event is one statement of one transaction. A session reads a row once and keeps what it read; what it
    writes are the columns its decision sets, from what it read. Writing a row waits for any other open
    transaction that has written it. The payment's flags and key columns are not followed here. */
module DecisionRace {
  import opened Models
  import opened Matching
  import opened Posting
  import opened Routing
  import opened Review
  import Invariant

  datatype Decision =
    | Approving(reviewer: string, now: int)
    | Rejecting(reviewer: string, reason: string, now: int)
    | Recording(reviewer: string, now: int)
    | Saving(form: Form, approves: bool, reviewer: string, now: int)
    | Replacing

  /** The call goes through, from what its session read. */
  predicate CanDecide(d: Decision, x: Extraction) {
    match d
    case Approving(_, _) => x.status == PendingReview && IsPayment(x)
    case Rejecting(_, reason, _) => x.status == PendingReview && Trim(reason) != ""
    case Recording(_, _) => x.status == PendingReview && IsPayment(x) && x.historical && x.duplicateOf.None?
    case Saving(form, approves, _, _) =>
      x.status == PendingReview && Edited(x, Some(form)).Some? && (approves ==> IsPayment(x))
    case Replacing => Replaceable(x.status)
  }

  /** The row as the session then has it. */
  function Decided(d: Decision, x: Extraction): Extraction {
    match d
    case Approving(reviewer, now) => Reviewed(x, Approved, reviewer, now)
    case Rejecting(reviewer, reason, now) => RejectedRow(x, reviewer, reason, now)
    case Recording(reviewer, now) => Reviewed(x, AlreadyRecorded, reviewer, now)
    case Saving(form, approves, reviewer, now) =>
      var saved := x.(canonical := Edited(x, Some(form)));
      if approves then Reviewed(saved, Approved, reviewer, now) else saved
    case Replacing => x.(status := Superseded)
  }

  predicate Approves(d: Decision) { d.Approving? || (d.Saving? && d.approves) }

  predicate Posts(d: Decision) { Approves(d) || d.Recording? }

  predicate WritesStatus(d: Decision) { !d.Saving? || d.approves }

  predicate WritesPayload(d: Decision) { Posts(d) || d.Saving? }

  /** The columns a decision sets, over those of the row as it is by then. */
  function Overwritten(row: Extraction, d: Decision, x: Extraction): Extraction {
    var y := Decided(d, x);
    row.(status := if WritesStatus(d) then y.status else row.status,
         canonical := if WritesPayload(d) then y.canonical else row.canonical,
         reviewedBy := if WritesStatus(d) && !d.Replacing? then y.reviewedBy else row.reviewedBy,
         reviewedAt := if WritesStatus(d) && !d.Replacing? then y.reviewedAt else row.reviewedAt,
         rejectReason := if d.Rejecting? then y.rejectReason else row.rejectReason)
  }

  datatype Tx = Tx(decision: Decision, read: Option<Extraction>, written: bool)

  /** The committed payment, whether the ledger has its rows, its deliveries, and the open transactions. */
  datatype System = System(row: Extraction, posted: bool, deliveries: nat, open: map<nat, Tx>)

  datatype Event = Begin(t: nat, decision: Decision) | Read(t: nat) | Write(t: nat) | Commit(t: nat) | Rollback(t: nat)

  predicate OtherWrote(s: System, t: nat) { exists u | u in s.open :: u != t && s.open[u].written }

  /** A refused call ends in a rollback. */
  predicate Enabled(s: System, ev: Event) {
    match ev
    case Begin(t, _) => t !in s.open
    case Read(t) => t in s.open && s.open[t].read.None?
    case Write(t) =>
      && t in s.open && s.open[t].read.Some? && CanDecide(s.open[t].decision, s.open[t].read.value)
      && !s.open[t].written && !OtherWrote(s, t)
    case Commit(t) => t in s.open && s.open[t].read.Some? && s.open[t].written
    case Rollback(t) => t in s.open
  }

  /** What a commit publishes. */
  function Published(s: System, tx: Tx): System
    requires tx.read.Some?
  {
    s.(row := Overwritten(s.row, tx.decision, tx.read.value),
       posted := s.posted || Posts(tx.decision),
       deliveries := s.deliveries + if Approves(tx.decision) then 1 else 0)
  }

  function Next(s: System, ev: Event): System
    requires Enabled(s, ev)
  {
    match ev
    case Begin(t, d) => s.(open := s.open[t := Tx(d, None, false)])
    case Read(t) => s.(open := s.open[t := s.open[t].(read := Some(s.row))])
    case Write(t) => s.(open := s.open[t := s.open[t].(written := true)])
    case Commit(t) => Published(s, s.open[t]).(open := s.open - {t})
    case Rollback(t) => s.(open := s.open - {t})
  }

  predicate EnabledRun(s: System, run: seq<Event>)
    decreases run
  {
    run == [] || (Enabled(s, run[0]) && EnabledRun(Next(s, run[0]), run[1..]))
  }

  function Run(s: System, run: seq<Event>): System
    requires EnabledRun(s, run)
    decreases run
  {
    if run == [] then s else Run(Next(s, run[0]), run[1..])
  }

  /** Only one open transaction has written, and it was allowed to. */
  ghost predicate Valid(s: System) {
    && (forall t | t in s.open && s.open[t].written ::
          s.open[t].read.Some? && CanDecide(s.open[t].decision, s.open[t].read.value))
    && (forall t, u | t in s.open && u in s.open && s.open[t].written && s.open[u].written :: t == u)
  }

  lemma EventKeepsValid(s: System, ev: Event)
    requires Valid(s) && Enabled(s, ev)
    ensures Valid(Next(s, ev))
  {
    hide CanDecide, Overwritten;
  }

  // ----- when a decision stands -----

  /** The payment is as it was decided, with the deliveries it had. */
  ghost predicate Stands(s: System, s': System) {
    Invariant.Frozen(s.row, s'.row) && s'.row.status == s.row.status && s'.row.canonical == s.row.canonical
    && s'.deliveries == s.deliveries
  }

  /** The transaction read the payment when it could still be decided, and its decision is another than the
      one that stands: anything but the same payload saved or recorded again. */
  predicate Threatens(row: Extraction, tx: Tx) {
    && tx.read.Some? && CanDecide(tx.decision, tx.read.value)
    && (|| Approves(tx.decision) || tx.decision.Rejecting? || tx.decision.Replacing?
        || Decided(tx.decision, tx.read.value).canonical != row.canonical
        || (tx.decision.Recording? && row.status != AlreadyRecorded))
  }

  ghost predicate Unthreatened(s: System) { forall t | t in s.open :: !Threatens(s.row, s.open[t]) }

  lemma PostedIsDecided(d: Decision, x: Extraction)
    requires IsPosted(x.status)
    ensures !CanDecide(d, x)
  {
  }

  /** With nobody threatening it, the next event leaves the decision standing and unthreatened. */
  lemma UnthreatenedStays(s: System, ev: Event)
    requires Valid(s) && Enabled(s, ev) && IsPosted(s.row.status) && Unthreatened(s)
    ensures Stands(s, Next(s, ev)) && Unthreatened(Next(s, ev))
  {
    match ev
    case Read(t) => PostedIsDecided(s.open[t].decision, s.row);
    case Commit(t) => assert !Threatens(s.row, s.open[t]);
    case _ =>
  }

  lemma {:induction false} UnthreatenedRun(s: System, run: seq<Event>)
    requires Valid(s) && EnabledRun(s, run) && IsPosted(s.row.status) && Unthreatened(s)
    ensures Stands(s, Run(s, run))
    decreases run
  {
    hide Enabled, Next, Valid, Unthreatened;
    if run != [] {
      EventKeepsValid(s, run[0]);
      UnthreatenedStays(s, run[0]);
      UnthreatenedRun(Next(s, run[0]), run[1..]);
    }
  }

  /** What a threatening transaction does when it commits. */
  lemma ThreatUndoes(s: System, t: nat)
    requires t in s.open && Threatens(s.row, s.open[t]) && IsPosted(s.row.status)
    ensures !Stands(s, Published(s, s.open[t]))
  {
  }

  /** A run in which it commits: any other that has written is rolled back first. */
  lemma ThreatCommits(s: System, t: nat) returns (run: seq<Event>)
    requires Valid(s) && t in s.open && Threatens(s.row, s.open[t]) && IsPosted(s.row.status)
    ensures EnabledRun(s, run) && !Stands(s, Run(s, run))
  {
    if s.open[t].written {
      run := [Commit(t)];
      ThreatUndoes(s, t);
      OneEvent(s, Commit(t));
    } else if u :| u in s.open && u != t && s.open[u].written {
      var s1 := s.(open := s.open - {u});
      assert Next(s, Rollback(u)) == s1;
      WritesAndCommits(s1, t);
      run := [Rollback(u), Write(t), Commit(t)];
      assert run[1..] == [Write(t), Commit(t)];
      assert Published(s, s.open[t]).(open := s1.open) == Published(s1, s1.open[t]);
    } else {
      WritesAndCommits(s, t);
      run := [Write(t), Commit(t)];
    }
  }

  lemma OneEvent(s: System, ev: Event)
    requires Enabled(s, ev)
    ensures EnabledRun(s, [ev]) && Run(s, [ev]) == Next(s, ev)
  {
    assert [ev][1..] == [];
  }

  lemma WritesAndCommits(s: System, t: nat)
    requires t in s.open && Threatens(s.row, s.open[t]) && !s.open[t].written && !OtherWrote(s, t)
      && IsPosted(s.row.status)
    ensures EnabledRun(s, [Write(t), Commit(t)]) && !Stands(s, Run(s, [Write(t), Commit(t)]))
  {
    var s1 := Next(s, Write(t));
    OneEvent(s1, Commit(t));
    assert [Write(t), Commit(t)][1..] == [Commit(t)];
    ThreatUndoes(s, t);
    hide Threatens, Overwritten, CanDecide;
  }

  /** A payment once approved or recorded stands, whatever is tried next, exactly when no transaction still
      open read it before and decides otherwise. */
  lemma DecisionStandsExactly(s: System)
    requires Valid(s) && IsPosted(s.row.status)
    ensures (forall run | EnabledRun(s, run) :: Stands(s, Run(s, run))) <==> Unthreatened(s)
  {
    hide Threatens, Stands, EnabledRun, Run, Valid;
    if Unthreatened(s) {
      forall run | EnabledRun(s, run) ensures Stands(s, Run(s, run)) { UnthreatenedRun(s, run); }
    } else {
      var t :| t in s.open && Threatens(s.row, s.open[t]);
      var run := ThreatCommits(s, t);
    }
  }

  /** In particular when, at its commit, no other open transaction had read the payment while it could be
      decided: one decision at a time is final. */
  lemma LoneDecisionStands(s: System, t: nat, run: seq<Event>)
    requires Valid(s) && Enabled(s, Commit(t)) && Posts(s.open[t].decision)
    requires forall u | u in s.open && u != t && s.open[u].read.Some? ::
      !CanDecide(s.open[u].decision, s.open[u].read.value)
    requires EnabledRun(Next(s, Commit(t)), run)
    ensures IsPosted(Next(s, Commit(t)).row.status) && Stands(Next(s, Commit(t)), Run(Next(s, Commit(t)), run))
  {
    var s' := Next(s, Commit(t));
    EventKeepsValid(s, Commit(t));
    assert Unthreatened(s');
    hide Threatens, Stands, CanDecide, Enabled, Next, Valid, Unthreatened;
    UnthreatenedRun(s', run);
  }

  // ----- what is kept even so -----

  /** An approved payment has a delivery, and an approved or recorded one its ledger rows. */
  ghost predicate IsBacked(s: System) {
    (s.row.status == Approved ==> s.deliveries > 0) && (IsPosted(s.row.status) ==> s.posted)
  }

  lemma EventKeepsBacked(s: System, ev: Event)
    requires IsBacked(s) && Enabled(s, ev)
    ensures IsBacked(Next(s, ev)) && (s.posted ==> Next(s, ev).posted) && s.deliveries <= Next(s, ev).deliveries
  {
  }

  /** In every interleaving rows are never taken back nor deliveries withdrawn, and what is approved has
      both. The converse fails: see below. */
  lemma {:induction false} RacesKeepBacked(s: System, run: seq<Event>)
    requires IsBacked(s) && EnabledRun(s, run)
    ensures IsBacked(Run(s, run)) && (s.posted ==> Run(s, run).posted) && s.deliveries <= Run(s, run).deliveries
    decreases run
  {
    hide IsBacked, Enabled, Next;
    if run != [] {
      EventKeepsBacked(s, run[0]);
      RacesKeepBacked(Next(s, run[0]), run[1..]);
    }
  }

  // ----- two decisions at once -----

  /** Both read the payment before either commits; `first` commits first. */
  function BothDecide(first: Decision, second: Decision): seq<Event> {
    [Begin(0, first), Begin(1, second), Read(0), Read(1), Write(0), Commit(0), Write(1), Commit(1)]
  }

  function Quiet(x: Extraction): System { System(x, false, 0, map[]) }

  lemma Unrolled(s: System, ev: Event, rest: seq<Event>)
    requires Enabled(s, ev) && EnabledRun(Next(s, ev), rest)
    ensures EnabledRun(s, [ev] + rest) && Run(s, [ev] + rest) == Run(Next(s, ev), rest)
  {
    assert ([ev] + rest)[1..] == rest;
    hide Enabled, Next;
  }

  lemma SecondDecides(s: System, x: Extraction, d: Decision)
    requires s.open == map[1 := Tx(d, Some(x), false)] && CanDecide(d, x)
    ensures EnabledRun(s, [Write(1), Commit(1)])
    ensures Run(s, [Write(1), Commit(1)]) == Published(s, Tx(d, Some(x), true)).(open := map[])
  {
    var s1 := Next(s, Write(1));
    OneEvent(s1, Commit(1));
    assert [Write(1), Commit(1)] == [Write(1)] + [Commit(1)];
    Unrolled(s, Write(1), [Commit(1)]);
    assert s1.open - {1} == map[];
    hide Overwritten, CanDecide;
  }

  lemma FirstDecides(s: System, x: Extraction, first: Decision, second: Decision)
    requires s.open == map[0 := Tx(first, Some(x), false), 1 := Tx(second, Some(x), false)]
    requires CanDecide(first, x) && CanDecide(second, x)
    ensures var run := [Write(0), Commit(0), Write(1), Commit(1)];
      && EnabledRun(s, run)
      && Run(s, run) == Published(Published(s, Tx(first, Some(x), true)), Tx(second, Some(x), true)).(open := map[])
  {
    var s1 := Next(s, Write(0));
    var s2 := Next(s1, Commit(0));
    assert s2.open == map[1 := Tx(second, Some(x), false)];
    SecondDecides(s2, x, second);
    assert [Commit(0), Write(1), Commit(1)] == [Commit(0)] + [Write(1), Commit(1)];
    Unrolled(s1, Commit(0), [Write(1), Commit(1)]);
    assert [Write(0), Commit(0), Write(1), Commit(1)] == [Write(0)] + [Commit(0), Write(1), Commit(1)];
    Unrolled(s, Write(0), [Commit(0), Write(1), Commit(1)]);
    hide Overwritten, CanDecide;
  }

  /** Any two decisions the payment allows can both go through, and the second overwrites the first. */
  lemma BothGoThrough(x: Extraction, first: Decision, second: Decision)
    requires CanDecide(first, x) && CanDecide(second, x)
    ensures var run := BothDecide(first, second);
      && EnabledRun(Quiet(x), run)
      && Run(Quiet(x), run)
         == Published(Published(Quiet(x), Tx(first, Some(x), true)), Tx(second, Some(x), true)).(open := map[])
  {
    hide CanDecide, Overwritten, Published, Run, EnabledRun;
    var s0 := Quiet(x);
    var s1 := Next(s0, Begin(0, first));
    var s2 := Next(s1, Begin(1, second));
    var s3 := Next(s2, Read(0));
    var s4 := Next(s3, Read(1));
    assert s4 == System(x, false, 0, map[0 := Tx(first, Some(x), false), 1 := Tx(second, Some(x), false)]);
    FirstDecides(s4, x, first, second);
    Shared(s0, s4, Tx(first, Some(x), true), Tx(second, Some(x), true));
    var rest := [Write(0), Commit(0), Write(1), Commit(1)];
    Unrolled(s3, Read(1), rest);
    Unrolled(s2, Read(0), [Read(1)] + rest);
    Unrolled(s1, Begin(1, second), [Read(0)] + ([Read(1)] + rest));
    Unrolled(s0, Begin(0, first), [Begin(1, second)] + ([Read(0)] + ([Read(1)] + rest)));
    assert BothDecide(first, second) == [Begin(0, first)] + ([Begin(1, second)] + ([Read(0)] + ([Read(1)] + rest)));
  }

  lemma Shared(s: System, s': System, a: Tx, b: Tx)
    requires s'.(open := s.open) == s && a.read.Some? && b.read.Some?
    ensures Published(Published(s', a), b).(open := map[]) == Published(Published(s, a), b).(open := map[])
  {
    hide Overwritten;
  }

  /** Approved and rejected at once: a rejected payment with ledger rows and a delivery, so the deliverer can
      find a payment no longer approved. */
  lemma RejectedYetPosted(x: Extraction, reviewer: string, reason: string, now: int)
    requires x.status == PendingReview && IsPayment(x) && Trim(reason) != ""
    ensures var s := Quiet(x); var run := BothDecide(Approving(reviewer, now), Rejecting(reviewer, reason, now));
      EnabledRun(s, run) && Run(s, run).row.status == Rejected && Run(s, run).posted && Run(s, run).deliveries == 1
  {
    BothGoThrough(x, Approving(reviewer, now), Rejecting(reviewer, reason, now));
    hide EnabledRun, Run, Trim;
  }

  /** Approved twice at once: two deliveries. */
  lemma ApprovedTwice(x: Extraction, reviewer: string, now: int)
    requires x.status == PendingReview && IsPayment(x)
    ensures var s, run := Quiet(x), BothDecide(Approving(reviewer, now), Approving(reviewer, now));
      EnabledRun(s, run) && Run(s, run).row.status == Approved && Run(s, run).deliveries == 2
  {
    BothGoThrough(x, Approving(reviewer, now), Approving(reviewer, now));
    hide EnabledRun, Run;
  }

  /** Edited while it is approved: the approved payment holds edits that were never checked nor posted. */
  lemma EditedAfterApproval(x: Extraction, form: Form, reviewer: string, now: int)
    requires x.status == PendingReview && IsPayment(x) && form.lines != []
    ensures var s, run := Quiet(x), BothDecide(Approving(reviewer, now), Saving(form, false, reviewer, now));
      EnabledRun(s, run) && Run(s, run).row.status == Approved && Run(s, run).posted
      && Run(s, run).row.canonical == Edited(x, Some(form))
  {
    BothGoThrough(x, Approving(reviewer, now), Saving(form, false, reviewer, now));
    hide EnabledRun, Run;
  }
}
