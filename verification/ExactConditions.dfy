/**
 * Where the code does not keep what the design document promises: for each broken promise the
 * exact condition under which a step keeps it. Module Breaches runs into each of them.
 */
module ExactConditions {
  import opened Wrappers
  import opened Sums
  import opened Lifecycle
  import opened Tables
  import opened Flagging
  import opened Transactions
  import opened Hcm
  import opened System
  import opened Invariant
  import opened InvariantSteps
  import opened Reservations
  import opened StatusHistory
  import opened Solvency

  // ---------- reserved days as the sum of the held days ----------

  /**
   * The closing transaction of an approve call whose request a push has failed meanwhile, and
   * whose days are still in the snapshot, taken there from other requests.
   */
  ghost predicate TakesOthersDays(s: State, e: Event, key: Key) {
    && e.ApproveFinish? && e.id in s.approvals && e.id < |s.db.requests| && key in s.db.balances
    && var request, phase := s.db.requests[e.id], s.approvals[e.id].phase;
       && request.key == key && request.status == Failed
       && s.db.balances[key].reserved >= request.days
       && (phase.TurnedDown? || (phase.Acked? && s.db.balances[key].balance >= request.days))
  }

  /** Exactly these steps make reserved days differ from the held days. */
  lemma ExactIffNoDaysTaken(c: Config, s: State, e: Event, key: Key)
    requires Inv(c, s) && ExactAt(s.db, key)
    ensures ExactAt(Next(c, s, e).db, key) <==> !TakesOthersDays(s, e, key)
  {
    if ClosesLive(s, e, key) {
      StepExact(c, s, e, key);
    } else {
      StaleClose(c, s, e.id);
    }
  }

  /** A stale closing transaction goes through, and takes the days, or is rolled back. */
  lemma StaleClose(c: Config, s: State, id: RequestId)
    requires Inv(c, s) && id in s.approvals && id < |s.db.requests| && s.db.requests[id].status == Failed
    requires ExactAt(s.db, s.db.requests[id].key)
    ensures ExactAt(ApproveFinishStep(s, id).db, s.db.requests[id].key) <==>
            !TakesOthersDays(s, ApproveFinish(id), s.db.requests[id].key)
  {
    hide Inv;
    var request, row := s.db.requests[id], s.approvals[id].row;
    StaleRow(c, s, id);
    match s.approvals[id].phase
    case Calling(_) =>
    case Settled =>
    case GaveUp =>
    case Acked(commitId) =>
      HeldUpdate(s.db.requests, id, row.(status := Committed, commitId := Some(commitId)), request.key);
    case TurnedDown(code) =>
      HeldUpdate(s.db.requests, id, row.(status := Failed), request.key);
  }

  /** What the invariant says of a stale call. */
  lemma StaleRow(c: Config, s: State, id: RequestId)
    requires Inv(c, s) && id in s.approvals && s.db.requests[id].status == Failed
    ensures id < |s.db.requests| && SameRequest(s.approvals[id].row, s.db.requests[id])
    ensures s.db.requests[id].key in s.db.balances && s.db.requests[id].days > 0
    ensures DebitRows(s.db.ledger, id) == 0
  {
    assert CommitOk(s.db, s.hcm, id);
  }

  /**
   * A push that finds more days held than the balance resets reserved days to the survivors'
   * sum, whatever they were. Any other push leaves them exact or inexact, as they were.
   */
  lemma PushRepairsIff(db: Db, key: Key, absolute: int, listing: seq<RequestId>)
    requires RowsOk(db) && IsListing(db.requests, key, listing)
    ensures ExactAt(PushTx(db, key, absolute, listing).db, key) <==>
            ExactAt(db, key) || Held(db.requests, key) > absolute
  {
    hide Flagged, HeldWeights, SumAt;
    ListingHoldsAll(db.requests, key, listing);
    if Held(db.requests, key) <= absolute {
      NothingFlagged(db, key, absolute, listing);
      if key !in db.balances {
        NoRequestNoHeld(db.requests, key);
      }
    }
  }

  // ---------- approvals that nothing will settle ----------

  /** No call or outbox row is left to settle the APPROVED request. */
  predicate IsStranded(s: State, id: RequestId) {
    && id < |s.db.requests| && s.db.requests[id].status == Approved
    && id !in s.approvals && id !in s.db.outbox
  }

  /** A guard of the closing transaction throws, and the transaction is rolled back. */
  predicate GuardFires(s: State, id: RequestId)
    requires id in s.approvals && s.approvals[id].row.key in s.db.balances
  {
    var snapshot, call := s.db.balances[s.approvals[id].row.key], s.approvals[id];
    || (call.phase.Acked? && (snapshot.reserved < call.row.days || snapshot.balance < call.row.days))
    || (call.phase.TurnedDown? && snapshot.reserved < call.row.days)
  }

  /** Exactly then an approve call strands its request, which is still APPROVED when it ends. */
  lemma StrandsIffGuardFires(c: Config, s: State, id: RequestId)
    requires Inv(c, s) && id in s.approvals && id < |s.db.requests|
    requires s.db.requests[id].status == Approved
    ensures s.approvals[id].row.key in s.db.balances
    ensures IsStranded(ApproveFinishStep(s, id), id) <==> GuardFires(s, id)
  {
    hide Inv;
    LiveRow(c, s, id);
  }

  /** Over all steps: exactly this one makes an approval stranded. */
  lemma BecomesStrandedIff(c: Config, s: State, e: Event, id: RequestId)
    requires Inv(c, s) && !IsStranded(s, id)
    ensures IsStranded(Next(c, s, e), id) <==>
            && e == ApproveFinish(id) && id in s.approvals && id < |s.db.requests|
            && s.db.requests[id].status == Approved && s.approvals[id].row.key in s.db.balances
            && GuardFires(s, id)
  {
    if e == ApproveFinish(id) {
      FinishStrandsIff(c, s, id);
    } else if e.ApproveFinish? {
      FinishStrandsNoOther(c, s, e.id, id);
    } else if IsStranded(Next(c, s, e), id) {
      OutboxStays(c, s, e);
      if e == ApproveBegin(id) {
        BeginStrandsNone(c, s, id);
      } else {
        InvThreads(c, s);
        hide Next, Inv;
        NotNewlyApproved(c, s, e, id);
      }
    }
  }

  lemma BeginStrandsNone(c: Config, s: State, id: RequestId)
    requires !IsStranded(s, id)
    ensures !IsStranded(ApproveStep(s, id), id)
  {
  }

  lemma FinishStrandsIff(c: Config, s: State, id: RequestId)
    requires Inv(c, s) && !IsStranded(s, id)
    ensures IsStranded(ApproveFinishStep(s, id), id) <==>
            && id in s.approvals && id < |s.db.requests| && s.db.requests[id].status == Approved
            && s.approvals[id].row.key in s.db.balances && GuardFires(s, id)
  {
    if id in s.approvals {
      CallRow(c, s, id);
      if s.db.requests[id].status == Approved {
        StrandsIffGuardFires(c, s, id);
      } else {
        StaleRow(c, s, id);
        hide Inv;
      }
    }
  }

  lemma FinishStrandsNoOther(c: Config, s: State, closed: RequestId, id: RequestId)
    requires Inv(c, s) && !IsStranded(s, id) && closed != id
    ensures !IsStranded(ApproveFinishStep(s, closed), id)
  {
    if closed in s.approvals {
      InvThreads(c, s);
      hide Inv, ThreadsOk, ApproveFinishStep;
      FinishElsewhere(c, s, closed);
    }
  }

  /** What the invariant says of a live call. */
  lemma LiveRow(c: Config, s: State, id: RequestId)
    requires Inv(c, s) && id in s.approvals && id < |s.db.requests|
    requires s.db.requests[id].status == Approved
    ensures SameRequest(s.approvals[id].row, s.db.requests[id])
    ensures s.db.requests[id].key in s.db.balances && s.db.requests[id].days > 0
    ensures DebitRows(s.db.ledger, id) == 0 && s.approvals[id].phase != Settled && id !in s.db.outbox
  {
    assert CommitOk(s.db, s.hcm, id);
  }

  // ---------- reserved days within the balance ----------

  /** The refresh pulls an existing balance below the days reserved on it. */
  predicate Overbooks(s: State, e: Event, key: Key) {
    e.Refresh? && e.key == key && key in s.db.balances && 0 <= e.absolute < s.db.balances[key].reserved
  }

  /** A push of a negative balance, which only the batch endpoint turns away. */
  ghost predicate PushesNegative(s: State, e: Event) {
    e.Push? && e.absolute < 0 && IsListing(s.db.requests, e.key, e.listing)
  }

  /** Exactly these steps leave more days reserved than the balance has. */
  lemma FitsIffNotOverbooked(c: Config, s: State, e: Event, key: Key)
    requires Inv(c, s) && FitsAt(s.db, key)
    ensures FitsAt(Next(c, s, e).db, key) <==>
            !Overbooks(s, e, key) && !(PushesNegative(s, e) && e.key == key)
  {
    if e.Push? {
      PushFitsIff(c, s, e, key);
    } else if !e.Refresh? {
      StepFits(c, s, e, key);
    }
  }

  lemma PushFitsIff(c: Config, s: State, e: Event, key: Key)
    requires Inv(c, s) && FitsAt(s.db, key) && e.Push?
    ensures FitsAt(Next(c, s, e).db, key) <==> !(PushesNegative(s, e) && e.key == key)
  {
    if PushesNegative(s, e) && e.key == key {
      StepKeeps(c, s, e);
      var after := Next(c, s, e).db;
      assert ReservedOk(after.balances[key], after.requests, key);
    } else if IsListing(s.db.requests, e.key, e.listing) {
      StepFits(c, s, e, key);
    }
  }

  // ---------- balances of at least zero ----------

  /** Exactly these steps store a negative balance. */
  lemma NonNegativeIffPushIsSound(c: Config, s: State, e: Event, key: Key)
    requires NonNegativeAt(s.db, key)
    ensures NonNegativeAt(Next(c, s, e).db, key) <==> !(PushesNegative(s, e) && e.key == key)
  {
    if !(PushesNegative(s, e) && e.key == key) {
      StepNonNegative(c, s, e, key);
    }
  }

  // ---------- status changes within the transition table ----------

  /** The push flags the request while it is PENDING. */
  ghost predicate FlagsPending(s: State, e: Event, id: RequestId) {
    && e.Push? && IsListing(s.db.requests, e.key, e.listing)
    && id in Flagged(s.db.requests, e.key, e.absolute, e.listing)
    && id < |s.db.requests| && s.db.requests[id].status == Pending
  }

  /** An acknowledged approve call ends, its request has been failed, and both guards pass. */
  ghost predicate CommitsFailed(s: State, e: Event, id: RequestId) {
    && e == ApproveFinish(id) && id in s.approvals && s.approvals[id].phase.Acked?
    && id < |s.db.requests| && s.db.requests[id].status == Failed
    && s.db.requests[id].key in s.db.balances
    && var snapshot, days := s.db.balances[s.db.requests[id].key], s.db.requests[id].days;
       snapshot.reserved >= days && snapshot.balance >= days
  }

  ghost predicate IsLawful(s: State, after: State, id: RequestId)
    requires id < |s.db.requests| && id < |after.db.requests|
  {
    StatusOf(after, id) == StatusOf(s, id) || CanTransition(StatusOf(s, id), StatusOf(after, id))
  }

  /** Exactly these two kinds of step change a status against the transition table. */
  lemma LawfulIffNotOvertaken(c: Config, s: State, e: Event, id: RequestId)
    requires Inv(c, s) && id < |s.db.requests|
    ensures id < |Next(c, s, e).db.requests|
    ensures IsLawful(s, Next(c, s, e), id) <==> !FlagsPending(s, e, id) && !CommitsFailed(s, e, id)
  {
    hide Inv, ThreadsOk;
    InvThreads(c, s);
    StepStatus(c, s, e, id);
    if e.Push? {
      PushIsLawfulIff(c, s, e, id);
    } else if e == ApproveFinish(id) && id in s.approvals && s.db.requests[id].status == Failed {
      StaleCloseIsLawfulIff(c, s, id);
    } else {
      hide Next;
    }
  }

  lemma PushIsLawfulIff(c: Config, s: State, e: Event, id: RequestId)
    requires id < |s.db.requests| && e.Push?
    ensures id < |Next(c, s, e).db.requests|
    ensures IsLawful(s, Next(c, s, e), id) <==> !FlagsPending(s, e, id)
  {
    hide PushTx, Flagged, IsListing;
    if IsListing(s.db.requests, e.key, e.listing) {
      PushedStatus(s.db, e.key, e.absolute, e.listing, id);
    }
  }

  lemma PushedStatus(db: Db, key: Key, absolute: int, listing: seq<RequestId>, id: RequestId)
    requires IsListing(db.requests, key, listing) && id < |db.requests|
    ensures var flagged, after := Flagged(db.requests, key, absolute, listing), PushTx(db, key, absolute, listing).db;
            && |after.requests| == |db.requests|
            && after.requests[id].status == (if id in flagged then Failed else db.requests[id].status)
            && (id in flagged ==> db.requests[id].status == Pending || db.requests[id].status == Approved)
  {
    hide IsListing, Held;
    FlaggedAreHeld(db.requests, key, absolute, listing);
  }

  lemma StaleCloseIsLawfulIff(c: Config, s: State, id: RequestId)
    requires Inv(c, s) && id in s.approvals && id < |s.db.requests| && s.db.requests[id].status == Failed
    ensures id < |ApproveFinishStep(s, id).db.requests|
    ensures IsLawful(s, ApproveFinishStep(s, id), id) <==> !CommitsFailed(s, ApproveFinish(id), id)
  {
    hide Inv;
    StaleRow(c, s, id);
  }

  // ---------- ledger rows without a debit key ----------

  /**
   * The push or refresh changes or creates the balance, or a refusal for lack of balance ends an
   * approve call whose days can be released.
   */
  ghost predicate AddsUnkeyedRow(s: State, e: Event) {
    || (e.Push? && IsListing(s.db.requests, e.key, e.listing) &&
        e.absolute != SnapshotAt(s.db.balances, e.key).balance)
    || (e.Refresh? && e.absolute >= 0 &&
        (e.key !in s.db.balances || e.absolute != s.db.balances[e.key].balance))
    || (e.ApproveFinish? && e.id in s.approvals && s.approvals[e.id].phase == TurnedDown(InsufficientAtHcm) &&
        s.approvals[e.id].row.key in s.db.balances &&
        s.db.balances[s.approvals[e.id].row.key].reserved >= s.approvals[e.id].row.days)
  }

  ghost predicate GrowsUnkeyed(ledger: seq<LedgerRow>, after: seq<LedgerRow>) {
    |after| == |ledger| + 1 && after[|ledger|].debitKey == None
  }

  /** Exactly these steps add a row without a debit key; every other row added is a keyed DEBIT. */
  lemma UnkeyedRowIff(c: Config, s: State, e: Event)
    requires Inv(c, s)
    ensures GrowsUnkeyed(s.db.ledger, Next(c, s, e).db.ledger) <==> AddsUnkeyedRow(s, e)
    ensures LedgerGrows(s.db.ledger, Next(c, s, e).db.ledger)
  {
    StepGrowsLedger(c, s, e);
    hide Inv;
    if !WritesTables(e) {
      OtherStepsKeepTables(c, s, e);
      hide Next;
    } else if e.ApproveFinish? {
      FinishUnkeyedIff(c, s, e.id);
    } else if e.WorkerSettle? {
      SettleKeysRows(s);
    } else if e.Push? {
      PushUnkeyedIff(c, s, e);
    } else {
      TableUnkeyedIff(c, s, e);
    }
  }

  lemma PushUnkeyedIff(c: Config, s: State, e: Event)
    requires e.Push?
    ensures GrowsUnkeyed(s.db.ledger, Next(c, s, e).db.ledger) <==> AddsUnkeyedRow(s, e)
  {
    hide Flagged, FailAll, Held, HeldWeights, SumAt;
  }

  lemma TableUnkeyedIff(c: Config, s: State, e: Event)
    requires e.Create? || e.ApproveBegin? || e.Reject? || e.Cancel? || e.Refresh?
    ensures GrowsUnkeyed(s.db.ledger, Next(c, s, e).db.ledger) <==> AddsUnkeyedRow(s, e)
  {
    hide PushTx;
  }

  lemma FinishUnkeyedIff(c: Config, s: State, id: RequestId)
    requires Inv(c, s)
    ensures GrowsUnkeyed(s.db.ledger, ApproveFinishStep(s, id).db.ledger) <==> AddsUnkeyedRow(s, ApproveFinish(id))
  {
    if id in s.approvals {
      CallRow(c, s, id);
      hide Inv;
      match s.approvals[id].phase
      case Acked(_) => AckedAddsKeyed(s, id);
      case TurnedDown(code) =>
      case _ =>
    }
  }

  /** A commit adds a row with a debit key or none. */
  lemma AckedAddsKeyed(s: State, id: RequestId)
    requires id in s.approvals && s.approvals[id].phase.Acked?
    ensures !GrowsUnkeyed(s.db.ledger, ApproveFinishStep(s, id).db.ledger)
  {
    hide FailApprovalTx, EnqueueTx;
  }

  lemma CallRow(c: Config, s: State, id: RequestId)
    requires Inv(c, s) && id in s.approvals
    ensures id < |s.db.requests| && s.approvals[id].row.days > 0
    ensures s.db.requests[id].status == Approved || s.db.requests[id].status == Failed
  {
    assert SameRequest(s.approvals[id].row, s.db.requests[id]);
  }

  lemma SettleKeysRows(s: State)
    ensures !GrowsUnkeyed(s.db.ledger, WorkerSettleStep(s).db.ledger)
  {
  }
}
