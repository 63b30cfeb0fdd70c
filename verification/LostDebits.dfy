/**
 * Debits that HCM took and nothing will settle here: the exact steps that lose one, and a run
 * that loses one although it is clean, covered and sound.
 */
module LostDebits {
  import opened Wrappers
  import opened Sums
  import opened Lifecycle
  import opened Balance
  import opened Tables
  import opened Flagging
  import opened Transactions
  import opened Hcm
  import opened System
  import opened Invariant
  import opened InvariantSteps
  import opened StatusHistory
  import opened ExactlyOnce
  import opened ExactConditions
  import opened Delivery
  import opened Stranding

  // ---------- debits of FAILED requests ----------

  /** HCM has debited a request that is FAILED here. */
  predicate IsLost(s: State, id: RequestId) {
    id in s.hcm.debits && id < |s.db.requests| && s.db.requests[id].status == Status.Failed
  }

  /** The push flags a request whose debit HCM has recorded. */
  ghost predicate FlagsRecorded(s: State, e: Event, id: RequestId) {
    && e.Push? && IsListing(s.db.requests, e.key, e.listing)
    && id in Flagged(s.db.requests, e.key, e.absolute, e.listing) && id in s.hcm.debits
  }

  /** The attempt reaches HCM, which takes the debit. */
  predicate Takes(hcm: HcmState, id: RequestId, key: Key, days: int, conditions: Conditions) {
    && conditions.wire != RequestLost && conditions.mode == Normal
    && id !in hcm.debits && key in hcm.balances && hcm.balances[key] >= days
  }

  /** An attempt for a request that is FAILED already: no caller reads it again before calling HCM. */
  predicate DebitsFailed(s: State, e: Event, id: RequestId) {
    && id < |s.db.requests| && s.db.requests[id].status == Status.Failed
    && var request := s.db.requests[id];
       || (e.ApproveAttempt? && e.id == id && id in s.approvals && s.approvals[id].phase.Calling? &&
           Takes(s.hcm, id, request.key, request.days, e.conditions))
       || (e.WorkerAttempt? && s.worker.Working? && s.worker.id == id && s.worker.phase.Calling? &&
           Takes(s.hcm, id, request.key, request.days, e.conditions))
  }

  /** Exactly these two kinds of step lose a debit. */
  lemma BecomesLostIff(c: Config, s: State, e: Event, id: RequestId)
    requires Inv(c, s) && !IsLost(s, id)
    ensures IsLost(Next(c, s, e), id) <==> FlagsRecorded(s, e, id) || DebitsFailed(s, e, id)
  {
    InvThreads(c, s);
    hide Inv;
    match e {
      case Push(key, absolute, listing) => PushLosesIff(c, s, e, id);
      case ApproveAttempt(called, conditions) => ApproveAttemptLosesIff(c, s, called, conditions, id);
      case WorkerAttempt(conditions) => WorkerAttemptLosesIff(c, s, conditions, id);
      case ApproveFinish(closed) => FinishLosesNone(c, s, closed, id);
      case WorkerSettle => SettleLosesNone(c, s, id);
      case _ => OtherStepLosesNone(c, s, e, id);
    }
  }

  lemma PushLosesIff(c: Config, s: State, e: Event, id: RequestId)
    requires e.Push? && !IsLost(s, id) && ThreadsOk(c, s)
    ensures IsLost(Next(c, s, e), id) <==> FlagsRecorded(s, e, id)
  {
    hide PushTx, Flagged, IsListing;
    if IsListing(s.db.requests, e.key, e.listing) {
      PushKeepsCount(s.db, e.key, e.absolute, e.listing);
      if id < |s.db.requests| {
        PushedStatus(s.db, e.key, e.absolute, e.listing, id);
      }
    }
  }

  lemma PushKeepsCount(db: Db, key: Key, absolute: int, listing: seq<RequestId>)
    requires IsListing(db.requests, key, listing)
    ensures |PushTx(db, key, absolute, listing).db.requests| == |db.requests|
  {
  }

  /** HCM newly records a debit exactly when the attempt takes it. */
  lemma RecordsIffTakes(hcm: HcmState, id: RequestId, key: Key, days: int, conditions: Conditions, other: RequestId)
    requires days > 0
    ensures var next := Attempt(hcm, id, key, days, conditions).0;
            other in next.debits <==>
            other in hcm.debits || (other == id && Takes(hcm, id, key, days, conditions))
  {
  }

  lemma ApproveAttemptLosesIff(c: Config, s: State, called: RequestId, conditions: Conditions, id: RequestId)
    requires ThreadsOk(c, s) && RowsOk(s.db) && !IsLost(s, id)
    ensures IsLost(ApproveAttemptStep(c, s, called, conditions), id) <==>
            DebitsFailed(s, ApproveAttempt(called, conditions), id)
  {
    if called in s.approvals && s.approvals[called].phase.Calling? {
      var row := s.approvals[called].row;
      CallKnows(c, s, called);
      hide ThreadsOk, Attempt;
      RecordsIffTakes(s.hcm, called, row.key, row.days, conditions, id);
    }
  }

  lemma CallKnows(c: Config, s: State, id: RequestId)
    requires ThreadsOk(c, s) && RowsOk(s.db) && id in s.approvals
    ensures id < |s.db.requests|
    ensures s.approvals[id].row.key == s.db.requests[id].key
    ensures s.approvals[id].row.days == s.db.requests[id].days > 0
  {
    assert SameRequest(s.approvals[id].row, s.db.requests[id]);
  }

  lemma WorkerAttemptLosesIff(c: Config, s: State, conditions: Conditions, id: RequestId)
    requires ThreadsOk(c, s) && RowsOk(s.db) && !IsLost(s, id)
    ensures IsLost(WorkerAttemptStep(c, s, conditions), id) <==> DebitsFailed(s, WorkerAttempt(conditions), id)
  {
    if s.worker.Working? && s.worker.phase.Calling? {
      var payload := s.worker.row.payload;
      WorkerKnows(c, s);
      hide ThreadsOk, Attempt;
      RecordsIffTakes(s.hcm, s.worker.id, payload.key, payload.days, conditions, id);
    }
  }

  lemma WorkerKnows(c: Config, s: State)
    requires ThreadsOk(c, s) && RowsOk(s.db) && s.worker.Working?
    ensures var id, payload := s.worker.id, s.worker.row.payload;
            && id < |s.db.requests| && payload == Payload(id, s.db.requests[id].key, s.db.requests[id].days)
            && payload.days > 0 && Begun(s.db.requests[id].status)
  {
  }

  /** A refusal ends a call only for a request that HCM has not recorded. */
  lemma FinishLosesNone(c: Config, s: State, closed: RequestId, id: RequestId)
    requires ThreadsOk(c, s) && !IsLost(s, id)
    ensures !IsLost(ApproveFinishStep(s, closed), id)
  {
    if closed in s.approvals {
      FinishElsewhere(c, s, closed);
      if id == closed {
        FinishOwnStatus(c, s, id);
      }
      hide ThreadsOk, ApproveFinishStep;
      FinishKeepsHcm(s, closed);
    }
  }

  lemma FinishKeepsHcm(s: State, id: RequestId)
    ensures ApproveFinishStep(s, id).hcm == s.hcm
  {
  }

  lemma FinishOwnStatus(c: Config, s: State, id: RequestId)
    requires ThreadsOk(c, s) && id in s.approvals
    ensures id < |ApproveFinishStep(s, id).db.requests| && id < |s.db.requests|
    ensures var to := ApproveFinishStep(s, id).db.requests[id].status;
            to == s.db.requests[id].status || to == Committed || (to == Status.Failed && id !in s.hcm.debits)
  {
    hide HcmOk, OutboxOk, WorkerOk;
  }

  lemma SettleLosesNone(c: Config, s: State, id: RequestId)
    requires ThreadsOk(c, s) && !IsLost(s, id)
    ensures !IsLost(WorkerSettleStep(s), id)
  {
    hide HcmOk, CallsOk;
  }

  lemma OtherStepLosesNone(c: Config, s: State, e: Event, id: RequestId)
    requires ThreadsOk(c, s) && !IsLost(s, id)
    requires !e.Push? && !e.ApproveAttempt? && !e.WorkerAttempt? && !e.ApproveFinish? && !e.WorkerSettle?
    ensures !IsLost(Next(c, s, e), id)
  {
    hide CallsOk, OutboxOk, WorkerOk;
    if !WritesTables(e) {
      OtherStepsKeepTables(c, s, e);
    }
  }

  // ---------- debits that nothing will settle ----------

  /**
   * HCM has debited the request, it is not COMMITTED here, and neither an approve call nor an
   * outbox row is left to commit it. A DEAD row is not delivered again.
   */
  predicate IsAbandoned(s: State, id: RequestId) {
    && id in s.hcm.debits && id < |s.db.requests| && s.db.requests[id].status != Committed
    && id !in s.approvals
    && (id in s.db.outbox ==> s.db.outbox[id].status == Done || s.db.outbox[id].status == Dead)
  }

  /** The approve call ends on an acknowledged debit that a guard will not let it commit. */
  predicate ClosesUncommitted(s: State, e: Event, id: RequestId) {
    && e == ApproveFinish(id) && id in s.approvals && s.approvals[id].phase.Acked?
    && var row := s.approvals[id].row;
       row.key in s.db.balances &&
       (s.db.balances[row.key].reserved < row.days || s.db.balances[row.key].balance < row.days)
  }

  /**
   * The worker is done with a recorded debit: its request has been failed meanwhile, or the row
   * has used up its attempts.
   */
  predicate MarksUncommitted(c: Config, s: State, e: Event, id: RequestId) {
    && e.WorkerMark? && s.worker.Working? && s.worker.id == id && id in s.hcm.debits
    && id < |s.db.requests| && s.db.requests[id].status != Committed
    && (s.worker.phase.Settled? || (s.worker.phase.GaveUp? && s.worker.row.attempts + 1 >= c.maxAttempts))
  }

  /** Exactly these steps leave a debit that HCM took with nothing to settle it. */
  lemma BecomesAbandonedIff(c: Config, s: State, e: Event, id: RequestId)
    requires Inv(c, s) && !IsAbandoned(s, id)
    ensures IsAbandoned(Next(c, s, e), id) <==> ClosesUncommitted(s, e, id) || MarksUncommitted(c, s, e, id)
  {
    hide ThreadsOk, IsAbandoned, ApproveFinishStep, WorkerMarkStep, WorkerSettleStep;
    InvThreads(c, s);
    if e == ApproveFinish(id) {
      FinishAbandonsIff(c, s, id);
    } else if e.ApproveFinish? {
      FinishAbandonsNoOther(c, s, e.id, id);
    } else if e.WorkerMark? {
      MarkAbandonsIff(c, s, id);
    } else if e.WorkerPick? {
      PickAbandonsNone(s, e.id, id);
    } else if e.WorkerSettle? {
      SettleAbandonsNone(c, s, id);
    } else if e.ApproveAttempt? {
      ApproveAttemptAbandonsNone(c, s, e.id, e.conditions, id);
    } else if e.WorkerAttempt? {
      WorkerAttemptAbandonsNone(c, s, e.conditions, id);
    } else if e.Push? {
      PushAbandonsNone(c, s, e, id);
    } else {
      OtherStepAbandonsNone(c, s, e, id);
    }
  }

  lemma FinishAbandonsIff(c: Config, s: State, id: RequestId)
    requires Inv(c, s) && !IsAbandoned(s, id)
    ensures IsAbandoned(ApproveFinishStep(s, id), id) <==> ClosesUncommitted(s, ApproveFinish(id), id)
  {
    if id in s.approvals {
      CallEndsOn(c, s, id);
      hide Inv;
      match s.approvals[id].phase
      case Calling(_) =>
      case Settled =>
      case Acked(_) => AckedAbandonsIff(s, id);
      case TurnedDown(_) => FinishKeepsHcm(s, id);
      case GaveUp =>
    }
  }

  lemma AckedAbandonsIff(s: State, id: RequestId)
    requires id in s.approvals && s.approvals[id].phase.Acked? && id < |s.db.requests| && id !in s.db.outbox
    requires s.approvals[id].row.days > 0 && s.approvals[id].row.key in s.db.balances
    requires s.db.requests[id].status != Committed && DebitRows(s.db.ledger, id) == 0 && id in s.hcm.debits
    ensures IsAbandoned(ApproveFinishStep(s, id), id) <==> ClosesUncommitted(s, ApproveFinish(id), id)
  {
    hide FailApprovalTx, EnqueueTx, DebitRows;
  }

  /** What the invariant says of a call that is about to end. */
  lemma CallEndsOn(c: Config, s: State, id: RequestId)
    requires Inv(c, s) && id in s.approvals
    ensures var call := s.approvals[id];
            && id < |s.db.requests| && SameRequest(call.row, s.db.requests[id]) && call.row.days > 0
            && call.row.key in s.db.balances && id !in s.db.outbox
            && s.db.requests[id].status != Committed && DebitRows(s.db.ledger, id) == 0
            && (call.phase.Acked? ==> id in s.hcm.debits) && (call.phase.TurnedDown? ==> id !in s.hcm.debits)
            && call.phase != Settled
  {
    assert CommitOk(s.db, s.hcm, id);
  }

  lemma FinishAbandonsNoOther(c: Config, s: State, closed: RequestId, id: RequestId)
    requires ThreadsOk(c, s) && !IsAbandoned(s, id) && closed != id
    ensures !IsAbandoned(ApproveFinishStep(s, closed), id)
  {
    if closed in s.approvals {
      FinishElsewhere(c, s, closed);
      FinishTouchesOwnRow(s, closed);
      hide ThreadsOk, ApproveFinishStep;
      FinishKeepsHcm(s, closed);
    }
  }

  lemma FinishTouchesOwnRow(s: State, closed: RequestId)
    ensures forall id | id != closed ::
              var after := ApproveFinishStep(s, closed).db.outbox;
              (id in after <==> id in s.db.outbox) && (id in after ==> after[id] == s.db.outbox[id])
  {
  }

  lemma MarkAbandonsIff(c: Config, s: State, id: RequestId)
    requires ThreadsOk(c, s) && !IsAbandoned(s, id)
    ensures IsAbandoned(WorkerMarkStep(c, s), id) <==> MarksUncommitted(c, s, WorkerMark, id)
  {
    hide HcmOk;
  }

  lemma PickAbandonsNone(s: State, picked: RequestId, id: RequestId)
    requires !IsAbandoned(s, id)
    ensures !IsAbandoned(WorkerPickStep(s, picked), id)
  {
  }

  lemma SettleAbandonsNone(c: Config, s: State, id: RequestId)
    requires ThreadsOk(c, s) && !IsAbandoned(s, id)
    ensures !IsAbandoned(WorkerSettleStep(s), id)
  {
    hide HcmOk, CallsOk;
  }

  lemma ApproveAttemptAbandonsNone(c: Config, s: State, called: RequestId, conditions: Conditions, id: RequestId)
    requires ThreadsOk(c, s) && RowsOk(s.db) && !IsAbandoned(s, id)
    ensures !IsAbandoned(ApproveAttemptStep(c, s, called, conditions), id)
  {
    if called in s.approvals && s.approvals[called].phase.Calling? {
      var row := s.approvals[called].row;
      CallKnows(c, s, called);
      hide ThreadsOk, Attempt;
      RecordsIffTakes(s.hcm, called, row.key, row.days, conditions, id);
    }
  }

  lemma WorkerAttemptAbandonsNone(c: Config, s: State, conditions: Conditions, id: RequestId)
    requires ThreadsOk(c, s) && RowsOk(s.db) && !IsAbandoned(s, id)
    ensures !IsAbandoned(WorkerAttemptStep(c, s, conditions), id)
  {
    if s.worker.Working? && s.worker.phase.Calling? {
      var payload := s.worker.row.payload;
      WorkerKnows(c, s);
      assert s.db.outbox[s.worker.id].status == Processing;
      hide ThreadsOk, Attempt;
      RecordsIffTakes(s.hcm, s.worker.id, payload.key, payload.days, conditions, id);
    }
  }

  lemma PushAbandonsNone(c: Config, s: State, e: Event, id: RequestId)
    requires ThreadsOk(c, s) && !IsAbandoned(s, id) && e.Push?
    ensures !IsAbandoned(Next(c, s, e), id)
  {
    hide Flagged, IsListing, CallsOk, OutboxOk, WorkerOk;
    if IsListing(s.db.requests, e.key, e.listing) && id < |s.db.requests| {
      PushedStatus(s.db, e.key, e.absolute, e.listing, id);
    }
  }

  lemma OtherStepAbandonsNone(c: Config, s: State, e: Event, id: RequestId)
    requires ThreadsOk(c, s) && !IsAbandoned(s, id)
    requires !e.Push? && !e.ApproveAttempt? && !e.WorkerAttempt? && !e.ApproveFinish?
    requires !e.WorkerSettle? && !e.WorkerMark? && !e.WorkerPick?
    ensures !IsAbandoned(Next(c, s, e), id)
  {
    hide CallsOk, OutboxOk, WorkerOk;
    if !WritesTables(e) {
      OtherStepsKeepTables(c, s, e);
    }
  }

  /** No step settles such a debit again. */
  lemma StepKeepsAbandoned(c: Config, s: State, e: Event, id: RequestId)
    requires Inv(c, s) && IsAbandoned(s, id)
    ensures IsAbandoned(Next(c, s, e), id)
  {
    InvThreads(c, s);
    AbandonedIsIdle(c, s, id);
    RequestsStay(c, s, e);
    StepStatus(c, s, e, id);
    hide Inv, ThreadsOk;
    if e.ApproveFinish? {
      FinishKeepsAbandoned(c, s, e.id, id);
    } else if e.WorkerSettle? {
      SettleKeepsAbandoned(c, s, id);
    } else if e.Push? {
      PushKeepsAbandoned(c, s, e, id);
    } else if e.ApproveAttempt? || e.WorkerAttempt? {
      AttemptKeepsAbandoned(c, s, e, id);
    } else {
      OtherStepKeepsAbandoned(c, s, e, id);
    }
  }

  /** Neither the worker nor a caller is at the request, and no call can begin. */
  lemma AbandonedIsIdle(c: Config, s: State, id: RequestId)
    requires ThreadsOk(c, s) && IsAbandoned(s, id)
    ensures s.worker.Working? ==> s.worker.id != id && s.worker.row.payload.requestId == s.worker.id
    ensures s.db.requests[id].status == Approved || s.db.requests[id].status == Status.Failed
  {
  }

  lemma FinishKeepsAbandoned(c: Config, s: State, closed: RequestId, id: RequestId)
    requires ThreadsOk(c, s) && IsAbandoned(s, id)
    ensures IsAbandoned(ApproveFinishStep(s, closed), id)
  {
    if closed in s.approvals {
      FinishElsewhere(c, s, closed);
      FinishTouchesOwnRow(s, closed);
      FinishKeepsHcm(s, closed);
      FinishOpensNone(s, closed);
      hide ThreadsOk, ApproveFinishStep;
    }
  }

  lemma FinishOpensNone(s: State, closed: RequestId)
    ensures ApproveFinishStep(s, closed).approvals.Keys <= s.approvals.Keys
  {
  }

  lemma SettleKeepsAbandoned(c: Config, s: State, id: RequestId)
    requires IsAbandoned(s, id)
    requires s.worker.Working? ==> s.worker.id != id && s.worker.row.payload.requestId == s.worker.id
    ensures IsAbandoned(WorkerSettleStep(s), id)
  {
  }

  lemma PushKeepsAbandoned(c: Config, s: State, e: Event, id: RequestId)
    requires IsAbandoned(s, id) && e.Push?
    ensures IsAbandoned(Next(c, s, e), id)
  {
    hide Flagged, IsListing;
    if IsListing(s.db.requests, e.key, e.listing) {
      PushedStatus(s.db, e.key, e.absolute, e.listing, id);
    }
  }

  lemma AttemptKeepsAbandoned(c: Config, s: State, e: Event, id: RequestId)
    requires IsAbandoned(s, id) && (e.ApproveAttempt? || e.WorkerAttempt?)
    ensures IsAbandoned(Next(c, s, e), id)
  {
  }

  lemma OtherStepKeepsAbandoned(c: Config, s: State, e: Event, id: RequestId)
    requires IsAbandoned(s, id)
    requires s.worker.Working? ==> s.worker.id != id
    requires s.db.requests[id].status == Approved || s.db.requests[id].status == Status.Failed
    requires !e.Push? && !e.ApproveAttempt? && !e.WorkerAttempt? && !e.ApproveFinish? && !e.WorkerSettle?
    ensures IsAbandoned(Next(c, s, e), id)
  {
  }

  /** A debit that is abandoned once is abandoned for good: only a hand can settle it. */
  lemma {:induction false} AbandonedForGood(c: Config, s: State, events: seq<Event>, id: RequestId)
    requires Inv(c, s) && IsAbandoned(s, id)
    ensures IsAbandoned(Run(c, s, events), id)
  {
    hide Next, Inv, IsAbandoned;
    if events != [] {
      var init := events[..|events| - 1];
      RunKeeps(c, s, init);
      AbandonedForGood(c, s, init, id);
      StepKeepsAbandoned(c, Run(c, s, init), events[|events| - 1], id);
    }
  }

  // ---------- a run that loses a debit ----------

  /** The newer request's approve call finds the circuit open, and queues its debit. */
  const QUEUING := [ApproveBegin(0), ApproveCircuitOpen(0), ApproveFinish(0)]

  /** The worker's debit is taken and acknowledged; HCM's own push comes before the local commit. */
  const DELIVERING := [WorkerPick(0), WorkerAttempt(DELIVERED), PUSH]

  const MARKING := [WorkerSettle, WorkerMark]

  const LOSING := CREATION + QUEUING + DELIVERING + MARKING

  const ROW := OutboxRow(Queued, 0, Payload(0, KEY, 50))

  const QUEUED := CREATED.(db := CREATED.db.(
    requests := [Newer(Approved, None), Older(Pending)], outbox := map[0 := ROW]))

  const PICKED := QUEUED.(
    db := QUEUED.db.(outbox := map[0 := ROW.(status := Processing)]),
    worker := Working(0, ROW, Calling(0)))

  const TAKEN := PICKED.(
    hcm := HcmState(map[KEY := 50], map[0 := RECORD]),
    worker := Working(0, ROW, Acked("commit")))

  const FLAGGED := TAKEN.(db := TAKEN.db.(
    balances := map[KEY := Snapshot(50, 50)],
    requests := [Newer(Status.Failed, None), Older(Pending)],
    ledger := [AdjustRow(KEY, 100, None), AdjustRow(KEY, -50, None)]))

  const LOST := FLAGGED.(
    db := FLAGGED.db.(outbox := map[0 := ROW.(status := Done)]),
    worker := Idle)

  lemma Queuing(c: Config)
    ensures Run(c, CREATED, QUEUING) == QUEUED
  {
    var begun := Next(c, CREATED, ApproveBegin(0));
    var refused := Next(c, begun, ApproveCircuitOpen(0));
    assert refused.approvals - {0} == map[];
    assert Next(c, refused, ApproveFinish(0)) == QUEUED;
    hide Next;
    Two(c, CREATED, ApproveBegin(0), begun, ApproveCircuitOpen(0), refused);
    One(c, refused, ApproveFinish(0), QUEUED);
    Chain(c, CREATED, QUEUING[..2], refused, QUEUING[2..], QUEUED);
    assert QUEUING == QUEUING[..2] + QUEUING[2..];
  }

  lemma Picking(c: Config)
    ensures Next(c, QUEUED, WorkerPick(0)) == PICKED
  {
  }

  lemma Taking(c: Config)
    ensures Next(c, PICKED, WorkerAttempt(DELIVERED)) == TAKEN
  {
  }

  lemma PushOvertakes(c: Config)
    ensures Next(c, TAKEN, PUSH) == FLAGGED
  {
    OvertakenFlags();
    OvertakenHeld();
    hide Flagged, FailAll, Held, HeldWeights, SumAt, IsListing;
  }

  lemma Marking(c: Config)
    ensures Next(c, Next(c, FLAGGED, WorkerSettle), WorkerMark) == LOST
  {
  }

  lemma LosingRun(c: Config)
    ensures Run(c, INITIAL, CREATION + QUEUING) == QUEUED
    ensures Run(c, INITIAL, CREATION + QUEUING + [WorkerPick(0), WorkerAttempt(DELIVERED)]) == TAKEN
    ensures Run(c, INITIAL, LOSING) == LOST
  {
    hide *;
    CreationRun(c);
    Queuing(c);
    Picking(c);
    Taking(c);
    PushOvertakes(c);
    Marking(c);
    LosingParts();
    Chain(c, INITIAL, CREATION, CREATED, QUEUING, QUEUED);
    Two(c, QUEUED, WorkerPick(0), PICKED, WorkerAttempt(DELIVERED), TAKEN);
    Chain(c, INITIAL, CREATION + QUEUING, QUEUED, [WorkerPick(0), WorkerAttempt(DELIVERED)], TAKEN);
    One(c, TAKEN, PUSH, FLAGGED);
    Chain(c, INITIAL, CREATION + QUEUING + [WorkerPick(0), WorkerAttempt(DELIVERED)], TAKEN, [PUSH], FLAGGED);
    Two(c, FLAGGED, WorkerSettle, Next(c, FLAGGED, WorkerSettle), WorkerMark, LOST);
    Chain(c, INITIAL, CREATION + QUEUING + DELIVERING, FLAGGED, MARKING, LOST);
  }

  lemma LosingParts()
    ensures CREATION + QUEUING + DELIVERING ==
            CREATION + QUEUING + [WorkerPick(0), WorkerAttempt(DELIVERED)] + [PUSH]
    ensures MARKING == [WorkerSettle, WorkerMark]
    ensures LOSING == CREATION + QUEUING + DELIVERING + MARKING
  {
  }

  /** Its one push and its one refresh. */
  lemma LosingEvents()
    ensures |LOSING| == 12
    ensures forall n | 0 <= n < |LOSING| ::
              && Sound(LOSING[n], KEY) && (LOSING[n].Push? ==> n == 9) && (LOSING[n].Refresh? ==> n == 1)
  {
  }

  /** No call is in flight at the push, and the balance is new at the refresh. */
  lemma LosingPrefixes(c: Config)
    ensures |LOSING| == 12
    ensures Run(c, INITIAL, LOSING[..9]).approvals == map[]
    ensures Run(c, INITIAL, LOSING[..1]).db.balances == map[]
  {
    LosingRun(c);
    hide Run;
    assert LOSING[..9] == CREATION + QUEUING + [WorkerPick(0), WorkerAttempt(DELIVERED)];
    assert LOSING[..1] == [HcmWrite(KEY, 100)];
    One(c, INITIAL, HcmWrite(KEY, 100), Next(c, INITIAL, HcmWrite(KEY, 100)));
  }

  /** The run is sound, clean and covered. */
  lemma LosingIsOrderly(c: Config)
    ensures SoundRun(LOSING, KEY) && CleanRun(c, INITIAL, LOSING, KEY) && CoveredRun(c, INITIAL, LOSING, KEY)
  {
    hide LOSING, Run, Sound, IsListing, Flagged;
    LosingEvents();
    LosingPrefixes(c);
    forall n | 0 <= n < |LOSING|
      ensures Clean(Run(c, INITIAL, LOSING[..n]), LOSING[n], KEY)
      ensures Covers(Run(c, INITIAL, LOSING[..n]), LOSING[n], KEY)
    {
    }
  }

  /**
   * A debit is lost although the run is sound, clean and covered: HCM has taken it, a push of
   * HCM's own amount has failed its request, and its outbox row is DONE.
   */
  lemma WorkerLosesDebit(c: Config)
    ensures Run(c, INITIAL, LOSING) == LOST
    ensures IsLost(LOST, 0) && IsAbandoned(LOST, 0)
    ensures LOST.db.outbox[0].status == Done && LOST.approvals == map[] && LOST.worker.Idle?
  {
    LosingRun(c);
    hide Run;
  }
}
