/**
 * The local balance against HCM's balance, for a balance that nothing outside the protocol
 * writes: what lies between the two is exactly the debits in doubt, and the reservation made
 * at creation is enough for HCM and for the local commit.
 */
module CrossSystem {
  import opened Wrappers
  import opened Sums
  import opened Lifecycle
  import opened Balance
  import opened Tables
  import opened Flagging
  import opened Transactions
  import opened Hcm
  import opened System
  import opened Invariant
  import opened InvariantSteps
  import opened Reservations
  import opened StatusHistory

  /** APPROVED here and already debited at HCM. */
  predicate InDoubt(s: State, i: RequestId, key: Key)
    requires i < |s.db.requests|
  {
    s.db.requests[i].key == key && s.db.requests[i].status == Approved && i in s.hcm.debits
  }

  function DoubtWeights(s: State, key: Key): (weights: seq<int>)
    ensures |weights| == |s.db.requests|
  {
    seq(|s.db.requests|, i requires 0 <= i < |s.db.requests| =>
      if InDoubt(s, i, key) then s.db.requests[i].days else 0)
  }

  /** The days of the debits in doubt. */
  function Doubt(s: State, key: Key): int {
    Sum(DoubtWeights(s, key))
  }

  ghost predicate Agrees(s: State, key: Key) {
    && key in s.db.balances && key in s.hcm.balances
    && s.db.balances[key].balance - s.hcm.balances[key] == Doubt(s, key)
  }

  /** A request is being debited, or waits to be. */
  predicate BeingDebited(s: State, id: RequestId) {
    || id in s.approvals
    || (id in s.db.outbox && s.db.outbox[id].status == Queued)
    || (s.worker.Working? && s.worker.id == id && !s.worker.phase.Settled?)
  }

  /** Every request of the balance that is being debited is still APPROVED. */
  ghost predicate DebitsLive(s: State, key: Key) {
    forall id: nat | id < |s.db.requests| && BeingDebited(s, id) && s.db.requests[id].key == key ::
      s.db.requests[id].status == Approved
  }

  /** The balance is undisturbed: exact and fitting reservations, live debits, agreement. */
  ghost predicate Settling(s: State, key: Key) {
    ExactAt(s.db, key) && FitsAt(s.db, key) && DebitsLive(s, key) && Agrees(s, key)
  }

  // ---------- debits stay live ----------

  lemma LiveCalls(c: Config, s: State, key: Key)
    requires CallsOk(c, s) && DebitsLive(s, key)
    ensures CallsLive(s, key)
  {
    forall id | id in s.approvals && id < |s.db.requests| && s.db.requests[id].key == key
      ensures s.db.requests[id].status == Approved
    {
      assert BeingDebited(s, id);
    }
  }

  /** A status other than APPROVED is not given to a request that is still being debited. */
  lemma StepDebitsLive(c: Config, s: State, e: Event, key: Key)
    requires ThreadsOk(c, s) && DebitsLive(s, key)
    requires !(e.Push? && e.key == key)
    ensures DebitsLive(Next(c, s, e), key)
  {
    var after := Next(c, s, e);
    forall id: nat | id < |after.db.requests| && BeingDebited(after, id) && after.db.requests[id].key == key
      ensures after.db.requests[id].status == Approved
    {
      if e.WorkerSettle? {
        WorkerSettleLive(c, s, id, key);
      } else if e.ApproveFinish? {
        FinishLive(c, s, e.id, id, key);
      } else if e.Push? {
        PushElsewhereLive(c, s, e, id, key);
      } else if WritesTables(e) {
        TableStepDebitsLive(c, s, e, id, key);
      } else {
        CallStepDebitsLive(c, s, e, id, key);
      }
    }
  }

  lemma WorkerSettleLive(c: Config, s: State, id: RequestId, key: Key)
    requires ThreadsOk(c, s) && DebitsLive(s, key)
    requires var after := WorkerSettleStep(s);
             id < |after.db.requests| && BeingDebited(after, id) && after.db.requests[id].key == key
    ensures WorkerSettleStep(s).db.requests[id].status == Approved
  {
    SettleEndsDebit(c, s);
    hide WorkerSettleStep;
    assert BeingDebited(s, id);
  }

  /** A settled delivery is no longer debiting, and only its own request has changed. */
  lemma SettleEndsDebit(c: Config, s: State)
    requires ThreadsOk(c, s)
    ensures var after := WorkerSettleStep(s);
            && |after.db.requests| == |s.db.requests|
            && (after.db.requests == s.db.requests ||
                (s.worker.Working? && s.worker.id < |s.db.requests| && !BeingDebited(after, s.worker.id) &&
                 after.db.requests == s.db.requests[s.worker.id := after.db.requests[s.worker.id]]))
            && forall i | BeingDebited(after, i) :: BeingDebited(s, i)
  {
    hide HcmOk, CommitTx;
    if s.worker.Working? {
      assert s.worker.row.payload.requestId == s.worker.id && s.worker.id !in s.approvals;
      hide CallsOk, OutboxOk, WorkerCommitTx, WorkerFailTx;
      WorkerTxTouchesOwn(s.db, s.worker.row.payload);
    }
  }

  lemma WorkerTxTouchesOwn(db: Db, payload: Payload)
    ensures var after, id := WorkerFailTx(db, payload), payload.requestId;
            && after.outbox == db.outbox && |after.requests| == |db.requests|
            && (id < |db.requests| ==> after.requests == db.requests[id := after.requests[id]])
    ensures forall commitId: string ::
              var after, id := After(db, WorkerCommitTx(db, payload, commitId)), payload.requestId;
              && after.outbox == db.outbox && |after.requests| == |db.requests|
              && (id < |db.requests| ==> after.requests == db.requests[id := after.requests[id]])
  {
  }

  lemma FinishLive(c: Config, s: State, closed: RequestId, id: RequestId, key: Key)
    requires ThreadsOk(c, s) && DebitsLive(s, key)
    requires var after := ApproveFinishStep(s, closed);
             id < |after.db.requests| && BeingDebited(after, id) && after.db.requests[id].key == key
    ensures ApproveFinishStep(s, closed).db.requests[id].status == Approved
  {
    if closed in s.approvals {
      FinishEndsDebit(c, s, closed);
      FinishElsewhere(c, s, closed);
      hide ApproveFinishStep;
      assert BeingDebited(s, id);
    } else {
      assert BeingDebited(s, id);
    }
  }

  /** A finished approve call is no longer debiting, unless it has just queued its debit. */
  lemma FinishEndsDebit(c: Config, s: State, closed: RequestId)
    requires ThreadsOk(c, s) && closed in s.approvals
    ensures var after := ApproveFinishStep(s, closed);
            && (after.db.requests == s.db.requests || !BeingDebited(after, closed))
            && forall i | i != closed && BeingDebited(after, i) :: BeingDebited(s, i)
  {
    hide HcmOk, CommitTx;
    CommitKeepsOutbox(s.db, closed, s.approvals[closed]);
  }

  lemma CommitKeepsOutbox(db: Db, id: RequestId, call: ApproveCall)
    ensures forall commitId: string ::
              After(db, CommitTx(db, id, call.row, call.row.key, call.row.days, commitId)).outbox == db.outbox
  {
  }

  lemma PushElsewhereLive(c: Config, s: State, e: Event, id: RequestId, key: Key)
    requires DebitsLive(s, key) && e.Push? && e.key != key
    requires id < |Next(c, s, e).db.requests| && BeingDebited(Next(c, s, e), id)
    requires Next(c, s, e).db.requests[id].key == key
    ensures Next(c, s, e).db.requests[id].status == Approved
  {
    hide Flagged, Held, SumAt;
    assert BeingDebited(s, id);
    if IsListing(s.db.requests, e.key, e.listing) {
      FlaggedAreHeld(s.db.requests, e.key, e.absolute, e.listing);
    }
  }

  lemma TableStepDebitsLive(c: Config, s: State, e: Event, id: RequestId, key: Key)
    requires ThreadsOk(c, s) && DebitsLive(s, key)
    requires e.Create? || e.ApproveBegin? || e.Reject? || e.Cancel? || e.Refresh?
    requires id < |Next(c, s, e).db.requests| && BeingDebited(Next(c, s, e), id)
    requires Next(c, s, e).db.requests[id].key == key
    ensures Next(c, s, e).db.requests[id].status == Approved
  {
    hide HcmOk, PushTx, IsListing;
    if e.Create? {
      assert BeingDebited(s, id);
      assert id < |s.db.requests|;
    } else {
      hide ThreadsOk;
      if e != ApproveBegin(id) || Next(c, s, e) == s {
        assert BeingDebited(s, id);
      }
    }
  }

  lemma CallStepDebitsLive(c: Config, s: State, e: Event, id: RequestId, key: Key)
    requires ThreadsOk(c, s) && DebitsLive(s, key) && !WritesTables(e)
    requires id < |Next(c, s, e).db.requests| && BeingDebited(Next(c, s, e), id)
    requires Next(c, s, e).db.requests[id].key == key
    ensures Next(c, s, e).db.requests[id].status == Approved
  {
    OtherStepsKeepTables(c, s, e);
    assert BeingDebited(s, id);
  }

  // ---------- agreement ----------

  /** Only a balance change, a record or a status change can move the sum in doubt. */
  lemma DoubtUnmoved(s: State, after: State, key: Key)
    requires |s.db.requests| <= |after.db.requests|
    requires forall i: nat | i < |s.db.requests| :: InDoubt(after, i, key) <==> InDoubt(s, i, key)
    requires forall i: nat | i < |s.db.requests| :: after.db.requests[i].days == s.db.requests[i].days
    requires forall i: nat | |s.db.requests| <= i < |after.db.requests| :: !InDoubt(after, i, key)
    ensures Doubt(after, key) == Doubt(s, key)
  {
    DoubtExtends(DoubtWeights(s, key), DoubtWeights(after, key));
  }

  lemma {:induction false} DoubtExtends(xs: seq<int>, ys: seq<int>)
    requires |xs| <= |ys|
    requires forall i | 0 <= i < |xs| :: ys[i] == xs[i]
    requires forall i | |xs| <= i < |ys| :: ys[i] == 0
    ensures Sum(ys) == Sum(xs)
  {
    if |ys| == |xs| {
      assert ys == xs;
    } else {
      DoubtExtends(xs, ys[..|ys| - 1]);
    }
  }

  lemma DoubtChanges(s: State, after: State, id: RequestId, key: Key)
    requires id < |s.db.requests| == |after.db.requests|
    requires forall i: nat | i < |s.db.requests| && i != id ::
               InDoubt(after, i, key) <==> InDoubt(s, i, key)
    requires forall i: nat | i < |s.db.requests| :: after.db.requests[i].days == s.db.requests[i].days
    ensures var days := s.db.requests[id].days;
            Doubt(after, key) == Doubt(s, key)
              - (if InDoubt(s, id, key) then days else 0)
              + (if InDoubt(after, id, key) then days else 0)
  {
    var weights := DoubtWeights(s, key);
    var weight := if InDoubt(after, id, key) then s.db.requests[id].days else 0;
    assert DoubtWeights(after, key) == weights[id := weight];
    SumUpdate(weights, id, weight);
  }

  /** An attempt lowers HCM's balance and puts the same days in doubt, or does neither. */
  lemma AttemptAgrees(c: Config, s: State, after: State, id: RequestId, conditions: Conditions, key: Key)
    requires ThreadsOk(c, s) && Agrees(s, key)
    requires id < |s.db.requests|
    requires s.db.requests[id].key == key ==> s.db.requests[id].status == Approved
    requires after.db == s.db
    requires after.hcm == Attempt(s.hcm, id, s.db.requests[id].key, s.db.requests[id].days, conditions).0
    ensures Agrees(after, key)
  {
    DoubtChanges(s, after, id, key);
  }

  lemma ApproveAttemptAgrees(c: Config, s: State, id: RequestId, conditions: Conditions, key: Key)
    requires ThreadsOk(c, s) && Agrees(s, key) && DebitsLive(s, key)
    ensures Agrees(ApproveAttemptStep(c, s, id, conditions), key)
  {
    if id in s.approvals && s.approvals[id].phase.Calling? {
      assert BeingDebited(s, id);
      AttemptAgrees(c, s, ApproveAttemptStep(c, s, id, conditions), id, conditions, key);
    }
  }

  lemma WorkerAttemptAgrees(c: Config, s: State, conditions: Conditions, key: Key)
    requires ThreadsOk(c, s) && Agrees(s, key) && DebitsLive(s, key)
    ensures Agrees(WorkerAttemptStep(c, s, conditions), key)
  {
    if s.worker.Working? && s.worker.phase.Calling? {
      assert BeingDebited(s, s.worker.id);
      AttemptAgrees(c, s, WorkerAttemptStep(c, s, conditions), s.worker.id, conditions, key);
    }
  }

  /** A commit takes a debit out of doubt and lowers the local balance by the same days. */
  lemma CommitAgrees(c: Config, s: State, after: State, id: RequestId, row: Request, commitId: string, key: Key)
    requires ThreadsOk(c, s) && Agrees(s, key)
    requires id < |s.db.requests| && SameRequest(row, s.db.requests[id])
    requires s.db.requests[id].key == key ==> s.db.requests[id].status == Approved
    requires id in s.hcm.debits
    requires after.db == After(s.db, CommitTx(s.db, id, row, row.key, row.days, commitId))
    requires after.hcm == s.hcm
    ensures Agrees(after, key)
  {
    DoubtChanges(s, after, id, key);
  }

  lemma FinishAgrees(c: Config, s: State, id: RequestId, key: Key)
    requires ThreadsOk(c, s) && Agrees(s, key) && DebitsLive(s, key)
    ensures Agrees(ApproveFinishStep(s, id), key)
  {
    if id in s.approvals {
      var row, after := s.approvals[id].row, ApproveFinishStep(s, id);
      assert BeingDebited(s, id);
      match s.approvals[id].phase
      case Calling(_) =>
      case Settled =>
      case Acked(commitId) => CommitAgrees(c, s, after, id, row, commitId, key);
      case TurnedDown(code) =>
        var result := FailApprovalTx(s.db, id, row, code == InsufficientAtHcm);
        DoubtChanges(s, after, id, key);
      case GaveUp => DoubtUnmoved(s, after, key);
    }
  }

  lemma WorkerSettleAgrees(c: Config, s: State, key: Key)
    requires ThreadsOk(c, s) && CommitsOk(s.db, s.hcm) && Agrees(s, key)
    ensures Agrees(WorkerSettleStep(s), key)
  {
    var after := WorkerSettleStep(s);
    if s.worker.Working? && s.worker.phase.Acked? {
      var id := s.worker.id;
      var request := s.db.requests[id];
      assert CommitOk(s.db, s.hcm, id);
      if CanTransition(request.status, Committed) {
        CommitAgrees(c, s, after, id, request, s.worker.phase.commitId, key);
      } else {
        DoubtUnmoved(s, after, key);
      }
    } else if s.worker.Working? && s.worker.phase.TurnedDown? {
      WorkerFailAgrees(c, s, key);
    }
  }

  lemma WorkerFailAgrees(c: Config, s: State, key: Key)
    requires ThreadsOk(c, s) && Agrees(s, key) && s.worker.Working? && s.worker.phase.TurnedDown?
    ensures Agrees(WorkerSettleStep(s), key)
  {
    hide CallsOk;
    DoubtChanges(s, WorkerSettleStep(s), s.worker.id, key);
  }

  lemma CreateAgrees(c: Config, s: State, e: Event, key: Key)
    requires HcmOk(s.hcm, s.db.requests) && Agrees(s, key) && e.Create?
    ensures Agrees(Next(c, s, e), key)
  {
    DoubtUnmoved(s, Next(c, s, e), key);
  }

  lemma RefreshAgrees(c: Config, s: State, e: Event, key: Key)
    requires Agrees(s, key) && Quiet(e, key) && e.Refresh?
    ensures Agrees(Next(c, s, e), key)
  {
    DoubtUnmoved(s, Next(c, s, e), key);
  }

  /** HCM has no record of a request that is not yet approved. */
  lemma BeginOrWithdrawAgrees(c: Config, s: State, e: Event, key: Key)
    requires HcmOk(s.hcm, s.db.requests) && Agrees(s, key)
    requires e.ApproveBegin? || e.Reject? || e.Cancel?
    ensures Agrees(Next(c, s, e), key)
  {
    match e {
      case ApproveBegin(id) => BeginAgrees(c, s, id, key);
      case Reject(id) => WithdrawAgrees(s, id, Rejected, key);
      case Cancel(id) => WithdrawAgrees(s, id, Cancelled, key);
    }
  }

  lemma BeginAgrees(c: Config, s: State, id: RequestId, key: Key)
    requires HcmOk(s.hcm, s.db.requests) && Agrees(s, key)
    ensures Agrees(ApproveStep(s, id), key)
  {
    DoubtUnmoved(s, ApproveStep(s, id), key);
  }

  lemma WithdrawAgrees(s: State, id: RequestId, to: Status, key: Key)
    requires HcmOk(s.hcm, s.db.requests) && Agrees(s, key) && (to == Rejected || to == Cancelled)
    ensures Agrees(s.(db := After(s.db, WithdrawTx(s.db, id, to))), key)
  {
    DoubtUnmoved(s, s.(db := After(s.db, WithdrawTx(s.db, id, to))), key);
  }

  lemma PushElsewhereAgrees(c: Config, s: State, e: Event, key: Key)
    requires Agrees(s, key) && e.Push? && e.key != key
    ensures Agrees(Next(c, s, e), key)
  {
    if IsListing(s.db.requests, e.key, e.listing) {
      FlaggedAreHeld(s.db.requests, e.key, e.absolute, e.listing);
      var after := Next(c, s, e);
      forall i: nat | i < |s.db.requests|
        ensures InDoubt(after, i, key) <==> InDoubt(s, i, key)
      {
      }
      DoubtUnmoved(s, after, key);
    }
  }

  lemma StepAgrees(c: Config, s: State, e: Event, key: Key)
    requires ThreadsOk(c, s) && CommitsOk(s.db, s.hcm)
    requires Agrees(s, key) && DebitsLive(s, key) && Quiet(e, key)
    ensures Agrees(Next(c, s, e), key)
  {
    if e.ApproveAttempt? {
      ApproveAttemptAgrees(c, s, e.id, e.conditions, key);
    } else if e.WorkerAttempt? {
      WorkerAttemptAgrees(c, s, e.conditions, key);
    } else if e.ApproveFinish? {
      FinishAgrees(c, s, e.id, key);
    } else if e.WorkerSettle? {
      WorkerSettleAgrees(c, s, key);
    } else if e.Push? {
      PushElsewhereAgrees(c, s, e, key);
    } else if e.Create? {
      CreateAgrees(c, s, e, key);
    } else if e.Refresh? {
      RefreshAgrees(c, s, e, key);
    } else if WritesTables(e) {
      BeginOrWithdrawAgrees(c, s, e, key);
    } else {
      CallStepAgrees(c, s, e, key);
    }
  }

  lemma CallStepAgrees(c: Config, s: State, e: Event, key: Key)
    requires Agrees(s, key) && Quiet(e, key)
    requires !WritesTables(e) && !e.ApproveAttempt? && !e.WorkerAttempt?
    ensures Agrees(Next(c, s, e), key)
  {
    OtherStepsKeepTables(c, s, e);
    DoubtUnmoved(s, Next(c, s, e), key);
  }

  // ---------- runs ----------

  /** As StepFits, for one balance: a step on another balance cannot overbook this one. */
  lemma QuietStepFits(c: Config, s: State, e: Event, key: Key)
    requires Inv(c, s) && Quiet(e, key) && FitsAt(s.db, key)
    ensures FitsAt(Next(c, s, e).db, key)
  {
    if !e.Refresh? && !e.Push? {
      StepFits(c, s, e, key);
    }
  }

  lemma StepSettles(c: Config, s: State, e: Event, key: Key)
    requires Inv(c, s) && Quiet(e, key) && Settling(s, key)
    ensures Settling(Next(c, s, e), key)
  {
    LiveCalls(c, s, key);
    StepExact(c, s, e, key);
    QuietStepFits(c, s, e, key);
    StepDebitsLive(c, s, e, key);
    StepAgrees(c, s, e, key);
  }

  lemma {:induction false} QuietRunSettles(c: Config, s: State, events: seq<Event>, key: Key)
    requires Inv(c, s) && QuietRun(events, key) && Settling(s, key)
    ensures Settling(Run(c, s, events), key)
  {
    hide Next, Inv, Settling;
    if events != [] {
      var init := events[..|events| - 1];
      RunKeeps(c, s, init);
      QuietRunSettles(c, s, init, key);
      StepSettles(c, Run(c, s, init), events[|events| - 1], key);
    }
  }

  lemma {:induction false} QuietRunStrandsNone(c: Config, s: State, events: seq<Event>, key: Key)
    requires Inv(c, s) && QuietRun(events, key) && Settling(s, key) && NoneStranded(s, key)
    ensures NoneStranded(Run(c, s, events), key)
  {
    hide Next, Inv, NoneStranded;
    if events != [] {
      var init := events[..|events| - 1];
      RunKeeps(c, s, init);
      QuietRunSettles(c, s, init, key);
      QuietRunStrandsNone(c, s, init, key);
      SettlingStrandsNone(c, Run(c, s, init), events[|events| - 1], key);
    }
  }

  lemma SettlingStrandsNone(c: Config, s: State, e: Event, key: Key)
    requires Inv(c, s) && Settling(s, key) && NoneStranded(s, key)
    ensures NoneStranded(Next(c, s, e), key)
  {
    LiveCalls(c, s, key);
    StepStrandsNone(c, s, e, key);
  }

  /** Seeding: no request names the balance yet, and both sides hold the same amount, at least zero. */
  ghost predicate Seeded(s: State, key: Key) {
    && key in s.db.balances && key in s.hcm.balances
    && s.db.balances[key].balance == s.hcm.balances[key] >= 0
    && forall i | 0 <= i < |s.db.requests| :: s.db.requests[i].key != key
  }

  lemma SeededSettles(c: Config, s: State, key: Key)
    requires Inv(c, s) && Seeded(s, key)
    ensures Settling(s, key)
  {
    NoRequestNoHeld(s.db.requests, key);
    assert ReservedOk(s.db.balances[key], s.db.requests, key);
    SumZero(DoubtWeights(s, key));
  }

  /**
   * Cross-system conservation. Once a balance is seeded and until something outside the
   * protocol writes it, the local balance exceeds HCM's by exactly the days of the APPROVED
   * requests that HCM has recorded, whatever replies were lost or calls retried.
   */
  lemma BalancesDifferByDoubt(c: Config, seeding: seq<Event>, events: seq<Event>, key: Key)
    requires Seeded(Run(c, INITIAL, seeding), key) && QuietRun(events, key)
    ensures var final := Run(c, Run(c, INITIAL, seeding), events);
            && key in final.db.balances && key in final.hcm.balances
            && final.db.balances[key].balance - final.hcm.balances[key] == Doubt(final, key)
            && ((forall i: nat | i < |final.db.requests| :: !InDoubt(final, i, key)) ==>
                  final.db.balances[key].balance == final.hcm.balances[key])
  {
    var start := Run(c, INITIAL, seeding);
    InitialInv(c);
    RunKeeps(c, INITIAL, seeding);
    SeededSettles(c, start, key);
    QuietRunSettles(c, start, events, key);
    var final := Run(c, start, events);
    if forall i: nat | i < |final.db.requests| :: !InDoubt(final, i, key) {
      SumZero(DoubtWeights(final, key));
    }
  }

  // ---------- the reservation suffices ----------

  /** Held days cover the days in doubt and those of one more approved request. */
  lemma HeldCoversDoubt(s: State, id: RequestId)
    requires id < |s.db.requests| && s.db.requests[id].status == Approved && id !in s.hcm.debits
    requires RowsOk(s.db)
    ensures var key := s.db.requests[id].key;
            Doubt(s, key) + s.db.requests[id].days <= Held(s.db.requests, key)
  {
    var key, days := s.db.requests[id].key, s.db.requests[id].days;
    var doubt := DoubtWeights(s, key);
    SumUpdate(doubt, id, days);
    SumDominated(doubt[id := days], HeldWeights(s.db.requests, key));
  }

  /** HCM has the days of every approved request that it has not debited yet. */
  lemma HcmHasTheDays(c: Config, s: State, id: RequestId)
    requires Inv(c, s) && id < |s.db.requests| && s.db.requests[id].status == Approved
    requires id !in s.hcm.debits && Settling(s, s.db.requests[id].key)
    ensures s.hcm.balances[s.db.requests[id].key] >= s.db.requests[id].days > 0
  {
    HeldCoversDoubt(s, id);
  }

  /**
   * HCM refuses no debit of this request of its own accord, and neither local guard stops the
   * commit of an acknowledged one.
   */
  ghost predicate Suffices(s: State, id: RequestId, commitId: string)
    requires id < |s.db.requests|
  {
    var request := s.db.requests[id];
    && AnswerDebit(s.hcm, id, request.key, request.days, Normal, commitId).1.Acknowledged?
    && !AnswerDebit(s.hcm, id, request.key, request.days, Unavailable, commitId).1.Refused?
    && CommitTx(s.db, id, request, request.key, request.days, commitId).Success?
  }

  lemma SettlingSuffices(c: Config, s: State, id: RequestId, commitId: string)
    requires Inv(c, s) && id < |s.db.requests| && s.db.requests[id].status == Approved
    requires Settling(s, s.db.requests[id].key)
    ensures Suffices(s, id, commitId)
  {
    GuardsHold(c, s, id);
    if id !in s.hcm.debits {
      HcmHasTheDays(c, s, id);
    }
    HcmAnswers(s, id, commitId);
    CommitGoesThrough(s.db, id, commitId);
  }

  lemma HcmAnswers(s: State, id: RequestId, commitId: string)
    requires id < |s.db.requests| && RowsOk(s.db) && s.db.requests[id].key in s.hcm.balances
    requires id !in s.hcm.debits ==>
               s.hcm.balances[s.db.requests[id].key] >= s.db.requests[id].days
    ensures var request := s.db.requests[id];
            && AnswerDebit(s.hcm, id, request.key, request.days, Normal, commitId).1.Acknowledged?
            && !AnswerDebit(s.hcm, id, request.key, request.days, Unavailable, commitId).1.Refused?
  {
  }

  lemma CommitGoesThrough(db: Db, id: RequestId, commitId: string)
    requires id < |db.requests| && db.requests[id].key in db.balances
    requires Commit(db.balances[db.requests[id].key], db.requests[id].days).Success?
    requires DebitRows(db.ledger, id) == 0
    ensures var request := db.requests[id];
            CommitTx(db, id, request, request.key, request.days, commitId).Success?
  {
  }

  /**
   * Hard reservation suffices. Once a balance is seeded and until something outside the
   * protocol writes it, this holds of every APPROVED request in every state.
   */
  lemma ReservationSuffices(c: Config, seeding: seq<Event>, events: seq<Event>, id: RequestId, commitId: string)
    requires var s := Run(c, Run(c, INITIAL, seeding), events);
             && id < |s.db.requests| && s.db.requests[id].status == Approved
             && Seeded(Run(c, INITIAL, seeding), s.db.requests[id].key)
             && QuietRun(events, s.db.requests[id].key)
    ensures Suffices(Run(c, Run(c, INITIAL, seeding), events), id, commitId)
  {
    var start := Run(c, INITIAL, seeding);
    InitialInv(c);
    RunKeeps(c, INITIAL, seeding);
    RunKeeps(c, start, events);
    var s := Run(c, start, events);
    SeededSettles(c, start, s.db.requests[id].key);
    QuietRunSettles(c, start, events, s.db.requests[id].key);
    SettlingSuffices(c, s, id, commitId);
  }

  // ---------- and so nothing fails ----------

  /** The event forces no refusal at HCM. */
  predicate Unforced(e: Event) {
    (e.ApproveAttempt? || e.WorkerAttempt?) ==>
      e.conditions.mode == Normal || e.conditions.mode == Unavailable
  }

  /** No call of the balance has been refused, and none of its requests has failed. */
  ghost predicate NothingRefused(s: State, key: Key) {
    && (forall id: nat | id < |s.db.requests| && s.db.requests[id].key == key ::
          s.db.requests[id].status != Failed)
    && (forall id | id in s.approvals && id < |s.db.requests| && s.db.requests[id].key == key ::
          !s.approvals[id].phase.TurnedDown?)
    && (s.worker.Working? && s.worker.id < |s.db.requests| && s.db.requests[s.worker.id].key == key ==>
          !s.worker.phase.TurnedDown?)
  }

  lemma AttemptNotRefused(c: Config, s: State, id: RequestId, conditions: Conditions)
    requires Inv(c, s) && id < |s.db.requests| && s.db.requests[id].status == Approved
    requires Settling(s, s.db.requests[id].key)
    requires conditions.mode == Normal || conditions.mode == Unavailable
    ensures !Attempt(s.hcm, id, s.db.requests[id].key, s.db.requests[id].days, conditions).1.Refused?
  {
    SettlingSuffices(c, s, id, conditions.freshCommitId);
  }

  lemma ApproveAttemptRefusesNone(c: Config, s: State, id: RequestId, conditions: Conditions, key: Key)
    requires Inv(c, s) && Settling(s, key) && NothingRefused(s, key)
    requires Unforced(ApproveAttempt(id, conditions))
    ensures NothingRefused(ApproveAttemptStep(c, s, id, conditions), key)
  {
    if id in s.approvals && s.approvals[id].phase.Calling? && s.db.requests[id].key == key {
      assert BeingDebited(s, id);
      AttemptNotRefused(c, s, id, conditions);
    }
  }

  lemma WorkerAttemptRefusesNone(c: Config, s: State, conditions: Conditions, key: Key)
    requires Inv(c, s) && Settling(s, key) && NothingRefused(s, key)
    requires Unforced(WorkerAttempt(conditions))
    ensures NothingRefused(WorkerAttemptStep(c, s, conditions), key)
  {
    hide Attempt;
    if s.worker.Working? && s.worker.phase.Calling? {
      WorkerAttemptNotRefused(c, s, conditions, key);
    }
  }

  lemma WorkerAttemptNotRefused(c: Config, s: State, conditions: Conditions, key: Key)
    requires Inv(c, s) && Settling(s, key) && Unforced(WorkerAttempt(conditions))
    requires s.worker.Working? && s.worker.phase.Calling?
    ensures s.worker.id < |s.db.requests|
    ensures s.db.requests[s.worker.id].key == key ==>
              var payload := s.worker.row.payload;
              !Attempt(s.hcm, s.worker.id, payload.key, payload.days, conditions).1.Refused?
  {
    if s.db.requests[s.worker.id].key == key {
      assert BeingDebited(s, s.worker.id);
      AttemptNotRefused(c, s, s.worker.id, conditions);
    }
  }

  lemma FinishRefusesNone(c: Config, s: State, id: RequestId, key: Key)
    requires ThreadsOk(c, s) && NothingRefused(s, key)
    ensures NothingRefused(ApproveFinishStep(s, id), key)
  {
    hide HcmOk;
  }

  lemma WorkerSettleRefusesNone(c: Config, s: State, key: Key)
    requires ThreadsOk(c, s) && NothingRefused(s, key)
    ensures NothingRefused(WorkerSettleStep(s), key)
  {
    hide HcmOk, CallsOk;
  }

  lemma TableStepRefusesNone(c: Config, s: State, e: Event, key: Key)
    requires ThreadsOk(c, s) && NothingRefused(s, key) && Quiet(e, key)
    requires e.Create? || e.ApproveBegin? || e.Reject? || e.Cancel? || e.Refresh?
    ensures NothingRefused(Next(c, s, e), key)
  {
    hide NothingRefused;
    match e {
      case Create(k, days, createdAt, clientKey) => CreateRefusesNone(c, s, k, days, createdAt, clientKey, key);
      case ApproveBegin(id) => BeginRefusesNone(c, s, id, key);
      case Reject(id) => WithdrawRefusesNone(s, id, Rejected, key);
      case Cancel(id) => WithdrawRefusesNone(s, id, Cancelled, key);
      case Refresh(k, absolute) => RefreshRefusesNone(s, k, absolute, key);
    }
  }

  lemma CreateRefusesNone(c: Config, s: State, k: Key, days: int, createdAt: int, clientKey: Option<string>, key: Key)
    requires ThreadsOk(c, s) && NothingRefused(s, key)
    ensures NothingRefused(s.(db := After(s.db, CreateTx(s.db, k, days, createdAt, clientKey))), key)
  {
    hide HcmOk, KeyTaken, Reserve;
  }

  lemma BeginRefusesNone(c: Config, s: State, id: RequestId, key: Key)
    requires NothingRefused(s, key)
    ensures NothingRefused(ApproveStep(s, id), key)
  {
  }

  lemma WithdrawRefusesNone(s: State, id: RequestId, to: Status, key: Key)
    requires NothingRefused(s, key) && (to == Rejected || to == Cancelled)
    ensures NothingRefused(s.(db := After(s.db, WithdrawTx(s.db, id, to))), key)
  {
  }

  lemma RefreshRefusesNone(s: State, k: Key, absolute: int, key: Key)
    requires NothingRefused(s, key)
    ensures NothingRefused(s.(db := After(s.db, RefreshTx(s.db, k, absolute))), key)
  {
  }

  lemma PushElsewhereRefusesNone(c: Config, s: State, e: Event, key: Key)
    requires NothingRefused(s, key) && e.Push? && e.key != key
    ensures NothingRefused(Next(c, s, e), key)
  {
    hide Flagged, Held, SumAt;
    if IsListing(s.db.requests, e.key, e.listing) {
      FlaggedAreHeld(s.db.requests, e.key, e.absolute, e.listing);
    }
  }

  lemma CallStepRefusesNone(c: Config, s: State, e: Event, key: Key)
    requires NothingRefused(s, key) && !WritesTables(e) && !e.ApproveAttempt? && !e.WorkerAttempt?
    ensures NothingRefused(Next(c, s, e), key)
  {
    OtherStepsKeepTables(c, s, e);
  }

  lemma StepRefusesNone(c: Config, s: State, e: Event, key: Key)
    requires Inv(c, s) && Quiet(e, key) && Unforced(e) && Settling(s, key) && NothingRefused(s, key)
    ensures NothingRefused(Next(c, s, e), key)
  {
    if e.ApproveAttempt? {
      ApproveAttemptRefusesNone(c, s, e.id, e.conditions, key);
    } else if e.WorkerAttempt? {
      WorkerAttemptRefusesNone(c, s, e.conditions, key);
    } else if e.ApproveFinish? {
      FinishRefusesNone(c, s, e.id, key);
    } else if e.WorkerSettle? {
      WorkerSettleRefusesNone(c, s, key);
    } else if e.Push? {
      PushElsewhereRefusesNone(c, s, e, key);
    } else if WritesTables(e) {
      TableStepRefusesNone(c, s, e, key);
    } else {
      CallStepRefusesNone(c, s, e, key);
    }
  }

  lemma {:induction false} QuietRunRefusesNone(c: Config, s: State, events: seq<Event>, key: Key)
    requires Inv(c, s) && QuietRun(events, key)
    requires forall n | 0 <= n < |events| :: Unforced(events[n])
    requires Settling(s, key) && NothingRefused(s, key)
    ensures NothingRefused(Run(c, s, events), key)
  {
    hide Next, Inv, Settling, NothingRefused, Unforced;
    if events != [] {
      var init, last := events[..|events| - 1], events[|events| - 1];
      RunKeeps(c, s, init);
      QuietRunSettles(c, s, init, key);
      QuietRunRefusesNone(c, s, init, key);
      assert Unforced(last);
      StepRefusesNone(c, Run(c, s, init), last, key);
    }
  }

  /**
   * Over a seeded, undisturbed balance and without forced scenarios no request ever fails: an
   * approval can only be waiting or COMMITTED.
   */
  lemma NoApprovalFails(c: Config, seeding: seq<Event>, events: seq<Event>, id: RequestId)
    requires forall n | 0 <= n < |events| :: Unforced(events[n])
    requires var s := Run(c, Run(c, INITIAL, seeding), events);
             && id < |s.db.requests|
             && Seeded(Run(c, INITIAL, seeding), s.db.requests[id].key)
             && QuietRun(events, s.db.requests[id].key)
    ensures Run(c, Run(c, INITIAL, seeding), events).db.requests[id].status != Failed
  {
    var start := Run(c, INITIAL, seeding);
    var key := Run(c, start, events).db.requests[id].key;
    InitialInv(c);
    RunKeeps(c, INITIAL, seeding);
    SeededSettles(c, start, key);
    QuietRunRefusesNone(c, start, events, key);
  }
}
