/**
 * Reserved days against held days and against the balance. The laws are stated per balance,
 * so that a disturbance of one balance says nothing about another.
 */
module Reservations {
  import opened Wrappers
  import opened Sums
  import opened Lifecycle
  import opened Tables
  import opened Flagging
  import opened Transactions
  import opened Hcm
  import opened System
  import opened Invariant
  import opened InvariantSteps

  /** No approve call of this balance carries a row that a push has overtaken. */
  ghost predicate CallsLive(s: State, key: Key) {
    forall id | id in s.approvals && id < |s.db.requests| && s.db.requests[id].key == key ::
      s.db.requests[id].status == Approved
  }

  /** Reserved days are exactly the days of the PENDING and APPROVED requests. */
  predicate ExactAt(db: Db, key: Key) {
    key in db.balances ==> db.balances[key].reserved == Held(db.requests, key)
  }

  predicate FitsAt(db: Db, key: Key) {
    key in db.balances ==> db.balances[key].reserved <= db.balances[key].balance
  }

  // ---------- reserved days are exact in clean runs ----------

  /** One request's days leave or join the held days and the reserved days together. */
  lemma ExactMoves(db: Db, after: Db, id: RequestId, request: Request, key: Key)
    requires ExactAt(db, key) && id < |db.requests|
    requires request == db.requests[id].(status := request.status, commitId := request.commitId)
    requires after.requests == db.requests[id := request]
    requires key in db.balances <==> key in after.balances
    requires key in db.balances && key != request.key ==> after.balances[key] == db.balances[key]
    requires key in db.balances && key == request.key ==>
               after.balances[key].reserved == db.balances[key].reserved
               - (if HoldsReservation(db.requests[id].status) then request.days else 0)
               + (if HoldsReservation(request.status) then request.days else 0)
    ensures ExactAt(after, key)
  {
    HeldUpdate(db.requests, id, request, key);
  }

  lemma CreateExact(db: Db, key: Key, days: int, createdAt: int, clientKey: Option<string>, at: Key)
    requires ExactAt(db, at)
    ensures ExactAt(After(db, CreateTx(db, key, days, createdAt, clientKey)), at)
  {
    HeldAppend(db.requests, Request(key, days, Pending, createdAt, clientKey, None), at);
  }

  lemma ApproveExact(db: Db, id: RequestId, at: Key)
    requires ExactAt(db, at)
    ensures ExactAt(After(db, ApproveTx(db, id)), at)
  {
    if ApproveTx(db, id).Success? {
      ExactMoves(db, ApproveTx(db, id).value, id, db.requests[id].(status := Approved), at);
    }
  }

  lemma WithdrawExact(db: Db, id: RequestId, to: Status, at: Key)
    requires ExactAt(db, at) && (to == Rejected || to == Cancelled)
    ensures ExactAt(After(db, WithdrawTx(db, id, to)), at)
  {
    if WithdrawTx(db, id, to).Success? {
      ExactMoves(db, WithdrawTx(db, id, to).value, id, db.requests[id].(status := to), at);
    }
  }

  lemma CommitExact(db: Db, id: RequestId, row: Request, commitId: string, at: Key)
    requires ExactAt(db, at)
    requires id < |db.requests| && SameRequest(row, db.requests[id])
    requires row.key == at ==> db.requests[id].status == Approved
    ensures ExactAt(After(db, CommitTx(db, id, row, row.key, row.days, commitId)), at)
  {
    var result := CommitTx(db, id, row, row.key, row.days, commitId);
    if result.Success? {
      ExactMovesAside(db, result.value, id, row.(status := Committed, commitId := Some(commitId)), at);
    }
  }

  /** As ExactMoves, for a request that ends; one of another balance may start anywhere. */
  lemma ExactMovesAside(db: Db, after: Db, id: RequestId, request: Request, key: Key)
    requires ExactAt(db, key) && id < |db.requests|
    requires request == db.requests[id].(status := request.status, commitId := request.commitId)
    requires !HoldsReservation(request.status)
    requires after.requests == db.requests[id := request]
    requires key in db.balances <==> key in after.balances
    requires key in db.balances && key != request.key ==> after.balances[key] == db.balances[key]
    requires key in db.balances && key == request.key ==>
               && HoldsReservation(db.requests[id].status)
               && after.balances[key].reserved == db.balances[key].reserved - request.days
    ensures ExactAt(after, key)
  {
    HeldUpdate(db.requests, id, request, key);
  }

  lemma FailApprovalExact(db: Db, id: RequestId, row: Request, insufficient: bool, at: Key)
    requires ExactAt(db, at)
    requires id < |db.requests| && SameRequest(row, db.requests[id])
    requires row.key == at ==> db.requests[id].status == Approved
    ensures ExactAt(After(db, FailApprovalTx(db, id, row, insufficient)), at)
  {
    var result := FailApprovalTx(db, id, row, insufficient);
    if result.Success? {
      ExactMovesAside(db, result.value, id, row.(status := Failed), at);
    }
  }

  lemma WorkerFailExact(db: Db, payload: Payload, at: Key)
    requires DbOk(db) && ExactAt(db, at)
    requires payload.requestId < |db.requests|
    requires payload.key == db.requests[payload.requestId].key
    requires payload.days == db.requests[payload.requestId].days
    ensures ExactAt(WorkerFailTx(db, payload), at)
  {
    var id := payload.requestId;
    if CanTransition(db.requests[id].status, Failed) {
      HeldCovers(db.requests, id);
      ExactMovesAside(db, WorkerFailTx(db, payload), id, db.requests[id].(status := Failed), at);
    }
  }

  /** A push keeps reserved days exact, and resets them when it finds too many held days. */
  lemma PushExact(db: Db, key: Key, absolute: int, listing: seq<RequestId>, at: Key)
    requires RowsOk(db) && IsListing(db.requests, key, listing)
    requires ExactAt(db, at)
    ensures ExactAt(PushTx(db, key, absolute, listing).db, at)
  {
    ListingHoldsAll(db.requests, key, listing);
    FlaggedAreHeld(db.requests, key, absolute, listing);
    if at != key {
      HeldElsewhere(db.requests, key, Flagged(db.requests, key, absolute, listing), at);
    } else if Held(db.requests, key) <= absolute {
      NothingFlagged(db, key, absolute, listing);
      if key !in db.balances {
        NoRequestNoHeld(db.requests, key);
      }
    }
  }

  lemma NoRequestNoHeld(requests: seq<Request>, key: Key)
    requires forall i | 0 <= i < |requests| :: requests[i].key != key
    ensures Held(requests, key) == 0
  {
    SumZero(HeldWeights(requests, key));
  }

  lemma RefreshExact(db: Db, key: Key, absolute: int, at: Key)
    requires RowsOk(db) && ExactAt(db, at)
    ensures ExactAt(After(db, RefreshTx(db, key, absolute)), at)
  {
    if key !in db.balances {
      NoRequestNoHeld(db.requests, key);
    }
  }

  /** The event closes no approve call of this balance with a row that a push has overtaken. */
  predicate ClosesLive(s: State, e: Event, key: Key) {
    e.ApproveFinish? && e.id in s.approvals && e.id < |s.db.requests| && s.db.requests[e.id].key == key ==>
      s.db.requests[e.id].status == Approved
  }

  lemma ApproveFinishExact(c: Config, s: State, id: RequestId, at: Key)
    requires ThreadsOk(c, s) && ExactAt(s.db, at) && ClosesLive(s, ApproveFinish(id), at)
    ensures ExactAt(ApproveFinishStep(s, id).db, at)
  {
    if id in s.approvals {
      var row := s.approvals[id].row;
      match s.approvals[id].phase
      case Calling(_) =>
      case Settled =>
      case Acked(commitId) => CommitExact(s.db, id, row, commitId, at);
      case TurnedDown(code) => FailApprovalExact(s.db, id, row, code == InsufficientAtHcm, at);
      case GaveUp =>
    }
  }

  lemma WorkerCommitExact(c: Config, s: State, at: Key)
    requires ThreadsOk(c, s) && CommitsOk(s.db, s.hcm) && ExactAt(s.db, at)
    requires s.worker.Working? && s.worker.phase.Acked?
    ensures ExactAt(WorkerSettleStep(s).db, at)
  {
    var request := s.db.requests[s.worker.id];
    if CanTransition(request.status, Committed) {
      assert CommitOk(s.db, s.hcm, s.worker.id);
      CommitExact(s.db, s.worker.id, request, s.worker.phase.commitId, at);
    }
  }

  lemma WorkerSettleExact(c: Config, s: State, at: Key)
    requires Inv(c, s) && ExactAt(s.db, at)
    ensures ExactAt(WorkerSettleStep(s).db, at)
  {
    if s.worker.Working? && s.worker.phase.Acked? {
      WorkerCommitExact(c, s, at);
    } else if s.worker.Working? && s.worker.phase.TurnedDown? {
      WorkerFailExact(s.db, s.worker.row.payload, at);
    }
  }

  lemma TableStepExact(c: Config, s: State, e: Event, key: Key)
    requires RowsOk(s.db) && WritesTables(e) && !e.WorkerSettle? && !e.ApproveFinish?
    requires ExactAt(s.db, key)
    ensures ExactAt(Next(c, s, e).db, key)
  {
    match e
    case Create(k, days, createdAt, clientKey) => CreateExact(s.db, k, days, createdAt, clientKey, key);
    case ApproveBegin(id) => ApproveExact(s.db, id, key);
    case Reject(id) => WithdrawExact(s.db, id, Rejected, key);
    case Cancel(id) => WithdrawExact(s.db, id, Cancelled, key);
    case Push(k, absolute, listing) =>
      if IsListing(s.db.requests, k, listing) {
        PushExact(s.db, k, absolute, listing, key);
      }
    case Refresh(k, absolute) => RefreshExact(s.db, k, absolute, key);
  }

  /** No step makes reserved days inexact, unless it closes an approve call with a stale row. */
  lemma StepExact(c: Config, s: State, e: Event, key: Key)
    requires Inv(c, s)
    requires ClosesLive(s, e, key) && ExactAt(s.db, key)
    ensures ExactAt(Next(c, s, e).db, key)
  {
    if e.WorkerSettle? {
      WorkerSettleExact(c, s, key);
    } else if e.ApproveFinish? {
      ApproveFinishExact(c, s, e.id, key);
    } else if WritesTables(e) {
      TableStepExact(c, s, e, key);
    } else {
      OtherStepsKeepTables(c, s, e);
    }
  }

  lemma ApproveFinishLive(c: Config, s: State, id: RequestId, key: Key)
    requires ThreadsOk(c, s) && CallsLive(s, key)
    ensures CallsLive(ApproveFinishStep(s, id), key)
  {
    hide HcmOk;
  }

  lemma PushLive(s: State, key: Key, absolute: int, listing: seq<RequestId>, at: Key)
    requires IsListing(s.db.requests, key, listing) && CallsLive(s, at)
    requires Clean(s, Push(key, absolute, listing), at)
    ensures CallsLive(s.(db := PushTx(s.db, key, absolute, listing).db), at)
  {
    FlaggedAreHeld(s.db.requests, key, absolute, listing);
  }

  lemma CommitLive(c: Config, s: State, key: Key)
    requires ThreadsOk(c, s) && CallsLive(s, key)
    ensures CallsLive(WorkerSettleStep(s), key)
  {
    hide HcmOk;
  }

  lemma StepLive(c: Config, s: State, e: Event, key: Key)
    requires ThreadsOk(c, s) && CallsLive(s, key) && Clean(s, e, key)
    ensures CallsLive(Next(c, s, e), key)
  {
    if e.ApproveFinish? {
      ApproveFinishLive(c, s, e.id, key);
    } else if e.WorkerSettle? {
      CommitLive(c, s, key);
    } else if e.Push? {
      if IsListing(s.db.requests, e.key, e.listing) {
        PushLive(s, e.key, e.absolute, e.listing, key);
      }
    } else if WritesTables(e) {
      TableStepLive(c, s, e, key);
    } else {
      OtherStepsKeepTables(c, s, e);
    }
  }

  lemma TableStepLive(c: Config, s: State, e: Event, key: Key)
    requires CallsOk(c, s) && CallsLive(s, key)
    requires e.Create? || e.ApproveBegin? || e.Reject? || e.Cancel? || e.Refresh?
    ensures CallsLive(Next(c, s, e), key)
  {
    hide PushTx, IsListing;
  }

  // ---------- reserved days fit the balance ----------

  /** A push makes reserved days fit again, whatever the balance was before. */
  lemma PushRestoresFit(db: Db, key: Key, absolute: int, listing: seq<RequestId>)
    requires IsListing(db.requests, key, listing) && absolute >= 0
    requires SnapshotAt(db.balances, key).reserved <= Held(db.requests, key)
    ensures FitsAt(PushTx(db, key, absolute, listing).db, key)
  {
    ListingHoldsAll(db.requests, key, listing);
    FlaggingIsLeastCut(db.requests, key, absolute, listing);
  }

  lemma PushFits(db: Db, key: Key, absolute: int, listing: seq<RequestId>, at: Key)
    requires DbOk(db) && IsListing(db.requests, key, listing)
    requires at == key ==> absolute >= 0
    requires FitsAt(db, at)
    ensures FitsAt(PushTx(db, key, absolute, listing).db, at)
  {
    if at == key {
      HeldNonNegative(db.requests, key);
      assert key in db.balances ==> ReservedOk(db.balances[key], db.requests, key);
      PushRestoresFit(db, key, absolute, listing);
    }
  }

  lemma ApproveFinishFits(s: State, id: RequestId, key: Key)
    requires FitsAt(s.db, key)
    requires id in s.approvals ==> s.approvals[id].row.days >= 0
    ensures FitsAt(ApproveFinishStep(s, id).db, key)
  {
  }

  lemma WorkerSettleFits(s: State, key: Key)
    requires FitsAt(s.db, key) && ReservationsOk(s.db)
    requires s.worker.Working? ==> s.worker.row.payload.days >= 0
    ensures FitsAt(WorkerSettleStep(s).db, key)
  {
    if s.worker.Working? && s.worker.row.payload.key in s.db.balances {
      var k := s.worker.row.payload.key;
      assert ReservedOk(s.db.balances[k], s.db.requests, k);
    }
  }

  lemma TableStepFits(c: Config, s: State, e: Event, key: Key)
    requires RowsOk(s.db) && FitsAt(s.db, key) && Covers(s, e, key)
    requires e.Create? || e.ApproveBegin? || e.Reject? || e.Cancel? || e.Refresh?
    ensures FitsAt(Next(c, s, e).db, key)
  {
  }

  lemma ThreadDays(c: Config, s: State)
    requires RowsOk(s.db) && ThreadsOk(c, s)
    ensures forall id | id in s.approvals :: s.approvals[id].row.days >= 0
    ensures s.worker.Working? ==> s.worker.row.payload.days >= 0
  {
  }

  /** No step overbooks, unless it pulls a balance below its reserved days. */
  lemma StepFits(c: Config, s: State, e: Event, key: Key)
    requires Inv(c, s) && Covers(s, e, key)
    requires e.Push? && e.key == key ==> e.absolute >= 0
    requires FitsAt(s.db, key)
    ensures FitsAt(Next(c, s, e).db, key)
  {
    if e.ApproveFinish? {
      ThreadDays(c, s);
      ApproveFinishFits(s, e.id, key);
    } else if e.WorkerSettle? {
      ThreadDays(c, s);
      WorkerSettleFits(s, key);
    } else if e.Push? {
      if IsListing(s.db.requests, e.key, e.listing) {
        PushFits(s.db, e.key, e.absolute, e.listing, key);
      }
    } else if WritesTables(e) {
      TableStepFits(c, s, e, key);
    } else {
      OtherStepsKeepTables(c, s, e);
    }
  }

  // ---------- runs ----------

  /**
   * Reservation conservation. In every run, stale approvals included, reserved days lie between
   * zero and the held days.
   */
  lemma ReservedWithinHeld(c: Config, events: seq<Event>, key: Key)
    ensures var db := Run(c, INITIAL, events).db;
            key in db.balances ==> 0 <= db.balances[key].reserved <= Held(db.requests, key)
  {
    InitialInv(c);
    RunKeeps(c, INITIAL, events);
    var db := Run(c, INITIAL, events).db;
    assert key in db.balances ==> ReservedOk(db.balances[key], db.requests, key);
  }

  lemma {:induction false} CleanRunKeeps(c: Config, s: State, events: seq<Event>, key: Key)
    requires Inv(c, s) && CleanRun(c, s, events, key)
    requires CallsLive(s, key) && ExactAt(s.db, key)
    ensures var final := Run(c, s, events);
            CallsLive(final, key) && ExactAt(final.db, key)
  {
    if events != [] {
      var init := events[..|events| - 1];
      RunPrefix(c, s, events, key);
      RunKeeps(c, s, init);
      CleanRunKeeps(c, s, init, key);
      StepExact(c, Run(c, s, init), events[|events| - 1], key);
      StepLive(c, Run(c, s, init), events[|events| - 1], key);
    }
  }

  /** In every run that is clean for the balance reserved days are the held days. */
  lemma ReservedIsHeldWhenClean(c: Config, events: seq<Event>, key: Key)
    requires CleanRun(c, INITIAL, events, key)
    ensures var db := Run(c, INITIAL, events).db;
            key in db.balances ==> db.balances[key].reserved == Held(db.requests, key)
  {
    InitialInv(c);
    CleanRunKeeps(c, INITIAL, events, key);
  }

  lemma {:induction false} CoveredRunFits(c: Config, s: State, events: seq<Event>, key: Key)
    requires Inv(c, s) && SoundRun(events, key) && CoveredRun(c, s, events, key)
    requires FitsAt(s.db, key)
    ensures FitsAt(Run(c, s, events).db, key)
  {
    if events != [] {
      var init := events[..|events| - 1];
      RunPrefix(c, s, events, key);
      RunKeeps(c, s, init);
      CoveredRunFits(c, s, init, key);
      StepFits(c, Run(c, s, init), events[|events| - 1], key);
    }
  }

  /** No overbooking: in every run, sound and covered for the balance, reserved days are at most the balance. */
  lemma NoOverbooking(c: Config, events: seq<Event>, key: Key)
    requires SoundRun(events, key) && CoveredRun(c, INITIAL, events, key)
    ensures FitsAt(Run(c, INITIAL, events).db, key)
  {
    InitialInv(c);
    CoveredRunFits(c, INITIAL, events, key);
  }
}
