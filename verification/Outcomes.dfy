/**
 * What each operation leaves, and when it goes through: told in the statuses, the balances and
 * the rows that a caller can look at before and afterwards.
 */
module Outcomes {
  import opened Wrappers
  import opened Sums
  import opened Lifecycle
  import opened Balance
  import opened Tables
  import opened Flagging
  import opened Transactions
  import opened Hcm
  import opened System
  import opened Invariant

  // ---------- creating and withdrawing ----------

  /** A create call is refused for exactly one of four reasons, tried in this order. */
  lemma CreateOutcome(db: Db, key: Key, days: int, createdAt: int, clientKey: Option<string>)
    ensures var result := CreateTx(db, key, days, createdAt, clientKey);
            var known, current := key in db.balances, SnapshotAt(db.balances, key);
            var fits := known && current.balance - current.reserved >= days;
            var taken := clientKey.Some? && exists i :: 0 <= i < |db.requests| && db.requests[i].clientKey == clientKey;
            && (result == Failure(BadRequest) <==> days <= 0)
            && (result == Failure(NotFound) <==> days > 0 && !known)
            && (result == Failure(InsufficientBalance) <==> days > 0 && known && !fits)
            && (result == Failure(UniqueViolation) <==> days > 0 && fits && taken)
            && (days > 0 && fits && !taken <==> result.Success?)
            && (result.Success? ==>
                  result.value == db.(
                    balances := db.balances[key := Snapshot(current.balance, current.reserved + days)],
                    requests := db.requests + [Request(key, days, Pending, createdAt, clientKey, None)]))
  {
  }

  /** An approval begins iff the request is PENDING, and changes its status alone. */
  lemma ApproveOutcome(db: Db, id: RequestId)
    ensures var result := ApproveTx(db, id);
            if id >= |db.requests| then result == Failure(NotFound)
            else if db.requests[id].status != Pending then result == Failure(InvalidTransition)
            else result == Success(db.(requests := db.requests[id := db.requests[id].(status := Approved)]))
  {
  }

  /** The request of a withdrawal and what is left of its balance. */
  function Withdrawn(db: Db, id: RequestId, status: Status): Db
    requires id < |db.requests| && db.requests[id].key in db.balances
  {
    var request := db.requests[id];
    var current := db.balances[request.key];
    db.(balances := db.balances[request.key := Snapshot(current.balance, current.reserved - request.days)],
        requests := db.requests[id := request.(status := status)])
  }

  /**
   * Rejecting leaves a PENDING request REJECTED, cancelling leaves it CANCELLED, and both give its
   * days back. A request in any other status is left alone, and so is one whose days are no longer
   * all reserved.
   */
  lemma WithdrawOutcome(c: Config, s: State, id: RequestId)
    requires Inv(c, s) && id < |s.db.requests|
    ensures var request := s.db.requests[id];
            && request.key in s.db.balances
            && var goes := request.status == Pending && s.db.balances[request.key].reserved >= request.days;
               && Next(c, s, Reject(id)) == s.(db := if goes then Withdrawn(s.db, id, Rejected) else s.db)
               && Next(c, s, Cancel(id)) == s.(db := if goes then Withdrawn(s.db, id, Cancelled) else s.db)
  {
    assert s.db.requests[id].key in s.db.balances && s.db.requests[id].days > 0;
    hide Inv;
  }

  /** What the caller of a withdrawal is told. */
  lemma WithdrawErrors(db: Db, id: RequestId, to: Status)
    requires to == Rejected || to == Cancelled
    ensures WithdrawTx(db, id, to) == Failure(NotFound) <==> id >= |db.requests|
    ensures WithdrawTx(db, id, to) == Failure(InvalidTransition) <==>
            id < |db.requests| && db.requests[id].status != Pending
  {
  }

  /** While the reserved days are the held days no PENDING request is refused its withdrawal. */
  lemma PendingCanBeWithdrawn(c: Config, s: State, id: RequestId)
    requires Inv(c, s) && id < |s.db.requests| && s.db.requests[id].status == Pending
    requires s.db.requests[id].key in s.db.balances
    requires s.db.balances[s.db.requests[id].key].reserved == Held(s.db.requests, s.db.requests[id].key)
    ensures Next(c, s, Reject(id)).db.requests[id].status == Rejected
    ensures Next(c, s, Cancel(id)).db.requests[id].status == Cancelled
  {
    HeldCovers(s.db.requests, id);
    WithdrawOutcome(c, s, id);
  }

  // ---------- the end of an approve call ----------

  /** Both amounts are enough for the days, so that neither guard of the commit throws. */
  predicate Bears(snapshot: Snapshot, days: int) {
    snapshot.reserved >= days && snapshot.balance >= days
  }

  /** The debit has been written into all three tables. */
  predicate IsDebited(before: Db, after: Db, id: RequestId, commitId: string)
    requires id < |before.requests| && before.requests[id].key in before.balances
  {
    var request := before.requests[id];
    var key, days := request.key, request.days;
    var current := before.balances[key];
    after == before.(
      balances := before.balances[key := Snapshot(current.balance - days, current.reserved - days)],
      requests := before.requests[id := request.(status := Committed, commitId := Some(commitId))],
      ledger := before.ledger + [LedgerRow(key, -days, Debit, Some(id), Some(id))])
  }

  /** The request has failed and its days are given back; a contradiction by HCM is put on record. */
  predicate IsRefused(before: Db, after: Db, id: RequestId, code: RefusalCode)
    requires id < |before.requests| && before.requests[id].key in before.balances
  {
    var request := before.requests[id];
    var key, days := request.key, request.days;
    var current := before.balances[key];
    after == before.(
      balances := before.balances[key := Snapshot(current.balance, current.reserved - days)],
      requests := before.requests[id := request.(status := Status.Failed)],
      ledger := match code
                case InvalidDimension => before.ledger
                case InsufficientAtHcm => before.ledger + [LedgerRow(key, 0, HcmSyncAdjust, Some(id), None)])
  }

  lemma CommitOutcome(db: Db, id: RequestId, row: Request, commitId: string)
    requires id < |db.requests| && row == db.requests[id].(status := row.status, commitId := None)
    requires row.days > 0 && row.key in db.balances && DebitRows(db.ledger, id) == 0
    ensures var tx := CommitTx(db, id, row, row.key, row.days, commitId);
            && (tx.Success? <==> Bears(db.balances[row.key], row.days))
            && (tx.Success? ==> IsDebited(db, tx.value, id, commitId))
  {
    hide DebitRows;
  }

  lemma RefusalOutcome(db: Db, id: RequestId, row: Request, code: RefusalCode)
    requires id < |db.requests| && row == db.requests[id].(status := row.status, commitId := None)
    requires row.days > 0 && row.key in db.balances && db.requests[id].commitId == None
    ensures var tx := FailApprovalTx(db, id, row, code == InsufficientAtHcm);
            && (tx.Success? <==> db.balances[row.key].reserved >= row.days)
            && (tx.Success? ==> IsRefused(db, tx.value, id, code))
  {
  }

  /**
   * How an approve call ends. An acknowledged debit is committed iff the balance bears it, a
   * refused one fails the request iff its days are reserved; otherwise the tables stay as they
   * were. A call that gave up queues the debit, due to be delivered from the start.
   */
  lemma FinishOutcome(c: Config, s: State, id: RequestId)
    requires Inv(c, s) && id in s.approvals && !s.approvals[id].phase.Calling?
    ensures id < |s.db.requests| && s.db.requests[id].key in s.db.balances
    ensures var request, after := s.db.requests[id], ApproveFinishStep(s, id);
            var current := s.db.balances[request.key];
            && after == s.(db := after.db, approvals := s.approvals - {id})
            && match s.approvals[id].phase
               case Acked(commitId) =>
                 if Bears(current, request.days) then IsDebited(s.db, after.db, id, commitId) else after.db == s.db
               case TurnedDown(code) =>
                 if current.reserved >= request.days then IsRefused(s.db, after.db, id, code) else after.db == s.db
               case GaveUp =>
                 after.db == s.db.(outbox :=
                   s.db.outbox[id := OutboxRow(Queued, 0, Payload(id, request.key, request.days))])
               case _ => false
  {
    CallAtEnd(c, s, id);
    hide Inv, DebitRows, IsDebited, IsRefused, CommitTx, FailApprovalTx;
    var row := s.approvals[id].row;
    match s.approvals[id].phase
    case Acked(commitId) => CommitOutcome(s.db, id, row, commitId);
    case TurnedDown(code) => RefusalOutcome(s.db, id, row, code);
    case GaveUp =>
    case Settled =>
  }

  /** What the invariant says of a call that is about to end. */
  lemma CallAtEnd(c: Config, s: State, id: RequestId)
    requires Inv(c, s) && id in s.approvals
    ensures var call := s.approvals[id];
            && id < |s.db.requests| && SameRequest(call.row, s.db.requests[id]) && call.row.days > 0
            && call.row.key in s.db.balances && id !in s.db.outbox && call.phase != Settled
            && s.db.requests[id].commitId == None && DebitRows(s.db.ledger, id) == 0
  {
    assert CommitOk(s.db, s.hcm, id);
  }

  // ---------- the end of a delivery ----------

  /**
   * How a delivery ends. A refused debit of an APPROVED request fails it, gives its days back,
   * and its row is DONE. An acknowledged one is committed iff the balance bears it. A request that
   * has been settled meanwhile is left alone, and its row is DONE. Every other delivery uses up
   * one attempt, the last of which leaves the row DEAD.
   */
  predicate DeliveryEnds(c: Config, s: State, after: Db)
    requires s.worker.Working? && s.worker.id < |s.db.requests|
    requires s.db.requests[s.worker.id].key in s.db.balances
  {
    var id, row := s.worker.id, s.worker.row;
    var request := s.db.requests[id];
    var key, current := request.key, s.db.balances[request.key];
    var done := s.db.outbox[id := OutboxRow(Done, row.attempts, row.payload)];
    var again := s.db.outbox[id :=
      OutboxRow(if row.attempts + 1 < c.maxAttempts then Queued else Dead, row.attempts + 1, row.payload)];
    if s.worker.phase.GaveUp? then
      after == s.db.(outbox := again)
    else if request.status != Approved then
      after == s.db.(outbox := done)
    else if s.worker.phase.TurnedDown? then
      var left := if current.reserved >= request.days then current.reserved - request.days else 0;
      after == s.db.(
        balances := s.db.balances[key := Snapshot(current.balance, left)],
        requests := s.db.requests[id := request.(status := Status.Failed)],
        outbox := done)
    else if Bears(current, request.days) then
      s.worker.phase.Acked? && IsDebited(s.db.(outbox := done), after, id, s.worker.phase.commitId)
    else
      after == s.db.(outbox := again)
  }

  lemma DeliveryOutcome(c: Config, s: State)
    requires Inv(c, s) && s.worker.Working? && !s.worker.phase.Calling? && !s.worker.phase.Settled?
    ensures var id, after := s.worker.id, WorkerMarkStep(c, WorkerSettleStep(s));
            && id < |s.db.requests| && s.db.requests[id].key in s.db.balances
            && after == s.(db := after.db, worker := Idle)
            && DeliveryEnds(c, s, after.db)
  {
    WorkAtEnd(c, s);
    hide Inv, DeliveryEnds, WorkerSettleStep, WorkerMarkStep;
    if s.worker.phase.Acked? {
      AckedDeliveryEnds(c, s);
    } else {
      OtherDeliveryEnds(c, s);
    }
  }

  lemma AckedDeliveryEnds(c: Config, s: State)
    requires s.worker.Working? && s.worker.phase.Acked? && s.worker.id < |s.db.requests|
    requires var request := s.db.requests[s.worker.id];
             && s.worker.row.payload == Payload(s.worker.id, request.key, request.days)
             && request.key in s.db.balances && request.days > 0
             && (request.status == Approved ==>
                   request.commitId == None && DebitRows(s.db.ledger, s.worker.id) == 0)
    ensures var after := WorkerMarkStep(c, WorkerSettleStep(s));
            after == s.(db := after.db, worker := Idle) && DeliveryEnds(c, s, after.db)
  {
    hide DebitRows, CommitTx;
    var id := s.worker.id;
    if s.db.requests[id].status == Approved {
      CommitOutcome(s.db, id, s.db.requests[id], s.worker.phase.commitId);
    }
  }

  lemma OtherDeliveryEnds(c: Config, s: State)
    requires s.worker.Working? && (s.worker.phase.TurnedDown? || s.worker.phase.GaveUp?)
    requires s.worker.id < |s.db.requests|
    requires var request := s.db.requests[s.worker.id];
             s.worker.row.payload == Payload(s.worker.id, request.key, request.days) && request.key in s.db.balances
    ensures var after := WorkerMarkStep(c, WorkerSettleStep(s));
            after == s.(db := after.db, worker := Idle) && DeliveryEnds(c, s, after.db)
  {
  }

  lemma WorkAtEnd(c: Config, s: State)
    requires Inv(c, s) && s.worker.Working?
    ensures var id := s.worker.id;
            && id < |s.db.requests| && s.db.requests[id].key in s.db.balances && id in s.db.outbox
            && s.worker.row.payload == Payload(id, s.db.requests[id].key, s.db.requests[id].days)
            && s.db.requests[id].days > 0
            && (s.db.requests[id].status == Approved ==>
                  s.db.requests[id].commitId == None && DebitRows(s.db.ledger, id) == 0)
  {
    assert CommitOk(s.db, s.hcm, s.worker.id);
  }

  // ---------- pushes and refreshes ----------

  /**
   * A push stores the amount, records the difference if there is one, fails exactly the flagged
   * requests, which were PENDING or APPROVED ones of the balance, and changes nothing else.
   */
  lemma PushOutcome(db: Db, key: Key, absolute: int, listing: seq<RequestId>)
    requires IsListing(db.requests, key, listing)
    ensures var pushed := PushTx(db, key, absolute, listing);
            var after, delta := pushed.db, absolute - SnapshotAt(db.balances, key).balance;
            && pushed.delta == delta && |after.requests| == |db.requests| && key in after.balances
            && after.balances == db.balances[key := Snapshot(absolute, after.balances[key].reserved)]
            && after.ledger == (if delta == 0 then db.ledger
                                else db.ledger + [LedgerRow(key, delta, HcmSyncAdjust, None, None)])
            && after.outbox == db.outbox
            && (forall i: nat | i < |db.requests| ::
                  after.requests[i] == if i in pushed.flagged then db.requests[i].(status := Status.Failed)
                                       else db.requests[i])
            && (forall i | i in pushed.flagged ::
                  i < |db.requests| && db.requests[i].key == key &&
                  (db.requests[i].status == Pending || db.requests[i].status == Approved))
  {
    FlaggedAreOpen(db.requests, key, absolute, listing);
    hide Held, SumAt, HeldWeights, Flagged, IsListing;
  }

  lemma FlaggedAreOpen(requests: seq<Request>, key: Key, absolute: int, listing: seq<RequestId>)
    requires IsListing(requests, key, listing)
    ensures forall i | i in Flagged(requests, key, absolute, listing) ::
              i < |requests| && requests[i].key == key &&
              (requests[i].status == Pending || requests[i].status == Approved)
  {
    FlaggedAreHeld(requests, key, absolute, listing);
    hide Flagged, IsListing;
  }

  /** A refresh goes through iff the amount is not negative, and asks no request. */
  lemma RefreshOutcome(db: Db, key: Key, absolute: int)
    ensures var result, current := RefreshTx(db, key, absolute), SnapshotAt(db.balances, key);
            && (absolute < 0 <==> result == Failure(InvalidAmount))
            && (absolute >= 0 ==>
                  result == Success(db.(
                    balances := db.balances[key := Snapshot(absolute, current.reserved)],
                    ledger := db.ledger +
                      if key in db.balances && absolute == current.balance then []
                      else [LedgerRow(key, absolute - current.balance, HcmSyncAdjust, None, None)])))
  {
    assert db.ledger + [] == db.ledger;
  }
}
