/** What every state of every run satisfies, whatever the interleaving. */
module Invariant {
  import opened Wrappers
  import opened Sums
  import opened Lifecycle
  import opened Balance
  import opened Tables
  import opened Flagging
  import opened Transactions
  import opened Hcm
  import opened System

  ghost predicate RowsOk(db: Db) {
    forall i | 0 <= i < |db.requests| :: db.requests[i].days > 0 && db.requests[i].key in db.balances
  }

  /** Reserved days are neither negative nor more than the held days. */
  ghost predicate ReservedOk(snapshot: Snapshot, requests: seq<Request>, key: Key) {
    0 <= snapshot.reserved <= Held(requests, key)
  }

  ghost predicate ReservationsOk(db: Db) {
    forall key | key in db.balances :: ReservedOk(db.balances[key], db.requests, key)
  }

  /** The ledger rows of a balance add up to its snapshot. */
  ghost predicate LedgerAt(db: Db, key: Key) {
    ProjectBalance(RowsOf(db.ledger, key)) == SnapshotAt(db.balances, key).balance
  }

  ghost predicate LedgerOk(db: Db) {
    forall key: Key :: LedgerAt(db, key)
  }

  ghost predicate ClientKeysOk(requests: seq<Request>) {
    forall i, j | 0 <= i < j < |requests| && requests[i].clientKey.Some? ::
      requests[i].clientKey != requests[j].clientKey
  }

  ghost predicate DbOk(db: Db) {
    RowsOk(db) && ReservationsOk(db) && LedgerOk(db) && ClientKeysOk(db.requests)
  }

  /** A status that a request can have once its approval has begun. */
  predicate Begun(status: Status) {
    status == Approved || status == Committed || status == Failed
  }

  ghost predicate HcmOk(hcm: HcmState, requests: seq<Request>) {
    forall i | i in hcm.debits ::
      && i < |requests| && Begun(requests[i].status)
      && hcm.debits[i].key == requests[i].key
      && hcm.debits[i].days == requests[i].days
  }

  /** COMMITTED, one DEBIT row and a recorded debit with the same commit id go together. */
  ghost predicate CommitOk(db: Db, hcm: HcmState, i: RequestId)
    requires i < |db.requests|
  {
    var request := db.requests[i];
    if request.status == Committed then
      && DebitRows(db.ledger, i) == 1
      && i in hcm.debits
      && request.commitId == Some(hcm.debits[i].commitId)
    else
      DebitRows(db.ledger, i) == 0 && request.commitId == None
  }

  ghost predicate DebitRowOk(row: LedgerRow, requests: seq<Request>) {
    row.debitKey.Some? ==>
      var id := row.debitKey.value;
      id < |requests| && row == DebitRow(id, requests[id].key, requests[id].days)
  }

  ghost predicate CommitsOk(db: Db, hcm: HcmState) {
    && (forall i: nat | i < |db.requests| :: CommitOk(db, hcm, i))
    && (forall j | 0 <= j < |db.ledger| :: DebitRowOk(db.ledger[j], db.requests))
  }

  /** What an answer that HCM gave to the one caller of a debit key tells about its record. */
  ghost predicate PhaseOk(c: Config, hcm: HcmState, id: RequestId, phase: Phase) {
    match phase
    case Calling(made) => made == 0 || made < c.maxRetries
    case Acked(commitId) => id in hcm.debits && hcm.debits[id].commitId == commitId
    case TurnedDown(_) => id !in hcm.debits
    case GaveUp => true
    case Settled => true
  }

  /** The row an approve call carries is the request as it was approved. */
  predicate SameRequest(row: Request, request: Request) {
    row == request.(status := Approved, commitId := None)
  }

  ghost predicate CallsOk(c: Config, s: State) {
    forall id | id in s.approvals ::
      && id < |s.db.requests|
      && (s.db.requests[id].status == Approved || s.db.requests[id].status == Failed)
      && SameRequest(s.approvals[id].row, s.db.requests[id])
      && s.approvals[id].phase != Settled
      && PhaseOk(c, s.hcm, id, s.approvals[id].phase)
      && id !in s.db.outbox
  }

  ghost predicate OutboxOk(c: Config, s: State) {
    forall id | id in s.db.outbox ::
      var row := s.db.outbox[id];
      && id < |s.db.requests| && Begun(s.db.requests[id].status)
      && row.payload == Payload(id, s.db.requests[id].key, s.db.requests[id].days)
      && (row.status == Queued ==> row.attempts == 0 || row.attempts < c.maxAttempts)
      && (row.status == Processing ==> s.worker.Working? && s.worker.id == id)
      && (row.status == Done ==> IsTerminal(s.db.requests[id].status))
  }

  ghost predicate WorkerOk(c: Config, s: State) {
    s.worker.Working? ==>
      var id := s.worker.id;
      && id in s.db.outbox
      && s.worker.row.status == Queued
      && s.db.outbox[id] == s.worker.row.(status := Processing)
      && (s.worker.row.attempts == 0 || s.worker.row.attempts < c.maxAttempts)
      && PhaseOk(c, s.hcm, id, s.worker.phase)
      && (s.worker.phase.Settled? ==>
            id < |s.db.requests| && IsTerminal(s.db.requests[id].status))
  }

  /** HCM's records and the places where calls stand agree with the tables. */
  ghost predicate ThreadsOk(c: Config, s: State) {
    && HcmOk(s.hcm, s.db.requests)
    && CallsOk(c, s)
    && OutboxOk(c, s)
    && WorkerOk(c, s)
  }

  ghost predicate Inv(c: Config, s: State) {
    DbOk(s.db) && CommitsOk(s.db, s.hcm) && ThreadsOk(c, s)
  }

  // ---------- the database part, one kind of change at a time ----------

  lemma LedgerUnmoved(db: Db, after: Db, key: Key)
    requires LedgerOk(db) && after.ledger == db.ledger && key in after.balances
    requires after.balances == db.balances[key := after.balances[key]]
    requires after.balances[key].balance == SnapshotAt(db.balances, key).balance
    ensures LedgerOk(after)
  {
    forall k: Key
      ensures LedgerAt(after, k)
    {
      assert LedgerAt(db, k);
    }
  }

  lemma LedgerMovesAt(db: Db, after: Db, row: LedgerRow, key: Key)
    requires LedgerAt(db, key) && after.ledger == db.ledger + [row]
    requires SnapshotAt(after.balances, key).balance ==
             SnapshotAt(db.balances, key).balance + if key == row.key then row.delta else 0
    ensures LedgerAt(after, key)
  {
    RowsOfAppend(db.ledger, row, key);
    ProjectAppend(RowsOf(db.ledger, key), row);
  }

  /** A row and the balance move together. */
  lemma LedgerMoves(db: Db, after: Db, row: LedgerRow)
    requires LedgerOk(db) && after.ledger == db.ledger + [row] && row.key in after.balances
    requires after.balances == db.balances[row.key := after.balances[row.key]]
    requires after.balances[row.key].balance == SnapshotAt(db.balances, row.key).balance + row.delta
    ensures LedgerOk(after)
  {
    forall key: Key
      ensures LedgerAt(after, key)
    {
      assert LedgerAt(db, key);
      LedgerMovesAt(db, after, row, key);
    }
  }

  lemma ReservedMovesAt(db: Db, after: Db, id: RequestId, request: Request, key: Key)
    requires ReservationsOk(db) && id < |db.requests|
    requires request == db.requests[id].(status := request.status, commitId := request.commitId)
    requires after.requests == db.requests[id := request] && key in after.balances
    requires key != request.key ==> key in db.balances && after.balances[key] == db.balances[key]
    requires key == request.key ==>
               0 <= after.balances[key].reserved <=
               Held(db.requests, key)
               - (if HoldsReservation(db.requests[id].status) then request.days else 0)
               + (if HoldsReservation(request.status) then request.days else 0)
    ensures ReservedOk(after.balances[key], after.requests, key)
  {
    HeldUpdate(db.requests, id, request, key);
    if key != request.key {
      assert ReservedOk(db.balances[key], db.requests, key);
    }
  }

  /** One request and the snapshot of its balance change; other balances keep their held days. */
  lemma RequestMoves(db: Db, after: Db, id: RequestId, request: Request, next: Snapshot)
    requires RowsOk(db) && ReservationsOk(db) && ClientKeysOk(db.requests)
    requires id < |db.requests|
    requires request == db.requests[id].(status := request.status, commitId := request.commitId)
    requires after.requests == db.requests[id := request]
    requires after.balances == db.balances[request.key := next]
    requires 0 <= next.reserved <=
             Held(db.requests, request.key)
             - (if HoldsReservation(db.requests[id].status) then request.days else 0)
             + (if HoldsReservation(request.status) then request.days else 0)
    ensures RowsOk(after) && ReservationsOk(after) && ClientKeysOk(after.requests)
  {
    hide Held;
    forall key | key in after.balances
      ensures ReservedOk(after.balances[key], after.requests, key)
    {
      ReservedMovesAt(db, after, id, request, key);
    }
    SameClientKeys(db.requests, after.requests);
  }

  lemma SameClientKeys(requests: seq<Request>, after: seq<Request>)
    requires ClientKeysOk(requests) && |after| == |requests|
    requires forall i | 0 <= i < |requests| :: after[i].clientKey == requests[i].clientKey
    ensures ClientKeysOk(after)
  {
  }

  lemma CreateKeepsDb(db: Db, key: Key, days: int, createdAt: int, clientKey: Option<string>)
    requires DbOk(db)
    ensures DbOk(After(db, CreateTx(db, key, days, createdAt, clientKey)))
  {
    var result := CreateTx(db, key, days, createdAt, clientKey);
    if result.Success? {
      var request := Request(key, days, Pending, createdAt, clientKey, None);
      var next := result.value.balances[key];
      forall k | k in result.value.balances
        ensures ReservedOk(result.value.balances[k], result.value.requests, k)
      {
        HeldAppend(db.requests, request, k);
      }
      LedgerUnmoved(db, result.value, key);
    }
  }

  lemma ApproveKeepsDb(db: Db, id: RequestId)
    requires DbOk(db)
    ensures DbOk(After(db, ApproveTx(db, id)))
  {
    if ApproveTx(db, id).Success? {
      var request := db.requests[id].(status := Approved);
      RequestMoves(db, ApproveTx(db, id).value, id, request, db.balances[request.key]);
      assert db.balances == db.balances[request.key := db.balances[request.key]];
      LedgerUnmoved(db, ApproveTx(db, id).value, request.key);
    }
  }

  lemma WithdrawKeepsDb(db: Db, id: RequestId, to: Status)
    requires DbOk(db) && !HoldsReservation(to)
    ensures DbOk(After(db, WithdrawTx(db, id, to)))
  {
    var result := WithdrawTx(db, id, to);
    if result.Success? {
      var request := db.requests[id].(status := to);
      var next := Release(db.balances[request.key], request.days).value;
      RequestMoves(db, result.value, id, request, next);
      LedgerUnmoved(db, result.value, request.key);
    }
  }

  /** A stale commit only lowers both amounts, so it is safe from any status. */
  lemma CommitKeepsDb(db: Db, id: RequestId, row: Request, commitId: string)
    requires DbOk(db)
    requires id < |db.requests| && SameRequest(row, db.requests[id])
    ensures DbOk(After(db, CommitTx(db, id, row, row.key, row.days, commitId)))
  {
    var result := CommitTx(db, id, row, row.key, row.days, commitId);
    if result.Success? {
      var request := row.(status := Committed, commitId := Some(commitId));
      var next := Commit(db.balances[row.key], row.days).value;
      RequestMoves(db, result.value, id, request, next);
      LedgerMoves(db, result.value, DebitRow(id, row.key, row.days));
    }
  }

  lemma FailApprovalKeepsDb(db: Db, id: RequestId, row: Request, insufficient: bool)
    requires DbOk(db)
    requires id < |db.requests| && SameRequest(row, db.requests[id])
    ensures DbOk(After(db, FailApprovalTx(db, id, row, insufficient)))
  {
    var result := FailApprovalTx(db, id, row, insufficient);
    if result.Success? {
      var request := row.(status := Failed);
      var next := Release(db.balances[row.key], row.days).value;
      RequestMoves(db, result.value, id, request, next);
      if insufficient {
        LedgerMoves(db, result.value, AdjustRow(row.key, 0, Some(id)));
      } else {
        LedgerUnmoved(db, result.value, row.key);
      }
    }
  }

  lemma WorkerFailKeepsDb(db: Db, payload: Payload)
    requires DbOk(db)
    requires payload.requestId < |db.requests|
    requires payload.key == db.requests[payload.requestId].key
    requires payload.days == db.requests[payload.requestId].days
    ensures DbOk(WorkerFailTx(db, payload))
  {
    var id := payload.requestId;
    if CanTransition(db.requests[id].status, Failed) {
      var request := db.requests[id].(status := Failed);
      var next := WorkerFailTx(db, payload).balances[payload.key];
      HeldCovers(db.requests, id);
      RequestMoves(db, WorkerFailTx(db, payload), id, request, next);
      LedgerUnmoved(db, WorkerFailTx(db, payload), payload.key);
    }
  }

  /**
   * A push that finds more days held than the balance resets reserved days to the survivors'
   * sum, which fits the balance, whatever was reserved before. Any other push leaves reserved
   * days alone, and so within the held days exactly when they were.
   */
  lemma PushReserved(db: Db, key: Key, absolute: int, listing: seq<RequestId>)
    requires RowsOk(db) && IsListing(db.requests, key, listing)
    ensures var after := PushTx(db, key, absolute, listing).db;
            var before, next, held := SnapshotAt(db.balances, key), after.balances[key], Held(db.requests, key);
            if held > absolute then
              next.reserved == Held(after.requests, key) >= 0 && (absolute >= 0 ==> next.reserved <= absolute)
            else
              && next.reserved == before.reserved && after.requests == db.requests
              && (ReservedOk(next, after.requests, key) <==> ReservedOk(before, db.requests, key))
  {
    var pushed := PushTx(db, key, absolute, listing);
    ListingHoldsAll(db.requests, key, listing);
    if Held(db.requests, key) <= absolute {
      NothingFlagged(db, key, absolute, listing);
    } else {
      HeldNonNegative(pushed.db.requests, key);
      if absolute >= 0 {
        FlaggingIsLeastCut(db.requests, key, absolute, listing);
      }
    }
  }

  lemma PushReservations(db: Db, key: Key, absolute: int, listing: seq<RequestId>)
    requires RowsOk(db) && ReservationsOk(db) && IsListing(db.requests, key, listing)
    ensures ReservationsOk(PushTx(db, key, absolute, listing).db)
  {
    hide Flagged, FailAll, HeldWeights, SumAt;
    var pushed := PushTx(db, key, absolute, listing);
    forall k | k in pushed.db.balances
      ensures ReservedOk(pushed.db.balances[k], pushed.db.requests, k)
    {
      if k != key {
        assert ReservedOk(db.balances[k], db.requests, k);
        PushHeldElsewhere(db, key, absolute, listing, k);
      } else {
        assert key in db.balances ==> ReservedOk(db.balances[key], db.requests, key);
        HeldNonNegative(db.requests, key);
        PushReserved(db, key, absolute, listing);
      }
    }
  }

  lemma PushHeldElsewhere(db: Db, key: Key, absolute: int, listing: seq<RequestId>, other: Key)
    requires IsListing(db.requests, key, listing) && other != key
    ensures Held(PushTx(db, key, absolute, listing).db.requests, other) == Held(db.requests, other)
  {
    FlaggedAreHeld(db.requests, key, absolute, listing);
    HeldElsewhere(db.requests, key, Flagged(db.requests, key, absolute, listing), other);
  }

  lemma NothingFlagged(db: Db, key: Key, absolute: int, listing: seq<RequestId>)
    requires IsListing(db.requests, key, listing) && Held(db.requests, key) <= absolute
    ensures Flagged(db.requests, key, absolute, listing) == []
    ensures PushTx(db, key, absolute, listing).db.requests == db.requests
  {
    ListingHoldsAll(db.requests, key, listing);
  }

  lemma PushKeepsDb(db: Db, key: Key, absolute: int, listing: seq<RequestId>)
    requires DbOk(db) && IsListing(db.requests, key, listing)
    ensures DbOk(PushTx(db, key, absolute, listing).db)
  {
    PushRows(db, key, absolute, listing);
    PushReservations(db, key, absolute, listing);
    PushLedger(db, key, absolute, listing);
  }

  lemma PushRows(db: Db, key: Key, absolute: int, listing: seq<RequestId>)
    requires RowsOk(db) && ClientKeysOk(db.requests) && Within(listing, |db.requests|)
    ensures RowsOk(PushTx(db, key, absolute, listing).db)
    ensures ClientKeysOk(PushTx(db, key, absolute, listing).db.requests)
  {
    SameClientKeys(db.requests, PushTx(db, key, absolute, listing).db.requests);
  }

  lemma PushLedger(db: Db, key: Key, absolute: int, listing: seq<RequestId>)
    requires LedgerOk(db) && Within(listing, |db.requests|)
    ensures LedgerOk(PushTx(db, key, absolute, listing).db)
  {
    hide Flagged, FailAll, HeldWeights, SumAt, Held;
    var pushed := PushTx(db, key, absolute, listing);
    if pushed.delta != 0 {
      LedgerMoves(db, pushed.db, AdjustRow(key, pushed.delta, None));
    } else {
      LedgerUnmoved(db, pushed.db, key);
    }
  }

  lemma RefreshKeepsDb(db: Db, key: Key, absolute: int)
    requires DbOk(db)
    ensures DbOk(After(db, RefreshTx(db, key, absolute)))
  {
    var result := RefreshTx(db, key, absolute);
    if result.Success? {
      var next := result.value.balances[key];
      var delta := absolute - SnapshotAt(db.balances, key).balance;
      HeldNonNegative(db.requests, key);
      if delta != 0 || key !in db.balances {
        LedgerMoves(db, result.value, AdjustRow(key, delta, None));
      } else {
        LedgerUnmoved(db, result.value, key);
      }
    }
  }
}
