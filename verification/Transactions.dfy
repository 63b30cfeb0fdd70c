/**
 * Each transaction body of the service as a function from the database it starts on to the
 * database it commits, or the error that rolls it back.
 */
module Transactions {
  import opened Wrappers
  import opened Sums
  import opened Lifecycle
  import opened Balance
  import opened Tables
  import opened Flagging

  /** The database after a transaction: a failed one leaves it as it was. */
  function After(db: Db, result: Result<Db>): Db {
    match result
    case Success(next) => next
    case Failure(_) => db
  }

  predicate KeyTaken(requests: seq<Request>, clientKey: Option<string>) {
    clientKey.Some? && exists i :: 0 <= i < |requests| && requests[i].clientKey == clientKey
  }

  /** Inserts a PENDING request and reserves its days; the client key is unique. */
  function CreateTx(db: Db, key: Key, days: int, createdAt: int, clientKey: Option<string>): Result<Db> {
    if days <= 0 then
      Failure(BadRequest)
    else if key !in db.balances then
      Failure(NotFound)
    else
      var next :- Reserve(db.balances[key], days);
      if KeyTaken(db.requests, clientKey) then
        Failure(UniqueViolation)
      else
        var request := Request(key, days, Pending, createdAt, clientKey, None);
        Success(db.(balances := db.balances[key := next], requests := db.requests + [request]))
  }

  function ApproveTx(db: Db, id: RequestId): Result<Db> {
    if id >= |db.requests| then
      Failure(NotFound)
    else if !CanTransition(db.requests[id].status, Approved) then
      Failure(InvalidTransition)
    else
      Success(db.(requests := db.requests[id := db.requests[id].(status := Approved)]))
  }

  /** Gives reserved days back; a balance that does not exist is left alone. */
  function ReleaseBalance(balances: map<Key, Snapshot>, key: Key, days: int): Result<map<Key, Snapshot>> {
    if key !in balances then
      Success(balances)
    else
      var next :- Release(balances[key], days);
      Success(balances[key := next])
  }

  /** Rejection and cancellation: both release the reservation. */
  function WithdrawTx(db: Db, id: RequestId, to: Status): Result<Db> {
    if id >= |db.requests| then
      Failure(NotFound)
    else
      var request := db.requests[id];
      if !CanTransition(request.status, to) then
        Failure(InvalidTransition)
      else
        var balances :- ReleaseBalance(db.balances, request.key, request.days);
        Success(db.(balances := balances, requests := db.requests[id := request.(status := to)]))
  }

  function DebitRow(id: RequestId, key: Key, days: int): LedgerRow {
    LedgerRow(key, -days, Debit, Some(id), Some(id))
  }

  function AdjustRow(key: Key, delta: int, requestId: Option<RequestId>): LedgerRow {
    LedgerRow(key, delta, HcmSyncAdjust, requestId, None)
  }

  /**
   * Records an acknowledged debit locally and writes `row` back as COMMITTED. The ledger's
   * debit key is unique.
   */
  function CommitTx(db: Db, id: RequestId, row: Request, key: Key, days: int, commitId: string): Result<Db> {
    if id >= |db.requests| then
      Failure(NotFound)
    else if key !in db.balances then
      Failure(BalanceMissing)
    else
      var next :- Commit(db.balances[key], days);
      if DebitRows(db.ledger, id) > 0 then
        Failure(UniqueViolation)
      else
        Success(db.(
          balances := db.balances[key := next],
          ledger := db.ledger + [DebitRow(id, key, days)],
          requests := db.requests[id := row.(status := Committed, commitId := Some(commitId))]))
  }

  /**
   * The synchronous approve call's reaction to a refused debit: it writes `row`, which it read
   * before calling HCM, back as FAILED without reading the request again.
   */
  function FailApprovalTx(db: Db, id: RequestId, row: Request, insufficient: bool): Result<Db> {
    if id >= |db.requests| then
      Failure(NotFound)
    else
      var balances :- ReleaseBalance(db.balances, row.key, row.days);
      Success(db.(
        balances := balances,
        requests := db.requests[id := row.(status := Failed)],
        ledger := if insufficient && row.key in db.balances
                  then db.ledger + [AdjustRow(row.key, 0, Some(id))]
                  else db.ledger))
  }

  /** Queues a debit for the worker, unless its debit key is queued already. */
  function EnqueueTx(db: Db, id: RequestId, row: Request): Db {
    if id in db.outbox then
      db
    else
      db.(outbox := db.outbox[id := OutboxRow(Queued, 0, Payload(id, row.key, row.days))])
  }

  /** The worker's commit: the status is read again, and a settled request is left alone. */
  function WorkerCommitTx(db: Db, payload: Payload, commitId: string): Result<Db> {
    var id := payload.requestId;
    if id >= |db.requests| then
      Failure(NotFound)
    else if !CanTransition(db.requests[id].status, Committed) then
      Success(db)
    else
      CommitTx(db, id, db.requests[id], payload.key, payload.days, commitId)
  }

  /** The worker's reaction to a refused debit. Reserved days stop at zero. */
  function WorkerFailTx(db: Db, payload: Payload): Db {
    var id := payload.requestId;
    if id >= |db.requests| || !CanTransition(db.requests[id].status, Failed) then
      db
    else
      var left := SnapshotAt(db.balances, payload.key).reserved - payload.days;
      db.(
        balances := if payload.key !in db.balances then db.balances
                    else db.balances[payload.key :=
                           db.balances[payload.key].(reserved := if left < 0 then 0 else left)],
        requests := db.requests[id := db.requests[id].(status := Failed)])
  }

  function MarkTx(db: Db, id: RequestId, row: OutboxRow): Db {
    db.(outbox := db.outbox[id := row])
  }

  /** One failed delivery: the row is queued again until it has used up its attempts. */
  function FailedAttempt(row: OutboxRow, maxAttempts: int): OutboxRow {
    row.(attempts := row.attempts + 1,
         status := if row.attempts + 1 >= maxAttempts then Dead else Queued)
  }

  // ---------- absolute balances ----------

  datatype Pushed = Pushed(db: Db, delta: int, flagged: seq<RequestId>)

  /** HCM pushes an absolute balance: adjust the ledger, and flag requests that no longer fit. */
  function PushTx(db: Db, key: Key, absolute: int, listing: seq<RequestId>): Pushed
    requires Within(listing, |db.requests|)
  {
    var current := SnapshotAt(db.balances, key);
    var delta := absolute - current.balance;
    var flagged := Flagged(db.requests, key, absolute, listing);
    var requests := FailAll(db.requests, flagged);
    var over := SumAt(listing, HeldWeights(db.requests, key)) > absolute;
    var next := Snapshot(absolute, if over then Held(requests, key) else current.reserved);
    Pushed(
      db.(balances := db.balances[key := next],
          requests := requests,
          ledger := if delta != 0 then db.ledger + [AdjustRow(key, delta, None)] else db.ledger),
      delta,
      flagged)
  }

  /** A pulled balance overwrites the snapshot and looks at no request. */
  function RefreshTx(db: Db, key: Key, absolute: int): Result<Db> {
    var current := SnapshotAt(db.balances, key);
    var next :- SetAbsolute(current, absolute);
    var delta := absolute - current.balance;
    Success(db.(
      balances := db.balances[key := next],
      ledger := if delta != 0 || key !in db.balances
                then db.ledger + [AdjustRow(key, delta, None)]
                else db.ledger))
  }
}
