/** The rows and tables of the service's database. */
module Tables {
  import opened Wrappers
  import opened Sums
  import opened Lifecycle
  import opened Balance

  /** One balance exists per employee and location. */
  datatype Key = Key(employeeId: string, locationId: string)

  /**
   * Requests are named by their position in the request table, which only grows. The same
   * number stands for the request's debit key, the string "req-" followed by its id.
   */
  type RequestId = nat

  /** `days` is in tenths of a day. */
  datatype Request = Request(
    key: Key,
    days: int,
    status: Status,
    createdAt: int,
    clientKey: Option<string>,
    commitId: Option<string>)

  datatype LedgerKind = Debit | HcmSyncAdjust

  datatype LedgerRow = LedgerRow(
    key: Key,
    delta: int,
    kind: LedgerKind,
    requestId: Option<RequestId>,
    debitKey: Option<RequestId>)

  datatype OutboxStatus = Queued | Processing | Done | Dead

  /** The debit that an outbox row asks for; the row itself is found by its debit key. */
  datatype Payload = Payload(requestId: RequestId, key: Key, days: int)

  datatype OutboxRow = OutboxRow(status: OutboxStatus, attempts: nat, payload: Payload)

  datatype Db = Db(
    balances: map<Key, Snapshot>,
    requests: seq<Request>,
    ledger: seq<LedgerRow>,
    outbox: map<RequestId, OutboxRow>)

  const EMPTY_DB := Db(map[], [], [], map[])

  function SnapshotAt(balances: map<Key, Snapshot>, key: Key): Snapshot {
    if key in balances then balances[key] else EMPTY
  }

  // ---------- held days ----------

  predicate Holds(request: Request, key: Key) {
    request.key == key && HoldsReservation(request.status)
  }

  function HeldWeights(requests: seq<Request>, key: Key): (weights: seq<int>)
    ensures |weights| == |requests|
  {
    seq(|requests|, i requires 0 <= i < |requests| =>
      if Holds(requests[i], key) then requests[i].days else 0)
  }

  /** The days of the PENDING and APPROVED requests of one balance. */
  function Held(requests: seq<Request>, key: Key): int {
    Sum(HeldWeights(requests, key))
  }

  lemma HeldAppend(requests: seq<Request>, request: Request, key: Key)
    ensures Held(requests + [request], key) ==
            Held(requests, key) + if Holds(request, key) then request.days else 0
  {
    var weights := HeldWeights(requests, key);
    var weight := if Holds(request, key) then request.days else 0;
    assert HeldWeights(requests + [request], key) == weights + [weight];
    SumAppend(weights, weight);
  }

  lemma HeldUpdate(requests: seq<Request>, id: RequestId, request: Request, key: Key)
    requires id < |requests|
    ensures Held(requests[id := request], key) ==
            Held(requests, key)
            - (if Holds(requests[id], key) then requests[id].days else 0)
            + (if Holds(request, key) then request.days else 0)
  {
    var weights := HeldWeights(requests, key);
    var weight := if Holds(request, key) then request.days else 0;
    assert HeldWeights(requests[id := request], key) == weights[id := weight];
    SumUpdate(weights, id, weight);
  }

  /** A held request's days are part of the held days of its balance. */
  lemma HeldCovers(requests: seq<Request>, id: RequestId)
    requires id < |requests| && HoldsReservation(requests[id].status)
    requires forall i | 0 <= i < |requests| :: requests[i].days > 0
    ensures requests[id].days <= Held(requests, requests[id].key)
  {
    SumCovers(HeldWeights(requests, requests[id].key), id);
  }

  lemma HeldNonNegative(requests: seq<Request>, key: Key)
    requires forall i | 0 <= i < |requests| :: requests[i].days > 0
    ensures Held(requests, key) >= 0
  {
    SumNonNegative(HeldWeights(requests, key));
  }

  // ---------- ledger projection ----------

  /** The ledger rows of one balance, in insertion order. */
  function RowsOf(ledger: seq<LedgerRow>, key: Key): seq<LedgerRow> {
    if ledger == [] then
      []
    else
      var init := RowsOf(ledger[..|ledger| - 1], key);
      var last := ledger[|ledger| - 1];
      if last.key == key then init + [last] else init
  }

  /** The sum of the deltas: what reconciliation compares with the snapshot. */
  function ProjectBalance(rows: seq<LedgerRow>): int {
    if rows == [] then 0 else ProjectBalance(rows[..|rows| - 1]) + rows[|rows| - 1].delta
  }

  /** One replay step; it throws when the balance would become negative. */
  function ApplyEvent(balance: int, row: LedgerRow): Option<int> {
    if balance + row.delta < 0 then None else Some(balance + row.delta)
  }

  /** Replays rows from a zero balance. */
  function Replay(rows: seq<LedgerRow>): Option<int> {
    if rows == [] then
      Some(0)
    else
      match Replay(rows[..|rows| - 1])
      case None => None
      case Some(balance) => ApplyEvent(balance, rows[|rows| - 1])
  }

  /** A replay succeeds exactly when no prefix sum is negative, and then it is the projection. */
  lemma {:induction false} ReplayIsProjection(rows: seq<LedgerRow>)
    ensures Replay(rows).Some? <==> forall n | 0 <= n <= |rows| :: ProjectBalance(rows[..n]) >= 0
    ensures Replay(rows).Some? ==> Replay(rows).value == ProjectBalance(rows)
  {
    if rows != [] {
      var init := rows[..|rows| - 1];
      ReplayIsProjection(init);
      assert forall n | 0 <= n <= |init| :: init[..n] == rows[..n];
      assert rows[..|rows|] == rows;
    }
  }

  lemma RowsOfAppend(ledger: seq<LedgerRow>, row: LedgerRow, key: Key)
    ensures RowsOf(ledger + [row], key) ==
            if row.key == key then RowsOf(ledger, key) + [row] else RowsOf(ledger, key)
  {
    assert (ledger + [row])[..|ledger|] == ledger;
  }

  lemma ProjectAppend(rows: seq<LedgerRow>, row: LedgerRow)
    ensures ProjectBalance(rows + [row]) == ProjectBalance(rows) + row.delta
  {
    assert (rows + [row])[..|rows|] == rows;
  }

  /** How many rows carry the debit key of a request. */
  function DebitRows(ledger: seq<LedgerRow>, id: RequestId): nat {
    if ledger == [] then
      0
    else
      DebitRows(ledger[..|ledger| - 1], id) +
      if ledger[|ledger| - 1].debitKey == Some(id) then 1 else 0
  }

  lemma DebitRowsAppend(ledger: seq<LedgerRow>, row: LedgerRow, id: RequestId)
    ensures DebitRows(ledger + [row], id) ==
            DebitRows(ledger, id) + if row.debitKey == Some(id) then 1 else 0
  {
    assert (ledger + [row])[..|ledger|] == ledger;
  }

  lemma {:induction false} DebitRowsNone(ledger: seq<LedgerRow>, id: RequestId)
    ensures DebitRows(ledger, id) == 0 <==>
            forall j | 0 <= j < |ledger| :: ledger[j].debitKey != Some(id)
  {
    if ledger != [] {
      DebitRowsNone(ledger[..|ledger| - 1], id);
    }
  }
}
