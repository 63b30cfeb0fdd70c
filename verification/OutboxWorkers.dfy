/** The asynchronous half of the protocol: the worker that delivers queued debits. */
module OutboxWorkers {
  import opened Wrappers
  import opened Sums
  import opened Lifecycle
  import opened Balance
  import opened Tables
  import opened Transactions
  import opened Hcm
  import opened System
  import opened Stores
  import opened Delivery
  import opened Services
  import opened Retry

  /** A row can be delivered: it is queued, and its debit key is its request's. */
  predicate Deliverable(outbox: map<RequestId, OutboxRow>, id: RequestId) {
    id in outbox && outbox[id].status == Queued && outbox[id].payload.requestId == id
  }

  /** The events of one delivery that nothing else interrupts. */
  ghost function DeliveryEvents(c: Config, s: State, id: RequestId, circuitOpen: bool, script: nat -> Conditions)
    : seq<Event>
    requires c.maxRetries >= 1 && Deliverable(s.db.outbox, id)
  {
    var payload := s.db.outbox[id].payload;
    [WorkerPick(id)] + DebitEvents(c, s.hcm, id, payload.key, payload.days, circuitOpen, script, true) +
    [WorkerSettle] + [WorkerMark]
  }

  /** Where a delivery stands when its debit call is over. */
  ghost function DebitOver(c: Config, s: State, id: RequestId, circuitOpen: bool, script: nat -> Conditions): State
    requires c.maxRetries >= 1 && Deliverable(s.db.outbox, id)
  {
    var row := s.db.outbox[id];
    var (hcm, phase) := Debited(c, s.hcm, id, row.payload.key, row.payload.days, circuitOpen, script);
    State(MarkTx(s.db, id, row.(status := Processing)), hcm, s.approvals, Working(id, row, phase))
  }

  lemma DeliveryRun(c: Config, s: State, id: RequestId, circuitOpen: bool, script: nat -> Conditions)
    requires c.maxRetries >= 1 && Deliverable(s.db.outbox, id) && s.worker.Idle?
    ensures Run(c, s, DeliveryEvents(c, s, id, circuitOpen, script)) ==
            WorkerMarkStep(c, WorkerSettleStep(DebitOver(c, s, id, circuitOpen, script)))
  {
    hide WorkerSettleStep, WorkerMarkStep, DebitEvents, Debited;
    var payload := s.db.outbox[id].payload;
    var calls := DebitEvents(c, s.hcm, id, payload.key, payload.days, circuitOpen, script, true);
    RunOn(c, s, [], WorkerPick(id));
    assert [] + [WorkerPick(id)] == [WorkerPick(id)];
    WorkerDebitRun(c, Run(c, s, [WorkerPick(id)]), circuitOpen, script);
    RunConcat(c, s, [WorkerPick(id)], calls);
    RunOn(c, s, [WorkerPick(id)] + calls, WorkerSettle);
    RunOn(c, s, [WorkerPick(id)] + calls + [WorkerSettle], WorkerMark);
  }

  /** One delivery after the other. */
  ghost function BatchEvents(c: Config, s: State, due: seq<RequestId>, circuitOpen: nat -> bool,
                             scripts: nat -> nat -> Conditions): seq<Event>
    requires c.maxRetries >= 1
  {
    if due == [] then
      []
    else
      var n := |due| - 1;
      var before := BatchEvents(c, s, due[..n], circuitOpen, scripts);
      var reached := Run(c, s, before);
      if Deliverable(reached.db.outbox, due[n])
      then before + DeliveryEvents(c, reached, due[n], circuitOpen(n), scripts(n))
      else before
  }

  lemma BatchNext(c: Config, s: State, due: seq<RequestId>, n: nat, circuitOpen: nat -> bool,
                  scripts: nat -> nat -> Conditions)
    requires c.maxRetries >= 1 && n < |due|
    requires Deliverable(Run(c, s, BatchEvents(c, s, due[..n], circuitOpen, scripts)).db.outbox, due[n])
    ensures var reached := Run(c, s, BatchEvents(c, s, due[..n], circuitOpen, scripts));
            Run(c, s, BatchEvents(c, s, due[..n + 1], circuitOpen, scripts)) ==
            Run(c, reached, DeliveryEvents(c, reached, due[n], circuitOpen(n), scripts(n)))
  {
    hide Next, DeliveryEvents, Run;
    var before := BatchEvents(c, s, due[..n], circuitOpen, scripts);
    var reached := Run(c, s, before);
    RunConcat(c, s, before, DeliveryEvents(c, reached, due[n], circuitOpen(n), scripts(n)));
    assert due[..n + 1][..n] == due[..n];
  }

  lemma StartOfBatch(c: Config, s: State, rows: seq<RequestId>, circuitOpen: nat -> bool,
                     scripts: nat -> nat -> Conditions)
    requires c.maxRetries >= 1
    ensures rows[..0] == [] && Run(c, s, BatchEvents(c, s, [], circuitOpen, scripts)) == s
  {
  }

  /** The rows that one tick takes at most. */
  const TICK_LIMIT: nat := 25

  /** When rows are due after a delivery that left the row as `after`. */
  function PutOff(nextAttemptAt: map<RequestId, int>, id: RequestId, row: OutboxRow, after: OutboxRow, now: int)
    : map<RequestId, int>
  {
    if after.status == Done then nextAttemptAt else nextAttemptAt[id := now + BackoffMs(row.attempts + 1)]
  }

  /**
   * What one delivery leaves, told from how its debit call ended. A refusal fails an APPROVED
   * request, gives its days back, stopping at zero, and is final for the row. An acknowledgement
   * commits an APPROVED request, or the row is delivered again. A request that is settled is left
   * alone. A call that gave up uses up one attempt of the row.
   */
  ghost predicate Concludes(before: Db, after: Db, id: RequestId, row: OutboxRow, phase: Phase, maxAttempts: int) {
    var again := OutboxRow(if row.attempts + 1 >= maxAttempts then Dead else Queued, row.attempts + 1, row.payload);
    var done := OutboxRow(Done, row.attempts, row.payload);
    var unsettled := id < |before.requests| && before.requests[id].status == Approved;
    match phase
    case GaveUp => after == before.(outbox := before.outbox[id := again])
    case TurnedDown(_) =>
      && after.outbox == before.outbox[id := done] && after.ledger == before.ledger
      && after.requests == (if unsettled then before.requests[id := before.requests[id].(status := Status.Failed)]
                            else before.requests)
      && after.balances == (if unsettled && row.payload.key in before.balances
                            then before.balances[row.payload.key := Given(before.balances[row.payload.key], row)]
                            else before.balances)
    case Acked(commitId) =>
      if unsettled then
        || after == before.(outbox := before.outbox[id := again])
        || (&& after.outbox == before.outbox[id := done]
            && after.requests == before.requests[id :=
                 before.requests[id].(status := Committed, commitId := Some(commitId))]
            && after.ledger == before.ledger +
                 [LedgerRow(row.payload.key, -row.payload.days, Debit, Some(id), Some(id))])
      else
        after == before.(outbox := before.outbox[id := if id < |before.requests| then done else again])
    case _ => false
  }

  lemma StepsConclude(c: Config, debited: State)
    requires debited.worker.Working? && debited.worker.row.payload.requestId == debited.worker.id
    requires var phase := debited.worker.phase; phase.Acked? || phase.TurnedDown? || phase.GaveUp?
    ensures var worker := debited.worker;
            Concludes(debited.db, WorkerMarkStep(c, WorkerSettleStep(debited)).db, worker.id, worker.row, worker.phase,
                      c.maxAttempts)
  {
  }

  lemma PickIsOverwritten(before: Db, id: RequestId, row: OutboxRow, after: Db, phase: Phase, maxAttempts: int)
    requires Concludes(MarkTx(before, id, row.(status := Processing)), after, id, row, phase, maxAttempts)
    ensures Concludes(before, after, id, row, phase, maxAttempts)
  {
  }

  /** The row's days are no longer reserved; where fewer are, none is. */
  function Given(snapshot: Snapshot, row: OutboxRow): Snapshot {
    Snapshot(snapshot.balance, if snapshot.reserved > row.payload.days then snapshot.reserved - row.payload.days else 0)
  }

  /** The listed rows have been delivered once each, for good or for another time; no other row has changed. */
  ghost predicate EachTakenUp(before: map<RequestId, OutboxRow>, after: map<RequestId, OutboxRow>,
                              rows: seq<RequestId>) {
    && after.Keys == before.Keys
    && (forall id | id in before && id !in rows :: after[id] == before[id])
    && (forall id | id in rows ::
          id in before && (after[id].status == Done || after[id].attempts == before[id].attempts + 1))
  }

  class OutboxWorker {
    const db: Database
    const outbox: OutboxService
    const hcm: HcmClient
    var running: bool

    constructor (db: Database, outbox: OutboxService, hcm: HcmClient)
      ensures this.db == db && this.outbox == outbox && this.hcm == hcm && !running
    {
      this.db := db;
      this.outbox := outbox;
      this.hcm := hcm;
      running := false;
    }

    /** Reads the request again, and commits the debit unless the request is settled. */
    method CommitDelivered(payload: Payload, commitId: string) returns (ok: bool)
      modifies db`balances, db`requests, db`ledger
      ensures var tx := WorkerCommitTx(old(db.View()), payload, commitId);
              db.View() == After(old(db.View()), tx) && (ok <==> tx.Success?)
    {
      var id := payload.requestId;
      if id >= |db.requests| {
        return false;
      }
      if !CanTransition(db.requests[id].status, Committed) {
        return true;
      }
      var committed := CommitDebit(db, id, db.requests[id], payload.key, payload.days, commitId);
      ok := committed.Success?;
    }

    /** Fails the request of a refused debit, unless it is settled. */
    method FailDelivered(payload: Payload)
      modifies db`balances, db`requests
      ensures db.View() == WorkerFailTx(old(db.View()), payload)
    {
      var id := payload.requestId;
      if id >= |db.requests| || !CanTransition(db.requests[id].status, Failed) {
        return;
      }
      if payload.key in db.balances {
        var current := db.balances[payload.key];
        var left := current.reserved - payload.days;
        db.UpsertBalance(payload.key, current.(reserved := if left < 0 then 0 else left));
      }
      db.UpdateRequest(id, db.requests[id].(status := Failed));
    }

    /** The local transaction of a delivery whose debit call is over. */
    method Settle(payload: Payload, phase: Phase, ghost debited: State) returns (settled: bool)
      requires debited.db == db.View() && debited.worker.Working?
      requires debited.worker.row.payload == payload && debited.worker.phase == phase
      requires phase.Acked? || phase.TurnedDown? || phase.GaveUp?
      modifies db`balances, db`requests, db`ledger
      ensures WorkerSettleStep(debited) ==
              debited.(db := db.View(),
                       worker := debited.worker.(phase := if settled then Settled else GaveUp))
    {
      match phase {
        case Acked(commitId) =>
          settled := CommitDelivered(payload, commitId);
        case TurnedDown(_) =>
          FailDelivered(payload);
          settled := true;
        case GaveUp =>
          settled := false;
      }
    }

    /**
     * The end of a delivery: the local transaction, then the mark on the row. A row that is not
     * DONE is put off by its backoff.
     */
    method Conclude(id: RequestId, row: OutboxRow, phase: Phase, now: int, ghost debited: State)
      requires outbox.db == db && debited.db == db.View() && debited.worker == Working(id, row, phase)
      requires phase.Acked? || phase.TurnedDown? || phase.GaveUp?
      requires row.payload.requestId == id
      modifies db
      ensures WorkerMarkStep(hcm.c, WorkerSettleStep(debited)) == debited.(db := db.View(), worker := Idle)
      ensures Concludes(old(db.View()), db.View(), id, row, phase, hcm.c.maxAttempts)
      ensures id in db.outbox && db.outbox == old(db.outbox)[id := db.outbox[id]]
      ensures db.nextAttemptAt == PutOff(old(db.nextAttemptAt), id, row, db.outbox[id], now)
      ensures db.outbox[id].status == Done || db.outbox[id].attempts == row.attempts + 1
      ensures db.outbox[id].status == Done || db.nextAttemptAt[id] == now + AtMost(500 * Pow2(row.attempts), 60000)
    {
      var settled := Settle(row.payload, phase, debited);
      StepsConclude(hcm.c, debited);
      hide WorkerSettleStep, Concludes;
      if settled {
        outbox.MarkDone(id, row);
      } else {
        outbox.MarkFailed(id, row, hcm.c.maxAttempts, now + BackoffMs(row.attempts + 1));
      }
    }

    /** One delivery with no other step in between, whatever approve calls are in flight. */
    method ProcessOne(id: RequestId, row: OutboxRow, now: int, circuitOpen: bool, script: nat -> Conditions,
                      ghost approvals: map<RequestId, ApproveCall>)
      requires outbox.db == db && hcm.c.maxRetries >= 1
      requires Deliverable(db.outbox, id) && db.outbox[id] == row
      modifies db, hcm.store
      ensures var start := State(old(db.View()), old(hcm.store.View()), approvals, Idle);
              State(db.View(), hcm.store.View(), approvals, Idle) ==
              Run(hcm.c, start, DeliveryEvents(hcm.c, start, id, circuitOpen, script))
      ensures var (after, phase) :=
                if circuitOpen then (old(hcm.store.View()), GaveUp)
                else Attempts(hcm.c, old(hcm.store.View()), id, row.payload.key, row.payload.days, script, 0);
              hcm.store.View() == after && Concludes(old(db.View()), db.View(), id, row, phase, hcm.c.maxAttempts)
      ensures id in db.outbox && db.outbox == old(db.outbox)[id := db.outbox[id]]
      ensures db.nextAttemptAt == PutOff(old(db.nextAttemptAt), id, row, db.outbox[id], now)
      ensures db.outbox[id].status == Done || db.outbox[id].attempts == row.attempts + 1
      ensures db.outbox[id].status == Done || db.nextAttemptAt[id] == now + AtMost(500 * Pow2(row.attempts), 60000)
    {
      hide WorkerSettleStep, WorkerMarkStep, Run, Concludes;
      ghost var start := State(db.View(), hcm.store.View(), approvals, Idle);
      DeliveryRun(hcm.c, start, id, circuitOpen, script);
      outbox.MarkProcessing(id, row);
      var phase := GaveUp;
      if !circuitOpen {
        phase := hcm.Debit(id, row.payload.key, row.payload.days, script);
      }
      ghost var debited := State(db.View(), hcm.store.View(), approvals, Working(id, row, phase));
      Conclude(id, row, phase, now, debited);
      PickIsOverwritten(start.db, id, row, db.View(), phase, hcm.c.maxAttempts);
    }

    /** The loop of a tick: the rows are delivered one after the other. */
    method DeliverAll(rows: seq<RequestId>, clock: nat -> int, circuitOpen: nat -> bool,
                      scripts: nat -> nat -> Conditions, ghost approvals: map<RequestId, ApproveCall>)
      returns (processed: nat)
      requires outbox.db == db && hcm.c.maxRetries >= 1
      requires Distinct(rows) && forall n | 0 <= n < |rows| :: Deliverable(db.outbox, rows[n])
      modifies db, hcm.store
      ensures processed == |rows|
      ensures EachTakenUp(old(db.outbox), db.outbox, rows)
      ensures var start := State(old(db.View()), old(hcm.store.View()), approvals, Idle);
              State(db.View(), hcm.store.View(), approvals, Idle) ==
              Run(hcm.c, start, BatchEvents(hcm.c, start, rows, circuitOpen, scripts))
    {
      hide Run, BatchEvents, DeliveryEvents, PutOff, Debited, Concludes;
      ghost var c := hcm.c;
      ghost var start := State(db.View(), hcm.store.View(), approvals, Idle);
      var listed := db.outbox;
      processed := 0;
      StartOfBatch(c, start, rows, circuitOpen, scripts);
      while processed < |rows|
        invariant processed <= |rows|
        invariant State(db.View(), hcm.store.View(), approvals, Idle) ==
                  Run(c, start, BatchEvents(c, start, rows[..processed], circuitOpen, scripts))
        invariant EachTakenUp(listed, db.outbox, rows[..processed])
      {
        var id := rows[processed];
        assert id !in rows[..processed];
        ProcessOne(id, listed[id], clock(processed), circuitOpen(processed), scripts(processed), approvals);
        BatchNext(c, start, rows, processed, circuitOpen, scripts);
        assert rows[..processed + 1] == rows[..processed] + [id];
        processed := processed + 1;
      }
      assert rows[..|rows|] == rows;
    }

    /**
     * A tick delivers the rows that are due, up to its limit, and one tick runs at a time: a tick
     * that finds another one running does nothing. `clock` is the time at the end of each delivery.
     */
    method Tick(now: int, clock: nat -> int, circuitOpen: nat -> bool, scripts: nat -> nat -> Conditions,
                ghost approvals: map<RequestId, ApproveCall>)
      returns (processed: nat, ghost due: seq<RequestId>)
      requires outbox.db == db && hcm.c.maxRetries >= 1
      requires forall id | id in db.outbox && db.outbox[id].status == Queued :: Deliverable(db.outbox, id)
      modifies this`running, db, hcm.store
      ensures running == old(running)
      ensures old(running) ==> due == []
      ensures !old(running) ==> IsDueListing(old(db.outbox), old(db.nextAttemptAt), now, TICK_LIMIT, due)
      ensures |due| <= 25 && processed == |due|
      ensures !old(running) && |due| < 25 ==>
                forall id | id in old(db.outbox) && old(db.outbox)[id].status == Queued ::
                  id in old(db.nextAttemptAt) && old(db.nextAttemptAt)[id] <= now ==> id in due
      ensures EachTakenUp(old(db.outbox), db.outbox, due)
      ensures var start := State(old(db.View()), old(hcm.store.View()), approvals, Idle);
              State(db.View(), hcm.store.View(), approvals, Idle) ==
              Run(hcm.c, start, BatchEvents(hcm.c, start, due, circuitOpen, scripts))
    {
      due := [];
      if running {
        return 0, [];
      }
      running := true;
      var rows := outbox.FindDue(now, TICK_LIMIT);
      due := rows;
      hide Run, BatchEvents, EachTakenUp, EarliestFirst;
      processed := DeliverAll(rows, clock, circuitOpen, scripts, approvals);
      running := false;
    }
  }
}
