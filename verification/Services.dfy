/** The services: each transaction as the statements that carry it out, proved against its function. */
module Services {
  import opened Wrappers
  import opened Sums
  import opened Lifecycle
  import opened Balance
  import opened Tables
  import opened Flagging
  import opened Transactions
  import opened Hcm
  import opened System
  import opened Stores
  import opened Delivery
  import opened Reconciliation

  /** The caller gets the request as the transaction has stored it, or the error that it threw. */
  predicate Reports(result: Result<Request>, tx: Result<Db>, id: RequestId) {
    match tx
    case Success(next) => id < |next.requests| && result == Success(next.requests[id])
    case Failure(error) => result == Failure(error)
  }

  /** Writes an acknowledged debit into the tables, or leaves them as they were. */
  method CommitDebit(db: Database, id: RequestId, row: Request, key: Key, days: int, commitId: string)
    returns (result: Result<Request>)
    modifies db`balances, db`requests, db`ledger
    ensures var tx := CommitTx(old(db.View()), id, row, key, days, commitId);
            db.View() == After(old(db.View()), tx) && Reports(result, tx, id)
  {
    if id >= |db.requests| {
      return Failure(NotFound);
    }
    if key !in db.balances {
      return Failure(BalanceMissing);
    }
    var saved := db.balances;
    var next := Commit(db.balances[key], days);
    if next.Failure? {
      return Failure(next.error);
    }
    db.UpsertBalance(key, next.value);
    var inserted := db.InsertLedger(LedgerRow(key, -days, Debit, Some(id), Some(id)));
    if !inserted {
      db.balances := saved;
      return Failure(UniqueViolation);
    }
    db.UpdateRequest(id, row.(status := Committed, commitId := Some(commitId)));
    return Success(db.requests[id]);
  }

  /** The caller gets the new request, or the error that the transaction threw. */
  predicate Creates(result: Result<RequestId>, tx: Result<Db>, before: Db) {
    match tx
    case Success(_) => result == Success(|before.requests|)
    case Failure(error) => result == Failure(error)
  }

  class RequestsService {
    const db: Database
    const hcm: HcmClient
    const outbox: OutboxService

    constructor (db: Database, hcm: HcmClient, outbox: OutboxService)
      ensures this.db == db && this.hcm == hcm && this.outbox == outbox
    {
      this.db := db;
      this.hcm := hcm;
      this.outbox := outbox;
    }

    /**
     * A known client key is answered with its request and reserves nothing. The empty key is
     * not looked up, but the unique index still holds for it.
     */
    method Create(key: Key, days: int, createdAt: int, clientKey: Option<string>) returns (result: Result<RequestId>)
      modifies db
      ensures var before := old(db.View());
              if days > 0 && clientKey != Some("") && KeyTaken(before.requests, clientKey) then
                && db.View() == before && result.Success? && result.value < |before.requests|
                && before.requests[result.value].clientKey == clientKey
              else
                && db.View() == After(before, CreateTx(before, key, days, createdAt, clientKey))
                && Creates(result, CreateTx(before, key, days, createdAt, clientKey), before)
    {
      if days <= 0 {
        return Failure(BadRequest);
      }
      if clientKey.Some? && clientKey.value != "" {
        var existing := db.FindByClientKey(clientKey);
        if existing.Some? {
          return Success(existing.value);
        }
      }
      result := InsertAndReserve(key, days, createdAt, clientKey);
    }

    /** The create transaction; other create calls may have run since the lookup. */
    method InsertAndReserve(key: Key, days: int, createdAt: int, clientKey: Option<string>)
      returns (result: Result<RequestId>)
      requires days > 0
      modifies db
      ensures var before, tx := old(db.View()), CreateTx(old(db.View()), key, days, createdAt, clientKey);
              db.View() == After(before, tx) && Creates(result, tx, before)
    {
      if key !in db.balances {
        return Failure(NotFound);
      }
      var saved := db.balances;
      var next := Reserve(db.balances[key], days);
      if next.Failure? {
        return Failure(next.error);
      }
      db.UpsertBalance(key, db.balances[key].(reserved := next.value.reserved));
      var duplicate := db.FindByClientKey(clientKey);
      if duplicate.Some? {
        db.balances := saved;
        return Failure(UniqueViolation);
      }
      db.requests := db.requests + [Request(key, days, Pending, createdAt, clientKey, None)];
      return Success(|db.requests| - 1);
    }

    /** The first transaction of an approve call; the row is what the call carries on with. */
    method MarkApproved(id: RequestId) returns (row: Result<Request>)
      modifies db
      ensures var tx := ApproveTx(old(db.View()), id);
              db.View() == After(old(db.View()), tx) && Reports(row, tx, id)
    {
      if id >= |db.requests| {
        return Failure(NotFound);
      }
      if !CanTransition(db.requests[id].status, Approved) {
        return Failure(InvalidTransition);
      }
      db.UpdateRequest(id, db.requests[id].(status := Approved));
      return Success(db.requests[id]);
    }

    /** Days that are reserved are given back; a balance without as many throws. */
    method ReleaseReservation(key: Key, days: int) returns (result: Result<()>)
      modifies db`balances
      ensures match ReleaseBalance(old(db.balances), key, days)
              case Success(balances) => result == Success(()) && db.balances == balances
              case Failure(error) => result == Failure(error) && db.balances == old(db.balances)
    {
      if key !in db.balances {
        return Success(());
      }
      var next := Release(db.balances[key], days);
      if next.Failure? {
        return Failure(next.error);
      }
      db.UpsertBalance(key, next.value);
      return Success(());
    }

    /** The closing transaction after a refused debit. */
    method FailApproval(id: RequestId, row: Request, insufficient: bool) returns (result: Result<Request>)
      modifies db
      ensures var tx := FailApprovalTx(old(db.View()), id, row, insufficient);
              db.View() == After(old(db.View()), tx) && Reports(result, tx, id)
    {
      if id >= |db.requests| {
        return Failure(NotFound);
      }
      var known := row.key in db.balances;
      var released := ReleaseReservation(row.key, row.days);
      if released.Failure? {
        return Failure(released.error);
      }
      db.UpdateRequest(id, row.(status := Failed));
      if insufficient && known {
        var _ := db.InsertLedger(LedgerRow(row.key, 0, HcmSyncAdjust, Some(id), None));
      }
      return Success(db.requests[id]);
    }

    /**
     * An approve call with no other step in between. It runs the approval's events whatever
     * calls are in flight. A request whose own call is in flight is not PENDING, and is refused.
     * A caller who gets the row gets it as stored: COMMITTED, FAILED, or APPROVED and queued; one
     * who gets an error after the request was PENDING leaves it APPROVED and not queued.
     */
    method Approve(id: RequestId, now: int, circuitOpen: bool, script: nat -> Conditions,
                   ghost approvals: map<RequestId, System.ApproveCall>, ghost worker: Worker)
      returns (result: Result<Request>)
      requires outbox.db == db && hcm.c.maxRetries >= 1
      requires id in approvals ==> id < |db.requests| && db.requests[id].status != Pending
      modifies db, hcm.store
      ensures var start := State(old(db.View()), old(hcm.store.View()), approvals, worker);
              State(db.View(), hcm.store.View(), approvals, worker) ==
              Run(hcm.c, start, ApproveEvents(hcm.c, start, id, circuitOpen, script))
      ensures id >= |old(db.requests)| <==> result == Failure(NotFound)
      ensures id < |old(db.requests)| && old(db.requests)[id].status != Pending ==>
                result == Failure(InvalidTransition)
      ensures result.Success? ==> id < |db.requests| && result.value == db.requests[id]
      ensures id < |old(db.requests)| && old(db.requests)[id].status == Pending && id !in old(db.outbox) ==>
                && id < |db.requests|
                && (result.Success? <==> db.requests[id].status in {Committed, Failed} || id in db.outbox)
                && (result.Failure? <==> db.requests[id].status == Approved && id !in db.outbox)
      ensures id < |old(db.requests)| && old(db.requests)[id].status == Pending ==>
                && id < |db.requests|
                && var request := old(db.requests)[id];
                   var (after, phase) :=
                     if circuitOpen then (old(hcm.store.View()), GaveUp)
                     else Attempts(hcm.c, old(hcm.store.View()), id, request.key, request.days, script, 0);
                   && hcm.store.View() == after
                   && match phase
                      case Acked(commitId) =>
                        if result.Success? then
                          db.requests[id] == request.(status := Committed, commitId := Some(commitId))
                        else
                          db.requests[id] == request.(status := Approved)
                      case TurnedDown(_) =>
                        db.requests[id] == request.(status := if result.Success? then Failed else Approved)
                      case _ => phase == GaveUp && db.requests[id] == request.(status := Approved) && id in db.outbox
    {
      hide Run, ApproveEvents, ApproveFinishStep;
      ghost var c := hcm.c;
      ghost var start := State(db.View(), hcm.store.View(), approvals, worker);
      ApproveRun(c, start, id, circuitOpen, script);
      var approved := MarkApproved(id);
      if approved.Failure? {
        return Failure(approved.error);
      }
      var row := approved.value;
      var phase := GaveUp;
      if !circuitOpen {
        phase := hcm.Debit(id, row.key, row.days, script);
      }
      ghost var debited := State(db.View(), hcm.store.View(), approvals[id := System.ApproveCall(row, phase)], worker);
      result := Conclude(id, row, phase, now, debited);
      assert debited.approvals - {id} == approvals;
    }

    /** The last part of an approve call, once its debit call is over. */
    method Conclude(id: RequestId, row: Request, phase: Phase, now: int, ghost debited: State)
      returns (result: Result<Request>)
      requires outbox.db == db && debited.db == db.View()
      requires id < |db.requests| && db.requests[id] == row
      requires id in debited.approvals && debited.approvals[id] == System.ApproveCall(row, phase)
      requires phase.Acked? || phase.TurnedDown? || phase.GaveUp?
      modifies db
      ensures ApproveFinishStep(debited, id) ==
              debited.(db := db.View(), approvals := debited.approvals - {id})
      ensures id < |db.requests| && (result.Success? ==> result.value == db.requests[id])
      ensures result != Failure(NotFound)
      ensures row.status == Approved ==>
                match phase
                case Acked(commitId) =>
                  && db.requests[id] == (if result.Success? then row.(status := Committed, commitId := Some(commitId))
                                         else row)
                  && db.outbox == old(db.outbox)
                case TurnedDown(_) =>
                  && db.requests[id] == (if result.Success? then row.(status := Failed) else row)
                  && db.outbox == old(db.outbox)
                case GaveUp => result == Success(row) && db.requests[id] == row && id in db.outbox
    {
      match phase {
        case Acked(commitId) =>
          result := CommitDebit(db, id, row, row.key, row.days, commitId);
        case TurnedDown(code) =>
          result := FailApproval(id, row, code == InsufficientAtHcm);
        case GaveUp =>
          outbox.Enqueue(Payload(id, row.key, row.days), now);
          result := Success(row);
      }
    }

    method Reject(id: RequestId) returns (result: Result<Request>)
      modifies db
      ensures db.View() == After(old(db.View()), WithdrawTx(old(db.View()), id, Rejected))
      ensures Reports(result, WithdrawTx(old(db.View()), id, Rejected), id)
      ensures result.Success? ==> result.value.status == Rejected
    {
      result := Withdraw(id, Rejected);
    }

    method Cancel(id: RequestId) returns (result: Result<Request>)
      modifies db
      ensures db.View() == After(old(db.View()), WithdrawTx(old(db.View()), id, Cancelled))
      ensures Reports(result, WithdrawTx(old(db.View()), id, Cancelled), id)
      ensures result.Success? ==> result.value.status == Cancelled
    {
      result := Withdraw(id, Cancelled);
    }

    /** What rejection and cancellation have in common. */
    method Withdraw(id: RequestId, to: Status) returns (result: Result<Request>)
      modifies db
      ensures var tx := WithdrawTx(old(db.View()), id, to);
              db.View() == After(old(db.View()), tx) && Reports(result, tx, id)
    {
      if id >= |db.requests| {
        return Failure(NotFound);
      }
      if !CanTransition(db.requests[id].status, to) {
        return Failure(InvalidTransition);
      }
      var released := ReleaseReservation(db.requests[id].key, db.requests[id].days);
      if released.Failure? {
        return Failure(released.error);
      }
      db.UpdateRequest(id, db.requests[id].(status := to));
      return Success(db.requests[id]);
    }

    /**
     * An absolute balance from HCM. `listing` is the database's answer to the query for the
     * held requests of the balance, in whatever order it came.
     */
    method HandleAbsoluteBalance(key: Key, absolute: int, listing: seq<RequestId>)
      returns (delta: int, flagged: seq<RequestId>)
      requires IsListing(db.requests, key, listing)
      modifies db
      ensures PushTx(old(db.View()), key, absolute, listing) == Pushed(db.View(), delta, flagged)
    {
      hide Flagged, FailAll, SumAt;
      var updated;
      updated, delta := Overwrite(key, absolute);
      ghost var balances := db.balances;
      flagged := GiveUpNewest(key, updated, listing);
      OverwrittenTwice(old(db.balances), balances, key, updated, db.balances[key]);
      PushInParts(old(db.View()), key, absolute, listing, updated, db.View(), flagged);
    }

    /** The first half of a push: the snapshot is overwritten and the difference recorded. */
    method Overwrite(key: Key, absolute: int) returns (updated: Snapshot, delta: int)
      modifies db`balances, db`ledger
      ensures updated == SnapshotAt(old(db.balances), key).(balance := absolute)
      ensures delta == absolute - SnapshotAt(old(db.balances), key).balance
      ensures db.balances == old(db.balances)[key := updated]
      ensures db.ledger == if delta != 0 then old(db.ledger) + [AdjustRow(key, delta, None)] else old(db.ledger)
    {
      updated := SnapshotAt(db.balances, key);
      delta := absolute - updated.balance;
      updated := updated.(balance := absolute);
      db.UpsertBalance(key, updated);
      if delta != 0 {
        var _ := db.InsertLedger(LedgerRow(key, delta, HcmSyncAdjust, None, None));
      }
    }

    /** The second half of a push: what no longer fits is flagged, and the rest is reserved. */
    method GiveUpNewest(key: Key, updated: Snapshot, listing: seq<RequestId>) returns (flagged: seq<RequestId>)
      requires IsListing(db.requests, key, listing)
      requires key in db.balances && db.balances[key] == updated
      modifies db`balances, db`requests
      ensures flagged == Flagged(old(db.requests), key, updated.balance, listing)
      ensures db.requests == FailAll(old(db.requests), flagged)
      ensures var over := SumAt(listing, HeldWeights(old(db.requests), key)) > updated.balance;
              db.balances == old(db.balances)[key :=
                updated.(reserved := if over then Held(db.requests, key) else updated.reserved)]
    {
      var rows := db.requests;
      FlagsSpelledOut(rows, key, updated.balance, listing);
      var reserved := SumHeld(rows, listing, [], key);
      flagged := [];
      if reserved > updated.balance {
        flagged := FlagNewest(key, NewestFirst(listing, rows), reserved - updated.balance);
        var surviving := SumHeld(rows, listing, flagged, key);
        db.UpsertBalance(key, updated.(reserved := surviving));
      }
    }

    /** The held days of the listed rows that are not among the flagged ones. */
    method SumHeld(rows: seq<Request>, listing: seq<RequestId>, flagged: seq<RequestId>, key: Key)
      returns (sum: int)
      requires IsListing(rows, key, listing)
      ensures sum == Held(FailAll(rows, flagged), key)
    {
      ghost var weights := HeldWeights(FailAll(rows, flagged), key);
      sum := 0;
      for n := 0 to |listing|
        invariant sum == SumAt(listing[..n], weights)
      {
        assert Holds(rows[listing[n]], key);
        SumAtAppend(listing[..n], listing[n], weights);
        assert listing[..n + 1] == listing[..n] + [listing[n]];
        if listing[n] !in flagged && HoldsReservation(rows[listing[n]].status) {
          sum := sum + rows[listing[n]].days;
        }
      }
      assert listing[..|listing|] == listing;
      SumListing(listing, weights);
    }

    /** Flags requests in the given order while the overage lasts. */
    method FlagNewest(key: Key, sorted: seq<RequestId>, total: int) returns (flagged: seq<RequestId>)
      requires IsListing(db.requests, key, sorted)
      modifies db`requests
      ensures var weights := HeldWeights(old(db.requests), key);
              flagged == sorted[..CutFrom(sorted, weights, total, 0)]
      ensures db.requests == FailAll(old(db.requests), flagged)
    {
      var rows := db.requests;
      ghost var weights := HeldWeights(rows, key);
      flagged := [];
      var overage := total;
      var n := 0;
      assert FailAll(rows, []) == rows;
      while n < |sorted| && overage > 0
        invariant n <= |sorted| && flagged == sorted[..n]
        invariant db.requests == FailAll(rows, flagged)
        invariant overage == total - SumAt(sorted[..n], weights)
        invariant CutFrom(sorted, weights, total, 0) == CutFrom(sorted, weights, total, n)
        decreases |sorted| - n
      {
        var id := sorted[n];
        assert Holds(rows[id], key);
        assert sorted[..n + 1] == sorted[..n] + [id];
        SumAtAppend(sorted[..n], id, weights);
        db.UpdateRequest(id, rows[id].(status := Failed));
        assert FailAll(rows, flagged + [id]) == FailAll(rows, flagged)[id := rows[id].(status := Failed)];
        flagged := flagged + [id];
        overage := overage - rows[id].days;
        n := n + 1;
      }
    }
  }

  class BalanceService {
    const db: Database

    constructor (db: Database)
      ensures this.db == db
    {
      this.db := db;
    }

    /** The transaction of a refresh, once HCM has answered. */
    method StoreRefresh(key: Key, absolute: int) returns (result: Result<Snapshot>)
      modifies db
      ensures db.View() == After(old(db.View()), RefreshTx(old(db.View()), key, absolute))
      ensures match RefreshTx(old(db.View()), key, absolute)
              case Success(next) => key in next.balances && result == Success(next.balances[key])
              case Failure(error) => result == Failure(error)
    {
      var known := key in db.balances;
      var current := SnapshotAt(db.balances, key);
      var next := SetAbsolute(current, absolute);
      if next.Failure? {
        return Failure(next.error);
      }
      var delta := absolute - current.balance;
      db.UpsertBalance(key, next.value);
      if delta != 0 || !known {
        var _ := db.InsertLedger(LedgerRow(key, delta, HcmSyncAdjust, None, None));
      }
      return Success(next.value);
    }
  }

  class ReconciliationService {
    const db: Database
    const requests: RequestsService

    constructor (requests: RequestsService)
      ensures this.requests == requests && this.db == requests.db
    {
      this.requests := requests;
      this.db := requests.db;
    }

    /** Ingests a batch; each entry's listing is one that the database can return in its turn. */
    method Ingest(entries: seq<Entry>) returns (changed: nat, flagged: seq<RequestId>)
      requires requests.db == db
      requires ListedInTurn(db.View(), entries)
      modifies db
      ensures var ingested := IngestBatch(old(db.View()), entries);
              db.View() == ingested.db && changed == ingested.changed && flagged == ingested.flagged
    {
      ghost var before := db.View();
      changed, flagged := 0, [];
      for n := 0 to |entries|
        invariant ListingsWithin(before, entries[..n])
        invariant IsIngested(before, entries[..n], db.View(), changed, flagged)
      {
        var entry := entries[n];
        ghost var reached := db.View();
        var delta, ids := requests.HandleAbsoluteBalance(entry.key, entry.absolute, entry.listing);
        IngestedNext(before, entries, n, reached, changed, flagged);
        if delta != 0 {
          changed := changed + 1;
        }
        flagged := flagged + ids;
      }
      assert entries[..|entries|] == entries;
    }

    /** Compares every listed snapshot with HCM's answer, and pushes the answer on a difference. */
    method ReconcileAll(readings: seq<Reading>)
      returns (scanned: nat, drifted: nat, flagged: seq<RequestId>, errors: nat)
      requires requests.db == db
      requires ReadingsWithin(db.View(), readings)
      requires forall n | 0 <= n < |readings| ::
                 IsListing(Reconcile(db.View(), readings[..n]).db.requests, readings[n].key, readings[n].listing)
      modifies db
      ensures var result := Reconcile(old(db.View()), readings);
              && db.View() == result.db && scanned == result.scanned && drifted == result.drifted
              && flagged == result.flagged && errors == result.errors
    {
      ghost var before := db.View();
      scanned, drifted, flagged, errors := 0, 0, [], 0;
      assert readings[..0] == [];
      for n := 0 to |readings|
        invariant var result := Reconcile(before, readings[..n]);
                  && db.View() == result.db && scanned == result.scanned && drifted == result.drifted
                  && flagged == result.flagged && errors == result.errors
      {
        var reading := readings[n];
        scanned := scanned + 1;
        match reading.answer {
          case None =>
            errors := errors + 1;
          case Some(balance) =>
            if balance != reading.listed {
              var delta, ids := requests.HandleAbsoluteBalance(reading.key, balance, reading.listing);
              if delta != 0 {
                drifted := drifted + 1;
              }
              flagged := flagged + ids;
            }
        }
        assert readings[..n + 1][..n] == readings[..n];
      }
      assert readings[..|readings|] == readings;
    }
  }

  /** The flagged requests, with the listing's sum read as the held days of the balance. */
  lemma FlagsSpelledOut(requests: seq<Request>, key: Key, absolute: int, listing: seq<RequestId>)
    requires IsListing(requests, key, listing)
    ensures var sorted, weights := NewestFirst(listing, requests), HeldWeights(requests, key);
            var held := Held(requests, key);
            && IsListing(requests, key, sorted)
            && held == SumAt(listing, weights) == Held(FailAll(requests, []), key)
            && FailAll(requests, []) == requests
            && Flagged(requests, key, absolute, listing) ==
               if held > absolute then sorted[..CutFrom(sorted, weights, held - absolute, 0)] else []
  {
    PermutedListing(requests, key, listing, NewestFirst(listing, requests));
    ListingHoldsAll(requests, key, listing);
    assert FailAll(requests, []) == requests;
  }

  lemma OverwrittenTwice<K, V>(original: map<K, V>, written: map<K, V>, key: K, first: V, second: V)
    requires written == original[key := first]
    ensures written[key := second] == original[key := second]
  {
  }

  /** The statements of a push, put together. */
  lemma PushInParts(db: Db, key: Key, absolute: int, listing: seq<RequestId>, updated: Snapshot,
                    after: Db, flagged: seq<RequestId>)
    requires Within(listing, |db.requests|)
    requires updated == SnapshotAt(db.balances, key).(balance := absolute)
    requires flagged == Flagged(db.requests, key, absolute, listing)
    requires after.requests == FailAll(db.requests, flagged)
    requires var over := SumAt(listing, HeldWeights(db.requests, key)) > absolute;
             after.balances == db.balances[key :=
               updated.(reserved := if over then Held(after.requests, key) else updated.reserved)]
    requires var delta := absolute - SnapshotAt(db.balances, key).balance;
             after.ledger == if delta != 0 then db.ledger + [AdjustRow(key, delta, None)] else db.ledger
    requires after.outbox == db.outbox
    ensures PushTx(db, key, absolute, listing) ==
            Pushed(after, absolute - SnapshotAt(db.balances, key).balance, flagged)
  {
    hide Flagged, FailAll, Held, HeldWeights, SumAt;
  }

  /** The state and the counters are those of a batch ingested so far. */
  ghost predicate IsIngested(before: Db, entries: seq<Entry>, db: Db, changed: nat, flagged: seq<RequestId>)
    requires ListingsWithin(before, entries)
  {
    IngestBatch(before, entries) == Ingested(db, changed, flagged)
  }

  lemma IngestedNext(before: Db, entries: seq<Entry>, n: nat, db: Db, changed: nat, flagged: seq<RequestId>)
    requires n < |entries| && ListingsWithin(before, entries[..n]) && Within(entries[n].listing, |db.requests|)
    requires IsIngested(before, entries[..n], db, changed, flagged)
    ensures ListingsWithin(before, entries[..n + 1])
    ensures var pushed := PushTx(db, entries[n].key, entries[n].absolute, entries[n].listing);
            IsIngested(before, entries[..n + 1], pushed.db,
                       changed + if pushed.delta != 0 then 1 else 0, flagged + pushed.flagged)
  {
    assert entries[..n + 1] == entries[..n] + [entries[n]];
    assert entries[..n + 1][..n] == entries[..n];
  }
}
