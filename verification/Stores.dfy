/** The tables as mutable state, and the two sides' stores. */
module Stores {
  import opened Wrappers
  import opened Balance
  import opened Tables
  import opened Transactions
  import opened Hcm

  /** The service's database. Its methods are the repositories' single-row operations. */
  class Database {
    var balances: map<Key, Snapshot>
    var requests: seq<Request>
    var ledger: seq<LedgerRow>
    var outbox: map<RequestId, OutboxRow>
    // When each outbox row is due, in milliseconds. The step system leaves it out, so that there
    // the worker may pick any queued row.
    var nextAttemptAt: map<RequestId, int>

    ghost function View(): Db
      reads this
    {
      Db(balances, requests, ledger, outbox)
    }

    constructor ()
      ensures View() == EMPTY_DB
    {
      balances := map[];
      requests := [];
      ledger := [];
      outbox := map[];
      nextAttemptAt := map[];
    }

    /** The request that carries a client key, if one does. */
    method FindByClientKey(clientKey: Option<string>) returns (found: Option<RequestId>)
      ensures found.Some? <==> KeyTaken(requests, clientKey)
      ensures found.Some? ==> found.value < |requests| && requests[found.value].clientKey == clientKey
    {
      if clientKey.None? {
        return None;
      }
      for i := 0 to |requests|
        invariant forall j | 0 <= j < i :: requests[j].clientKey != clientKey
      {
        if requests[i].clientKey == clientKey {
          return Some(i);
        }
      }
      return None;
    }

    method UpsertBalance(key: Key, snapshot: Snapshot)
      modifies this`balances
      ensures balances == old(balances)[key := snapshot]
    {
      balances := balances[key := snapshot];
    }

    method UpdateRequest(id: RequestId, row: Request)
      requires id < |requests|
      modifies this`requests
      ensures requests == old(requests)[id := row]
    {
      requests := requests[id := row];
    }

    /** The unique index on debit keys turns a second row with one key away. */
    method InsertLedger(row: LedgerRow) returns (inserted: bool)
      modifies this`ledger
      ensures inserted <==> row.debitKey.None? || DebitRows(old(ledger), row.debitKey.value) == 0
      ensures ledger == if inserted then old(ledger) + [row] else old(ledger)
    {
      if row.debitKey.Some? {
        var rows := 0;
        for i := 0 to |ledger|
          invariant rows == DebitRows(ledger[..i], row.debitKey.value)
          invariant ledger == old(ledger)
        {
          assert ledger[..i + 1][..i] == ledger[..i];
          if ledger[i].debitKey == row.debitKey {
            rows := rows + 1;
          }
        }
        assert ledger[..|ledger|] == ledger;
        if rows > 0 {
          return false;
        }
      }
      ledger := ledger + [row];
      return true;
    }
  }

  /** HCM's balances and debit records, with the debit endpoint. */
  class HcmStore {
    var balances: map<Key, int>
    var debits: map<RequestId, DebitRecord>

    ghost function View(): HcmState
      reads this
    {
      HcmState(balances, debits)
    }

    constructor ()
      ensures View() == EMPTY_HCM
    {
      balances := map[];
      debits := map[];
    }

    method SetBalance(key: Key, balance: int)
      modifies this
      ensures View() == HcmState(old(balances)[key := balance], old(debits))
    {
      balances := balances[key := balance];
    }

    method BumpBalance(key: Key, delta: int) returns (next: int)
      modifies this
      ensures next == BalanceAt(old(View()), key) + delta
      ensures View() == HcmState(old(balances)[key := next], old(debits))
    {
      next := (if key in balances then balances[key] else 0) + delta;
      balances := balances[key := next];
    }

    method PostDebit(id: RequestId, key: Key, days: int, mode: Mode, freshCommitId: string) returns (answer: Answer)
      modifies this
      ensures (View(), answer) == AnswerDebit(old(View()), id, key, days, mode, freshCommitId)
    {
      if days <= 0 {
        return Retryable;
      }
      if id in debits {
        return Acknowledged(debits[id].commitId);
      }
      if mode == Unavailable {
        return Retryable;
      }
      if mode == ForceInvalidDimension {
        return Refused(InvalidDimension);
      }
      if key !in balances {
        return Refused(InvalidDimension);
      }
      var forced, actual := mode == ForceInsufficient, balances[key] < days;
      if forced || actual {
        return Refused(InsufficientAtHcm);
      }
      var _ := BumpBalance(key, -days);
      debits := debits[id := DebitRecord(key, days, freshCommitId)];
      return Acknowledged(freshCommitId);
    }

    /** The same call over the wire. */
    method PostOverWire(id: RequestId, key: Key, days: int, conditions: Conditions) returns (answer: Answer)
      modifies this
      ensures (View(), answer) == Attempt(old(View()), id, key, days, conditions)
    {
      if conditions.wire == RequestLost {
        return Retryable;
      }
      answer := PostDebit(id, key, days, conditions.mode, conditions.freshCommitId);
      if conditions.wire == ReplyLost {
        answer := Retryable;
      }
    }
  }
}
