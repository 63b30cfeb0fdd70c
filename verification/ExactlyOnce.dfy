/**
 * Exactly-once debits, at HCM and in the ledger, and the ledger as the history of the snapshot.
 * All of it holds in every run, whatever replies are lost or calls retried.
 */
module ExactlyOnce {
  import opened Wrappers
  import opened Sums
  import opened Lifecycle
  import opened Tables
  import opened Transactions
  import opened Hcm
  import opened System
  import opened Invariant
  import opened InvariantSteps

  /** The days recorded at HCM against one balance by the first `n` requests. */
  function Recorded(hcm: HcmState, n: nat, key: Key): int {
    Sum(RecordedWeights(hcm.debits, n, key))
  }

  /** What HCM holds and what it has debited add up to what other writers supplied. */
  function SuppliedAt(s: State, key: Key): int {
    BalanceAt(s.hcm, key) + Recorded(s.hcm, |s.db.requests|, key)
  }

  /** One attempt lowers the balance by what it newly records, and by nothing else. */
  lemma AttemptConserves(hcm: HcmState, n: nat, id: RequestId, key: Key, days: int, conditions: Conditions, at: Key)
    requires id < n
    ensures var next := Attempt(hcm, id, key, days, conditions).0;
            BalanceAt(next, at) + Recorded(next, n, at) == BalanceAt(hcm, at) + Recorded(hcm, n, at)
  {
    var next := Attempt(hcm, id, key, days, conditions).0;
    if next != hcm {
      var weights := RecordedWeights(hcm.debits, n, at);
      var weight := if key == at then days else 0;
      assert RecordedWeights(next.debits, n, at) == weights[id := weight];
      SumUpdate(weights, id, weight);
    }
  }

  lemma RecordedByMore(hcm: HcmState, n: nat, more: nat, key: Key)
    requires n <= more && forall i | i in hcm.debits :: i < n
    ensures Recorded(hcm, more, key) == Recorded(hcm, n, key)
    decreases more - n
  {
    if n < more {
      var weights := RecordedWeights(hcm.debits, n, key);
      assert RecordedWeights(hcm.debits, n + 1, key) == weights + [0];
      SumAppend(weights, 0);
      RecordedByMore(hcm, n + 1, more, key);
    }
  }

  /** Requests are never deleted. */
  lemma RequestsStay(c: Config, s: State, e: Event)
    requires ThreadsOk(c, s)
    ensures |s.db.requests| <= |Next(c, s, e).db.requests|
  {
    if !WritesTables(e) {
      OtherStepsKeepTables(c, s, e);
    }
  }

  /** A request never changes its balance. */
  lemma KeysStay(c: Config, s: State, e: Event, id: RequestId)
    requires ThreadsOk(c, s) && id < |s.db.requests|
    ensures id < |Next(c, s, e).db.requests|
    ensures Next(c, s, e).db.requests[id].key == s.db.requests[id].key
  {
    hide HcmOk;
    if !WritesTables(e) {
      OtherStepsKeepTables(c, s, e);
    } else if e.ApproveFinish? {
      FinishKeepsKeys(c, s, e.id, id);
    } else if e.Push? {
      PushKeepsKeys(c, s, e, id);
    }
  }

  lemma FinishKeepsKeys(c: Config, s: State, closed: RequestId, id: RequestId)
    requires ThreadsOk(c, s) && id < |s.db.requests|
    ensures id < |ApproveFinishStep(s, closed).db.requests|
    ensures ApproveFinishStep(s, closed).db.requests[id].key == s.db.requests[id].key
  {
    hide HcmOk, OutboxOk, WorkerOk;
  }

  lemma PushKeepsKeys(c: Config, s: State, e: Event, id: RequestId)
    requires id < |s.db.requests| && e.Push?
    ensures id < |Next(c, s, e).db.requests|
    ensures Next(c, s, e).db.requests[id].key == s.db.requests[id].key
  {
  }

  /** Only attempts and outside writers touch HCM. */
  lemma OtherStepsKeepHcm(c: Config, s: State, e: Event)
    requires !e.ApproveAttempt? && !e.WorkerAttempt? && !e.HcmWrite?
    ensures Next(c, s, e).hcm == s.hcm
  {
  }

  /** The amount supplied stands, and so does every record. */
  ghost predicate Conserves(s: State, after: State, key: Key) {
    && SuppliedAt(after, key) == SuppliedAt(s, key)
    && forall i | i in s.hcm.debits :: i in after.hcm.debits && after.hcm.debits[i] == s.hcm.debits[i]
  }

  lemma ApproveAttemptConserves(c: Config, s: State, id: RequestId, conditions: Conditions, key: Key)
    requires ThreadsOk(c, s)
    ensures Conserves(s, ApproveAttemptStep(c, s, id, conditions), key)
  {
    if id in s.approvals && s.approvals[id].phase.Calling? {
      var row := s.approvals[id].row;
      AttemptConserves(s.hcm, |s.db.requests|, id, row.key, row.days, conditions, key);
    }
  }

  lemma WorkerAttemptConserves(c: Config, s: State, conditions: Conditions, key: Key)
    requires ThreadsOk(c, s)
    ensures Conserves(s, WorkerAttemptStep(c, s, conditions), key)
  {
    if s.worker.Working? && s.worker.phase.Calling? {
      var payload := s.worker.row.payload;
      AttemptConserves(s.hcm, |s.db.requests|, s.worker.id, payload.key, payload.days, conditions, key);
    }
  }

  lemma StepConserves(c: Config, s: State, e: Event, key: Key)
    requires ThreadsOk(c, s)
    requires e.HcmWrite? ==> e.key != key
    ensures Conserves(s, Next(c, s, e), key)
  {
    if e.ApproveAttempt? {
      ApproveAttemptConserves(c, s, e.id, e.conditions, key);
    } else if e.WorkerAttempt? {
      WorkerAttemptConserves(c, s, e.conditions, key);
    } else if !e.HcmWrite? {
      OtherStepsKeepHcm(c, s, e);
      RequestsStay(c, s, e);
      hide Next;
      RecordedByMore(s.hcm, |s.db.requests|, |Next(c, s, e).db.requests|, key);
    }
  }

  /**
   * HCM debits each request at most once. Over any run in which no other writer touches a
   * balance at HCM, the balance falls by exactly the days of the requests newly recorded, one
   * record to a request; and a record once made never changes.
   */
  lemma {:induction false} HcmDebitsOnce(c: Config, s: State, events: seq<Event>, key: Key)
    requires Inv(c, s)
    requires forall n | 0 <= n < |events| && events[n].HcmWrite? :: events[n].key != key
    ensures var final := Run(c, s, events);
            && |s.db.requests| <= |final.db.requests|
            && BalanceAt(s.hcm, key) - BalanceAt(final.hcm, key) ==
               Recorded(final.hcm, |final.db.requests|, key) - Recorded(s.hcm, |s.db.requests|, key)
            && (forall i | i in s.hcm.debits ::
                  i in final.hcm.debits && final.hcm.debits[i] == s.hcm.debits[i])
            && (forall i | i in final.hcm.debits ::
                  && i < |final.db.requests|
                  && final.hcm.debits[i].key == final.db.requests[i].key
                  && final.hcm.debits[i].days == final.db.requests[i].days)
  {
    hide Next;
    RunKeeps(c, s, events);
    if events != [] {
      var init, last := events[..|events| - 1], events[|events| - 1];
      HcmDebitsOnce(c, s, init, key);
      RunKeeps(c, s, init);
      StepConserves(c, Run(c, s, init), last, key);
      RequestsStay(c, Run(c, s, init), last);
    }
  }

  /**
   * A request is COMMITTED exactly when the ledger holds one row with its debit key; that row
   * is a DEBIT of minus its days, and the request carries the commit id that HCM recorded.
   */
  lemma CommittedIffOneDebitRow(c: Config, events: seq<Event>, id: RequestId)
    requires id < |Run(c, INITIAL, events).db.requests|
    ensures var final := Run(c, INITIAL, events);
            var request := final.db.requests[id];
            && (request.status == Committed <==> DebitRows(final.db.ledger, id) == 1)
            && (request.status != Committed <==> DebitRows(final.db.ledger, id) == 0)
            && (forall j | 0 <= j < |final.db.ledger| && final.db.ledger[j].debitKey == Some(id) ::
                  final.db.ledger[j] == LedgerRow(request.key, -request.days, Debit, Some(id), Some(id)))
            && (request.status == Committed ==>
                  id in final.hcm.debits && request.commitId == Some(final.hcm.debits[id].commitId))
  {
    InitialInv(c);
    RunKeeps(c, INITIAL, events);
    var final := Run(c, INITIAL, events);
    assert CommitOk(final.db, final.hcm, id);
    forall j | 0 <= j < |final.db.ledger|
      ensures DebitRowOk(final.db.ledger[j], final.db.requests)
    {
    }
  }

  /** The unique index on debit keys never turns a commit away: no row is there yet. */
  lemma NoDuplicateDebitRow(c: Config, s: State, id: RequestId, row: Request, commitId: string)
    requires Inv(c, s) && id < |s.db.requests| && s.db.requests[id].status != Committed
    ensures CommitTx(s.db, id, row, row.key, row.days, commitId) != Failure(UniqueViolation)
  {
    assert CommitOk(s.db, s.hcm, id);
  }
}
