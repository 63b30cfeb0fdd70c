/** Every step keeps the invariant, so every state of every run satisfies it. */
module InvariantSteps {
  import opened Wrappers
  import opened Sums
  import opened Lifecycle
  import opened Tables
  import opened Flagging
  import opened Transactions
  import opened Hcm
  import opened System
  import opened Invariant

  // ---------- how request rows evolve ----------

  ghost predicate RowEvolves(before: Request, after: Request) {
    && after == before.(status := after.status, commitId := after.commitId)
    && (Begun(before.status) ==> Begun(after.status))
    && (IsTerminal(before.status) ==> IsTerminal(after.status))
  }

  ghost predicate Evolves(before: seq<Request>, after: seq<Request>) {
    && |before| <= |after|
    && forall i | 0 <= i < |before| :: RowEvolves(before[i], after[i])
  }

  /** Rows that evolve disturb neither HCM's records, nor the outbox, nor the worker. */
  lemma ThreadsEvolve(c: Config, s: State, after: State)
    requires ThreadsOk(c, s)
    requires Evolves(s.db.requests, after.db.requests)
    requires after.hcm == s.hcm && after.db.outbox == s.db.outbox && after.worker == s.worker
    ensures HcmOk(after.hcm, after.db.requests) && OutboxOk(c, after) && WorkerOk(c, after)
  {
    forall id: nat | id < |s.db.requests|
      ensures RowEvolves(s.db.requests[id], after.db.requests[id])
    {
    }
  }

  // ---------- commits and debit rows ----------

  /** Neither debit rows nor committed requests change. */
  lemma CommitsUnmoved(db: Db, after: Db, hcm: HcmState)
    requires CommitsOk(db, hcm) && Evolves(db.requests, after.requests)
    requires after.ledger == db.ledger ||
             exists row: LedgerRow :: row.debitKey == None && after.ledger == db.ledger + [row]
    requires forall i | 0 <= i < |db.requests| ::
               && (after.requests[i].status == Committed <==> db.requests[i].status == Committed)
               && after.requests[i].commitId == db.requests[i].commitId
    requires forall i | |db.requests| <= i < |after.requests| ::
               after.requests[i].status != Committed && after.requests[i].commitId == None
    ensures CommitsOk(after, hcm)
  {
    forall i: nat | i < |after.requests|
      ensures CommitOk(after, hcm, i)
    {
      if after.ledger != db.ledger {
        DebitRowsAppend(db.ledger, after.ledger[|db.ledger|], i);
      }
      if i < |db.requests| {
        assert CommitOk(db, hcm, i);
      } else {
        NoDebitRowBeyond(db, hcm, i);
      }
    }
    forall j | 0 <= j < |after.ledger|
      ensures DebitRowOk(after.ledger[j], after.requests)
    {
      if j < |db.ledger| {
        assert DebitRowOk(db.ledger[j], db.requests);
        DebitRowEvolves(db.ledger[j], db.requests, after.requests);
      }
    }
  }

  lemma DebitRowEvolves(row: LedgerRow, before: seq<Request>, after: seq<Request>)
    requires DebitRowOk(row, before) && Evolves(before, after)
    ensures DebitRowOk(row, after)
  {
    if row.debitKey.Some? {
      assert RowEvolves(before[row.debitKey.value], after[row.debitKey.value]);
    }
  }

  lemma NoDebitRowBeyond(db: Db, hcm: HcmState, i: nat)
    requires CommitsOk(db, hcm) && i >= |db.requests|
    ensures DebitRows(db.ledger, i) == 0
  {
    forall j | 0 <= j < |db.ledger|
      ensures db.ledger[j].debitKey != Some(i)
    {
      assert DebitRowOk(db.ledger[j], db.requests);
    }
    DebitRowsNone(db.ledger, i);
  }

  /** A commit adds the one DEBIT row of its request. */
  lemma CommitsGrow(db: Db, after: Db, hcm: HcmState, id: RequestId, commitId: string)
    requires CommitsOk(db, hcm) && Evolves(db.requests, after.requests)
    requires id < |db.requests| == |after.requests|
    requires DebitRows(db.ledger, id) == 0
    requires id in hcm.debits && hcm.debits[id].commitId == commitId
    requires after.ledger == db.ledger + [DebitRow(id, db.requests[id].key, db.requests[id].days)]
    requires after.requests ==
             db.requests[id := db.requests[id].(status := Committed, commitId := Some(commitId))]
    ensures CommitsOk(after, hcm)
  {
    var row := DebitRow(id, db.requests[id].key, db.requests[id].days);
    forall i: nat | i < |after.requests|
      ensures CommitOk(after, hcm, i)
    {
      assert CommitOk(db, hcm, i);
      DebitRowsAppend(db.ledger, row, i);
    }
    forall j | 0 <= j < |after.ledger|
      ensures DebitRowOk(after.ledger[j], after.requests)
    {
      if j < |db.ledger| {
        assert DebitRowOk(db.ledger[j], db.requests);
        DebitRowEvolves(db.ledger[j], db.requests, after.requests);
      }
    }
  }

  // ---------- one HCM attempt ----------

  /** The other keys' records stay; this key's record, once made, stays too. */
  ghost predicate RecordsGrow(before: HcmState, after: HcmState, id: RequestId) {
    && (forall i | i in before.debits :: i in after.debits && after.debits[i] == before.debits[i])
    && (forall i | i in after.debits && i != id :: i in before.debits)
  }

  /**
   * An acknowledgement means the debit is recorded under the answered commit id; a refusal
   * means it is not recorded, because recorded keys are answered first.
   */
  lemma AttemptAnswers(c: Config, hcm: HcmState, id: RequestId, key: Key, days: int, made: nat, conditions: Conditions)
    ensures var (next, answer) := Attempt(hcm, id, key, days, conditions);
            && RecordsGrow(hcm, next, id)
            && PhaseOk(c, next, id, Advance(c, made, answer))
            && (id in next.debits && id !in hcm.debits ==>
                  next.debits[id].key == key && next.debits[id].days == days)
  {
  }

  lemma AttemptKeepsCommits(db: Db, hcm: HcmState, id: RequestId, key: Key, days: int, conditions: Conditions)
    requires CommitsOk(db, hcm)
    ensures CommitsOk(db, Attempt(hcm, id, key, days, conditions).0)
  {
    forall i: nat | i < |db.requests|
      ensures CommitOk(db, Attempt(hcm, id, key, days, conditions).0, i)
    {
      assert CommitOk(db, hcm, i);
    }
  }

  /** A record made for one request does not touch where another request's call stands. */
  lemma PhaseStands(c: Config, before: HcmState, after: HcmState, id: RequestId, other: RequestId, phase: Phase)
    requires RecordsGrow(before, after, id) && other != id && PhaseOk(c, before, other, phase)
    ensures PhaseOk(c, after, other, phase)
  {
  }

  lemma RecordsStand(hcm: HcmState, requests: seq<Request>, id: RequestId, conditions: Conditions)
    requires HcmOk(hcm, requests) && id < |requests| && Begun(requests[id].status)
    ensures HcmOk(Attempt(hcm, id, requests[id].key, requests[id].days, conditions).0, requests)
  {
  }

  lemma ApproveAttemptThreads(c: Config, s: State, id: RequestId, conditions: Conditions)
    requires ThreadsOk(c, s)
    ensures ThreadsOk(c, ApproveAttemptStep(c, s, id, conditions))
  {
    if id in s.approvals && s.approvals[id].phase.Calling? {
      var call, after := s.approvals[id], ApproveAttemptStep(c, s, id, conditions);
      AttemptAnswers(c, s.hcm, id, call.row.key, call.row.days, call.phase.made, conditions);
      RecordsStand(s.hcm, s.db.requests, id, conditions);
      CallsAfterAttempt(c, s, id, conditions);
      hide Attempt, PhaseOk, HcmOk, CallsOk;
      WorkerAfterRecord(c, s, after, id);
    }
  }

  lemma CallsAfterAttempt(c: Config, s: State, id: RequestId, conditions: Conditions)
    requires ThreadsOk(c, s) && id in s.approvals && s.approvals[id].phase.Calling?
    ensures CallsOk(c, ApproveAttemptStep(c, s, id, conditions))
  {
    var call, after := s.approvals[id], ApproveAttemptStep(c, s, id, conditions);
    AttemptAnswers(c, s.hcm, id, call.row.key, call.row.days, call.phase.made, conditions);
    hide Attempt, PhaseOk, HcmOk, OutboxOk, WorkerOk;
    CallsAfterRecord(c, s, after.hcm, id);
  }

  /** The other calls in flight stand where they stood. */
  lemma CallsAfterRecord(c: Config, s: State, after: HcmState, id: RequestId)
    requires CallsOk(c, s) && RecordsGrow(s.hcm, after, id)
    ensures forall i | i in s.approvals && i != id :: PhaseOk(c, after, i, s.approvals[i].phase)
  {
    forall i | i in s.approvals && i != id
      ensures PhaseOk(c, after, i, s.approvals[i].phase)
    {
      PhaseStands(c, s.hcm, after, id, i, s.approvals[i].phase);
    }
  }

  /** The worker is at another request, because this one's call is in flight. */
  lemma WorkerAfterRecord(c: Config, s: State, after: State, id: RequestId)
    requires OutboxOk(c, s) && WorkerOk(c, s) && RecordsGrow(s.hcm, after.hcm, id) && id !in s.db.outbox
    requires after.db == s.db && after.worker == s.worker
    ensures OutboxOk(c, after) && WorkerOk(c, after)
  {
    if s.worker.Working? {
      PhaseStands(c, s.hcm, after.hcm, id, s.worker.id, s.worker.phase);
    }
  }

  lemma WorkerAttemptThreads(c: Config, s: State, conditions: Conditions)
    requires ThreadsOk(c, s)
    ensures ThreadsOk(c, WorkerAttemptStep(c, s, conditions))
  {
    if s.worker.Working? && s.worker.phase.Calling? {
      var id, payload, after := s.worker.id, s.worker.row.payload, WorkerAttemptStep(c, s, conditions);
      AttemptAnswers(c, s.hcm, id, payload.key, payload.days, s.worker.phase.made, conditions);
      RecordsStand(s.hcm, s.db.requests, id, conditions);
      CallsAfterRecord(c, s, after.hcm, id);
      hide Attempt, PhaseOk, HcmOk;
    }
  }

  // ---------- the local transactions ----------

  lemma CreateThreads(c: Config, s: State, key: Key, days: int, createdAt: int, clientKey: Option<string>)
    requires ThreadsOk(c, s) && CommitsOk(s.db, s.hcm)
    ensures var after := s.(db := After(s.db, CreateTx(s.db, key, days, createdAt, clientKey)));
            ThreadsOk(c, after) && CommitsOk(after.db, after.hcm)
  {
    var after := s.(db := After(s.db, CreateTx(s.db, key, days, createdAt, clientKey)));
    ThreadsEvolve(c, s, after);
    CommitsUnmoved(s.db, after.db, s.hcm);
  }

  lemma ApproveThreads(c: Config, s: State, id: RequestId)
    requires ThreadsOk(c, s) && CommitsOk(s.db, s.hcm)
    ensures ThreadsOk(c, ApproveStep(s, id))
    ensures CommitsOk(ApproveStep(s, id).db, s.hcm)
  {
    var after := ApproveStep(s, id);
    if after != s {
      assert CommitOk(s.db, s.hcm, id);
      ApproveEvolves(s.db, id);
      hide Evolves;
      ThreadsEvolve(c, s, after);
      CommitsUnmoved(s.db, after.db, s.hcm);
      ApproveOpensCall(c, s, id);
    }
  }

  lemma ApproveEvolves(db: Db, id: RequestId)
    ensures Evolves(db.requests, After(db, ApproveTx(db, id)).requests)
  {
  }

  lemma ApproveOpensCall(c: Config, s: State, id: RequestId)
    requires CallsOk(c, s) && OutboxOk(c, s)
    requires id < |s.db.requests| ==> s.db.requests[id].commitId == None
    ensures CallsOk(c, ApproveStep(s, id))
  {
  }

  lemma WithdrawThreads(c: Config, s: State, id: RequestId, to: Status)
    requires ThreadsOk(c, s) && CommitsOk(s.db, s.hcm) && (to == Rejected || to == Cancelled)
    ensures var after := s.(db := After(s.db, WithdrawTx(s.db, id, to)));
            ThreadsOk(c, after) && CommitsOk(after.db, after.hcm)
  {
    var after := s.(db := After(s.db, WithdrawTx(s.db, id, to)));
    ThreadsEvolve(c, s, after);
    CommitsUnmoved(s.db, after.db, s.hcm);
  }

  /** A local commit, whoever makes it, under an acknowledged debit. */
  lemma CommitThreads(c: Config, s: State, id: RequestId, row: Request, commitId: string)
    requires ThreadsOk(c, s) && CommitsOk(s.db, s.hcm)
    requires id < |s.db.requests| && SameRequest(row, s.db.requests[id])
    requires s.db.requests[id].status == Approved || s.db.requests[id].status == Failed
    requires id in s.hcm.debits && s.hcm.debits[id].commitId == commitId
    ensures var db := After(s.db, CommitTx(s.db, id, row, row.key, row.days, commitId));
            && CommitsOk(db, s.hcm)
            && HcmOk(s.hcm, db.requests) && OutboxOk(c, s.(db := db)) && WorkerOk(c, s.(db := db))
  {
    var result := CommitTx(s.db, id, row, row.key, row.days, commitId);
    if result.Success? {
      ThreadsEvolve(c, s, s.(db := result.value));
      CommitsGrow(s.db, result.value, s.hcm, id, commitId);
    }
  }

  lemma FailApprovalThreads(c: Config, s: State, id: RequestId, row: Request, insufficient: bool)
    requires ThreadsOk(c, s) && CommitsOk(s.db, s.hcm)
    requires id < |s.db.requests| && SameRequest(row, s.db.requests[id])
    requires s.db.requests[id].status == Approved || s.db.requests[id].status == Failed
    ensures var db := After(s.db, FailApprovalTx(s.db, id, row, insufficient));
            && CommitsOk(db, s.hcm)
            && HcmOk(s.hcm, db.requests) && OutboxOk(c, s.(db := db)) && WorkerOk(c, s.(db := db))
  {
    var result := FailApprovalTx(s.db, id, row, insufficient);
    if result.Success? {
      assert CommitOk(s.db, s.hcm, id);
      ThreadsEvolve(c, s, s.(db := result.value));
      CommitsUnmoved(s.db, result.value, s.hcm);
    }
  }

  /** Ending a call drops it from the calls in flight; the others keep what they know. */
  lemma CallEnds(c: Config, s: State, db: Db, id: RequestId)
    requires CallsOk(c, s)
    requires forall i | i in s.approvals && i != id ::
               i < |db.requests| && db.requests[i] == s.db.requests[i] && i !in db.outbox
    ensures CallsOk(c, s.(db := db, approvals := s.approvals - {id}))
  {
  }

  lemma EnqueueThreads(c: Config, s: State, id: RequestId)
    requires ThreadsOk(c, s) && CommitsOk(s.db, s.hcm)
    requires id in s.approvals && s.approvals[id].phase == GaveUp
    ensures ThreadsOk(c, ApproveFinishStep(s, id))
    ensures CommitsOk(ApproveFinishStep(s, id).db, s.hcm)
  {
    var after := ApproveFinishStep(s, id);
    CallEnds(c, s, after.db, id);
    CommitsIgnoreOutbox(s.db, after.db, s.hcm);
  }

  lemma CommitsIgnoreOutbox(db: Db, after: Db, hcm: HcmState)
    requires CommitsOk(db, hcm) && after == db.(outbox := after.outbox)
    ensures CommitsOk(after, hcm)
  {
    forall i: nat | i < |db.requests|
      ensures CommitOk(after, hcm, i)
    {
      assert CommitOk(db, hcm, i);
    }
  }

  lemma DbIgnoresOutbox(db: Db, after: Db)
    requires DbOk(db) && after == db.(outbox := after.outbox)
    ensures DbOk(after)
  {
    forall key: Key
      ensures LedgerAt(after, key)
    {
      assert LedgerAt(db, key);
    }
  }

  lemma ApproveFinishThreads(c: Config, s: State, id: RequestId)
    requires ThreadsOk(c, s) && CommitsOk(s.db, s.hcm)
    ensures ThreadsOk(c, ApproveFinishStep(s, id))
    ensures CommitsOk(ApproveFinishStep(s, id).db, s.hcm)
  {
    if id in s.approvals {
      match s.approvals[id].phase
      case Calling(_) =>
      case Settled =>
      case Acked(_) => AckedFinishThreads(c, s, id);
      case TurnedDown(_) => TurnedDownFinishThreads(c, s, id);
      case GaveUp => EnqueueThreads(c, s, id);
    }
  }

  lemma AckedFinishThreads(c: Config, s: State, id: RequestId)
    requires ThreadsOk(c, s) && CommitsOk(s.db, s.hcm)
    requires id in s.approvals && s.approvals[id].phase.Acked?
    ensures ThreadsOk(c, ApproveFinishStep(s, id))
    ensures CommitsOk(ApproveFinishStep(s, id).db, s.hcm)
  {
    CommitThreads(c, s, id, s.approvals[id].row, s.approvals[id].phase.commitId);
    CallEnds(c, s, ApproveFinishStep(s, id).db, id);
  }

  lemma TurnedDownFinishThreads(c: Config, s: State, id: RequestId)
    requires ThreadsOk(c, s) && CommitsOk(s.db, s.hcm)
    requires id in s.approvals && s.approvals[id].phase.TurnedDown?
    ensures ThreadsOk(c, ApproveFinishStep(s, id))
    ensures CommitsOk(ApproveFinishStep(s, id).db, s.hcm)
  {
    FailApprovalThreads(c, s, id, s.approvals[id].row, s.approvals[id].phase.code == InsufficientAtHcm);
    CallEnds(c, s, ApproveFinishStep(s, id).db, id);
  }

  lemma ApproveFinishKeepsDb(c: Config, s: State, id: RequestId)
    requires DbOk(s.db) && CallsOk(c, s)
    ensures DbOk(ApproveFinishStep(s, id).db)
  {
    if id in s.approvals {
      var row := s.approvals[id].row;
      match s.approvals[id].phase
      case Calling(_) =>
      case Settled =>
      case Acked(commitId) => CommitKeepsDb(s.db, id, row, commitId);
      case TurnedDown(code) => FailApprovalKeepsDb(s.db, id, row, code == InsufficientAtHcm);
      case GaveUp => DbIgnoresOutbox(s.db, EnqueueTx(s.db, id, row));
    }
  }

  lemma FailAllEvolves(requests: seq<Request>, key: Key, flagged: seq<RequestId>)
    requires Within(flagged, |requests|)
    requires forall a | 0 <= a < |flagged| :: Holds(requests[flagged[a]], key)
    ensures Evolves(requests, FailAll(requests, flagged))
    ensures forall i | 0 <= i < |requests| ::
              requests[i].status == Committed <==> FailAll(requests, flagged)[i].status == Committed
  {
    forall i | 0 <= i < |requests|
      ensures RowEvolves(requests[i], FailAll(requests, flagged)[i])
      ensures requests[i].status == Committed <==> FailAll(requests, flagged)[i].status == Committed
    {
      if i in flagged {
        assert Holds(requests[i], key);
      }
    }
  }

  /** A push may fail a request under its approve call; the call then carries a stale row. */
  lemma PushThreads(c: Config, s: State, key: Key, absolute: int, listing: seq<RequestId>)
    requires ThreadsOk(c, s) && CommitsOk(s.db, s.hcm)
    requires IsListing(s.db.requests, key, listing)
    ensures var db := PushTx(s.db, key, absolute, listing).db;
            ThreadsOk(c, s.(db := db)) && CommitsOk(db, s.hcm)
  {
    var flagged := Flagged(s.db.requests, key, absolute, listing);
    FlaggedAreHeld(s.db.requests, key, absolute, listing);
    FailAllThreads(c, s, PushTx(s.db, key, absolute, listing).db, key, flagged);
  }

  lemma FailAllThreads(c: Config, s: State, db: Db, key: Key, flagged: seq<RequestId>)
    requires ThreadsOk(c, s) && CommitsOk(s.db, s.hcm)
    requires Within(flagged, |s.db.requests|)
    requires forall a | 0 <= a < |flagged| :: Holds(s.db.requests[flagged[a]], key)
    requires db.requests == FailAll(s.db.requests, flagged) && db.outbox == s.db.outbox
    requires db.ledger == s.db.ledger ||
             exists row: LedgerRow :: row.debitKey == None && db.ledger == s.db.ledger + [row]
    ensures ThreadsOk(c, s.(db := db)) && CommitsOk(db, s.hcm)
  {
    FailAllEvolves(s.db.requests, key, flagged);
    ThreadsEvolve(c, s, s.(db := db));
    CommitsUnmoved(s.db, db, s.hcm);
  }

  lemma RefreshThreads(c: Config, s: State, key: Key, absolute: int)
    requires ThreadsOk(c, s) && CommitsOk(s.db, s.hcm)
    ensures var db := After(s.db, RefreshTx(s.db, key, absolute));
            ThreadsOk(c, s.(db := db)) && CommitsOk(db, s.hcm)
  {
    CommitsUnmoved(s.db, After(s.db, RefreshTx(s.db, key, absolute)), s.hcm);
  }

  // ---------- the worker ----------

  lemma WorkerPickThreads(c: Config, s: State, id: RequestId)
    requires ThreadsOk(c, s)
    ensures ThreadsOk(c, WorkerPickStep(s, id))
  {
  }

  lemma WorkerMarkThreads(c: Config, s: State)
    requires ThreadsOk(c, s)
    ensures ThreadsOk(c, WorkerMarkStep(c, s))
  {
  }

  lemma WorkerCommitThreads(c: Config, s: State)
    requires ThreadsOk(c, s) && CommitsOk(s.db, s.hcm)
    requires s.worker.Working? && s.worker.phase.Acked?
    ensures ThreadsOk(c, WorkerSettleStep(s)) && CommitsOk(WorkerSettleStep(s).db, s.hcm)
  {
    hide HcmOk;
    var id := s.worker.id;
    var request := s.db.requests[id];
    if CanTransition(request.status, Committed) {
      assert CommitOk(s.db, s.hcm, id);
      CommitThreads(c, s, id, request, s.worker.phase.commitId);
    } else {
      NothingToCommit(c, s);
    }
  }

  lemma NothingToCommit(c: Config, s: State)
    requires ThreadsOk(c, s) && CommitsOk(s.db, s.hcm)
    requires s.worker.Working? && s.worker.phase.Acked?
    requires !CanTransition(s.db.requests[s.worker.id].status, Committed)
    ensures ThreadsOk(c, WorkerSettleStep(s)) && CommitsOk(WorkerSettleStep(s).db, s.hcm)
  {
    hide CommitTx, CommitsOk;
  }

  lemma WorkerFailThreads(c: Config, s: State)
    requires ThreadsOk(c, s) && CommitsOk(s.db, s.hcm)
    requires s.worker.Working? && s.worker.phase.TurnedDown?
    ensures ThreadsOk(c, WorkerSettleStep(s)) && CommitsOk(WorkerSettleStep(s).db, s.hcm)
  {
    var db := WorkerFailTx(s.db, s.worker.row.payload);
    ThreadsEvolve(c, s, s.(db := db));
    CommitsUnmoved(s.db, db, s.hcm);
  }

  lemma WorkerSettleKeeps(c: Config, s: State)
    requires Inv(c, s)
    ensures Inv(c, WorkerSettleStep(s))
  {
    if s.worker.Working? && s.worker.phase.Acked? {
      WorkerCommitThreads(c, s);
      WorkerCommitKeepsDb(c, s);
    } else if s.worker.Working? && s.worker.phase.TurnedDown? {
      WorkerFailThreads(c, s);
      WorkerFailKeepsDb(s.db, s.worker.row.payload);
    }
  }

  lemma WorkerCommitKeepsDb(c: Config, s: State)
    requires DbOk(s.db) && ThreadsOk(c, s) && CommitsOk(s.db, s.hcm)
    requires s.worker.Working? && s.worker.phase.Acked?
    ensures DbOk(WorkerSettleStep(s).db)
  {
    hide CommitTx, DbOk;
    var id := s.worker.id;
    var request := s.db.requests[id];
    if CanTransition(request.status, Committed) {
      assert CommitOk(s.db, s.hcm, id);
      CommitKeepsDb(s.db, id, request, s.worker.phase.commitId);
    }
  }

  lemma HcmWriteThreads(c: Config, s: State, key: Key, balance: int)
    requires ThreadsOk(c, s) && CommitsOk(s.db, s.hcm)
    ensures var hcm := s.hcm.(balances := s.hcm.balances[key := balance]);
            ThreadsOk(c, s.(hcm := hcm)) && CommitsOk(s.db, hcm)
  {
    var hcm := s.hcm.(balances := s.hcm.balances[key := balance]);
    forall i: nat | i < |s.db.requests|
      ensures CommitOk(s.db, hcm, i)
    {
      assert CommitOk(s.db, s.hcm, i);
    }
  }

  // ---------- steps and runs ----------

  lemma CircuitThreads(c: Config, s: State, id: RequestId)
    requires ThreadsOk(c, s)
    ensures ThreadsOk(c, ApproveCircuitStep(s, id))
    ensures ThreadsOk(c, WorkerCircuitStep(s))
  {
  }

  lemma CircuitKeeps(c: Config, s: State, id: RequestId)
    requires Inv(c, s)
    ensures Inv(c, ApproveCircuitStep(s, id))
    ensures Inv(c, WorkerCircuitStep(s))
  {
    CircuitThreads(c, s, id);
  }

  lemma HcmWriteKeeps(c: Config, s: State, key: Key, balance: int)
    requires Inv(c, s)
    ensures Inv(c, s.(hcm := s.hcm.(balances := s.hcm.balances[key := balance])))
  {
    HcmWriteThreads(c, s, key, balance);
  }

  lemma WorkerPickKeeps(c: Config, s: State, id: RequestId)
    requires Inv(c, s)
    ensures Inv(c, WorkerPickStep(s, id))
  {
    WorkerPickThreads(c, s, id);
    MarkKeeps(c, s, WorkerPickStep(s, id));
  }

  lemma WorkerMarkKeeps(c: Config, s: State)
    requires Inv(c, s)
    ensures Inv(c, WorkerMarkStep(c, s))
  {
    hide ThreadsOk, DbOk, CommitsOk;
    WorkerMarkThreads(c, s);
    MarkKeeps(c, s, WorkerMarkStep(c, s));
  }

  lemma ApproveAttemptKeeps(c: Config, s: State, id: RequestId, conditions: Conditions)
    requires Inv(c, s)
    ensures Inv(c, ApproveAttemptStep(c, s, id, conditions))
  {
    ApproveAttemptThreads(c, s, id, conditions);
    if id in s.approvals {
      AttemptKeepsCommits(s.db, s.hcm, id, s.approvals[id].row.key, s.approvals[id].row.days, conditions);
    }
  }

  lemma WorkerAttemptKeeps(c: Config, s: State, conditions: Conditions)
    requires Inv(c, s)
    ensures Inv(c, WorkerAttemptStep(c, s, conditions))
  {
    WorkerAttemptThreads(c, s, conditions);
    if s.worker.Working? {
      var payload := s.worker.row.payload;
      AttemptKeepsCommits(s.db, s.hcm, s.worker.id, payload.key, payload.days, conditions);
    }
  }

  lemma MarkKeeps(c: Config, s: State, after: State)
    requires Inv(c, s) && ThreadsOk(c, after)
    requires after.hcm == s.hcm && after.db == s.db.(outbox := after.db.outbox)
    ensures Inv(c, after)
  {
    DbIgnoresOutbox(s.db, after.db);
    CommitsIgnoreOutbox(s.db, after.db, s.hcm);
  }

  lemma CreateKeeps(c: Config, s: State, key: Key, days: int, createdAt: int, clientKey: Option<string>)
    requires Inv(c, s)
    ensures Inv(c, s.(db := After(s.db, CreateTx(s.db, key, days, createdAt, clientKey))))
  {
    CreateKeepsDb(s.db, key, days, createdAt, clientKey);
    CreateThreads(c, s, key, days, createdAt, clientKey);
  }

  lemma ApproveKeeps(c: Config, s: State, id: RequestId)
    requires Inv(c, s)
    ensures Inv(c, ApproveStep(s, id))
  {
    ApproveKeepsDb(s.db, id);
    ApproveThreads(c, s, id);
  }

  lemma ApproveFinishKeeps(c: Config, s: State, id: RequestId)
    requires Inv(c, s)
    ensures Inv(c, ApproveFinishStep(s, id))
  {
    ApproveFinishKeepsDb(c, s, id);
    ApproveFinishThreads(c, s, id);
  }

  lemma WithdrawKeeps(c: Config, s: State, id: RequestId, to: Status)
    requires Inv(c, s) && (to == Rejected || to == Cancelled)
    ensures Inv(c, s.(db := After(s.db, WithdrawTx(s.db, id, to))))
  {
    WithdrawKeepsDb(s.db, id, to);
    WithdrawThreads(c, s, id, to);
  }

  lemma PushKeeps(c: Config, s: State, key: Key, absolute: int, listing: seq<RequestId>)
    requires Inv(c, s) && IsListing(s.db.requests, key, listing)
    ensures Inv(c, s.(db := PushTx(s.db, key, absolute, listing).db))
  {
    PushKeepsDb(s.db, key, absolute, listing);
    PushThreads(c, s, key, absolute, listing);
  }

  lemma RefreshKeeps(c: Config, s: State, key: Key, absolute: int)
    requires Inv(c, s)
    ensures Inv(c, s.(db := After(s.db, RefreshTx(s.db, key, absolute))))
  {
    RefreshKeepsDb(s.db, key, absolute);
    RefreshThreads(c, s, key, absolute);
  }

  lemma StepKeeps(c: Config, s: State, e: Event)
    requires Inv(c, s)
    ensures Inv(c, Next(c, s, e))
  {
    hide Inv;
    match e
    case Create(key, days, createdAt, clientKey) => CreateKeeps(c, s, key, days, createdAt, clientKey);
    case ApproveBegin(id) => ApproveKeeps(c, s, id);
    case ApproveAttempt(id, conditions) => ApproveAttemptKeeps(c, s, id, conditions);
    case ApproveCircuitOpen(id) => CircuitKeeps(c, s, id);
    case ApproveFinish(id) => ApproveFinishKeeps(c, s, id);
    case Reject(id) => WithdrawKeeps(c, s, id, Rejected);
    case Cancel(id) => WithdrawKeeps(c, s, id, Cancelled);
    case Push(key, absolute, listing) =>
      if IsListing(s.db.requests, key, listing) {
        PushKeeps(c, s, key, absolute, listing);
      }
    case Refresh(key, absolute) => RefreshKeeps(c, s, key, absolute);
    case WorkerPick(id) => WorkerPickKeeps(c, s, id);
    case WorkerAttempt(conditions) => WorkerAttemptKeeps(c, s, conditions);
    case WorkerCircuitOpen => CircuitKeeps(c, s, 0);
    case WorkerSettle => WorkerSettleKeeps(c, s);
    case WorkerMark => WorkerMarkKeeps(c, s);
    case HcmWrite(key, balance) => HcmWriteKeeps(c, s, key, balance);
  }

  lemma {:induction false} RunKeeps(c: Config, s: State, events: seq<Event>)
    requires Inv(c, s)
    ensures Inv(c, Run(c, s, events))
  {
    if events != [] {
      RunKeeps(c, s, events[..|events| - 1]);
      StepKeeps(c, Run(c, s, events[..|events| - 1]), events[|events| - 1]);
    }
  }

  lemma InitialInv(c: Config)
    ensures Inv(c, INITIAL)
  {
  }
}
