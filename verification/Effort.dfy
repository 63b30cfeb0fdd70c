/** How often one request can make the service call HCM, and its outbox row be processed. */
module Effort {
  import opened Wrappers
  import opened Lifecycle
  import opened Tables
  import opened Flagging
  import opened Transactions
  import opened System
  import opened Invariant
  import opened InvariantSteps

  /** The step is an HCM debit attempt for the request. */
  predicate CallsHcm(s: State, e: Event, id: RequestId) {
    || (e.ApproveAttempt? && e.id == id && id in s.approvals && s.approvals[id].phase.Calling?)
    || (e.WorkerAttempt? && s.worker.Working? && s.worker.id == id && s.worker.phase.Calling?)
  }

  /** The step makes the worker take the request's outbox row. */
  predicate Picks(s: State, e: Event, id: RequestId) {
    e == WorkerPick(id) && s.worker.Idle? && id in s.db.outbox && s.db.outbox[id].status == Queued
  }

  ghost function HcmCalls(c: Config, s: State, events: seq<Event>, id: RequestId): nat {
    if events == [] then
      0
    else
      var init := events[..|events| - 1];
      HcmCalls(c, s, init, id) + if CallsHcm(Run(c, s, init), events[|events| - 1], id) then 1 else 0
  }

  ghost function TimesPicked(c: Config, s: State, events: seq<Event>, id: RequestId): nat {
    if events == [] then
      0
    else
      var init := events[..|events| - 1];
      TimesPicked(c, s, init, id) + if Picks(Run(c, s, init), events[|events| - 1], id) then 1 else 0
  }

  /** How often the outbox row, present or to come, can still be picked. */
  function PicksLeft(c: Config, s: State, id: RequestId): int {
    if id in s.db.outbox then
      var row := s.db.outbox[id];
      match row.status
      case Queued => c.maxAttempts - row.attempts
      case Processing => c.maxAttempts - row.attempts - 1
      case Done => 0
      case Dead => 0
    else if id >= |s.db.requests| || s.db.requests[id].status == Pending || id in s.approvals then
      c.maxAttempts
    else
      0
  }

  /** The retry loops that can still be entered: one for the approve call, one for each pick. */
  function LoopsLeft(c: Config, s: State, id: RequestId): int {
    PicksLeft(c, s, id) +
    if id !in s.db.outbox && (id >= |s.db.requests| || s.db.requests[id].status == Pending) then 1 else 0
  }

  /** The attempts left in the retry loop that is running for the request. */
  function AttemptsLeft(c: Config, s: State, id: RequestId): int {
    if id in s.approvals && s.approvals[id].phase.Calling? then
      c.maxRetries - s.approvals[id].phase.made
    else if s.worker.Working? && s.worker.id == id && s.worker.phase.Calling? then
      c.maxRetries - s.worker.phase.made
    else
      0
  }

  lemma StepEffort(c: Config, s: State, e: Event, id: RequestId)
    requires ThreadsOk(c, s) && c.maxRetries >= 1 && c.maxAttempts >= 1
    ensures PicksLeft(c, s, id) >= 0 && AttemptsLeft(c, s, id) >= 0
    ensures PicksLeft(c, Next(c, s, e), id) + (if Picks(s, e, id) then 1 else 0) <= PicksLeft(c, s, id)
    ensures var after := Next(c, s, e);
            var called := if CallsHcm(s, e, id) then 1 else 0;
            || (LoopsLeft(c, after, id) <= LoopsLeft(c, s, id) &&
                AttemptsLeft(c, after, id) + called <= AttemptsLeft(c, s, id))
            || (LoopsLeft(c, after, id) <= LoopsLeft(c, s, id) - 1 && called == 0 &&
                AttemptsLeft(c, after, id) <= c.maxRetries)
  {
    if e.ApproveFinish? {
      FinishEffort(c, s, e.id, id);
    } else if e.WorkerSettle? {
      SettleEffort(c, s, id);
    } else if e.Push? {
      PushEffort(c, s, e, id);
    } else if WritesTables(e) {
      TableStepEffort(c, s, e, id);
    } else if e.ApproveAttempt? || e.WorkerAttempt? {
      AttemptEffort(c, s, e, id);
    } else if e.WorkerPick? {
      PickEffort(c, s, e.id, id);
    } else {
      OtherStepEffort(c, s, e, id);
    }
  }

  /** Neither measure grows, and no call or pick happens. */
  ghost predicate NoEffort(c: Config, s: State, after: State, id: RequestId) {
    && PicksLeft(c, s, id) >= 0 && AttemptsLeft(c, s, id) >= 0
    && PicksLeft(c, after, id) <= PicksLeft(c, s, id)
    && LoopsLeft(c, after, id) <= LoopsLeft(c, s, id)
    && AttemptsLeft(c, after, id) <= AttemptsLeft(c, s, id)
  }

  lemma FinishEffort(c: Config, s: State, closed: RequestId, id: RequestId)
    requires ThreadsOk(c, s) && c.maxRetries >= 1 && c.maxAttempts >= 1
    ensures NoEffort(c, s, ApproveFinishStep(s, closed), id)
  {
    if closed in s.approvals {
      FinishShape(c, s, closed);
    }
  }

  /** What closing a call does to the places that the measures look at. */
  lemma FinishShape(c: Config, s: State, closed: RequestId)
    requires ThreadsOk(c, s) && closed in s.approvals
    ensures var after := ApproveFinishStep(s, closed);
            && |after.db.requests| == |s.db.requests|
            && after.db.requests[closed].status != Pending
            && (forall i: nat | i < |s.db.requests| && i != closed :: after.db.requests[i] == s.db.requests[i])
            && (after.approvals == s.approvals ||
                (!s.approvals[closed].phase.Calling? && after.approvals == s.approvals - {closed}))
            && (after.db.outbox == s.db.outbox ||
                exists row: OutboxRow :: row.status == Queued && row.attempts == 0 &&
                                         after.db.outbox == s.db.outbox[closed := row])
            && after.worker == s.worker
  {
    hide HcmOk, OutboxOk, WorkerOk;
    var after := ApproveFinishStep(s, closed);
    if after.db.outbox != s.db.outbox {
      assert after.db.outbox[closed].status == Queued;
    }
  }

  lemma SettleEffort(c: Config, s: State, id: RequestId)
    requires ThreadsOk(c, s) && c.maxRetries >= 1 && c.maxAttempts >= 1
    ensures NoEffort(c, s, WorkerSettleStep(s), id)
  {
    MeasuresStart(c, s, id);
    SettleOpensNone(s);
    hide ThreadsOk, WorkerSettleStep;
    OpensNone(c, s, WorkerSettleStep(s), id);
  }

  lemma SettleOpensNone(s: State)
    ensures var after := WorkerSettleStep(s);
            && after.approvals == s.approvals && after.db.outbox == s.db.outbox
            && (after.worker == s.worker || (after.worker.Working? && !after.worker.phase.Calling?))
            && |after.db.requests| == |s.db.requests|
            && forall i: nat | i < |s.db.requests| ::
                 after.db.requests[i].status == Pending ==> s.db.requests[i].status == Pending
  {
  }

  lemma PushEffort(c: Config, s: State, e: Event, id: RequestId)
    requires ThreadsOk(c, s) && c.maxRetries >= 1 && c.maxAttempts >= 1 && e.Push?
    ensures NoEffort(c, s, Next(c, s, e), id)
  {
    MeasuresStart(c, s, id);
    PushOpensNone(c, s, e);
    hide ThreadsOk, Next;
    OpensNone(c, s, Next(c, s, e), id);
  }

  /** The measures look at the calls, the rows and which requests are PENDING. */
  lemma OpensNone(c: Config, s: State, after: State, id: RequestId)
    requires PicksLeft(c, s, id) >= 0 && AttemptsLeft(c, s, id) >= 0 && c.maxAttempts >= 1
    requires after.approvals == s.approvals && after.db.outbox == s.db.outbox
    requires after.worker == s.worker || (after.worker.Working? && !after.worker.phase.Calling?)
    requires |after.db.requests| == |s.db.requests|
    requires id < |s.db.requests| && after.db.requests[id].status == Pending ==> s.db.requests[id].status == Pending
    ensures NoEffort(c, s, after, id)
  {
  }

  lemma PushOpensNone(c: Config, s: State, e: Event)
    requires e.Push?
    ensures var after := Next(c, s, e);
              && after == s.(db := after.db) && after.db.outbox == s.db.outbox
              && |after.db.requests| == |s.db.requests|
              && forall i: nat | i < |s.db.requests| ::
                   after.db.requests[i].status == Pending ==> s.db.requests[i].status == Pending
  {
    hide Flagged, IsListing;
  }

  lemma TableStepEffort(c: Config, s: State, e: Event, id: RequestId)
    requires ThreadsOk(c, s) && c.maxRetries >= 1 && c.maxAttempts >= 1
    requires e.Create? || e.ApproveBegin? || e.Reject? || e.Cancel? || e.Refresh?
    ensures var after := Next(c, s, e);
            || NoEffort(c, s, after, id)
            || (&& PicksLeft(c, s, id) >= 0 && AttemptsLeft(c, s, id) >= 0
                && PicksLeft(c, after, id) <= PicksLeft(c, s, id)
                && LoopsLeft(c, after, id) <= LoopsLeft(c, s, id) - 1
                && AttemptsLeft(c, after, id) <= c.maxRetries)
  {
    hide NoEffort, PicksLeft, LoopsLeft, AttemptsLeft;
    match e {
      case ApproveBegin(approved) => BeginEffort(c, s, approved, id);
      case Create(key, days, createdAt, clientKey) => CreateEffort(c, s, key, days, createdAt, clientKey, id);
      case Reject(rejected) => WithdrawEffort(c, s, rejected, Rejected, id);
      case Cancel(cancelled) => WithdrawEffort(c, s, cancelled, Cancelled, id);
      case Refresh(key, absolute) => RefreshEffort(c, s, key, absolute, id);
    }
  }

  lemma BeginEffort(c: Config, s: State, approved: RequestId, id: RequestId)
    requires ThreadsOk(c, s) && c.maxRetries >= 1 && c.maxAttempts >= 1
    ensures var after := ApproveStep(s, approved);
            || NoEffort(c, s, after, id)
            || (&& PicksLeft(c, s, id) >= 0 && AttemptsLeft(c, s, id) >= 0
                && PicksLeft(c, after, id) <= PicksLeft(c, s, id)
                && LoopsLeft(c, after, id) <= LoopsLeft(c, s, id) - 1
                && AttemptsLeft(c, after, id) <= c.maxRetries)
  {
    hide HcmOk;
  }

  lemma CreateEffort(c: Config, s: State, key: Key, days: int, createdAt: int, clientKey: Option<string>,
                     id: RequestId)
    requires ThreadsOk(c, s) && c.maxRetries >= 1 && c.maxAttempts >= 1
    ensures NoEffort(c, s, s.(db := After(s.db, CreateTx(s.db, key, days, createdAt, clientKey))), id)
  {
    hide HcmOk, KeyTaken;
  }

  lemma WithdrawEffort(c: Config, s: State, withdrawn: RequestId, to: Status, id: RequestId)
    requires ThreadsOk(c, s) && c.maxRetries >= 1 && c.maxAttempts >= 1 && (to == Rejected || to == Cancelled)
    ensures NoEffort(c, s, s.(db := After(s.db, WithdrawTx(s.db, withdrawn, to))), id)
  {
    hide HcmOk;
  }

  lemma RefreshEffort(c: Config, s: State, key: Key, absolute: int, id: RequestId)
    requires ThreadsOk(c, s) && c.maxRetries >= 1 && c.maxAttempts >= 1
    ensures NoEffort(c, s, s.(db := After(s.db, RefreshTx(s.db, key, absolute))), id)
  {
    hide HcmOk;
  }

  lemma AttemptEffort(c: Config, s: State, e: Event, id: RequestId)
    requires ThreadsOk(c, s) && c.maxRetries >= 1 && c.maxAttempts >= 1
    requires e.ApproveAttempt? || e.WorkerAttempt?
    ensures var after := Next(c, s, e);
            var called := if CallsHcm(s, e, id) then 1 else 0;
            && PicksLeft(c, s, id) >= 0 && AttemptsLeft(c, s, id) >= 0
            && PicksLeft(c, after, id) <= PicksLeft(c, s, id)
            && LoopsLeft(c, after, id) <= LoopsLeft(c, s, id)
            && AttemptsLeft(c, after, id) + called <= AttemptsLeft(c, s, id)
  {
  }

  /** A loop may begin, at the cost of one of the loops left. */
  ghost predicate BeginsLoop(c: Config, s: State, after: State, id: RequestId) {
    LoopsLeft(c, after, id) <= LoopsLeft(c, s, id) - 1 && AttemptsLeft(c, after, id) <= c.maxRetries
  }

  lemma PickEffort(c: Config, s: State, picked: RequestId, id: RequestId)
    requires ThreadsOk(c, s) && c.maxRetries >= 1 && c.maxAttempts >= 1
    ensures var after := WorkerPickStep(s, picked);
            && PicksLeft(c, s, id) >= 0 && AttemptsLeft(c, s, id) >= 0
            && PicksLeft(c, after, id) + (if Picks(s, WorkerPick(picked), id) then 1 else 0) <=
               PicksLeft(c, s, id)
            && (NoEffort(c, s, after, id) || BeginsLoop(c, s, after, id))
  {
  }

  lemma OtherStepEffort(c: Config, s: State, e: Event, id: RequestId)
    requires ThreadsOk(c, s) && c.maxRetries >= 1 && c.maxAttempts >= 1
    requires !WritesTables(e) && !e.ApproveAttempt? && !e.WorkerAttempt? && !e.WorkerPick?
    ensures NoEffort(c, s, Next(c, s, e), id)
    ensures 0 <= PicksLeft(c, Next(c, s, e), id) <= PicksLeft(c, s, id) && AttemptsLeft(c, s, id) >= 0
  {
    hide PicksLeft, LoopsLeft, AttemptsLeft;
    if e.WorkerMark? {
      MarkEffort(c, s, id);
    } else {
      CircuitEffort(c, s, e, id);
    }
  }

  lemma MarkEffort(c: Config, s: State, id: RequestId)
    requires ThreadsOk(c, s) && c.maxRetries >= 1 && c.maxAttempts >= 1
    ensures NoEffort(c, s, WorkerMarkStep(c, s), id) && 0 <= PicksLeft(c, WorkerMarkStep(c, s), id)
  {
    hide HcmOk;
  }

  lemma CircuitEffort(c: Config, s: State, e: Event, id: RequestId)
    requires ThreadsOk(c, s) && c.maxRetries >= 1 && c.maxAttempts >= 1
    requires e.ApproveCircuitOpen? || e.WorkerCircuitOpen? || e.HcmWrite?
    ensures NoEffort(c, s, Next(c, s, e), id) && 0 <= PicksLeft(c, Next(c, s, e), id)
  {
    MeasuresStart(c, s, id);
    hide HcmOk, OutboxOk;
    match e
    case ApproveCircuitOpen(called) =>
    case WorkerCircuitOpen => hide CallsOk;
    case HcmWrite(_, _) => hide CallsOk, WorkerOk;
  }

  lemma MeasuresStart(c: Config, s: State, id: RequestId)
    requires ThreadsOk(c, s) && c.maxRetries >= 1 && c.maxAttempts >= 1
    ensures PicksLeft(c, s, id) >= 0 && AttemptsLeft(c, s, id) >= 0
  {
    hide HcmOk;
  }

  /** The worker takes an outbox row at most maxAttempts times. */
  lemma {:induction false} RowPickedAtMost(c: Config, events: seq<Event>, id: RequestId)
    requires c.maxRetries >= 1 && c.maxAttempts >= 1
    ensures var final := Run(c, INITIAL, events);
            TimesPicked(c, INITIAL, events, id) + PicksLeft(c, final, id) <= c.maxAttempts
    ensures TimesPicked(c, INITIAL, events, id) <= c.maxAttempts
  {
    InitialInv(c);
    RunKeeps(c, INITIAL, events);
    StepEffort(c, Run(c, INITIAL, events), WorkerCircuitOpen, id);
    if events != [] {
      var init := events[..|events| - 1];
      RunKeeps(c, INITIAL, init);
      RowPickedAtMost(c, init, id);
      StepEffort(c, Run(c, INITIAL, init), events[|events| - 1], id);
    }
  }

  lemma FewerLoops(retries: int, fewer: int, loops: int)
    requires retries >= 0 && fewer <= loops
    ensures retries * fewer <= retries * loops
    ensures fewer <= loops - 1 ==> retries * fewer + retries <= retries * loops
  {
    if fewer <= loops - 1 {
      assert retries * (loops - 1) == retries * loops - retries;
      assert retries * (loops - 1 - fewer) >= 0;
    } else {
      assert fewer == loops;
    }
  }

  /** Over its whole life a request makes the service call HCM maxRetries (1 + maxAttempts) times at most. */
  lemma {:induction false} HcmCalledAtMost(c: Config, events: seq<Event>, id: RequestId)
    requires c.maxRetries >= 1 && c.maxAttempts >= 1
    ensures var final := Run(c, INITIAL, events);
            HcmCalls(c, INITIAL, events, id) + c.maxRetries * LoopsLeft(c, final, id)
            + AttemptsLeft(c, final, id) <= c.maxRetries * (1 + c.maxAttempts)
    ensures HcmCalls(c, INITIAL, events, id) <= c.maxRetries * (1 + c.maxAttempts)
  {
    InitialInv(c);
    RunKeeps(c, INITIAL, events);
    var final := Run(c, INITIAL, events);
    StepEffort(c, final, WorkerCircuitOpen, id);
    FewerLoops(c.maxRetries, 0, LoopsLeft(c, final, id));
    if events != [] {
      var init := events[..|events| - 1];
      RunKeeps(c, INITIAL, init);
      HcmCalledAtMost(c, init, id);
      var before := Run(c, INITIAL, init);
      StepEffort(c, before, events[|events| - 1], id);
      FewerLoops(c.maxRetries, LoopsLeft(c, final, id), LoopsLeft(c, before, id));
    }
  }
}
