/** The HCM client's retry loop and the outbox service, with the events they stand for. */
module Delivery {
  import opened Sums
  import opened Tables
  import opened Transactions
  import opened Hcm
  import opened System
  import opened Stores
  import CB = CircuitBreaker

  /**
   * A debit call that has made `made` attempts, carried to its end: HCM afterwards and where
   * the call stands. `script` says how each attempt fares.
   */
  function Attempts(c: Config, hcm: HcmState, id: RequestId, key: Key, days: int, script: nat -> Conditions, made: nat)
    : (HcmState, Phase)
    requires made < c.maxRetries
    decreases c.maxRetries - made
  {
    var (next, answer) := Attempt(hcm, id, key, days, script(made));
    var phase := Advance(c, made, answer);
    if phase.Calling? then Attempts(c, next, id, key, days, script, made + 1) else (next, phase)
  }

  /** The same attempts as events of the step system. */
  function Calls(c: Config, hcm: HcmState, id: RequestId, key: Key, days: int, script: nat -> Conditions, made: nat,
                 byWorker: bool)
    : seq<Event>
    requires made < c.maxRetries
    decreases c.maxRetries - made
  {
    var (next, answer) := Attempt(hcm, id, key, days, script(made));
    var call := if byWorker then WorkerAttempt(script(made)) else ApproveAttempt(id, script(made));
    [call] + if Advance(c, made, answer).Calling?
             then Calls(c, next, id, key, days, script, made + 1, byWorker)
             else []
  }

  /** A call makes at least one attempt, stops at the limit, and gives up only there. */
  lemma {:induction false} CallsWithinRetries(
    c: Config, hcm: HcmState, id: RequestId, key: Key, days: int, script: nat -> Conditions, made: nat, byWorker: bool)
    requires made < c.maxRetries
    ensures var calls := |Calls(c, hcm, id, key, days, script, made, byWorker)|;
            && 1 <= calls <= c.maxRetries - made
            && (Attempts(c, hcm, id, key, days, script, made).1.GaveUp? ==> calls == c.maxRetries - made)
    decreases c.maxRetries - made
  {
    var (next, answer) := Attempt(hcm, id, key, days, script(made));
    if Advance(c, made, answer).Calling? {
      CallsWithinRetries(c, next, id, key, days, script, made + 1, byWorker);
    }
  }

  // ---------- how a debit call ends ----------

  /** HCM after the first `n` attempts of a call. */
  function HcmAfter(hcm: HcmState, id: RequestId, key: Key, days: int, script: nat -> Conditions, n: nat): HcmState {
    if n == 0 then hcm else Attempt(HcmAfter(hcm, id, key, days, script, n - 1), id, key, days, script(n - 1)).0
  }

  /** What attempt `n` is answered, when all before it have been made. */
  function AnswerTo(hcm: HcmState, id: RequestId, key: Key, days: int, script: nat -> Conditions, n: nat): Answer {
    Attempt(HcmAfter(hcm, id, key, days, script, n), id, key, days, script(n)).1
  }

  /** The phase says what the answer that ended the call was. */
  predicate EndsOn(phase: Phase, answer: Answer) {
    match answer
    case Acknowledged(commitId) => phase == Acked(commitId)
    case Refused(code) => phase == TurnedDown(code)
    case Retryable => phase == GaveUp
  }

  lemma {:induction false} CallEndsFrom(
    c: Config, hcm: HcmState, id: RequestId, key: Key, days: int, script: nat -> Conditions, made: nat)
    requires made < c.maxRetries
    ensures exists last: nat ::
              && made <= last < c.maxRetries
              && (forall n: nat | made <= n < last :: AnswerTo(hcm, id, key, days, script, n) == Retryable)
              && (AnswerTo(hcm, id, key, days, script, last) == Retryable ==> last == c.maxRetries - 1)
              && var (after, phase) :=
                   Attempts(c, HcmAfter(hcm, id, key, days, script, made), id, key, days, script, made);
                 && after == HcmAfter(hcm, id, key, days, script, last + 1)
                 && EndsOn(phase, AnswerTo(hcm, id, key, days, script, last))
    decreases c.maxRetries - made
  {
    hide Attempt;
    var answer := AnswerTo(hcm, id, key, days, script, made);
    if Advance(c, made, answer).Calling? {
      CallEndsFrom(c, hcm, id, key, days, script, made + 1);
      var last: nat :|
        && made + 1 <= last < c.maxRetries
        && (forall n: nat | made + 1 <= n < last :: AnswerTo(hcm, id, key, days, script, n) == Retryable)
        && (AnswerTo(hcm, id, key, days, script, last) == Retryable ==> last == c.maxRetries - 1)
        && var (after, phase) :=
             Attempts(c, HcmAfter(hcm, id, key, days, script, made + 1), id, key, days, script, made + 1);
           && after == HcmAfter(hcm, id, key, days, script, last + 1)
           && EndsOn(phase, AnswerTo(hcm, id, key, days, script, last));
      assert forall n: nat | made <= n < last :: AnswerTo(hcm, id, key, days, script, n) == Retryable;
    } else {
      assert HcmAfter(hcm, id, key, days, script, made + 1) ==
             Attempt(HcmAfter(hcm, id, key, days, script, made), id, key, days, script(made)).0;
    }
  }

  /**
   * A debit call ends on the first attempt that is not answered retryably, with that answer as
   * its outcome; when there is none, it gives up after the last attempt that is allowed.
   */
  lemma DebitCallEnds(c: Config, hcm: HcmState, id: RequestId, key: Key, days: int, script: nat -> Conditions)
    requires c.maxRetries >= 1
    ensures exists last: nat ::
              && last < c.maxRetries
              && (forall n: nat | n < last :: AnswerTo(hcm, id, key, days, script, n) == Retryable)
              && (AnswerTo(hcm, id, key, days, script, last) == Retryable ==> last == c.maxRetries - 1)
              && var (after, phase) := Attempts(c, hcm, id, key, days, script, 0);
                 && after == HcmAfter(hcm, id, key, days, script, last + 1)
                 && EndsOn(phase, AnswerTo(hcm, id, key, days, script, last))
  {
    hide Attempts, AnswerTo;
    CallEndsFrom(c, hcm, id, key, days, script, 0);
  }

  /**
   * HCM has less than the debit asks for, and no scenario is forced: however many attempts are
   * lost on the way, nothing is taken, and the call is refused for lack of balance as soon as
   * an attempt is answered.
   */
  lemma {:induction false} ShortBalanceIsRefused(
    c: Config, hcm: HcmState, id: RequestId, key: Key, days: int, script: nat -> Conditions, made: nat)
    requires made < c.maxRetries && days > 0 && id !in hcm.debits && key in hcm.balances && hcm.balances[key] < days
    requires forall n: nat :: script(n).mode == Normal
    ensures var (after, phase) := Attempts(c, hcm, id, key, days, script, made);
            && after == hcm
            && phase == (if exists n: nat :: made <= n < c.maxRetries && script(n).wire == Delivered
                         then TurnedDown(InsufficientAtHcm) else GaveUp)
    decreases c.maxRetries - made
  {
    if script(made).wire != Delivered && made + 1 < c.maxRetries {
      ShortBalanceIsRefused(c, hcm, id, key, days, script, made + 1);
    }
  }

  // ---------- runs ----------

  lemma {:induction false} RunConcat(c: Config, s: State, first: seq<Event>, second: seq<Event>)
    ensures Run(c, s, first + second) == Run(c, Run(c, s, first), second)
  {
    hide Next;
    if second == [] {
      assert first + second == first;
    } else {
      var events, last := first + second, |second| - 1;
      assert events[..|events| - 1] == first + second[..last];
      RunConcat(c, s, first, second[..last]);
    }
  }

  /** A run goes on by one step. */
  lemma RunOn(c: Config, s: State, events: seq<Event>, e: Event)
    ensures Run(c, s, events + [e]) == Next(c, Run(c, s, events), e)
  {
    hide Next;
    assert (events + [e])[..|events|] == events;
  }

  lemma RunFrom(c: Config, s: State, e: Event, rest: seq<Event>)
    ensures Run(c, s, [e] + rest) == Run(c, Next(c, s, e), rest)
  {
    hide Next;
    RunConcat(c, s, [e], rest);
    RunOn(c, s, [], e);
    assert [] + [e] == [e];
  }

  /** The retry loop of the worker is a run of attempts by the worker. */
  lemma {:induction false} WorkerCallsRun(c: Config, s: State, script: nat -> Conditions, made: nat)
    requires s.worker.Working? && s.worker.phase == Calling(made) && made < c.maxRetries
    ensures var id, payload := s.worker.id, s.worker.row.payload;
            var (hcm, phase) := Attempts(c, s.hcm, id, payload.key, payload.days, script, made);
            Run(c, s, Calls(c, s.hcm, id, payload.key, payload.days, script, made, true)) ==
            s.(hcm := hcm, worker := s.worker.(phase := phase))
    decreases c.maxRetries - made
  {
    var id, payload := s.worker.id, s.worker.row.payload;
    var e := WorkerAttempt(script(made));
    var after := Next(c, s, e);
    if after.worker.phase.Calling? {
      WorkerCallsRun(c, after, script, made + 1);
      RunFrom(c, s, e, Calls(c, after.hcm, id, payload.key, payload.days, script, made + 1, true));
    } else {
      RunFrom(c, s, e, []);
    }
  }

  /** The retry loop of an approve call is a run of attempts by that call. */
  lemma {:induction false} ApproveCallsRun(c: Config, s: State, id: RequestId, script: nat -> Conditions, made: nat)
    requires id in s.approvals && s.approvals[id].phase == Calling(made) && made < c.maxRetries
    ensures var row := s.approvals[id].row;
            var (hcm, phase) := Attempts(c, s.hcm, id, row.key, row.days, script, made);
            Run(c, s, Calls(c, s.hcm, id, row.key, row.days, script, made, false)) ==
            s.(hcm := hcm, approvals := s.approvals[id := ApproveCall(row, phase)])
    decreases c.maxRetries - made
  {
    var row := s.approvals[id].row;
    var e := ApproveAttempt(id, script(made));
    var after := Next(c, s, e);
    if after.approvals[id].phase.Calling? {
      ApproveCallsRun(c, after, id, script, made + 1);
      RunFrom(c, s, e, Calls(c, after.hcm, id, row.key, row.days, script, made + 1, false));
    } else {
      RunFrom(c, s, e, []);
    }
  }

  /** The events of a debit call, from the approval or from the worker. */
  ghost function DebitEvents(c: Config, hcm: HcmState, id: RequestId, key: Key, days: int, circuitOpen: bool,
                             script: nat -> Conditions, byWorker: bool): seq<Event>
    requires c.maxRetries >= 1
  {
    if circuitOpen then
      [if byWorker then WorkerCircuitOpen else ApproveCircuitOpen(id)]
    else
      Calls(c, hcm, id, key, days, script, 0, byWorker)
  }

  /** What a debit call comes to. */
  ghost function Debited(c: Config, hcm: HcmState, id: RequestId, key: Key, days: int, circuitOpen: bool,
                         script: nat -> Conditions): (HcmState, Phase)
    requires c.maxRetries >= 1
  {
    if circuitOpen then (hcm, GaveUp) else Attempts(c, hcm, id, key, days, script, 0)
  }

  /** The events of an approve call that nothing else interrupts. */
  ghost function ApproveEvents(c: Config, s: State, id: RequestId, circuitOpen: bool, script: nat -> Conditions)
    : seq<Event>
    requires c.maxRetries >= 1
  {
    match ApproveTx(s.db, id)
    case Failure(_) => [ApproveBegin(id)]
    case Success(db) =>
      var row := db.requests[id];
      [ApproveBegin(id)] + DebitEvents(c, s.hcm, id, row.key, row.days, circuitOpen, script, false) +
      [ApproveFinish(id)]
  }

  lemma ApproveDebitRun(c: Config, s: State, id: RequestId, circuitOpen: bool, script: nat -> Conditions)
    requires c.maxRetries >= 1 && id in s.approvals && s.approvals[id].phase == Calling(0)
    ensures var row := s.approvals[id].row;
            var (hcm, phase) := Debited(c, s.hcm, id, row.key, row.days, circuitOpen, script);
            Run(c, s, DebitEvents(c, s.hcm, id, row.key, row.days, circuitOpen, script, false)) ==
            s.(hcm := hcm, approvals := s.approvals[id := ApproveCall(row, phase)])
  {
    if circuitOpen {
      RunOn(c, s, [], ApproveCircuitOpen(id));
      assert [] + [ApproveCircuitOpen(id)] == [ApproveCircuitOpen(id)];
    } else {
      ApproveCallsRun(c, s, id, script, 0);
    }
  }

  /** Where an approve call stands when its debit call is over. */
  ghost function ApprovalOver(c: Config, s: State, id: RequestId, circuitOpen: bool, script: nat -> Conditions): State
    requires c.maxRetries >= 1 && ApproveTx(s.db, id).Success?
  {
    var db := ApproveTx(s.db, id).value;
    var row := db.requests[id];
    var (hcm, phase) := Debited(c, s.hcm, id, row.key, row.days, circuitOpen, script);
    State(db, hcm, s.approvals[id := ApproveCall(row, phase)], s.worker)
  }

  lemma ApproveRun(c: Config, s: State, id: RequestId, circuitOpen: bool, script: nat -> Conditions)
    requires c.maxRetries >= 1
    ensures Run(c, s, ApproveEvents(c, s, id, circuitOpen, script)) ==
            if ApproveTx(s.db, id).Success?
            then ApproveFinishStep(ApprovalOver(c, s, id, circuitOpen, script), id)
            else s
  {
    hide DebitEvents, Debited, ApproveFinishStep;
    RunOn(c, s, [], ApproveBegin(id));
    assert [] + [ApproveBegin(id)] == [ApproveBegin(id)];
    if ApproveTx(s.db, id).Success? {
      var begun := Run(c, s, [ApproveBegin(id)]);
      var row := begun.db.requests[id];
      var calls := DebitEvents(c, s.hcm, id, row.key, row.days, circuitOpen, script, false);
      ApproveDebitRun(c, begun, id, circuitOpen, script);
      RunConcat(c, s, [ApproveBegin(id)], calls);
      RunOn(c, s, [ApproveBegin(id)] + calls, ApproveFinish(id));
      assert Run(c, s, [ApproveBegin(id)] + calls).approvals ==
             ApprovalOver(c, s, id, circuitOpen, script).approvals;
    }
  }

  lemma WorkerDebitRun(c: Config, s: State, circuitOpen: bool, script: nat -> Conditions)
    requires c.maxRetries >= 1 && s.worker.Working? && s.worker.phase == Calling(0)
    ensures var id, payload := s.worker.id, s.worker.row.payload;
            var (hcm, phase) := Debited(c, s.hcm, id, payload.key, payload.days, circuitOpen, script);
            Run(c, s, DebitEvents(c, s.hcm, id, payload.key, payload.days, circuitOpen, script, true)) ==
            s.(hcm := hcm, worker := s.worker.(phase := phase))
  {
    if circuitOpen {
      RunOn(c, s, [], WorkerCircuitOpen);
      assert [] + [WorkerCircuitOpen] == [WorkerCircuitOpen];
    } else {
      WorkerCallsRun(c, s, script, 0);
    }
  }

  /** What the breaker learns from a debit call that it let through. */
  function Lesson(phase: Phase, at: int): CB.Event
    requires phase.Acked? || phase.TurnedDown? || phase.GaveUp?
  {
    match phase
    case Acked(_) => CB.Succeeded
    case TurnedDown(InvalidDimension) => CB.Event.Failed(CB.HcmError(CB.InvalidDimensionCode, false), at)
    case TurnedDown(InsufficientAtHcm) => CB.Event.Failed(CB.HcmError(CB.InsufficientBalanceCode, false), at)
    case GaveUp => CB.Event.Failed(CB.HcmError(CB.UpstreamError, true), at)
  }

  /** A row that is queued and whose time has come. */
  predicate IsDue(outbox: map<RequestId, OutboxRow>, nextAttemptAt: map<RequestId, int>, now: int, id: RequestId) {
    id in outbox && outbox[id].status == Queued && id in nextAttemptAt && nextAttemptAt[id] <= now
  }

  predicate EarliestFirst(nextAttemptAt: map<RequestId, int>, due: seq<RequestId>) {
    forall m, n | 0 <= m < n < |due| && due[m] in nextAttemptAt && due[n] in nextAttemptAt ::
      nextAttemptAt[due[m]] <= nextAttemptAt[due[n]]
  }

  /** The due rows, each once and the earliest first; none is left out for a later one. */
  ghost predicate IsDueListing(outbox: map<RequestId, OutboxRow>, nextAttemptAt: map<RequestId, int>, now: int,
                               limit: nat, due: seq<RequestId>) {
    && Distinct(due) && |due| <= limit
    && (forall n | 0 <= n < |due| :: IsDue(outbox, nextAttemptAt, now, due[n]))
    && EarliestFirst(nextAttemptAt, due)
    && forall id | IsDue(outbox, nextAttemptAt, now, id) && id !in due ::
         |due| == limit && forall n | 0 <= n < |due| :: nextAttemptAt[due[n]] <= nextAttemptAt[id]
  }

  class HcmClient {
    const c: Config
    const store: HcmStore
    const breaker: CB.Breaker

    constructor (c: Config, store: HcmStore, breaker: CB.Breaker)
      ensures this.c == c && this.store == store && this.breaker == breaker
    {
      this.c := c;
      this.store := store;
      this.breaker := breaker;
    }

    /**
     * A debit call through the breaker, from its start to its end. An open circuit refuses it
     * and learns nothing; any other call teaches the breaker its outcome, and a refusal by HCM
     * counts as no failure.
     */
    method GuardedDebit(id: RequestId, key: Key, days: int, start: int, end: int, script: nat -> Conditions)
      returns (phase: Phase)
      requires c.maxRetries >= 1 && breaker.Valid()
      modifies store, breaker
      ensures breaker.Valid()
      ensures var looked := old(breaker.history) + [CB.Looked(start)];
              var circuitOpen := CB.Replayed(breaker.failureThreshold, breaker.cooldownMs, looked).state == CB.Open;
              && (store.View(), phase) ==
                 (if circuitOpen then (old(store.View()), GaveUp)
                  else Attempts(c, old(store.View()), id, key, days, script, 0))
              && (phase.Acked? || phase.TurnedDown? || phase.GaveUp?)
              && (!circuitOpen && phase.GaveUp? ==> breaker.failures == old(breaker.failures) + 1)
              && breaker.history == if circuitOpen then looked else looked + [Lesson(phase, end)]
      ensures phase.TurnedDown? ==> breaker.failures == old(breaker.failures) && breaker.state != CB.Open
      ensures phase.Acked? ==> breaker.failures == 0 && breaker.state == CB.Closed
    {
      var admitted := breaker.Begin(start);
      if !admitted {
        return GaveUp;
      }
      phase := Debit(id, key, days, script);
      match phase {
        case Acked(_) => breaker.OnSuccess();
        case TurnedDown(code) =>
          var error := if code == InvalidDimension then CB.InvalidDimensionCode else CB.InsufficientBalanceCode;
          breaker.OnFailure(CB.HcmError(error, false), end);
        case GaveUp => breaker.OnFailure(CB.HcmError(CB.UpstreamError, true), end);
      }
    }

    /** The body of a debit call: a retryable answer is tried again. */
    method Debit(id: RequestId, key: Key, days: int, script: nat -> Conditions) returns (phase: Phase)
      requires c.maxRetries >= 1
      modifies store
      ensures (store.View(), phase) == Attempts(c, old(store.View()), id, key, days, script, 0)
      ensures phase.Acked? || phase.TurnedDown? || phase.GaveUp?
    {
      var made := 0;
      while true
        invariant made < c.maxRetries
        invariant Attempts(c, store.View(), id, key, days, script, made) ==
                  Attempts(c, old(store.View()), id, key, days, script, 0)
        decreases c.maxRetries - made
      {
        var answer := store.PostOverWire(id, key, days, script(made));
        match answer {
          case Acknowledged(commitId) => return Acked(commitId);
          case Refused(code) => return TurnedDown(code);
          case Retryable =>
            if made + 1 >= c.maxRetries {
              return GaveUp;
            }
        }
        made := made + 1;
      }
    }
  }

  class OutboxService {
    const db: Database

    constructor (db: Database)
      ensures this.db == db
    {
      this.db := db;
    }

    /** A debit key that is queued already keeps its row; a new row is due at once. */
    method Enqueue(payload: Payload, now: int)
      modifies db`outbox, db`nextAttemptAt
      ensures var id := payload.requestId;
              db.outbox == if id in old(db.outbox) then old(db.outbox)
                           else old(db.outbox)[id := OutboxRow(Queued, 0, payload)]
      ensures var id := payload.requestId;
              db.nextAttemptAt == if id in old(db.outbox) then old(db.nextAttemptAt)
                                  else old(db.nextAttemptAt)[id := now]
    {
      if payload.requestId !in db.outbox {
        db.nextAttemptAt := db.nextAttemptAt[payload.requestId := now];
        db.outbox := db.outbox[payload.requestId := OutboxRow(Queued, 0, payload)];
      }
    }

    method MarkProcessing(id: RequestId, row: OutboxRow)
      modifies db`outbox
      ensures db.View() == MarkTx(old(db.View()), id, row.(status := Processing))
    {
      db.outbox := db.outbox[id := row.(status := Processing)];
    }

    method MarkDone(id: RequestId, row: OutboxRow)
      modifies db`outbox
      ensures db.View() == MarkTx(old(db.View()), id, row.(status := Done))
    {
      db.outbox := db.outbox[id := row.(status := Done)];
    }

    /** `row` is the row as it was picked, so its attempts are those before this delivery. */
    method MarkFailed(id: RequestId, row: OutboxRow, maxAttempts: int, nextAttemptAt: int)
      modifies db`outbox, db`nextAttemptAt
      ensures db.View() == MarkTx(old(db.View()), id, FailedAttempt(row, maxAttempts))
      ensures db.nextAttemptAt == old(db.nextAttemptAt)[id := nextAttemptAt]
    {
      var attempts := row.attempts + 1;
      var status := if attempts >= maxAttempts then Dead else Queued;
      db.outbox := db.outbox[id := row.(attempts := attempts, status := status)];
      db.nextAttemptAt := db.nextAttemptAt[id := nextAttemptAt];
    }

    /** The query for the due rows, with its order and its limit. */
    method FindDue(now: int, limit: nat) returns (due: seq<RequestId>)
      ensures forall id | id in due ::
                && id in db.outbox && db.outbox[id].status == Queued
                && id in db.nextAttemptAt && db.nextAttemptAt[id] <= now
      ensures |due| <= limit
      ensures |due| < limit ==>
                forall id | id in db.outbox && db.outbox[id].status == Queued ::
                  id in db.nextAttemptAt && db.nextAttemptAt[id] <= now ==> id in due
      ensures IsDueListing(db.outbox, db.nextAttemptAt, now, limit, due)
    {
      var left := set id | id in db.outbox && IsDue(db.outbox, db.nextAttemptAt, now, id);
      due := [];
      while |due| < limit && left != {}
        invariant |due| <= limit && Distinct(due)
        invariant forall id :: IsDue(db.outbox, db.nextAttemptAt, now, id) <==> id in left || id in due
        invariant forall n | 0 <= n < |due| :: due[n] !in left
        invariant EarliestFirst(db.nextAttemptAt, due)
        invariant forall n, id | 0 <= n < |due| && id in left && due[n] in db.nextAttemptAt ::
                    db.nextAttemptAt[due[n]] <= db.nextAttemptAt[id]
        decreases left
      {
        var next := Earliest(left);
        due := due + [next];
        left := left - {next};
      }
    }

    /** A row of the set that is due first. */
    method Earliest(ids: set<RequestId>) returns (first: RequestId)
      requires ids != {} && ids <= db.nextAttemptAt.Keys
      ensures first in ids && forall id | id in ids :: db.nextAttemptAt[first] <= db.nextAttemptAt[id]
    {
      first :| first in ids;
      var left := ids - {first};
      while left != {}
        invariant left <= ids && first in ids
        invariant forall id | id in ids - left :: db.nextAttemptAt[first] <= db.nextAttemptAt[id]
        decreases left
      {
        var id :| id in left;
        if db.nextAttemptAt[id] < db.nextAttemptAt[first] {
          first := id;
        }
        left := left - {id};
      }
    }
  }
}
