/**
 * What an undisturbed round of deliveries leaves between the two sides: once every queued debit
 * of a balance has been delivered, only calls in flight and DEAD rows are in doubt.
 */
module Convergence {
  import opened Sums
  import opened Lifecycle
  import opened Tables
  import opened Transactions
  import opened Hcm
  import opened System
  import opened Invariant
  import opened InvariantSteps
  import opened StatusHistory
  import opened CrossSystem
  import opened Delivery
  import opened OutboxWorkers

  /** HCM is reached, forces nothing, and its reply arrives. */
  predicate Smooth(conditions: Conditions) {
    conditions.mode == Normal && conditions.wire == Delivered
  }

  // ---------- deliveries disturb no balance ----------

  predicate ByWorker(e: Event) {
    e.WorkerPick? || e.WorkerAttempt? || e.WorkerCircuitOpen? || e.WorkerSettle? || e.WorkerMark?
  }

  ghost predicate AllByWorker(events: seq<Event>) {
    forall n | 0 <= n < |events| :: ByWorker(events[n])
  }

  lemma {:induction false} CallsAreByWorker(
    c: Config, hcm: HcmState, id: RequestId, key: Key, days: int, script: nat -> Conditions, made: nat)
    requires made < c.maxRetries
    ensures AllByWorker(Calls(c, hcm, id, key, days, script, made, true))
    decreases c.maxRetries - made
  {
    var (next, answer) := Attempt(hcm, id, key, days, script(made));
    if Advance(c, made, answer).Calling? {
      CallsAreByWorker(c, next, id, key, days, script, made + 1);
    }
  }

  lemma DeliveryIsByWorker(c: Config, s: State, id: RequestId, circuitOpen: bool, script: nat -> Conditions)
    requires c.maxRetries >= 1 && Deliverable(s.db.outbox, id)
    ensures AllByWorker(DeliveryEvents(c, s, id, circuitOpen, script))
  {
    var payload := s.db.outbox[id].payload;
    CallsAreByWorker(c, s.hcm, id, payload.key, payload.days, script, 0);
    hide Calls;
  }

  // ---------- one delivery ----------

  /** The balance is settling, the worker is idle, and no approval of the balance is stranded. */
  ghost predicate Ready(c: Config, s: State, key: Key) {
    Inv(c, s) && Settling(s, key) && NoneStranded(s, key) && s.worker.Idle?
  }

  /** A delivery writes no outbox row but its own, whose payload stays. */
  lemma DeliveryTouches(c: Config, s: State, id: RequestId, circuitOpen: bool, script: nat -> Conditions)
    requires c.maxRetries >= 1 && Deliverable(s.db.outbox, id) && s.worker.Idle?
    ensures var after := Run(c, s, DeliveryEvents(c, s, id, circuitOpen, script));
            && after.worker.Idle? && after.approvals == s.approvals
            && id in after.db.outbox && after.db.outbox == s.db.outbox[id := after.db.outbox[id]]
            && after.db.outbox[id].payload == s.db.outbox[id].payload
  {
    hide Run;
    DeliveryRun(c, s, id, circuitOpen, script);
    var over := DebitOver(c, s, id, circuitOpen, script);
    DebitIsOver(c, s.hcm, id, s.db.outbox[id].payload, circuitOpen, script);
    hide DebitOver;
    SettleKeepsOutbox(over);
  }

  lemma {:induction false} AttemptsEnd(
    c: Config, hcm: HcmState, id: RequestId, key: Key, days: int, script: nat -> Conditions, made: nat)
    requires made < c.maxRetries
    ensures var phase := Attempts(c, hcm, id, key, days, script, made).1;
            phase.Acked? || phase.TurnedDown? || phase.GaveUp?
    decreases c.maxRetries - made
  {
    var (next, answer) := Attempt(hcm, id, key, days, script(made));
    if Advance(c, made, answer).Calling? {
      AttemptsEnd(c, next, id, key, days, script, made + 1);
    }
  }

  lemma DebitIsOver(c: Config, hcm: HcmState, id: RequestId, payload: Payload, circuitOpen: bool,
                    script: nat -> Conditions)
    requires c.maxRetries >= 1
    ensures var phase := Debited(c, hcm, id, payload.key, payload.days, circuitOpen, script).1;
            phase.Acked? || phase.TurnedDown? || phase.GaveUp?
  {
    AttemptsEnd(c, hcm, id, payload.key, payload.days, script, 0);
  }

  lemma SettleKeepsOutbox(s: State)
    requires s.worker.Working?
    requires s.worker.phase.Acked? || s.worker.phase.TurnedDown? || s.worker.phase.GaveUp?
    ensures var after := WorkerSettleStep(s);
            && after.db.outbox == s.db.outbox && after.approvals == s.approvals
            && after.worker.Working? && after.worker.id == s.worker.id && after.worker.row == s.worker.row
            && (after.worker.phase.Settled? || after.worker.phase.GaveUp?)
  {
  }

  /** A ready balance stays ready over any delivery, of its own or of another's row. */
  lemma DeliveryStaysReady(
    c: Config, s: State, id: RequestId, circuitOpen: bool, script: nat -> Conditions, key: Key)
    requires Ready(c, s, key) && c.maxRetries >= 1 && Deliverable(s.db.outbox, id)
    ensures Ready(c, Run(c, s, DeliveryEvents(c, s, id, circuitOpen, script)), key)
  {
    hide Run, Inv, Settling, NoneStranded, DeliveryEvents;
    var events := DeliveryEvents(c, s, id, circuitOpen, script);
    DeliveryIsByWorker(c, s, id, circuitOpen, script);
    DeliveryTouches(c, s, id, circuitOpen, script);
    RunKeeps(c, s, events);
    QuietRunSettles(c, s, events, key);
    QuietRunStrandsNone(c, s, events, key);
  }

  /** A queued debit of a settling balance is what its APPROVED request asks for. */
  lemma QueuedIsLive(c: Config, s: State, id: RequestId)
    requires Inv(c, s) && Deliverable(s.db.outbox, id) && Settling(s, s.db.outbox[id].payload.key)
    ensures id < |s.db.requests| && s.db.requests[id].status == Approved
    ensures s.db.outbox[id].payload == Payload(id, s.db.requests[id].key, s.db.requests[id].days)
  {
    assert BeingDebited(s, id);
  }

  /** With HCM reached smoothly, the first attempt is acknowledged. */
  lemma SmoothDebit(c: Config, s: State, id: RequestId, script: nat -> Conditions)
    requires Inv(c, s) && Deliverable(s.db.outbox, id) && Settling(s, s.db.outbox[id].payload.key)
    requires c.maxRetries >= 1 && Smooth(script(0))
    ensures var payload := s.db.outbox[id].payload;
            Debited(c, s.hcm, id, payload.key, payload.days, false, script).1.Acked?
  {
    hide Inv, Settling, AnswerDebit, CommitTx;
    QueuedIsLive(c, s, id);
    SettlingSuffices(c, s, id, script(0).freshCommitId);
  }

  /** Then the delivery commits: its row is DONE. */
  lemma DeliveryCommits(c: Config, s: State, id: RequestId, script: nat -> Conditions)
    requires Inv(c, s) && Deliverable(s.db.outbox, id) && Settling(s, s.db.outbox[id].payload.key)
    requires s.worker.Idle? && c.maxRetries >= 1 && Smooth(script(0))
    ensures var after := Run(c, s, DeliveryEvents(c, s, id, false, script));
            id in after.db.outbox && after.db.outbox[id].status == Done
  {
    hide Run, Debited, Inv, Settling;
    DeliveryRun(c, s, id, false, script);
    QueuedIsLive(c, s, id);
    SmoothDebit(c, s, id, script);
    var over := DebitOver(c, s, id, false, script);
    SettlingSuffices(c, s, id, over.worker.phase.commitId);
    CommitIgnoresOutbox(s.db, over.db, id, s.db.requests[id], over.worker.phase.commitId);
    hide CommitTx;
  }

  lemma CommitIgnoresOutbox(db: Db, other: Db, id: RequestId, row: Request, commitId: string)
    requires other == db.(outbox := other.outbox)
    ensures CommitTx(other, id, row, row.key, row.days, commitId).Success? <==>
            CommitTx(db, id, row, row.key, row.days, commitId).Success?
  {
  }

  // ---------- a round of deliveries ----------

  /** The debit calls for this balance's rows are let through and answered. */
  ghost predicate SmoothFor(outbox: map<RequestId, OutboxRow>, due: seq<RequestId>, circuitOpen: nat -> bool,
                            scripts: nat -> nat -> Conditions, key: Key) {
    forall n: nat | n < |due| && due[n] in outbox && outbox[due[n]].payload.key == key ::
      !circuitOpen(n) && Smooth(scripts(n)(0))
  }

  /** The rows delivered so far: this balance's are DONE, and the others have kept their payloads. */
  ghost predicate DeliveredSoFar(before: map<RequestId, OutboxRow>, after: map<RequestId, OutboxRow>,
                                 due: seq<RequestId>, key: Key) {
    && (forall id | id !in due :: (id in after <==> id in before) && (id in before ==> after[id] == before[id]))
    && (forall id | id in due :: id in before && id in after && after[id].payload == before[id].payload &&
                                 (before[id].payload.key == key ==> after[id].status == Done))
  }

  lemma {:induction false} RoundDelivers(c: Config, s: State, due: seq<RequestId>, circuitOpen: nat -> bool,
                                         scripts: nat -> nat -> Conditions, key: Key)
    requires Ready(c, s, key) && c.maxRetries >= 1
    requires Distinct(due) && forall n | 0 <= n < |due| :: Deliverable(s.db.outbox, due[n])
    requires SmoothFor(s.db.outbox, due, circuitOpen, scripts, key)
    ensures var after := Run(c, s, BatchEvents(c, s, due, circuitOpen, scripts));
            && Ready(c, after, key) && after.approvals == s.approvals
            && DeliveredSoFar(s.db.outbox, after.db.outbox, due, key)
  {
    hide Run, Ready, BatchEvents, DeliveryEvents, DeliveredSoFar;
    if due == [] {
      EmptyRound(c, s, circuitOpen, scripts, key);
    } else {
      var n := |due| - 1;
      var init, id := due[..n], due[n];
      RoundDelivers(c, s, init, circuitOpen, scripts, key);
      var reached := Run(c, s, BatchEvents(c, s, init, circuitOpen, scripts));
      assert id !in init;
      NotYetDelivered(s.db.outbox, reached.db.outbox, init, id, key);
      RoundGoesOn(c, s, due, circuitOpen, scripts);
      DeliverNext(c, reached, id, circuitOpen(n), scripts(n), key);
      var after := Run(c, reached, DeliveryEvents(c, reached, id, circuitOpen(n), scripts(n)));
      OneMoreDelivered(s.db.outbox, reached.db.outbox, after.db.outbox, init, id, key);
      assert due == init + [id];
    }
  }

  lemma EmptyRound(c: Config, s: State, circuitOpen: nat -> bool, scripts: nat -> nat -> Conditions, key: Key)
    requires c.maxRetries >= 1
    ensures Run(c, s, BatchEvents(c, s, [], circuitOpen, scripts)) == s
    ensures DeliveredSoFar(s.db.outbox, s.db.outbox, [], key)
  {
  }

  /** The round is the round without its last row, and then the delivery of that row. */
  lemma RoundGoesOn(c: Config, s: State, due: seq<RequestId>, circuitOpen: nat -> bool,
                    scripts: nat -> nat -> Conditions)
    requires due != [] && c.maxRetries >= 1
    requires var n := |due| - 1;
             Deliverable(Run(c, s, BatchEvents(c, s, due[..n], circuitOpen, scripts)).db.outbox, due[n])
    ensures var n := |due| - 1;
            var reached := Run(c, s, BatchEvents(c, s, due[..n], circuitOpen, scripts));
            Run(c, s, BatchEvents(c, s, due, circuitOpen, scripts)) ==
            Run(c, reached, DeliveryEvents(c, reached, due[n], circuitOpen(n), scripts(n)))
  {
    hide Run, DeliveryEvents;
    var n := |due| - 1;
    var before := BatchEvents(c, s, due[..n], circuitOpen, scripts);
    RunConcat(c, s, before, DeliveryEvents(c, Run(c, s, before), due[n], circuitOpen(n), scripts(n)));
  }

  lemma NotYetDelivered(before: map<RequestId, OutboxRow>, reached: map<RequestId, OutboxRow>, due: seq<RequestId>,
                        id: RequestId, key: Key)
    requires DeliveredSoFar(before, reached, due, key) && id !in due && Deliverable(before, id)
    ensures Deliverable(reached, id) && reached[id] == before[id]
  {
  }

  lemma OneMoreDelivered(before: map<RequestId, OutboxRow>, reached: map<RequestId, OutboxRow>,
                         after: map<RequestId, OutboxRow>, due: seq<RequestId>, id: RequestId, key: Key)
    requires DeliveredSoFar(before, reached, due, key)
    requires id in before && id in reached && id in after && reached[id] == before[id]
    requires after == reached[id := after[id]] && after[id].payload == before[id].payload
    requires before[id].payload.key == key ==> after[id].status == Done
    ensures DeliveredSoFar(before, after, due + [id], key)
  {
  }

  /** One more delivery of the round. */
  lemma DeliverNext(c: Config, s: State, id: RequestId, circuitOpen: bool, script: nat -> Conditions, key: Key)
    requires Ready(c, s, key) && c.maxRetries >= 1 && Deliverable(s.db.outbox, id)
    requires s.db.outbox[id].payload.key == key ==> !circuitOpen && Smooth(script(0))
    ensures var after := Run(c, s, DeliveryEvents(c, s, id, circuitOpen, script));
            && Ready(c, after, key) && after.approvals == s.approvals
            && id in after.db.outbox && after.db.outbox == s.db.outbox[id := after.db.outbox[id]]
            && after.db.outbox[id].payload == s.db.outbox[id].payload
            && (s.db.outbox[id].payload.key == key ==> after.db.outbox[id].status == Done)
  {
    hide Run, DeliveryEvents, Inv, Settling, NoneStranded;
    DeliveryStaysReady(c, s, id, circuitOpen, script, key);
    DeliveryTouches(c, s, id, circuitOpen, script);
    if s.db.outbox[id].payload.key == key {
      DeliveryCommits(c, s, id, script);
    }
  }

  // ---------- what is left in doubt ----------

  /** The round takes every queued row of the balance; it may take others' rows as well. */
  ghost predicate TakesAll(outbox: map<RequestId, OutboxRow>, due: seq<RequestId>, key: Key) {
    && Distinct(due)
    && (forall n | 0 <= n < |due| :: due[n] in outbox && outbox[due[n]].status == Queued)
    && (forall id | id in outbox && outbox[id].status == Queued && outbox[id].payload.key == key :: id in due)
  }

  /** A request in doubt has its approve call in flight, or a DEAD row. */
  ghost predicate OnlyDeadInDoubt(s: State, key: Key) {
    forall i: nat | i < |s.db.requests| && InDoubt(s, i, key) ::
      i in s.approvals || (i in s.db.outbox && s.db.outbox[i].status == Dead)
  }

  lemma DoubtAfterRound(c: Config, before: map<RequestId, OutboxRow>, s: State, due: seq<RequestId>, key: Key)
    requires Ready(c, s, key) && TakesAll(before, due, key) && DeliveredSoFar(before, s.db.outbox, due, key)
    ensures OnlyDeadInDoubt(s, key)
  {
    hide Ready;
    forall i: nat | i < |s.db.requests| && InDoubt(s, i, key) && i !in s.approvals
      ensures i in s.db.outbox && s.db.outbox[i].status == Dead
    {
      ApprovedHasRow(c, s, i, key);
    }
  }

  /** With the worker idle, an APPROVED request without an approve call waits in the outbox or is DEAD. */
  lemma ApprovedHasRow(c: Config, s: State, i: RequestId, key: Key)
    requires Ready(c, s, key) && i < |s.db.requests| && i !in s.approvals
    requires s.db.requests[i].key == key && s.db.requests[i].status == Approved
    ensures i in s.db.outbox && s.db.outbox[i].payload.key == key
    ensures s.db.outbox[i].status == Queued || s.db.outbox[i].status == Dead
  {
    hide Settling;
    assert i in s.db.outbox;
  }

  lemma RowsAreDeliverable(c: Config, s: State)
    requires Inv(c, s)
    ensures forall id | id in s.db.outbox && s.db.outbox[id].status == Queued :: Deliverable(s.db.outbox, id)
  {
  }

  lemma SeededIsReady(c: Config, seeding: seq<Event>, events: seq<Event>, key: Key)
    requires Seeded(Run(c, INITIAL, seeding), key) && QuietRun(events, key)
    requires Run(c, Run(c, INITIAL, seeding), events).worker.Idle?
    ensures Ready(c, Run(c, Run(c, INITIAL, seeding), events), key)
  {
    hide Run, Inv, Settling;
    var start := Run(c, INITIAL, seeding);
    InitialInv(c);
    RunKeeps(c, INITIAL, seeding);
    RunKeeps(c, start, events);
    SeededSettles(c, start, key);
    QuietRunSettles(c, start, events, key);
    assert NoneStranded(start, key);
    QuietRunStrandsNone(c, start, events, key);
  }

  /**
   * Convergence. From any state of a seeded, undisturbed run with an idle worker, a round that
   * delivers every queued debit of the balance while HCM answers leaves nothing in doubt but
   * the calls in flight and the DEAD rows. With neither, the two balances are equal. Such a
   * round is one worker tick.
   */
  lemma RoundConverges(c: Config, seeding: seq<Event>, events: seq<Event>, due: seq<RequestId>,
                       circuitOpen: nat -> bool, scripts: nat -> nat -> Conditions, key: Key)
    requires Seeded(Run(c, INITIAL, seeding), key) && QuietRun(events, key)
    requires var s := Run(c, Run(c, INITIAL, seeding), events);
             && s.worker.Idle? && c.maxRetries >= 1
             && TakesAll(s.db.outbox, due, key)
             && SmoothFor(s.db.outbox, due, circuitOpen, scripts, key)
    ensures var s := Run(c, Run(c, INITIAL, seeding), events);
            var final := Run(c, s, BatchEvents(c, s, due, circuitOpen, scripts));
            && OnlyDeadInDoubt(final, key)
            && key in final.db.balances && key in final.hcm.balances
            && final.db.balances[key].balance - final.hcm.balances[key] == Doubt(final, key)
            && (s.approvals == map[] && NoDeadRow(s.db.outbox, key) ==>
                  final.db.balances[key].balance == final.hcm.balances[key])
  {
    hide Run, Inv, NoneStranded;
    var s := Run(c, Run(c, INITIAL, seeding), events);
    SeededIsReady(c, seeding, events, key);
    RowsAreDeliverable(c, s);
    RoundDelivers(c, s, due, circuitOpen, scripts, key);
    var final := Run(c, s, BatchEvents(c, s, due, circuitOpen, scripts));
    DoubtAfterRound(c, s.db.outbox, final, due, key);
    if s.approvals == map[] && NoDeadRow(s.db.outbox, key) {
      NothingInDoubt(c, s.db.outbox, final, due, key);
    }
  }

  predicate NoDeadRow(outbox: map<RequestId, OutboxRow>, key: Key) {
    forall id | id in outbox && outbox[id].payload.key == key :: outbox[id].status != Dead
  }

  lemma NothingInDoubt(c: Config, before: map<RequestId, OutboxRow>, s: State, due: seq<RequestId>, key: Key)
    requires Inv(c, s) && OnlyDeadInDoubt(s, key) && DeliveredSoFar(before, s.db.outbox, due, key)
    requires s.approvals == map[] && NoDeadRow(before, key)
    ensures Doubt(s, key) == 0
  {
    InvThreads(c, s);
    hide Inv, OutboxOk, OnlyDeadInDoubt, DeliveredSoFar, NoDeadRow;
    forall i: nat | i < |s.db.requests|
      ensures !InDoubt(s, i, key)
    {
      NotInDoubt(c, before, s, due, key, i);
    }
    hide ThreadsOk;
    SumZero(DoubtWeights(s, key));
  }

  lemma NotInDoubt(c: Config, before: map<RequestId, OutboxRow>, s: State, due: seq<RequestId>, key: Key, i: RequestId)
    requires OutboxOk(c, s) && OnlyDeadInDoubt(s, key) && DeliveredSoFar(before, s.db.outbox, due, key)
    requires s.approvals == map[] && NoDeadRow(before, key) && i < |s.db.requests|
    ensures !InDoubt(s, i, key)
  {
  }
}
