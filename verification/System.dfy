/**
 * The whole protocol as one step system: the database, HCM, the approve calls in flight and
 * the outbox worker. Each transaction and each HCM attempt is one step; anything may happen
 * between two steps.
 */
module System {
  import opened Wrappers
  import opened Lifecycle
  import opened Tables
  import opened Flagging
  import opened Transactions
  import opened Hcm

  /** HCM_MAX_RETRIES and OUTBOX_MAX_ATTEMPTS. */
  datatype Config = Config(maxRetries: int, maxAttempts: int)

  /** Where a debit call stands. `Calling(n)` has made n attempts. */
  datatype Phase =
    | Calling(made: nat)
    | Acked(commitId: string)
    | TurnedDown(code: RefusalCode)
    | GaveUp
    | Settled

  /** An approve call between its first and its last transaction, with the row it read. */
  datatype ApproveCall = ApproveCall(row: Request, phase: Phase)

  /** The single outbox worker; `row` is the outbox row as it was picked. */
  datatype Worker = Idle | Working(id: RequestId, row: OutboxRow, phase: Phase)

  datatype State = State(db: Db, hcm: HcmState, approvals: map<RequestId, ApproveCall>, worker: Worker)

  const INITIAL := State(EMPTY_DB, EMPTY_HCM, map[], Idle)

  datatype Event =
    | Create(key: Key, days: int, createdAt: int, clientKey: Option<string>)
    | ApproveBegin(id: RequestId)
    | ApproveAttempt(id: RequestId, conditions: Conditions)
    | ApproveCircuitOpen(id: RequestId)
    | ApproveFinish(id: RequestId)
    | Reject(id: RequestId)
    | Cancel(id: RequestId)
    | Push(key: Key, absolute: int, listing: seq<RequestId>)
    | Refresh(key: Key, absolute: int)
    | WorkerPick(id: RequestId)
    | WorkerAttempt(conditions: Conditions)
    | WorkerCircuitOpen
    | WorkerSettle
    | WorkerMark
    | HcmWrite(key: Key, balance: int)

  /** The retry loop: a lost or retryable answer is tried again while attempts remain. */
  function Advance(c: Config, made: nat, answer: Answer): Phase {
    match answer
    case Acknowledged(commitId) => Acked(commitId)
    case Refused(code) => TurnedDown(code)
    case Retryable => if made + 1 >= c.maxRetries then GaveUp else Calling(made + 1)
  }

  function ApproveStep(s: State, id: RequestId): State {
    match ApproveTx(s.db, id)
    case Failure(_) => s
    case Success(db) =>
      s.(db := db, approvals := s.approvals[id := ApproveCall(db.requests[id], Calling(0))])
  }

  function ApproveAttemptStep(c: Config, s: State, id: RequestId, conditions: Conditions): State {
    if id in s.approvals && s.approvals[id].phase.Calling? then
      var call := s.approvals[id];
      var (hcm, answer) := Attempt(s.hcm, id, call.row.key, call.row.days, conditions);
      s.(hcm := hcm,
         approvals := s.approvals[id := call.(phase := Advance(c, call.phase.made, answer))])
    else
      s
  }

  /** The breaker refuses before the first attempt; its error is retryable. */
  function ApproveCircuitStep(s: State, id: RequestId): State {
    if id in s.approvals && s.approvals[id].phase == Calling(0) then
      s.(approvals := s.approvals[id := s.approvals[id].(phase := GaveUp)])
    else
      s
  }

  /** The closing transaction. One that throws is rolled back, and the call ends all the same. */
  function ApproveFinishStep(s: State, id: RequestId): State {
    if id !in s.approvals then
      s
    else
      var row := s.approvals[id].row;
      var ended := s.(approvals := s.approvals - {id});
      match s.approvals[id].phase
      case Calling(_) => s
      case Settled => s
      case Acked(commitId) =>
        ended.(db := After(s.db, CommitTx(s.db, id, row, row.key, row.days, commitId)))
      case TurnedDown(code) =>
        ended.(db := After(s.db, FailApprovalTx(s.db, id, row, code == InsufficientAtHcm)))
      case GaveUp =>
        ended.(db := EnqueueTx(s.db, id, row))
  }

  /** The worker takes any queued row; due times and batch order are left open. */
  function WorkerPickStep(s: State, id: RequestId): State {
    if s.worker.Idle? && id in s.db.outbox && s.db.outbox[id].status == Queued then
      var row := s.db.outbox[id];
      s.(db := MarkTx(s.db, id, row.(status := Processing)), worker := Working(id, row, Calling(0)))
    else
      s
  }

  function WorkerAttemptStep(c: Config, s: State, conditions: Conditions): State {
    if s.worker.Working? && s.worker.phase.Calling? then
      var payload := s.worker.row.payload;
      var (hcm, answer) := Attempt(s.hcm, s.worker.id, payload.key, payload.days, conditions);
      s.(hcm := hcm, worker := s.worker.(phase := Advance(c, s.worker.phase.made, answer)))
    else
      s
  }

  function WorkerCircuitStep(s: State): State {
    if s.worker.Working? && s.worker.phase == Calling(0) then
      s.(worker := s.worker.(phase := GaveUp))
    else
      s
  }

  /** The worker's local transaction; one that throws counts as a failed delivery. */
  function WorkerSettleStep(s: State): State {
    if s.worker.Working? && s.worker.phase.Acked? then
      match WorkerCommitTx(s.db, s.worker.row.payload, s.worker.phase.commitId)
      case Success(db) => s.(db := db, worker := s.worker.(phase := Settled))
      case Failure(_) => s.(worker := s.worker.(phase := GaveUp))
    else if s.worker.Working? && s.worker.phase.TurnedDown? then
      s.(db := WorkerFailTx(s.db, s.worker.row.payload), worker := s.worker.(phase := Settled))
    else
      s
  }

  function WorkerMarkStep(c: Config, s: State): State {
    if s.worker.Working? && s.worker.phase.Settled? then
      s.(db := MarkTx(s.db, s.worker.id, s.worker.row.(status := Done)), worker := Idle)
    else if s.worker.Working? && s.worker.phase.GaveUp? then
      s.(db := MarkTx(s.db, s.worker.id, FailedAttempt(s.worker.row, c.maxAttempts)), worker := Idle)
    else
      s
  }

  /** One step. An event that does not apply in a state leaves the state alone. */
  ghost function Next(c: Config, s: State, e: Event): State {
    match e
    case Create(key, days, createdAt, clientKey) =>
      s.(db := After(s.db, CreateTx(s.db, key, days, createdAt, clientKey)))
    case ApproveBegin(id) => ApproveStep(s, id)
    case ApproveAttempt(id, conditions) => ApproveAttemptStep(c, s, id, conditions)
    case ApproveCircuitOpen(id) => ApproveCircuitStep(s, id)
    case ApproveFinish(id) => ApproveFinishStep(s, id)
    case Reject(id) => s.(db := After(s.db, WithdrawTx(s.db, id, Rejected)))
    case Cancel(id) => s.(db := After(s.db, WithdrawTx(s.db, id, Cancelled)))
    case Push(key, absolute, listing) =>
      if IsListing(s.db.requests, key, listing)
      then s.(db := PushTx(s.db, key, absolute, listing).db)
      else s
    case Refresh(key, absolute) => s.(db := After(s.db, RefreshTx(s.db, key, absolute)))
    case WorkerPick(id) => WorkerPickStep(s, id)
    case WorkerAttempt(conditions) => WorkerAttemptStep(c, s, conditions)
    case WorkerCircuitOpen => WorkerCircuitStep(s)
    case WorkerSettle => WorkerSettleStep(s)
    case WorkerMark => WorkerMarkStep(c, s)
    case HcmWrite(key, balance) => s.(hcm := s.hcm.(balances := s.hcm.balances[key := balance]))
  }

  /** The steps that are transactions on balances, requests or the ledger. */
  predicate WritesTables(e: Event) {
    e.Create? || e.ApproveBegin? || e.ApproveFinish? || e.Reject? || e.Cancel? || e.Push? ||
    e.Refresh? || e.WorkerSettle?
  }

  /** The other steps call HCM, mark an outbox row or write at HCM. */
  lemma OtherStepsKeepTables(c: Config, s: State, e: Event)
    requires !WritesTables(e)
    ensures Next(c, s, e).db == s.db.(outbox := Next(c, s, e).db.outbox)
    ensures Next(c, s, e).approvals.Keys == s.approvals.Keys
  {
  }

  /** The state after a sequence of events. */
  ghost function Run(c: Config, s: State, events: seq<Event>): State {
    if events == [] then
      s
    else
      Next(c, Run(c, s, events[..|events| - 1]), events[|events| - 1])
  }

  // ---------- the environments that the properties assume ----------

  /** No push and no outside write gives this balance a negative amount. */
  predicate Sound(e: Event, key: Key) {
    (e.Push? && e.key == key ==> e.absolute >= 0) && (e.HcmWrite? && e.key == key ==> e.balance >= 0)
  }

  ghost predicate SoundRun(events: seq<Event>, key: Key) {
    forall n | 0 <= n < |events| :: Sound(events[n], key)
  }

  /** A push of this balance fails no request whose approve call is in flight. */
  ghost predicate Clean(s: State, e: Event, key: Key) {
    e.Push? && e.key == key && IsListing(s.db.requests, e.key, e.listing) ==>
      forall id | id in Flagged(s.db.requests, e.key, e.absolute, e.listing) :: id !in s.approvals
  }

  /** A refresh does not pull this balance, if it exists, below its reserved days. */
  predicate Covers(s: State, e: Event, key: Key) {
    e.Refresh? && e.key == key && key in s.db.balances && e.absolute >= 0 ==>
      e.absolute >= s.db.balances[key].reserved
  }

  ghost predicate CleanRun(c: Config, s: State, events: seq<Event>, key: Key) {
    forall n | 0 <= n < |events| :: Clean(Run(c, s, events[..n]), events[n], key)
  }

  ghost predicate CoveredRun(c: Config, s: State, events: seq<Event>, key: Key) {
    forall n | 0 <= n < |events| :: Covers(Run(c, s, events[..n]), events[n], key)
  }

  /** Nothing outside the protocol writes this balance, here or at HCM. */
  predicate Quiet(e: Event, key: Key) {
    !((e.Push? || e.Refresh? || e.HcmWrite?) && e.key == key)
  }

  ghost predicate QuietRun(events: seq<Event>, key: Key) {
    forall n | 0 <= n < |events| :: Quiet(events[n], key)
  }

  /** Drops the last event of a run and of every assumption on it. */
  lemma RunPrefix(c: Config, s: State, events: seq<Event>, key: Key)
    requires events != []
    ensures var init := events[..|events| - 1];
            && Run(c, s, events) == Next(c, Run(c, s, init), events[|events| - 1])
            && (SoundRun(events, key) ==> SoundRun(init, key) && Sound(events[|events| - 1], key))
            && (CleanRun(c, s, events, key) ==>
                  CleanRun(c, s, init, key) && Clean(Run(c, s, init), events[|events| - 1], key))
            && (CoveredRun(c, s, events, key) ==>
                  CoveredRun(c, s, init, key) && Covers(Run(c, s, init), events[|events| - 1], key))
  {
    var init := events[..|events| - 1];
    assert forall n | 0 <= n <= |init| :: init[..n] == events[..n];
  }
}
