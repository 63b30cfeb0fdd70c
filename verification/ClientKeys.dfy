/** Client-supplied idempotency keys on request creation. */
module ClientKeys {
  import opened Wrappers
  import opened Lifecycle
  import opened Balance
  import opened Tables
  import opened Transactions
  import opened System
  import opened Invariant
  import opened InvariantSteps

  /** How many request rows carry the key. */
  function RowsWith(requests: seq<Request>, clientKey: string): nat {
    if requests == [] then
      0
    else
      RowsWith(requests[..|requests| - 1], clientKey) +
      if requests[|requests| - 1].clientKey == Some(clientKey) then 1 else 0
  }

  lemma {:induction false} NoRowsWith(requests: seq<Request>, clientKey: string)
    requires forall i | 0 <= i < |requests| :: requests[i].clientKey != Some(clientKey)
    ensures RowsWith(requests, clientKey) == 0
  {
    if requests != [] {
      NoRowsWith(requests[..|requests| - 1], clientKey);
    }
  }

  lemma {:induction false} AtMostOneRow(requests: seq<Request>, clientKey: string)
    requires ClientKeysOk(requests)
    ensures RowsWith(requests, clientKey) <= 1
  {
    if requests != [] {
      var init, last := requests[..|requests| - 1], requests[|requests| - 1];
      AtMostOneRow(init, clientKey);
      if last.clientKey == Some(clientKey) {
        forall i | 0 <= i < |init|
          ensures init[i].clientKey != Some(clientKey)
        {
          assert init[i] == requests[i];
        }
        NoRowsWith(init, clientKey);
      }
    }
  }

  /** The days of the request rows that carry the key. */
  function DaysWith(requests: seq<Request>, clientKey: string): int {
    if requests == [] then
      0
    else
      DaysWith(requests[..|requests| - 1], clientKey) +
      if requests[|requests| - 1].clientKey == Some(clientKey) then requests[|requests| - 1].days else 0
  }

  /** Row by row the same key and the same days. */
  ghost predicate SameAsks(requests: seq<Request>, after: seq<Request>) {
    && |after| == |requests|
    && forall i | 0 <= i < |requests| ::
         after[i].clientKey == requests[i].clientKey && after[i].days == requests[i].days
  }

  lemma {:induction false} SameRowsWith(requests: seq<Request>, after: seq<Request>, clientKey: string)
    requires SameAsks(requests, after)
    ensures RowsWith(after, clientKey) == RowsWith(requests, clientKey)
    ensures DaysWith(after, clientKey) == DaysWith(requests, clientKey)
  {
    if requests != [] {
      SameRowsWith(requests[..|requests| - 1], after[..|after| - 1], clientKey);
    }
  }

  /** The step is a create call with this key whose transaction commits. */
  predicate Wins(s: State, e: Event, clientKey: string) {
    && e.Create? && e.clientKey == Some(clientKey)
    && CreateTx(s.db, e.key, e.days, e.createdAt, e.clientKey).Success?
  }

  ghost function Winners(c: Config, s: State, events: seq<Event>, clientKey: string): nat {
    if events == [] then
      0
    else
      var init := events[..|events| - 1];
      Winners(c, s, init, clientKey) +
      if Wins(Run(c, s, init), events[|events| - 1], clientKey) then 1 else 0
  }

  /** By how much the step, if it is a create call with the key, raises reserved days. */
  ghost function Raise(c: Config, s: State, e: Event, clientKey: string): int {
    if e.Create? && e.clientKey == Some(clientKey) then
      SnapshotAt(Next(c, s, e).db.balances, e.key).reserved - SnapshotAt(s.db.balances, e.key).reserved
    else
      0
  }

  /** By how much all create calls with the key together raise reserved days over a run. */
  ghost function Raised(c: Config, s: State, events: seq<Event>, clientKey: string): int {
    if events == [] then
      0
    else
      var init := events[..|events| - 1];
      Raised(c, s, init, clientKey) + Raise(c, Run(c, s, init), events[|events| - 1], clientKey)
  }

  /** Only a winning create adds a row with the key, and it reserves the row's days. */
  lemma StepRows(c: Config, s: State, e: Event, clientKey: string)
    requires ThreadsOk(c, s)
    ensures RowsWith(Next(c, s, e).db.requests, clientKey) ==
            RowsWith(s.db.requests, clientKey) + if Wins(s, e, clientKey) then 1 else 0
    ensures DaysWith(Next(c, s, e).db.requests, clientKey) ==
            DaysWith(s.db.requests, clientKey) + Raise(c, s, e, clientKey)
  {
    var after := Next(c, s, e);
    if e.Create? {
      CreateRows(s.db, e.key, e.days, e.createdAt, e.clientKey, clientKey);
    } else {
      KeepsAsks(c, s, e);
      SameRowsWith(s.db.requests, after.db.requests, clientKey);
    }
  }

  /**
   * A create either commits, and then reserved days rise by its days and one PENDING request
   * appears, or it leaves the whole database as it was, the loser of a key included.
   */
  lemma CreateReservesOnceOrNotAtAll(db: Db, key: Key, days: int, createdAt: int, clientKey: Option<string>)
    ensures var after := After(db, CreateTx(db, key, days, createdAt, clientKey));
            if days > 0 && key in db.balances && Available(db.balances[key]) >= days
               && !KeyTaken(db.requests, clientKey)
            then
              && after.balances == db.balances[key := after.balances[key]]
              && after.balances[key].balance == db.balances[key].balance
              && after.balances[key].reserved == db.balances[key].reserved + days
              && Held(after.requests, key) == Held(db.requests, key) + days
              && |after.requests| == |db.requests| + 1
              && after.ledger == db.ledger && after.outbox == db.outbox
            else after == db
  {
    HeldAppend(db.requests, Request(key, days, Pending, createdAt, clientKey, None), key);
  }

  lemma CreateRows(db: Db, key: Key, days: int, createdAt: int, clientKey: Option<string>, counted: string)
    ensures var result := CreateTx(db, key, days, createdAt, clientKey);
            var wins := result.Success? && clientKey == Some(counted);
            && RowsWith(After(db, result).requests, counted) ==
               RowsWith(db.requests, counted) + (if wins then 1 else 0)
            && DaysWith(After(db, result).requests, counted) ==
               DaysWith(db.requests, counted) + (if wins then days else 0)
            && SnapshotAt(After(db, result).balances, key).reserved ==
               SnapshotAt(db.balances, key).reserved + (if result.Success? then days else 0)
  {
    var result := CreateTx(db, key, days, createdAt, clientKey);
    CreateReservesOnceOrNotAtAll(db, key, days, createdAt, clientKey);
    hide Held;
    if result.Success? {
      assert result.value.requests[..|db.requests|] == db.requests;
    }
  }

  lemma KeepsAsks(c: Config, s: State, e: Event)
    requires ThreadsOk(c, s) && !e.Create?
    ensures SameAsks(s.db.requests, Next(c, s, e).db.requests)
  {
    if !WritesTables(e) {
      OtherStepsKeepTables(c, s, e);
    } else if e.WorkerSettle? {
      WorkerKeepsAsks(c, s);
    } else if e.ApproveFinish? {
      FinishKeepsAsks(c, s, e.id);
    }
  }

  lemma FinishKeepsAsks(c: Config, s: State, id: RequestId)
    requires ThreadsOk(c, s)
    ensures SameAsks(s.db.requests, ApproveFinishStep(s, id).db.requests)
  {
    hide HcmOk, OutboxOk, WorkerOk;
  }

  lemma WorkerKeepsAsks(c: Config, s: State)
    requires ThreadsOk(c, s)
    ensures SameAsks(s.db.requests, WorkerSettleStep(s).db.requests)
  {
    hide HcmOk, CallsOk;
  }

  /**
   * One reservation per client key. However create calls with one key interleave with each other
   * and with everything else, at most one of them commits, the request table carries the key as
   * often as one committed, and together they have reserved the days of that one row.
   */
  lemma {:induction false} OneReservationPerKey(c: Config, events: seq<Event>, clientKey: string)
    ensures var requests := Run(c, INITIAL, events).db.requests;
            && Winners(c, INITIAL, events, clientKey) == RowsWith(requests, clientKey) <= 1
            && Raised(c, INITIAL, events, clientKey) == DaysWith(requests, clientKey)
  {
    InitialInv(c);
    RunKeeps(c, INITIAL, events);
    AtMostOneRow(Run(c, INITIAL, events).db.requests, clientKey);
    hide Next, ThreadsOk;
    if events != [] {
      var init := events[..|events| - 1];
      RunKeeps(c, INITIAL, init);
      OneReservationPerKey(c, init, clientKey);
      StepRows(c, Run(c, INITIAL, init), events[|events| - 1], clientKey);
    }
  }
}
