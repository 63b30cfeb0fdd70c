/**
 * A run in which a push overtakes an approve call: the stale commit takes another request's
 * reservation, and that request, debited at HCM, can no longer be committed here.
 */
module Stranding {
  import opened Wrappers
  import opened Sums
  import opened Lifecycle
  import opened Balance
  import opened Tables
  import opened Flagging
  import opened Transactions
  import opened Hcm
  import opened System
  import opened Delivery

  const KEY := Key("employee", "location")
  const DELIVERED := Conditions(Normal, Delivered, "commit")
  const PUSH := Push(KEY, 50, [0, 1])

  /** Two requests of 5 days on a balance of 10; the newer one is in its approve call. */
  const CREATION := [HcmWrite(KEY, 100), Refresh(KEY, 100), Create(KEY, 50, 2, None), Create(KEY, 50, 1, None)]
  const APPROVAL := [ApproveBegin(0), ApproveAttempt(0, DELIVERED)]

  /** HCM pushes the balance it has after the debit; then both approve calls end. */
  const TURN := [PUSH, ApproveFinish(0), ApproveBegin(1), ApproveAttempt(1, DELIVERED)]

  const EVENTS := CREATION + APPROVAL + (TURN + [ApproveFinish(1)])

  function Newer(status: Status, commitId: Option<string>): Request {
    Request(KEY, 50, status, 2, None, commitId)
  }

  function Older(status: Status): Request {
    Request(KEY, 50, status, 1, None, None)
  }

  const CALL := ApproveCall(Newer(Approved, None), Acked("commit"))
  const RECORD := DebitRecord(KEY, 50, "commit")

  /** The balance is seeded on both sides. */
  const SEEDED := State(
    Db(map[KEY := Snapshot(100, 0)], [], [AdjustRow(KEY, 100, None)], map[]),
    HcmState(map[KEY := 100], map[]), map[], Idle)

  /** Both requests are held. */
  const CREATED := SEEDED.(db := SEEDED.db.(
    balances := map[KEY := Snapshot(100, 100)], requests := [Newer(Pending, None), Older(Pending)]))

  /** HCM has debited the newer one. */
  const OPENED := CREATED.(
    db := CREATED.db.(requests := [Newer(Approved, None), Older(Pending)]),
    hcm := HcmState(map[KEY := 50], map[0 := RECORD]),
    approvals := map[0 := CALL])

  /** The push has failed the newer request and reserved the days of the older one. */
  const OVERTAKEN := OPENED.(db := OPENED.db.(
    balances := map[KEY := Snapshot(50, 50)],
    requests := [Newer(Failed, None), Older(Pending)],
    ledger := [AdjustRow(KEY, 100, None), AdjustRow(KEY, -50, None)]))

  /** The newer request is COMMITTED all the same, with the older one's reservation. */
  const COMMITTED := OVERTAKEN.(
    db := OVERTAKEN.db.(
      balances := map[KEY := Snapshot(0, 0)],
      requests := [Newer(Committed, Some("commit")), Older(Pending)],
      ledger := OVERTAKEN.db.ledger + [DebitRow(0, KEY, 50)]),
    approvals := map[])

  /** HCM has debited both; here the older one stays APPROVED. */
  const STRANDED := COMMITTED.(
    db := COMMITTED.db.(requests := [Newer(Committed, Some("commit")), Older(Approved)]),
    hcm := HcmState(map[KEY := 0], map[0 := RECORD, 1 := RECORD]))

  lemma Seeding(c: Config)
    ensures Next(c, Next(c, INITIAL, HcmWrite(KEY, 100)), Refresh(KEY, 100)) == SEEDED
  {
  }

  /** The newer request is held. */
  const HALFWAY := SEEDED.(db := SEEDED.db.(
    balances := map[KEY := Snapshot(100, 50)], requests := [Newer(Pending, None)]))

  lemma CreatingFirst(c: Config)
    ensures Next(c, SEEDED, Create(KEY, 50, 2, None)) == HALFWAY
  {
    hide IsListing, PushTx;
  }

  lemma CreatingSecond(c: Config)
    ensures Next(c, HALFWAY, Create(KEY, 50, 1, None)) == CREATED
  {
    hide IsListing, PushTx;
  }

  lemma Beginning(c: Config)
    requires c.maxRetries >= 1
    ensures Next(c, Next(c, CREATED, ApproveBegin(0)), ApproveAttempt(0, DELIVERED)) == OPENED
  {
  }

  lemma OpenedListing()
    ensures IsListing(OPENED.db.requests, KEY, [0, 1])
  {
  }

  lemma OrderOfTwo(requests: seq<Request>)
    requires |requests| == 2 && requests[0].createdAt >= requests[1].createdAt
    ensures NewestFirst([0, 1], requests) == [0, 1]
  {
    assert [0, 1][..1] == [0] && [0][..0] == [];
    assert NewestFirst([], requests) == [];
    assert InsertByAge([], 0, requests) == [0];
    assert NewestFirst([0], requests) == [0];
    assert InsertByAge([0], 1, requests) == [0, 1];
  }

  lemma FirstSums(weights: seq<int>)
    requires weights == [50, 50]
    ensures SumAt([], weights) == 0 && SumAt([0], weights) == 50 && SumAt([0, 1], weights) == 100
  {
    SumAtAppend([], 0, weights);
    SumAtAppend([0], 1, weights);
    assert [] + [0] == [0] && [0] + [1] == [0, 1];
  }

  lemma OvertakenFlags()
    ensures IsListing(OPENED.db.requests, KEY, [0, 1])
    ensures SumAt([0, 1], HeldWeights(OPENED.db.requests, KEY)) == 100
    ensures Flagged(OPENED.db.requests, KEY, 50, [0, 1]) == [0]
  {
    OpenedListing();
    OrderOfTwo(OPENED.db.requests);
    var weights := HeldWeights(OPENED.db.requests, KEY);
    assert weights == [50, 50];
    FirstSums(weights);
    hide NewestFirst, SumAt, HeldWeights;
    assert [0, 1][..0] == [] && [0, 1][..1] == [0];
    assert CutFrom([0, 1], weights, 50, 1) == 1;
    assert CutFrom([0, 1], weights, 50, 0) == 1;
  }

  lemma HeldOfTwo(first: Request, second: Request)
    ensures Held([first, second], KEY) ==
            (if Holds(first, KEY) then first.days else 0) + (if Holds(second, KEY) then second.days else 0)
  {
    assert HeldWeights([], KEY) == [];
    HeldAppend([], first, KEY);
    HeldAppend([first], second, KEY);
    assert [] + [first] == [first] && [first] + [second] == [first, second];
  }

  lemma OvertakenHeld()
    ensures FailAll(OPENED.db.requests, [0]) == OVERTAKEN.db.requests
    ensures Held(OVERTAKEN.db.requests, KEY) == 50
  {
    hide Held;
    HeldOfTwo(Newer(Failed, None), Older(Pending));
  }

  lemma Overtaking(c: Config)
    ensures Next(c, OPENED, PUSH) == OVERTAKEN
  {
    OvertakenFlags();
    OvertakenHeld();
    hide Flagged, FailAll, Held, HeldWeights, SumAt, IsListing;
  }

  lemma Finishing(c: Config)
    ensures Next(c, OVERTAKEN, ApproveFinish(0)) == COMMITTED
  {
    assert DebitRows(OVERTAKEN.db.ledger, 0) == 0 by {
      DebitRowsNone(OVERTAKEN.db.ledger, 0);
    }
    assert OVERTAKEN.approvals - {0} == map[];
  }

  lemma Ending(c: Config)
    requires c.maxRetries >= 1
    ensures var debited := Next(c, Next(c, COMMITTED, ApproveBegin(1)), ApproveAttempt(1, DELIVERED));
            Next(c, debited, ApproveFinish(1)) == STRANDED
  {
    var begun := Next(c, COMMITTED, ApproveBegin(1));
    var debited := Next(c, begun, ApproveAttempt(1, DELIVERED));
    assert debited.approvals - {1} == map[];
  }

  lemma One(c: Config, s: State, e: Event, after: State)
    requires Next(c, s, e) == after
    ensures Run(c, s, [e]) == after
  {
    hide Next;
    RunOn(c, s, [], e);
    assert [] + [e] == [e];
  }

  lemma Chain(c: Config, s: State, first: seq<Event>, middle: State, second: seq<Event>, after: State)
    requires Run(c, s, first) == middle && Run(c, middle, second) == after
    ensures Run(c, s, first + second) == after
  {
    hide Run;
    RunConcat(c, s, first, second);
  }

  lemma Two(c: Config, s: State, e1: Event, s1: State, e2: Event, s2: State)
    requires Next(c, s, e1) == s1 && Next(c, s1, e2) == s2
    ensures Run(c, s, [e1, e2]) == s2
  {
    hide Next;
    One(c, s, e1, s1);
    One(c, s1, e2, s2);
    Chain(c, s, [e1], s1, [e2], s2);
    assert [e1] + [e2] == [e1, e2];
  }

  lemma Four(c: Config, s: State, e1: Event, s1: State, e2: Event, s2: State,
             e3: Event, s3: State, e4: Event, s4: State)
    requires Next(c, s, e1) == s1 && Next(c, s1, e2) == s2 && Next(c, s2, e3) == s3 && Next(c, s3, e4) == s4
    ensures Run(c, s, [e1, e2, e3, e4]) == s4
  {
    hide Next;
    Two(c, s, e1, s1, e2, s2);
    Two(c, s2, e3, s3, e4, s4);
    Chain(c, s, [e1, e2], s2, [e3, e4], s4);
    assert [e1, e2] + [e3, e4] == [e1, e2, e3, e4];
  }

  lemma CreationEvents()
    ensures CREATION == [HcmWrite(KEY, 100), Refresh(KEY, 100), Create(KEY, 50, 2, None), Create(KEY, 50, 1, None)]
    ensures APPROVAL == [ApproveBegin(0), ApproveAttempt(0, DELIVERED)]
  {
  }

  lemma TurnEvents()
    ensures TURN == [PUSH, ApproveFinish(0), ApproveBegin(1), ApproveAttempt(1, DELIVERED)]
  {
  }

  lemma CreationRun(c: Config)
    ensures Run(c, INITIAL, CREATION) == CREATED
  {
    hide *;
    var seeded := Next(c, INITIAL, HcmWrite(KEY, 100));
    Seeding(c);
    CreatingFirst(c);
    CreatingSecond(c);
    CreationEvents();
    Four(c, INITIAL, HcmWrite(KEY, 100), seeded, Refresh(KEY, 100), SEEDED,
         Create(KEY, 50, 2, None), HALFWAY, Create(KEY, 50, 1, None), CREATED);
  }

  lemma OpeningRun(c: Config)
    requires c.maxRetries >= 1
    ensures Run(c, INITIAL, CREATION + APPROVAL) == OPENED
  {
    hide *;
    var begun := Next(c, CREATED, ApproveBegin(0));
    CreationRun(c);
    Beginning(c);
    CreationEvents();
    Two(c, CREATED, ApproveBegin(0), begun, ApproveAttempt(0, DELIVERED), OPENED);
    Chain(c, INITIAL, CREATION, CREATED, APPROVAL, OPENED);
  }

  lemma EndingRun(c: Config)
    requires c.maxRetries >= 1
    ensures Run(c, OPENED, TURN + [ApproveFinish(1)]) == STRANDED
  {
    hide *;
    var older := Next(c, COMMITTED, ApproveBegin(1));
    var debited := Next(c, older, ApproveAttempt(1, DELIVERED));
    Overtaking(c);
    Finishing(c);
    Ending(c);
    TurnEvents();
    Four(c, OPENED, PUSH, OVERTAKEN, ApproveFinish(0), COMMITTED,
         ApproveBegin(1), older, ApproveAttempt(1, DELIVERED), debited);
    One(c, debited, ApproveFinish(1), STRANDED);
    Chain(c, OPENED, TURN, debited, [ApproveFinish(1)], STRANDED);
  }

  /**
   * A run that no assumption on HCM excludes breaks the sum of reserved days and strands an
   * approval: HCM has debited the older request, no call or outbox row is left to commit it,
   * and its reservation is gone.
   */
  lemma StaleCommitStrands(c: Config)
    requires c.maxRetries >= 1
    ensures SoundRun(EVENTS, KEY)
    ensures Run(c, INITIAL, EVENTS) == STRANDED
    ensures STRANDED.db.requests[1].status == Approved && 1 in STRANDED.hcm.debits
    ensures 1 !in STRANDED.approvals && 1 !in STRANDED.db.outbox && STRANDED.worker.Idle?
    ensures STRANDED.db.balances[KEY].reserved == 0 && Held(STRANDED.db.requests, KEY) == 50
  {
    OpeningRun(c);
    EndingRun(c);
    StrandedHeld();
    hide Run, Held;
    Chain(c, INITIAL, CREATION + APPROVAL, OPENED, TURN + [ApproveFinish(1)], STRANDED);
  }

  lemma StrandedHeld()
    ensures Held(STRANDED.db.requests, KEY) == 50
  {
    hide Held;
    HeldOfTwo(Newer(Committed, Some("commit")), Older(Approved));
  }
}
