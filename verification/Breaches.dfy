/**
 * Shortest runs into each broken promise of module ExactConditions. Module Stranding has the
 * run in which a stale closing transaction breaks two more.
 */
module Breaches {
  import opened Wrappers
  import opened Sums
  import opened Lifecycle
  import opened Balance
  import opened Tables
  import opened Flagging
  import opened Transactions
  import opened Hcm
  import opened System
  import opened Reservations
  import opened Solvency
  import opened Stranding

  // ---------- a negative balance ----------

  /** HCM's balance turns negative after seeding, and reconciliation pushes what HCM answers. */
  const SOURING := [HcmWrite(KEY, 100), Refresh(KEY, 100), HcmWrite(KEY, -1), Push(KEY, -1, [])]

  /** The negative answer is stored; this run alone is not sound. */
  lemma NegativePushIsStored(c: Config)
    ensures Run(c, INITIAL, SOURING[..3]).db.balances == map[KEY := Snapshot(100, 0)]
    ensures BalanceAt(Run(c, INITIAL, SOURING[..3]).hcm, KEY) == -1
    ensures var final := Run(c, INITIAL, SOURING);
            final.db.balances == map[KEY := Snapshot(-1, 0)] && !NonNegativeAt(final.db, KEY)
  {
    var written, soured := Next(c, INITIAL, HcmWrite(KEY, 100)), Next(c, SEEDED, HcmWrite(KEY, -1));
    Seeding(c);
    Souring(c);
    hide Next;
    Two(c, INITIAL, HcmWrite(KEY, 100), written, Refresh(KEY, 100), SEEDED);
    One(c, SEEDED, HcmWrite(KEY, -1), soured);
    Chain(c, INITIAL, [HcmWrite(KEY, 100), Refresh(KEY, 100)], SEEDED, [HcmWrite(KEY, -1)], soured);
    assert SOURING[..3] == [HcmWrite(KEY, 100), Refresh(KEY, 100)] + [HcmWrite(KEY, -1)];
    One(c, soured, Push(KEY, -1, []), Next(c, soured, Push(KEY, -1, [])));
    Chain(c, INITIAL, SOURING[..3], soured, [Push(KEY, -1, [])], Next(c, soured, Push(KEY, -1, [])));
    hide Run;
    assert SOURING == SOURING[..3] + [Push(KEY, -1, [])];
  }

  lemma Souring(c: Config)
    ensures var soured := Next(c, SEEDED, HcmWrite(KEY, -1));
            && soured.db == SEEDED.db && BalanceAt(soured.hcm, KEY) == -1
            && Next(c, soured, Push(KEY, -1, [])).db.balances == map[KEY := Snapshot(-1, 0)]
  {
    var soured := Next(c, SEEDED, HcmWrite(KEY, -1));
    assert soured.db == SEEDED.db && BalanceAt(soured.hcm, KEY) == -1;
    hide Next;
    PushOnEmpty(c, soured, KEY, -1);
  }

  lemma PushOnEmpty(c: Config, s: State, key: Key, absolute: int)
    requires s.db.requests == [] && absolute < 0
    ensures Next(c, s, Push(key, absolute, [])).db.balances == s.db.balances[key := Snapshot(absolute, 0)]
  {
    hide PushTx, IsListing;
    PushWithoutRequests(s.db, key, absolute);
  }

  lemma PushWithoutRequests(db: Db, key: Key, absolute: int)
    requires db.requests == [] && absolute < 0
    ensures IsListing(db.requests, key, [])
    ensures PushTx(db, key, absolute, []).db.balances == db.balances[key := Snapshot(absolute, 0)]
  {
    var after := PushTx(db, key, absolute, []).db;
    assert HeldWeights(after.requests, key) == [];
    assert SumAt([], HeldWeights(db.requests, key)) == 0;
  }

  // ---------- one request on a balance of ten days ----------

  function Asked(status: Status): Request {
    Request(KEY, 50, status, 1, None, None)
  }

  /** Ten days at HCM and here, and one PENDING request of five. */
  const OPENING := [HcmWrite(KEY, 100), Refresh(KEY, 100), Create(KEY, 50, 1, None)]

  const OPEN := SEEDED.(db := SEEDED.db.(
    balances := map[KEY := Snapshot(100, 50)], requests := [Asked(Pending)]))

  lemma Opening(c: Config)
    ensures Run(c, INITIAL, OPENING) == OPEN
  {
    var written := Next(c, INITIAL, HcmWrite(KEY, 100));
    Seeding(c);
    CreatingOne(c);
    hide Next;
    Two(c, INITIAL, HcmWrite(KEY, 100), written, Refresh(KEY, 100), SEEDED);
    One(c, SEEDED, Create(KEY, 50, 1, None), OPEN);
    Chain(c, INITIAL, OPENING[..2], SEEDED, OPENING[2..], OPEN);
    assert OPENING == OPENING[..2] + OPENING[2..];
  }

  lemma CreatingOne(c: Config)
    ensures Next(c, SEEDED, Create(KEY, 50, 1, None)) == OPEN
  {
    hide IsListing, PushTx;
  }

  // ---------- more days reserved than the balance has ----------

  /** A refresh to three days leaves five reserved. */
  lemma RefreshOverbooks(c: Config)
    ensures SoundRun(OPENING + [Refresh(KEY, 30)], KEY)
    ensures var final := Run(c, INITIAL, OPENING + [Refresh(KEY, 30)]);
            final.db.balances == map[KEY := Snapshot(30, 50)] && !FitsAt(final.db, KEY)
  {
    Refreshing(c);
    OpenedThen(c, Refresh(KEY, 30));
    hide Run, Next;
  }

  lemma Refreshing(c: Config)
    ensures Next(c, OPEN, Refresh(KEY, 30)).db.balances == map[KEY := Snapshot(30, 50)]
  {
    hide IsListing, PushTx;
  }

  lemma OpenedThen(c: Config, e: Event)
    ensures Run(c, INITIAL, OPENING + [e]) == Next(c, OPEN, e)
  {
    hide Next;
    Opening(c);
    One(c, OPEN, e, Next(c, OPEN, e));
    Chain(c, INITIAL, OPENING, OPEN, [e], Next(c, OPEN, e));
  }

  // ---------- a PENDING request that fails ----------

  /** A push to three days fails the PENDING request, which the transition table does not allow. */
  lemma PushFailsPending(c: Config)
    ensures SoundRun(OPENING + [Push(KEY, 30, [0])], KEY)
    ensures OPEN.db.requests[0].status == Pending && !CanTransition(Pending, Status.Failed)
    ensures Run(c, INITIAL, OPENING) == OPEN
    ensures Run(c, INITIAL, OPENING + [Push(KEY, 30, [0])]).db.requests == [Asked(Status.Failed)]
  {
    hide Run, Next;
    Pushing(c);
    Opening(c);
    OpenedThen(c, Push(KEY, 30, [0]));
  }

  lemma Pushing(c: Config)
    ensures Next(c, OPEN, Push(KEY, 30, [0])).db.requests == [Asked(Status.Failed)]
  {
    PushFlagsIt();
    hide Flagged, IsListing, Held, HeldWeights, SumAt;
  }

  lemma PushFlagsIt()
    ensures IsListing(OPEN.db.requests, KEY, [0])
    ensures Flagged(OPEN.db.requests, KEY, 30, [0]) == [0]
  {
    LoneIsFlagged(OPEN.db.requests, KEY, 30);
  }

  /** A lone held request is flagged by a push to less than its days. */
  lemma LoneIsFlagged(requests: seq<Request>, key: Key, absolute: int)
    requires |requests| == 1 && Holds(requests[0], key) && requests[0].days > absolute
    ensures IsListing(requests, key, [0])
    ensures Flagged(requests, key, absolute, [0]) == [0]
  {
    var weights, days := HeldWeights(requests, key), requests[0].days;
    assert weights == [days];
    assert [] + [0] == [0] && [0][..0] == [] && [0][..1] == [0];
    SumAtAppend([], 0, weights);
    LoneOrder(requests);
    hide HeldWeights, NewestFirst, SumAt;
    assert CutFrom([0], weights, days - absolute, 1) == 1;
    assert CutFrom([0], weights, days - absolute, 0) == 1;
  }

  lemma LoneOrder(requests: seq<Request>)
    requires |requests| == 1
    ensures NewestFirst([0], requests) == [0]
  {
    assert [0][..0] == [];
    assert NewestFirst([], requests) == [];
  }

  // ---------- a ledger row without a debit key ----------

  const REFUSED := Conditions(ForceInsufficient, Delivered, "unused")

  const REFUSAL := [ApproveBegin(0), ApproveAttempt(0, REFUSED), ApproveFinish(0)]

  /** Both a refresh and a refused approve call add a row that carries no debit key. */
  lemma RowsWithoutDebitKey(c: Config)
    ensures SoundRun(OPENING + REFUSAL, KEY)
    ensures Run(c, INITIAL, OPENING + REFUSAL).db.ledger ==
            [AdjustRow(KEY, 100, None), AdjustRow(KEY, 0, Some(0))]
  {
    Opening(c);
    Refusing(c);
    hide Run, Next;
    Chain(c, INITIAL, OPENING, OPEN, REFUSAL, Run(c, OPEN, REFUSAL));
  }

  lemma Refusing(c: Config)
    ensures Run(c, OPEN, REFUSAL).db.ledger == [AdjustRow(KEY, 100, None), AdjustRow(KEY, 0, Some(0))]
  {
    var begun := Next(c, OPEN, ApproveBegin(0));
    var refused := Next(c, begun, ApproveAttempt(0, REFUSED));
    var ended := Next(c, refused, ApproveFinish(0));
    assert refused.approvals[0].phase == TurnedDown(InsufficientAtHcm);
    assert ended.db.ledger == [AdjustRow(KEY, 100, None), AdjustRow(KEY, 0, Some(0))];
    hide Next;
    Two(c, OPEN, ApproveBegin(0), begun, ApproveAttempt(0, REFUSED), refused);
    One(c, refused, ApproveFinish(0), ended);
    Chain(c, OPEN, REFUSAL[..2], refused, REFUSAL[2..], ended);
    assert REFUSAL == REFUSAL[..2] + REFUSAL[2..];
  }
}
