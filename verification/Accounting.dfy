/**
 * The account between the two sides in every run, whatever pushes, refreshes and outside writes
 * it holds.
 */
module Accounting {
  import opened Wrappers
  import opened Sums
  import opened Lifecycle
  import opened Tables
  import opened Transactions
  import opened Hcm
  import opened System
  import opened Invariant
  import opened InvariantSteps
  import opened ExactlyOnce
  import opened CrossSystem
  import opened LostDebits

  // ---------- the ledger: adjustments and debits ----------

  /** The sum of the balance's rows without a debit key: what pushes and refreshes brought. */
  function Adjusted(ledger: seq<LedgerRow>, key: Key): int {
    if ledger == [] then
      0
    else
      var last := ledger[|ledger| - 1];
      Adjusted(ledger[..|ledger| - 1], key) + if last.key == key && last.debitKey.None? then last.delta else 0
  }

  /** The sum of the balance's rows with a debit key. */
  function Debits(ledger: seq<LedgerRow>, key: Key): int {
    if ledger == [] then
      0
    else
      var last := ledger[|ledger| - 1];
      Debits(ledger[..|ledger| - 1], key) + if last.key == key && last.debitKey.Some? then last.delta else 0
  }

  lemma {:induction false} RowsSplit(ledger: seq<LedgerRow>, key: Key)
    ensures ProjectBalance(RowsOf(ledger, key)) == Adjusted(ledger, key) + Debits(ledger, key)
  {
    if ledger != [] {
      var init, last := ledger[..|ledger| - 1], ledger[|ledger| - 1];
      RowsSplit(init, key);
      assert ledger == init + [last];
      RowsOfAppend(init, last, key);
      if last.key == key {
        ProjectAppend(RowsOf(init, key), last);
      }
    }
  }

  /** Each request's days, as often as the ledger has a row with its debit key. */
  function RowWeights(ledger: seq<LedgerRow>, requests: seq<Request>, key: Key): (weights: seq<int>)
    ensures |weights| == |requests|
  {
    seq(|requests|, i requires 0 <= i < |requests| =>
      if requests[i].key == key then DebitRows(ledger, i) * requests[i].days else 0)
  }

  lemma {:induction false} DebitsAreRows(ledger: seq<LedgerRow>, requests: seq<Request>, key: Key)
    requires forall j | 0 <= j < |ledger| :: DebitRowOk(ledger[j], requests)
    ensures Debits(ledger, key) == -Sum(RowWeights(ledger, requests, key))
  {
    if ledger == [] {
      SumZero(RowWeights(ledger, requests, key));
    } else {
      var init, last := ledger[..|ledger| - 1], ledger[|ledger| - 1];
      DebitsAreRows(init, requests, key);
      assert DebitRowOk(last, requests);
      var weights := RowWeights(init, requests, key);
      if last.debitKey.Some? {
        var id := last.debitKey.value;
        var weight := if requests[id].key == key then weights[id] + requests[id].days else 0;
        assert ledger == init + [last];
        OneMoreRow(init, last, requests, key, id);
        SumUpdate(weights, id, weight);
      } else {
        assert RowWeights(ledger, requests, key) == weights;
      }
    }
  }

  lemma OneMoreRow(init: seq<LedgerRow>, last: LedgerRow, requests: seq<Request>, key: Key, id: RequestId)
    requires last.debitKey == Some(id) && id < |requests|
    ensures var weights := RowWeights(init, requests, key);
            RowWeights(init + [last], requests, key) ==
            weights[id := if requests[id].key == key then weights[id] + requests[id].days else 0]
  {
    forall i: nat | i < |requests|
      ensures DebitRows(init + [last], i) == DebitRows(init, i) + if i == id then 1 else 0
    {
      DebitRowsAppend(init, last, i);
    }
  }

  // ---------- what HCM recorded: committed, in doubt or lost ----------

  function CommittedWeights(requests: seq<Request>, key: Key): (weights: seq<int>)
    ensures |weights| == |requests|
  {
    seq(|requests|, i requires 0 <= i < |requests| =>
      if requests[i].key == key && requests[i].status == Committed then requests[i].days else 0)
  }

  function LostWeights(s: State, key: Key): (weights: seq<int>)
    ensures |weights| == |s.db.requests|
  {
    seq(|s.db.requests|, i requires 0 <= i < |s.db.requests| =>
      if s.db.requests[i].key == key && IsLost(s, i) then s.db.requests[i].days else 0)
  }

  /** The days that HCM took for requests that are FAILED here. */
  function LostDays(s: State, key: Key): int {
    Sum(LostWeights(s, key))
  }

  lemma {:induction false} SumOfThree(xs: seq<int>, ys: seq<int>, zs: seq<int>, all: seq<int>)
    requires |xs| == |ys| == |zs| == |all|
    requires forall i | 0 <= i < |all| :: all[i] == xs[i] + ys[i] + zs[i]
    ensures Sum(all) == Sum(xs) + Sum(ys) + Sum(zs)
  {
    if all != [] {
      var n := |all| - 1;
      SumOfThree(xs[..n], ys[..n], zs[..n], all[..n]);
    }
  }

  lemma RecordedSplits(c: Config, s: State, key: Key)
    requires Inv(c, s)
    ensures Recorded(s.hcm, |s.db.requests|, key) ==
            Sum(CommittedWeights(s.db.requests, key)) + Doubt(s, key) + LostDays(s, key)
  {
    var recorded := RecordedWeights(s.hcm.debits, |s.db.requests|, key);
    forall i | 0 <= i < |s.db.requests|
      ensures recorded[i] ==
              CommittedWeights(s.db.requests, key)[i] + DoubtWeights(s, key)[i] + LostWeights(s, key)[i]
    {
      RecordedOnce(c, s, i);
    }
    SumOfThree(CommittedWeights(s.db.requests, key), DoubtWeights(s, key), LostWeights(s, key), recorded);
  }

  /** A recorded request is COMMITTED, APPROVED or FAILED, with its record's key and days. */
  lemma RecordedOnce(c: Config, s: State, i: RequestId)
    requires Inv(c, s) && i < |s.db.requests|
    ensures i in s.hcm.debits ==>
              && Begun(s.db.requests[i].status)
              && s.hcm.debits[i].key == s.db.requests[i].key && s.hcm.debits[i].days == s.db.requests[i].days
    ensures s.db.requests[i].status == Committed ==> i in s.hcm.debits
  {
    assert CommitOk(s.db, s.hcm, i);
  }

  lemma RowsOfCommitted(c: Config, s: State, i: RequestId)
    requires Inv(c, s) && i < |s.db.requests|
    ensures DebitRows(s.db.ledger, i) == if s.db.requests[i].status == Committed then 1 else 0
  {
    assert CommitOk(s.db, s.hcm, i);
  }

  lemma DebitsAreCommitted(c: Config, s: State, key: Key)
    requires Inv(c, s)
    ensures Debits(s.db.ledger, key) == -Sum(CommittedWeights(s.db.requests, key))
  {
    assert forall j | 0 <= j < |s.db.ledger| :: DebitRowOk(s.db.ledger[j], s.db.requests);
    forall i: nat | i < |s.db.requests|
      ensures DebitRows(s.db.ledger, i) == if s.db.requests[i].status == Committed then 1 else 0
    {
      RowsOfCommitted(c, s, i);
    }
    hide Inv, DebitRowOk;
    DebitsAreRows(s.db.ledger, s.db.requests, key);
    assert RowWeights(s.db.ledger, s.db.requests, key) == CommittedWeights(s.db.requests, key);
  }

  // ---------- what outside writers supplied ----------

  /** By how much outside writes at HCM have raised its balance over a run. */
  ghost function OutsideSupply(c: Config, s: State, events: seq<Event>, key: Key): int {
    if events == [] then
      0
    else
      var init, last := events[..|events| - 1], events[|events| - 1];
      OutsideSupply(c, s, init, key) +
      if last.HcmWrite? && last.key == key then last.balance - BalanceAt(Run(c, s, init).hcm, key) else 0
  }

  lemma {:induction false} SuppliedIsOutside(c: Config, s: State, events: seq<Event>, key: Key)
    requires Inv(c, s)
    ensures SuppliedAt(Run(c, s, events), key) == SuppliedAt(s, key) + OutsideSupply(c, s, events, key)
  {
    hide Next, Inv, SuppliedAt;
    if events != [] {
      var init, last := events[..|events| - 1], events[|events| - 1];
      RunKeeps(c, s, init);
      SuppliedIsOutside(c, s, init, key);
      StepSupplies(c, Run(c, s, init), last, key);
    }
  }

  lemma StepSupplies(c: Config, s: State, e: Event, key: Key)
    requires Inv(c, s)
    ensures SuppliedAt(Next(c, s, e), key) ==
            SuppliedAt(s, key) +
            if e.HcmWrite? && e.key == key then e.balance - BalanceAt(s.hcm, key) else 0
  {
    if !(e.HcmWrite? && e.key == key) {
      StepConserves(c, s, e, key);
    }
  }

  // ---------- the account ----------

  /**
   * In every run the local balance exceeds HCM's by what pushes and refreshes brought here, less
   * what outside writers brought there, plus the days in doubt, plus the days that HCM took for
   * requests that are FAILED here.
   */
  lemma AccountsBalance(c: Config, events: seq<Event>, key: Key)
    ensures var final := Run(c, INITIAL, events);
            SnapshotAt(final.db.balances, key).balance - BalanceAt(final.hcm, key) ==
            Adjusted(final.db.ledger, key) - OutsideSupply(c, INITIAL, events, key)
            + Doubt(final, key) + LostDays(final, key)
  {
    var final := Run(c, INITIAL, events);
    InitialInv(c);
    RunKeeps(c, INITIAL, events);
    SuppliedIsOutside(c, INITIAL, events, key);
    assert LedgerAt(final.db, key);
    hide Run, Inv;
    RowsSplit(final.db.ledger, key);
    DebitsAreCommitted(c, final, key);
    RecordedSplits(c, final, key);
  }
}
