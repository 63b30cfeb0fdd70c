/**
 * What soundness adds to the invariant of every run: while HCM pushes nothing negative, no
 * balance is negative, and the ledger can be replayed.
 */
module Solvency {
  import opened Wrappers
  import opened Tables
  import opened Flagging
  import opened Hcm
  import opened System
  import opened Invariant
  import opened InvariantSteps

  predicate NonNegativeAt(db: Db, key: Key) {
    SnapshotAt(db.balances, key).balance >= 0
  }

  /** No first part of the balance's ledger rows adds up to less than zero. */
  ghost predicate PrefixesAt(ledger: seq<LedgerRow>, key: Key) {
    var rows := RowsOf(ledger, key);
    forall n | 0 <= n <= |rows| :: ProjectBalance(rows[..n]) >= 0
  }

  ghost predicate SolventAt(s: State, key: Key) {
    NonNegativeAt(s.db, key) && BalanceAt(s.hcm, key) >= 0 && PrefixesAt(s.db.ledger, key)
  }

  // ---------- the ledger grows at its end ----------

  /** A row that a transaction adds carries a debit key exactly when it is a DEBIT. */
  predicate KeyedIfDebit(row: LedgerRow) {
    row.debitKey.Some? <==> row.kind == Debit
  }

  ghost predicate LedgerGrows(ledger: seq<LedgerRow>, after: seq<LedgerRow>) {
    after == ledger || exists row :: KeyedIfDebit(row) && after == ledger + [row]
  }

  lemma StepGrowsLedger(c: Config, s: State, e: Event)
    ensures LedgerGrows(s.db.ledger, Next(c, s, e).db.ledger)
  {
    if !WritesTables(e) {
      OtherStepsKeepTables(c, s, e);
    } else if Next(c, s, e).db.ledger != s.db.ledger {
      var after := Next(c, s, e).db.ledger;
      var row := after[|after| - 1];
      assert KeyedIfDebit(row) && after == s.db.ledger + [row];
    }
  }

  // ---------- steps ----------

  lemma StepNonNegative(c: Config, s: State, e: Event, key: Key)
    requires NonNegativeAt(s.db, key)
    requires e.Push? && e.key == key && IsListing(s.db.requests, key, e.listing) ==> e.absolute >= 0
    ensures NonNegativeAt(Next(c, s, e).db, key)
  {
    if !WritesTables(e) {
      OtherStepsKeepTables(c, s, e);
    }
  }

  lemma StepHcmNonNegative(c: Config, s: State, e: Event, key: Key)
    requires BalanceAt(s.hcm, key) >= 0 && Sound(e, key)
    ensures BalanceAt(Next(c, s, e).hcm, key) >= 0
  {
  }

  /** The rows of a grown ledger that adds up to a non-negative snapshot. */
  lemma PrefixesGrow(db: Db, after: Db, key: Key)
    requires PrefixesAt(db.ledger, key) && LedgerGrows(db.ledger, after.ledger)
    requires LedgerAt(after, key) && NonNegativeAt(after, key)
    ensures PrefixesAt(after.ledger, key)
  {
    if after.ledger != db.ledger {
      var row :| KeyedIfDebit(row) && after.ledger == db.ledger + [row];
      RowsOfAppend(db.ledger, row, key);
      var rows, grown := RowsOf(db.ledger, key), RowsOf(after.ledger, key);
      forall n | 0 <= n <= |grown|
        ensures ProjectBalance(grown[..n]) >= 0
      {
        if n <= |rows| {
          assert grown[..n] == rows[..n];
        } else {
          assert grown[..n] == grown;
        }
      }
    }
  }

  lemma StepSolvent(c: Config, s: State, e: Event, key: Key)
    requires Inv(c, s) && SolventAt(s, key) && Sound(e, key)
    ensures SolventAt(Next(c, s, e), key)
  {
    hide Next;
    StepKeeps(c, s, e);
    StepNonNegative(c, s, e, key);
    StepHcmNonNegative(c, s, e, key);
    StepGrowsLedger(c, s, e);
    assert LedgerAt(Next(c, s, e).db, key);
    PrefixesGrow(s.db, Next(c, s, e).db, key);
  }

  lemma {:induction false} RunSolvent(c: Config, s: State, events: seq<Event>, key: Key)
    requires Inv(c, s) && SolventAt(s, key) && SoundRun(events, key)
    ensures SolventAt(Run(c, s, events), key)
  {
    hide Next, Inv, SolventAt;
    if events != [] {
      var init := events[..|events| - 1];
      RunPrefix(c, s, events, key);
      RunKeeps(c, s, init);
      RunSolvent(c, s, init, key);
      StepSolvent(c, Run(c, s, init), events[|events| - 1], key);
    }
  }

  lemma InitialSolvent(key: Key)
    ensures SolventAt(INITIAL, key)
  {
  }

  // ---------- runs ----------

  /** In every run, sound or not, the rows of a balance add up to its snapshot. */
  lemma LedgerProjectsSnapshot(c: Config, events: seq<Event>, key: Key)
    ensures var db := Run(c, INITIAL, events).db;
            ProjectBalance(RowsOf(db.ledger, key)) == SnapshotAt(db.balances, key).balance
  {
    hide Run;
    InitialInv(c);
    RunKeeps(c, INITIAL, events);
    assert LedgerAt(Run(c, INITIAL, events).db, key);
  }

  /**
   * The ledger refines the snapshot. In every run that is sound for a balance no first part of its rows
   * adds up to less than zero, so replaying them from zero never throws, and it rebuilds the snapshot.
   */
  lemma LedgerRebuildsSnapshot(c: Config, events: seq<Event>, key: Key)
    requires SoundRun(events, key)
    ensures var db := Run(c, INITIAL, events).db;
            var rows := RowsOf(db.ledger, key);
            && Replay(rows) == Some(SnapshotAt(db.balances, key).balance)
            && forall n | 0 <= n <= |rows| :: ProjectBalance(rows[..n]) >= 0
  {
    hide Run;
    InitialInv(c);
    InitialSolvent(key);
    RunSolvent(c, INITIAL, events, key);
    LedgerProjectsSnapshot(c, events, key);
    var db := Run(c, INITIAL, events).db;
    assert PrefixesAt(db.ledger, key);
    ReplayIsProjection(RowsOf(db.ledger, key));
  }

  /** In every run that is sound for a balance neither side ever holds a negative amount of it. */
  lemma NoNegativeBalance(c: Config, events: seq<Event>, key: Key)
    requires SoundRun(events, key)
    ensures var final := Run(c, INITIAL, events);
            && SnapshotAt(final.db.balances, key).balance >= 0
            && BalanceAt(final.hcm, key) >= 0
  {
    hide Run;
    InitialInv(c);
    InitialSolvent(key);
    RunSolvent(c, INITIAL, events, key);
  }

  /**
   * The ledger is append-only in every run. Not every row that HCM drives carries a debit key:
   * the DEBIT rows do and the adjustments do not.
   */
  lemma {:induction false} LedgerIsAppendOnly(c: Config, events: seq<Event>, n: nat)
    requires n <= |events|
    ensures var ledger := Run(c, INITIAL, events).db.ledger;
            && Run(c, INITIAL, events[..n]).db.ledger <= ledger
            && forall j | 0 <= j < |ledger| :: KeyedIfDebit(ledger[j])
    decreases |events|
  {
    hide Next, KeyedIfDebit;
    if events != [] {
      var init, last := events[..|events| - 1], events[|events| - 1];
      StepGrowsLedger(c, Run(c, INITIAL, init), last);
      LedgerIsAppendOnly(c, init, if n < |events| then n else n - 1);
      if n < |events| {
        assert init[..n] == events[..n];
      } else {
        assert events[..n] == events;
      }
    }
  }
}
