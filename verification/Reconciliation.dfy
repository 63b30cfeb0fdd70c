/** Batches of absolute balances and the reconciliation pass, as folds over pushes. */
module Reconciliation {
  import opened Wrappers
  import opened Sums
  import opened Lifecycle
  import opened Tables
  import opened Flagging
  import opened Transactions
  import opened System
  import opened Invariant
  import opened Delivery

  /** One batch entry, with the order in which the database lists the held requests of its key. */
  datatype Entry = Entry(key: Key, absolute: int, listing: seq<RequestId>)

  datatype Ingested = Ingested(db: Db, changed: nat, flagged: seq<RequestId>)

  ghost predicate ListingsWithin(db: Db, entries: seq<Entry>) {
    forall n | 0 <= n < |entries| :: Within(entries[n].listing, |db.requests|)
  }

  /** All entries in one transaction, one push after the other. */
  function IngestBatch(db: Db, entries: seq<Entry>): (ingested: Ingested)
    requires ListingsWithin(db, entries)
    ensures |ingested.db.requests| == |db.requests|
  {
    if entries == [] then
      Ingested(db, 0, [])
    else
      var before := IngestBatch(db, entries[..|entries| - 1]);
      var entry := entries[|entries| - 1];
      var pushed := PushTx(before.db, entry.key, entry.absolute, entry.listing);
      Ingested(pushed.db,
               before.changed + if pushed.delta != 0 then 1 else 0,
               before.flagged + pushed.flagged)
  }

  ghost predicate DistinctKeys(entries: seq<Entry>) {
    forall m, n | 0 <= m < n < |entries| :: entries[m].key != entries[n].key
  }

  /** The listings are what the database would return before the batch. */
  ghost predicate Listed(db: Db, entries: seq<Entry>) {
    forall n | 0 <= n < |entries| :: IsListing(db.requests, entries[n].key, entries[n].listing)
  }

  // ---------- a push depends on its own balance only ----------

  /** The two tables agree on everything that a push of `key` looks at. */
  ghost predicate SameFor(before: seq<Request>, after: seq<Request>, key: Key) {
    && |after| == |before|
    && HeldWeights(after, key) == HeldWeights(before, key)
    && (forall i | 0 <= i < |before| :: after[i].createdAt == before[i].createdAt)
  }

  lemma {:induction false} SameInsert(sorted: seq<RequestId>, id: RequestId, before: seq<Request>, after: seq<Request>)
    requires |after| == |before| && Within(sorted, |before|) && id < |before|
    requires forall i | 0 <= i < |before| :: after[i].createdAt == before[i].createdAt
    ensures InsertByAge(sorted, id, after) == InsertByAge(sorted, id, before)
  {
    if sorted != [] {
      SameInsert(sorted[..|sorted| - 1], id, before, after);
    }
  }

  lemma {:induction false} SameOrder(listing: seq<RequestId>, before: seq<Request>, after: seq<Request>)
    requires |after| == |before| && Within(listing, |before|)
    requires forall i | 0 <= i < |before| :: after[i].createdAt == before[i].createdAt
    ensures NewestFirst(listing, after) == NewestFirst(listing, before)
  {
    if listing != [] {
      SameOrder(listing[..|listing| - 1], before, after);
      SameInsert(NewestFirst(listing[..|listing| - 1], before), listing[|listing| - 1], before, after);
    }
  }

  lemma SameFlags(before: seq<Request>, after: seq<Request>, entry: Entry)
    requires SameFor(before, after, entry.key) && Within(entry.listing, |before|)
    ensures Flagged(after, entry.key, entry.absolute, entry.listing) ==
            Flagged(before, entry.key, entry.absolute, entry.listing)
  {
    SameOrder(entry.listing, before, after);
  }

  // ---------- what a batch of distinct keys does ----------

  /** A lone push of the entry, before anything else of the batch, flags the request. */
  ghost predicate Flags(db: Db, entry: Entry, i: RequestId) {
    Within(entry.listing, |db.requests|) &&
    i in Flagged(db.requests, entry.key, entry.absolute, entry.listing)
  }

  ghost predicate FlaggedByAny(db: Db, entries: seq<Entry>, i: RequestId) {
    exists entry :: entry in entries && Flags(db, entry, i)
  }

  predicate Differs(db: Db, entry: Entry) {
    entry.absolute != SnapshotAt(db.balances, entry.key).balance
  }

  /** The entries whose amount differs from the snapshot before the batch. */
  function Changes(db: Db, entries: seq<Entry>): set<Entry> {
    set entry | entry in entries && Differs(db, entry)
  }

  ghost predicate Touches(entries: seq<Entry>, key: Key) {
    exists entry :: entry in entries && entry.key == key
  }

  /** The ledger rows a lone push of the entry adds. */
  function RowsAdded(db: Db, entry: Entry): seq<LedgerRow> {
    if Differs(db, entry)
    then [AdjustRow(entry.key, entry.absolute - SnapshotAt(db.balances, entry.key).balance, None)]
    else []
  }

  /** The batch has left this entry's balance as a lone push of the entry would have. */
  ghost predicate ActsAsPush(db: Db, entry: Entry, after: Db) {
    && Within(entry.listing, |db.requests|)
    && entry.key in after.balances
    && after.balances[entry.key] ==
       PushTx(db, entry.key, entry.absolute, entry.listing).db.balances[entry.key]
    && RowsOf(after.ledger, entry.key) == RowsOf(db.ledger, entry.key) + RowsAdded(db, entry)
  }

  /** The batch has left this balance alone. */
  ghost predicate Spares(db: Db, key: Key, after: Db) {
    && (key in after.balances <==> key in db.balances)
    && (key in db.balances ==> after.balances[key] == db.balances[key])
    && RowsOf(after.ledger, key) == RowsOf(db.ledger, key)
  }

  ghost predicate RequestsFollow(db: Db, entries: seq<Entry>, after: Db) {
    && |after.requests| == |db.requests|
    && forall i: nat | i < |db.requests| ::
         after.requests[i] ==
         if FlaggedByAny(db, entries, i) then db.requests[i].(status := Failed) else db.requests[i]
  }

  /** Everything about a batch, entry by entry and on the state before it. */
  ghost predicate ActsPerKey(db: Db, entries: seq<Entry>, ingested: Ingested) {
    && (forall entry | entry in entries :: ActsAsPush(db, entry, ingested.db))
    && (forall key | !Touches(entries, key) :: Spares(db, key, ingested.db))
    && RequestsFollow(db, entries, ingested.db)
    && (forall i :: i in ingested.flagged <==> FlaggedByAny(db, entries, i))
    && ingested.changed == |Changes(db, entries)|
    && ingested.db.outbox == db.outbox
  }

  lemma SplitLast(entries: seq<Entry>)
    requires entries != [] && DistinctKeys(entries)
    ensures var init, last := entries[..|entries| - 1], entries[|entries| - 1];
            && DistinctKeys(init)
            && (forall entry :: entry in entries <==> entry in init || entry == last)
            && !Touches(init, last.key)
  {
    assert entries == entries[..|entries| - 1] + [entries[|entries| - 1]];
  }

  lemma ChangedByLast(db: Db, entries: seq<Entry>)
    requires entries != [] && DistinctKeys(entries)
    ensures var last := entries[|entries| - 1];
            |Changes(db, entries)| ==
            |Changes(db, entries[..|entries| - 1])| + if Differs(db, last) then 1 else 0
  {
    var init, last := entries[..|entries| - 1], entries[|entries| - 1];
    SplitLast(entries);
    if Differs(db, last) {
      assert Changes(db, entries) == Changes(db, init) + {last};
      assert last !in Changes(db, init);
    } else {
      assert Changes(db, entries) == Changes(db, init);
    }
  }

  /** A flagged request belongs to a balance that the batch touches. */
  lemma FlaggedIsTouched(db: Db, entries: seq<Entry>, i: RequestId)
    requires Listed(db, entries) && i < |db.requests| && FlaggedByAny(db, entries, i)
    ensures Touches(entries, db.requests[i].key)
  {
    var entry :| entry in entries && Flags(db, entry, i);
    FlaggedAreHeld(db.requests, entry.key, entry.absolute, entry.listing);
    assert entry.key == db.requests[i].key;
  }

  /** After part of a batch, an untouched balance looks to a push as it did before. */
  lemma UntouchedSame(db: Db, entries: seq<Entry>, after: Db, entry: Entry)
    requires Listed(db, entries) && RequestsFollow(db, entries, after)
    requires !Touches(entries, entry.key)
    requires IsListing(db.requests, entry.key, entry.listing)
    ensures SameFor(db.requests, after.requests, entry.key)
    ensures IsListing(after.requests, entry.key, entry.listing)
  {
    forall i: nat | i < |db.requests|
      ensures Holds(after.requests[i], entry.key) <==> Holds(db.requests[i], entry.key)
      ensures after.requests[i].days == db.requests[i].days
      ensures after.requests[i].createdAt == db.requests[i].createdAt
    {
      if FlaggedByAny(db, entries, i) {
        FlaggedIsTouched(db, entries, i);
      }
    }
    assert HeldWeights(after.requests, entry.key) == HeldWeights(db.requests, entry.key);
  }

  /** As seen from an untouched balance, the last push sees what it would have seen first. */
  lemma PushSeesTheSame(db: Db, entries: seq<Entry>, after: Db, entry: Entry)
    requires Listed(db, entries) && RequestsFollow(db, entries, after)
    requires !Touches(entries, entry.key) && Spares(db, entry.key, after)
    requires IsListing(db.requests, entry.key, entry.listing)
    ensures IsListing(after.requests, entry.key, entry.listing)
    ensures var early := PushTx(db, entry.key, entry.absolute, entry.listing);
            var late := PushTx(after, entry.key, entry.absolute, entry.listing);
            && late.flagged == early.flagged && late.delta == early.delta
            && late.db.balances[entry.key] == early.db.balances[entry.key]
  {
    UntouchedSame(db, entries, after, entry);
    SameFlags(db.requests, after.requests, entry);
    var flagged := Flagged(db.requests, entry.key, entry.absolute, entry.listing);
    FlaggedAreHeld(db.requests, entry.key, entry.absolute, entry.listing);
    FlaggedAreHeld(after.requests, entry.key, entry.absolute, entry.listing);
    HeldAfterFailing(db.requests, entry.key, flagged);
    HeldAfterFailing(after.requests, entry.key, flagged);
  }

  /** A batch of distinct keys acts on each key alone, whatever the order of its entries. */
  lemma {:induction false} BatchActsPerKey(db: Db, entries: seq<Entry>)
    requires DistinctKeys(entries) && Listed(db, entries)
    ensures ListingsWithin(db, entries)
    ensures ActsPerKey(db, entries, IngestBatch(db, entries))
  {
    if entries != [] {
      var init, last := entries[..|entries| - 1], entries[|entries| - 1];
      SplitLast(entries);
      BatchActsPerKey(db, init);
      var before := IngestBatch(db, init);
      PushSeesTheSame(db, init, before.db, last);
      ChangedByLast(db, entries);
      LastActs(db, entries, before);
    } else {
      assert Changes(db, entries) == {};
    }
  }

  /** The last push joins the batch; it sees what it would have seen first. */
  ghost predicate LastJoins(db: Db, entries: seq<Entry>, before: Ingested) {
    && entries != [] && DistinctKeys(entries) && Listed(db, entries) && ListingsWithin(db, entries)
    && before == IngestBatch(db, entries[..|entries| - 1])
    && ActsPerKey(db, entries[..|entries| - 1], before)
    && var last := entries[|entries| - 1];
       var early := PushTx(db, last.key, last.absolute, last.listing);
       var late := PushTx(before.db, last.key, last.absolute, last.listing);
       && late.flagged == early.flagged && late.delta == early.delta
       && late.db.balances[last.key] == early.db.balances[last.key]
  }

  lemma LastActs(db: Db, entries: seq<Entry>, before: Ingested)
    requires LastJoins(db, entries, before)
    requires var last := entries[|entries| - 1];
             |Changes(db, entries)| ==
             |Changes(db, entries[..|entries| - 1])| + if Differs(db, last) then 1 else 0
    ensures ActsPerKey(db, entries, IngestBatch(db, entries))
  {
    LastActsOnKeys(db, entries, before);
    LastActsOnRequests(db, entries, before);
  }

  lemma LastActsOnRequests(db: Db, entries: seq<Entry>, before: Ingested)
    requires LastJoins(db, entries, before)
    ensures RequestsFollow(db, entries, IngestBatch(db, entries).db)
    ensures forall i :: i in IngestBatch(db, entries).flagged <==> FlaggedByAny(db, entries, i)
  {
    hide Held, SumAt, HeldWeights, Flagged;
    forall i
      ensures FlaggedByAny(db, entries, i) <==>
              FlaggedByAny(db, entries[..|entries| - 1], i) ||
              i in Flagged(db.requests, entries[|entries| - 1].key,
                           entries[|entries| - 1].absolute, entries[|entries| - 1].listing)
    {
      FlaggedByLast(db, entries, i);
    }
  }

  lemma LastActsOnKeys(db: Db, entries: seq<Entry>, before: Ingested)
    requires LastJoins(db, entries, before)
    ensures forall entry | entry in entries :: ActsAsPush(db, entry, IngestBatch(db, entries).db)
    ensures forall key | !Touches(entries, key) :: Spares(db, key, IngestBatch(db, entries).db)
  {
    hide IngestBatch, ActsAsPush, Spares;
    forall entry | entry in entries
      ensures ActsAsPush(db, entry, IngestBatch(db, entries).db)
    {
      LastActsOnEntry(db, entries, before, entry);
    }
    forall key | !Touches(entries, key)
      ensures Spares(db, key, IngestBatch(db, entries).db)
    {
      LastSpares(db, entries, before, key);
    }
  }

  lemma LastActsOnEntry(db: Db, entries: seq<Entry>, before: Ingested, entry: Entry)
    requires LastJoins(db, entries, before) && entry in entries
    ensures ActsAsPush(db, entry, IngestBatch(db, entries).db)
  {
    hide Flagged, FailAll, Held, HeldWeights, SumAt;
    var init, last := entries[..|entries| - 1], entries[|entries| - 1];
    SplitLast(entries);
    LedgerOfPush(before.db, last, entry.key);
    if entry != last {
      assert ActsAsPush(db, entry, before.db);
      assert Touches(init, entry.key);
    } else {
      assert Spares(db, last.key, before.db);
    }
  }

  lemma LastSpares(db: Db, entries: seq<Entry>, before: Ingested, key: Key)
    requires LastJoins(db, entries, before) && !Touches(entries, key)
    ensures Spares(db, key, IngestBatch(db, entries).db)
  {
    LedgerOfPush(before.db, entries[|entries| - 1], key);
    NotTouchedBefore(entries, key);
    assert Spares(db, key, before.db);
  }

  lemma FlaggedByLast(db: Db, entries: seq<Entry>, i: RequestId)
    requires entries != [] && DistinctKeys(entries) && ListingsWithin(db, entries)
    ensures var last := entries[|entries| - 1];
            FlaggedByAny(db, entries, i) <==>
            FlaggedByAny(db, entries[..|entries| - 1], i) ||
            i in Flagged(db.requests, last.key, last.absolute, last.listing)
  {
    var last := entries[|entries| - 1];
    SplitLast(entries);
    assert Flags(db, last, i) <==> i in Flagged(db.requests, last.key, last.absolute, last.listing);
  }

  lemma NotTouchedBefore(entries: seq<Entry>, key: Key)
    requires entries != [] && DistinctKeys(entries) && !Touches(entries, key)
    ensures !Touches(entries[..|entries| - 1], key) && key != entries[|entries| - 1].key
  {
    SplitLast(entries);
  }

  lemma LedgerOfPush(db: Db, entry: Entry, key: Key)
    requires Within(entry.listing, |db.requests|)
    ensures var after := PushTx(db, entry.key, entry.absolute, entry.listing).db;
            RowsOf(after.ledger, key) ==
            RowsOf(db.ledger, key) + if key == entry.key then RowsAdded(db, entry) else []
  {
    if Differs(db, entry) {
      var delta := entry.absolute - SnapshotAt(db.balances, entry.key).balance;
      RowsOfAppend(db.ledger, AdjustRow(entry.key, delta, None), key);
    }
  }

  // ---------- a batch is a run of pushes ----------

  /** In a batch of distinct keys the entries before one leave its listing a listing. */
  lemma ListingStays(db: Db, entries: seq<Entry>, n: nat)
    requires DistinctKeys(entries) && Listed(db, entries) && n < |entries|
    ensures ListingsWithin(db, entries[..n])
    ensures IsListing(IngestBatch(db, entries[..n]).db.requests, entries[n].key, entries[n].listing)
  {
    var init := entries[..n];
    BatchActsPerKey(db, init);
    assert !Touches(init, entries[n].key);
    assert Spares(db, entries[n].key, IngestBatch(db, init).db);
    PushSeesTheSame(db, init, IngestBatch(db, init).db, entries[n]);
  }

  function PushEvents(entries: seq<Entry>): seq<Event> {
    if entries == [] then
      []
    else
      var last := entries[|entries| - 1];
      PushEvents(entries[..|entries| - 1]) + [Push(last.key, last.absolute, last.listing)]
  }

  lemma PushStep(c: Config, s: State, key: Key, absolute: int, listing: seq<RequestId>)
    requires IsListing(s.db.requests, key, listing)
    ensures Next(c, s, Push(key, absolute, listing)) == s.(db := PushTx(s.db, key, absolute, listing).db)
  {
    hide PushTx;
  }

  /** Every entry's listing is one that the database can return when its turn comes. */
  ghost predicate ListedInTurn(db: Db, entries: seq<Entry>) {
    && ListingsWithin(db, entries)
    && forall n | 0 <= n < |entries| ::
         IsListing(IngestBatch(db, entries[..n]).db.requests, entries[n].key, entries[n].listing)
  }

  /** With distinct keys that is the listing from before the batch. */
  lemma DistinctKeysListedInTurn(db: Db, entries: seq<Entry>)
    requires DistinctKeys(entries) && Listed(db, entries)
    ensures ListedInTurn(db, entries)
  {
    forall n | 0 <= n < |entries|
      ensures IsListing(IngestBatch(db, entries[..n]).db.requests, entries[n].key, entries[n].listing)
    {
      ListingStays(db, entries, n);
    }
  }

  /**
   * What holds in every run therefore holds after every batch, one that names a key repeatedly
   * included.
   */
  lemma {:induction false} BatchIsRun(c: Config, s: State, entries: seq<Entry>)
    requires ListedInTurn(s.db, entries)
    ensures Run(c, s, PushEvents(entries)) == s.(db := IngestBatch(s.db, entries).db)
  {
    hide PushTx, IsListing, Next;
    if entries != [] {
      var init, last := entries[..|entries| - 1], entries[|entries| - 1];
      assert forall n | 0 <= n < |init| :: init[..n] == entries[..n];
      assert init == entries[..|init|];
      BatchIsRun(c, s, init);
      RunOn(c, s, PushEvents(init), Push(last.key, last.absolute, last.listing));
      PushStep(c, Run(c, s, PushEvents(init)), last.key, last.absolute, last.listing);
    }
  }

  // ---------- the order of a batch is irrelevant ----------

  lemma ShuffledEntries(entries: seq<Entry>, shuffled: seq<Entry>)
    requires DistinctKeys(entries) && multiset(shuffled) == multiset(entries)
    ensures DistinctKeys(shuffled)
    ensures forall entry :: entry in shuffled <==> entry in entries
  {
    assert forall entry :: entry in shuffled <==> entry in multiset(shuffled);
    assert forall entry :: entry in entries <==> entry in multiset(entries);
    DistinctShuffled(entries, shuffled);
    forall m, n | 0 <= m < n < |shuffled|
      ensures shuffled[m].key != shuffled[n].key
    {
      assert shuffled[m] in entries && shuffled[n] in entries;
    }
  }

  /**
   * Any order of the entries gives the same balances, requests and per-balance ledger rows,
   * the same number of changes and the same flagged requests.
   */
  lemma BatchOrderIsIrrelevant(db: Db, entries: seq<Entry>, shuffled: seq<Entry>)
    requires DistinctKeys(entries) && Listed(db, entries)
    requires multiset(shuffled) == multiset(entries)
    ensures ListingsWithin(db, entries) && ListingsWithin(db, shuffled)
    ensures var one, other := IngestBatch(db, entries), IngestBatch(db, shuffled);
            && other.db.balances == one.db.balances
            && other.db.requests == one.db.requests
            && other.db.outbox == one.db.outbox
            && (forall key: Key :: RowsOf(other.db.ledger, key) == RowsOf(one.db.ledger, key))
            && other.changed == one.changed
            && (forall i :: i in other.flagged <==> i in one.flagged)
  {
    hide IngestBatch, PushTx;
    ShuffledEntries(entries, shuffled);
    forall n | 0 <= n < |shuffled|
      ensures IsListing(db.requests, shuffled[n].key, shuffled[n].listing)
    {
      assert shuffled[n] in entries;
    }
    BatchActsPerKey(db, entries);
    BatchActsPerKey(db, shuffled);
    var one, other := IngestBatch(db, entries), IngestBatch(db, shuffled);
    assert Changes(db, shuffled) == Changes(db, entries);
    SameFollowers(db, entries, shuffled, one.db, other.db);
    forall key: Key
      ensures RowsOf(other.db.ledger, key) == RowsOf(one.db.ledger, key)
      ensures key in other.db.balances <==> key in one.db.balances
      ensures key in one.db.balances ==> other.db.balances[key] == one.db.balances[key]
    {
      SameAtKey(db, entries, shuffled, one, other, key);
    }
    forall i
      ensures i in other.flagged <==> i in one.flagged
    {
      assert FlaggedByAny(db, shuffled, i) <==> FlaggedByAny(db, entries, i);
    }
  }

  lemma SameFollowers(db: Db, entries: seq<Entry>, shuffled: seq<Entry>, one: Db, other: Db)
    requires forall entry :: entry in shuffled <==> entry in entries
    requires RequestsFollow(db, entries, one) && RequestsFollow(db, shuffled, other)
    ensures other.requests == one.requests
  {
    forall i: nat | i < |db.requests|
      ensures FlaggedByAny(db, shuffled, i) <==> FlaggedByAny(db, entries, i)
    {
    }
  }

  lemma SameAtKey(db: Db, entries: seq<Entry>, shuffled: seq<Entry>, one: Ingested, other: Ingested, key: Key)
    requires forall entry :: entry in shuffled <==> entry in entries
    requires ActsPerKey(db, entries, one) && ActsPerKey(db, shuffled, other)
    ensures RowsOf(other.db.ledger, key) == RowsOf(one.db.ledger, key)
    ensures key in other.db.balances <==> key in one.db.balances
    ensures key in one.db.balances ==> other.db.balances[key] == one.db.balances[key]
  {
    if Touches(entries, key) {
      var entry :| entry in entries && entry.key == key;
      assert ActsAsPush(db, entry, one.db) && ActsAsPush(db, entry, other.db);
    } else {
      assert !Touches(shuffled, key);
      assert Spares(db, key, one.db) && Spares(db, key, other.db);
    }
  }

  // ---------- ingesting a batch again changes nothing ----------

  /** The snapshot holds the amount, and the held requests fit it. */
  predicate AtRest(db: Db, key: Key, absolute: int) {
    && key in db.balances
    && db.balances[key].balance == absolute
    && Held(db.requests, key) <= absolute
  }

  lemma PushAtRest(db: Db, entry: Entry)
    requires AtRest(db, entry.key, entry.absolute)
    requires IsListing(db.requests, entry.key, entry.listing)
    ensures PushTx(db, entry.key, entry.absolute, entry.listing) == Pushed(db, 0, [])
  {
    NothingFlagged(db, entry.key, entry.absolute, entry.listing);
    ListingHoldsAll(db.requests, entry.key, entry.listing);
    var pushed := PushTx(db, entry.key, entry.absolute, entry.listing);
    assert pushed.db.balances == db.balances;
  }

  lemma {:induction false} BatchAtRest(db: Db, entries: seq<Entry>)
    requires Listed(db, entries)
    requires forall n | 0 <= n < |entries| :: AtRest(db, entries[n].key, entries[n].absolute)
    ensures ListingsWithin(db, entries)
    ensures IngestBatch(db, entries) == Ingested(db, 0, [])
  {
    if entries != [] {
      BatchAtRest(db, entries[..|entries| - 1]);
      PushAtRest(db, entries[|entries| - 1]);
    }
  }

  /** On the balance of an entry, only that entry flags. */
  lemma OwnFlagsOnly(db: Db, entries: seq<Entry>, entry: Entry, i: RequestId)
    requires DistinctKeys(entries) && Listed(db, entries) && entry in entries
    requires i < |db.requests| && db.requests[i].key == entry.key
    ensures FlaggedByAny(db, entries, i) <==>
            i in Flagged(db.requests, entry.key, entry.absolute, entry.listing)
  {
    if FlaggedByAny(db, entries, i) {
      var other :| other in entries && Flags(db, other, i);
      FlaggedAreHeld(db.requests, other.key, other.absolute, other.listing);
      assert other.key == entry.key;
    }
    assert Flags(db, entry, i) <==> i in Flagged(db.requests, entry.key, entry.absolute, entry.listing);
  }

  lemma BatchComesToRest(db: Db, entries: seq<Entry>, entry: Entry)
    requires DistinctKeys(entries) && Listed(db, entries) && entry in entries && entry.absolute >= 0
    ensures ListingsWithin(db, entries)
    ensures AtRest(IngestBatch(db, entries).db, entry.key, entry.absolute)
  {
    BatchActsPerKey(db, entries);
    var after := IngestBatch(db, entries).db;
    var flagged := Flagged(db.requests, entry.key, entry.absolute, entry.listing);
    forall i: nat | i < |db.requests| && db.requests[i].key == entry.key
      ensures FlaggedByAny(db, entries, i) <==> i in flagged
    {
      OwnFlagsOnly(db, entries, entry, i);
    }
    assert HeldWeights(after.requests, entry.key) == HeldWeights(FailAll(db.requests, flagged), entry.key);
    FlaggingIsLeastCut(db.requests, entry.key, entry.absolute, entry.listing);
    assert ActsAsPush(db, entry, after);
  }

  /** The batch names the key with the amount. */
  predicate Names(entries: seq<Entry>, key: Key, absolute: int) {
    exists m :: 0 <= m < |entries| && entries[m].key == key && entries[m].absolute == absolute
  }

  /**
   * Ingesting amounts of the batch again, any of them in any order and with no step in between,
   * changes nothing at all, counts no change and flags no request.
   */
  lemma BatchAgain(db: Db, entries: seq<Entry>, again: seq<Entry>)
    requires DistinctKeys(entries) && Listed(db, entries)
    requires forall n | 0 <= n < |entries| :: entries[n].absolute >= 0
    requires forall n | 0 <= n < |again| :: Names(entries, again[n].key, again[n].absolute)
    requires ListingsWithin(db, entries) && Listed(IngestBatch(db, entries).db, again)
    ensures var after := IngestBatch(db, entries).db;
            ListingsWithin(after, again) && IngestBatch(after, again) == Ingested(after, 0, [])
  {
    var after := IngestBatch(db, entries).db;
    forall n | 0 <= n < |again|
      ensures AtRest(after, again[n].key, again[n].absolute)
    {
      assert Names(entries, again[n].key, again[n].absolute);
      var m :| 0 <= m < |entries| &&
               entries[m].key == again[n].key && entries[m].absolute == again[n].absolute;
      BatchComesToRest(db, entries, entries[m]);
    }
    BatchAtRest(after, again);
  }

  // ---------- reconciliation ----------

  /** One snapshot row and HCM's answer for it; a failed call has no answer. */
  datatype Reading = Reading(key: Key, listed: int, answer: Option<int>, listing: seq<RequestId>)

  datatype Reconciled = Reconciled(db: Db, scanned: nat, drifted: nat, flagged: seq<RequestId>, errors: nat)

  ghost predicate ReadingsWithin(db: Db, readings: seq<Reading>) {
    forall n | 0 <= n < |readings| :: Within(readings[n].listing, |db.requests|)
  }

  /**
   * The reconciliation pass: a push for every row whose amount, as it was listed when the pass
   * began, differs from HCM's answer.
   */
  function Reconcile(db: Db, readings: seq<Reading>): (result: Reconciled)
    requires ReadingsWithin(db, readings)
    ensures |result.db.requests| == |db.requests|
  {
    if readings == [] then
      Reconciled(db, 0, 0, [], 0)
    else
      var before := Reconcile(db, readings[..|readings| - 1]);
      var reading := readings[|readings| - 1];
      match reading.answer
      case None => before.(scanned := before.scanned + 1, errors := before.errors + 1)
      case Some(balance) =>
        if balance == reading.listed then
          before.(scanned := before.scanned + 1)
        else
          var pushed := PushTx(before.db, reading.key, balance, reading.listing);
          before.(db := pushed.db,
                  scanned := before.scanned + 1,
                  drifted := before.drifted + if pushed.delta != 0 then 1 else 0,
                  flagged := before.flagged + pushed.flagged)
  }

  /** The readings list snapshots, none of them twice, each with the amount it has. */
  ghost predicate ListsSnapshots(db: Db, readings: seq<Reading>) {
    && (forall m, n | 0 <= m < n < |readings| :: readings[m].key != readings[n].key)
    && (forall n | 0 <= n < |readings| ::
          readings[n].key in db.balances && readings[n].listed == db.balances[readings[n].key].balance)
  }

  /** HCM has answered with another amount than the one listed. */
  predicate Drifted(reading: Reading) {
    reading.answer.Some? && reading.answer.value != reading.listed
  }

  /** The batch that a pass amounts to: what it pushes, in turn. */
  function Pushes(readings: seq<Reading>): seq<Entry> {
    if readings == [] then
      []
    else
      var init, last := Pushes(readings[..|readings| - 1]), readings[|readings| - 1];
      if Drifted(last) then init + [Entry(last.key, last.answer.value, last.listing)] else init
  }

  lemma {:induction false} PushesAreDrifts(readings: seq<Reading>)
    ensures forall entry :: entry in Pushes(readings) <==>
              exists n :: 0 <= n < |readings| && Drifted(readings[n]) &&
                          entry == Entry(readings[n].key, readings[n].answer.value, readings[n].listing)
  {
    if readings != [] {
      var init := readings[..|readings| - 1];
      PushesAreDrifts(init);
      assert forall n | 0 <= n < |init| :: init[n] == readings[n];
    }
  }

  lemma {:induction false} PushesDistinct(db: Db, readings: seq<Reading>)
    requires ListsSnapshots(db, readings)
    ensures DistinctKeys(Pushes(readings))
  {
    if readings != [] {
      var init := readings[..|readings| - 1];
      PushesDistinct(db, init);
      PushesAreDrifts(init);
      forall m | 0 <= m < |Pushes(init)|
        ensures Pushes(init)[m].key != readings[|init|].key
      {
        assert Pushes(init)[m] in Pushes(init);
      }
    }
  }

  /** A pass is the batch of its pushes, and counts besides which snapshots it has seen. */
  lemma {:induction false} ReconcileIsBatch(db: Db, readings: seq<Reading>)
    requires ReadingsWithin(db, readings)
    ensures ListingsWithin(db, Pushes(readings))
    ensures var result, ingested := Reconcile(db, readings), IngestBatch(db, Pushes(readings));
            && result.db == ingested.db && result.drifted == ingested.changed && result.flagged == ingested.flagged
            && result.scanned == |readings|
  {
    hide PushTx;
    if readings != [] {
      var init, last := readings[..|readings| - 1], readings[|readings| - 1];
      ReconcileIsBatch(db, init);
      if Drifted(last) {
        var entry := Entry(last.key, last.answer.value, last.listing);
        assert (Pushes(init) + [entry])[..|Pushes(init)|] == Pushes(init);
      }
    }
  }

  /** The listed snapshots for which HCM gave no answer. */
  function Unanswered(readings: seq<Reading>): set<nat> {
    set n: nat | n < |readings| && readings[n].answer == None
  }

  lemma OneMoreUnanswered(readings: seq<Reading>)
    requires readings != []
    ensures var init := readings[..|readings| - 1];
            |Unanswered(readings)| == |Unanswered(init)| + if readings[|init|].answer.None? then 1 else 0
  {
    var init := readings[..|readings| - 1];
    assert Unanswered(readings) == Unanswered(init) + if readings[|init|].answer.None? then {|init|} else {};
  }

  lemma {:induction false} ErrorsCounted(db: Db, readings: seq<Reading>)
    requires ReadingsWithin(db, readings)
    ensures Reconcile(db, readings).errors == |Unanswered(readings)|
  {
    hide PushTx, Unanswered;
    if readings != [] {
      ErrorsCounted(db, readings[..|readings| - 1]);
      OneMoreUnanswered(readings);
    } else {
      NothingUnanswered();
    }
  }

  lemma NothingUnanswered()
    ensures Unanswered([]) == {}
  {
  }

  /** The listed snapshots that HCM answered differently. */
  function DriftedAt(db: Db, readings: seq<Reading>): set<nat>
    requires forall n | 0 <= n < |readings| :: readings[n].key in db.balances
  {
    set n: nat | n < |readings| && readings[n].answer.Some? &&
                 readings[n].answer.value != db.balances[readings[n].key].balance
  }

  lemma {:induction false} DriftsCounted(db: Db, readings: seq<Reading>)
    requires ListsSnapshots(db, readings)
    ensures |Pushes(readings)| == |DriftedAt(db, readings)|
  {
    if readings != [] {
      var init, last := readings[..|readings| - 1], readings[|readings| - 1];
      DriftsCounted(db, init);
      OneMoreDrifted(db, readings);
      hide DriftedAt;
    }
  }

  lemma OneMoreDrifted(db: Db, readings: seq<Reading>)
    requires readings != [] && ListsSnapshots(db, readings)
    ensures var init := readings[..|readings| - 1];
            |DriftedAt(db, readings)| == |DriftedAt(db, init)| + if Drifted(readings[|init|]) then 1 else 0
  {
    var init := readings[..|readings| - 1];
    assert DriftedAt(db, readings) == DriftedAt(db, init) + if Drifted(readings[|init|]) then {|init|} else {};
  }

  /** A batch in which every amount differs changes as many balances as it has entries. */
  lemma {:induction false} AllChange(db: Db, entries: seq<Entry>)
    requires DistinctKeys(entries) && forall entry | entry in entries :: Differs(db, entry)
    ensures |Changes(db, entries)| == |entries|
  {
    if entries == [] {
      assert Changes(db, entries) == {};
    } else {
      SplitLast(entries);
      ChangedByLast(db, entries);
      AllChange(db, entries[..|entries| - 1]);
    }
  }

  lemma {:induction false} PushesDiffer(db: Db, readings: seq<Reading>)
    requires ListsSnapshots(db, readings)
    ensures forall entry | entry in Pushes(readings) :: Differs(db, entry)
  {
    PushesAreDrifts(readings);
  }

  lemma {:induction false} PassIsListed(db: Db, readings: seq<Reading>)
    requires forall n | 0 <= n < |readings| :: IsListing(db.requests, readings[n].key, readings[n].listing)
    ensures Listed(db, Pushes(readings)) && ReadingsWithin(db, readings)
  {
    PushesAreDrifts(readings);
    forall m | 0 <= m < |Pushes(readings)|
      ensures IsListing(db.requests, Pushes(readings)[m].key, Pushes(readings)[m].listing)
    {
      assert Pushes(readings)[m] in Pushes(readings);
    }
  }

  /**
   * What a pass does and reports, told from the state before it. It counts the calls that failed
   * and the answers that differ from what is stored, and it acts on every balance that HCM
   * answered differently as a lone push of that answer would.
   */
  lemma {:induction false} ReconcileActsPerKey(db: Db, readings: seq<Reading>)
    requires ListsSnapshots(db, readings)
    requires forall n | 0 <= n < |readings| :: IsListing(db.requests, readings[n].key, readings[n].listing)
    ensures ReadingsWithin(db, readings)
    ensures var result := Reconcile(db, readings);
            && result.scanned == |readings|
            && result.errors == |Unanswered(readings)|
            && result.drifted == |DriftedAt(db, readings)|
            && ActsPerKey(db, Pushes(readings), Ingested(result.db, result.drifted, result.flagged))
  {
    PassIsListed(db, readings);
    PushesDistinct(db, readings);
    PushesDiffer(db, readings);
    ReconcileIsBatch(db, readings);
    ErrorsCounted(db, readings);
    hide Pushes, Reconcile, IngestBatch, Listed, ReadingsWithin, DistinctKeys;
    AllChange(db, Pushes(readings));
    DriftsCounted(db, readings);
    BatchActsPerKey(db, Pushes(readings));
  }

  /** A lone push of HCM's answer to the reading, before anything else of the pass, flags the request. */
  ghost predicate FlagsAlone(db: Db, reading: Reading, i: RequestId)
    requires reading.key in db.balances
  {
    && reading.answer.Some? && reading.answer.value != db.balances[reading.key].balance
    && Within(reading.listing, |db.requests|)
    && i in PushTx(db, reading.key, reading.answer.value, reading.listing).flagged
  }

  ghost predicate FlaggedAlone(db: Db, readings: seq<Reading>, i: RequestId)
    requires forall n | 0 <= n < |readings| :: readings[n].key in db.balances
  {
    exists n :: 0 <= n < |readings| && FlagsAlone(db, readings[n], i)
  }

  lemma {:induction false} AloneIsByAny(db: Db, readings: seq<Reading>, i: RequestId)
    requires ListsSnapshots(db, readings)
    ensures FlaggedAlone(db, readings, i) <==> FlaggedByAny(db, Pushes(readings), i)
  {
    PushesAreDrifts(readings);
    hide Flagged, Pushes;
    if n :| 0 <= n < |readings| && FlagsAlone(db, readings[n], i) {
      var entry := Entry(readings[n].key, readings[n].answer.value, readings[n].listing);
      assert entry in Pushes(readings) && Flags(db, entry, i);
    }
    if FlaggedByAny(db, Pushes(readings), i) {
      var entry :| entry in Pushes(readings) && Flags(db, entry, i);
      var n :| 0 <= n < |readings| && Drifted(readings[n]) &&
               entry == Entry(readings[n].key, readings[n].answer.value, readings[n].listing);
      assert FlagsAlone(db, readings[n], i);
    }
  }

  /** A pass reports, and fails, exactly the requests that the lone pushes flag. */
  lemma {:induction false} ReconcileFlags(db: Db, readings: seq<Reading>, i: RequestId)
    requires ListsSnapshots(db, readings) && i < |db.requests|
    requires forall n | 0 <= n < |readings| :: IsListing(db.requests, readings[n].key, readings[n].listing)
    ensures ReadingsWithin(db, readings)
    ensures var result := Reconcile(db, readings);
            && (i in result.flagged <==> FlaggedAlone(db, readings, i))
            && result.db.requests[i] ==
               if FlaggedAlone(db, readings, i) then db.requests[i].(status := Failed) else db.requests[i]
  {
    ReconcileActsPerKey(db, readings);
    AloneIsByAny(db, readings, i);
    hide Reconcile, Pushes, IsListing, ActsAsPush, Spares, FlaggedAlone, FlaggedByAny;
  }

  lemma {:induction false} ReconcileReaches(db: Db, readings: seq<Reading>, key: Key)
    requires ListsSnapshots(db, readings) && ReadingsWithin(db, readings)
    requires forall n | 0 <= n < |readings| :: readings[n].answer.Some?
    requires key in db.balances
    ensures var result := Reconcile(db, readings);
            && result.errors == 0 && result.scanned == |readings|
            && key in result.db.balances
            && (forall n | 0 <= n < |readings| && readings[n].key == key ::
                  result.db.balances[key].balance == readings[n].answer.value)
            && ((forall n | 0 <= n < |readings| :: readings[n].key != key) ==>
                  result.db.balances[key] == db.balances[key])
  {
    hide Flagged, FailAll, Held, HeldWeights, SumAt;
    if readings != [] {
      var init, last := readings[..|readings| - 1], readings[|readings| - 1];
      ReconcileReaches(db, init, key);
      if last.key == key {
        assert forall n | 0 <= n < |init| :: init[n].key != key;
      } else {
        assert forall n | 0 <= n < |init| :: init[n] == readings[n];
      }
    }
  }

  lemma {:induction false} ReconcileAtRest(db: Db, readings: seq<Reading>)
    requires ListsSnapshots(db, readings) && ReadingsWithin(db, readings)
    requires forall n | 0 <= n < |readings| :: readings[n].answer == Some(readings[n].listed)
    ensures Reconcile(db, readings) == Reconciled(db, |readings|, 0, [], 0)
  {
    if readings != [] {
      ReconcileAtRest(db, readings[..|readings| - 1]);
    }
  }

  /** The pass got this answer for the key. */
  predicate Answered(readings: seq<Reading>, key: Key, answer: Option<int>) {
    exists m :: 0 <= m < |readings| && readings[m].key == key && readings[m].answer == answer
  }

  /**
   * After a pass without errors, a second pass against the same answers, with no step in
   * between, finds no drift, flags nothing and leaves the database alone, in whatever order
   * either pass lists the snapshots.
   */
  lemma ReconcileAgain(db: Db, readings: seq<Reading>, again: seq<Reading>)
    requires ListsSnapshots(db, readings) && ReadingsWithin(db, readings)
    requires forall n | 0 <= n < |readings| :: readings[n].answer.Some?
    requires forall n | 0 <= n < |again| :: Answered(readings, again[n].key, again[n].answer)
    requires var after := Reconcile(db, readings).db;
             ListsSnapshots(after, again) && ReadingsWithin(after, again)
    ensures var after := Reconcile(db, readings).db;
            Reconcile(after, again) == Reconciled(after, |again|, 0, [], 0)
  {
    var after := Reconcile(db, readings).db;
    forall n | 0 <= n < |again|
      ensures again[n].answer == Some(again[n].listed)
    {
      assert Answered(readings, again[n].key, again[n].answer);
      var m :| 0 <= m < |readings| &&
               readings[m].key == again[n].key && readings[m].answer == again[n].answer;
      ReconcileReaches(db, readings, readings[m].key);
    }
    ReconcileAtRest(after, again);
  }

  /** The pushes of a reconciliation pass. */
  function ReconcileEvents(readings: seq<Reading>): seq<Event> {
    if readings == [] then
      []
    else
      var init, last := readings[..|readings| - 1], readings[|readings| - 1];
      ReconcileEvents(init) +
      if last.answer.Some? && last.answer.value != last.listed
      then [Push(last.key, last.answer.value, last.listing)]
      else []
  }

  /** A reconciliation pass that nothing interrupts is a run of pushes, too. */
  lemma {:induction false} ReconcileIsRun(c: Config, s: State, readings: seq<Reading>)
    requires ReadingsWithin(s.db, readings)
    requires forall n | 0 <= n < |readings| ::
               IsListing(Reconcile(s.db, readings[..n]).db.requests, readings[n].key, readings[n].listing)
    ensures Run(c, s, ReconcileEvents(readings)) == s.(db := Reconcile(s.db, readings).db)
  {
    hide PushTx, IsListing, Next;
    if readings != [] {
      var init, last := readings[..|readings| - 1], readings[|readings| - 1];
      assert forall n | 0 <= n < |init| :: init[..n] == readings[..n];
      assert init == readings[..|init|];
      ReconcileIsRun(c, s, init);
      if last.answer.Some? && last.answer.value != last.listed {
        RunOn(c, s, ReconcileEvents(init), Push(last.key, last.answer.value, last.listing));
        PushStep(c, Run(c, s, ReconcileEvents(init)), last.key, last.answer.value, last.listing);
      } else {
        assert ReconcileEvents(readings) == ReconcileEvents(init);
      }
    }
  }
}
