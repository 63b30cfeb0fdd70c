/** Which held requests an absolute balance push gives up, newest first. */
module Flagging {
  import opened Sums
  import opened Lifecycle
  import opened Tables

  /** `listing` is one order in which the database may return the held requests of a balance. */
  ghost predicate IsListing(requests: seq<Request>, key: Key, listing: seq<RequestId>) {
    && Distinct(listing)
    && Within(listing, |requests|)
    && (forall a | 0 <= a < |listing| :: Holds(requests[listing[a]], key))
    && (forall i: nat | i < |requests| && Holds(requests[i], key) :: i in listing)
  }

  // ---------- the stable sort by creation time, newest first ----------

  function InsertByAge(sorted: seq<RequestId>, id: RequestId, requests: seq<Request>): seq<RequestId>
    requires Within(sorted, |requests|) && id < |requests|
  {
    if sorted == [] || requests[sorted[|sorted| - 1]].createdAt >= requests[id].createdAt then
      sorted + [id]
    else
      InsertByAge(sorted[..|sorted| - 1], id, requests) + [sorted[|sorted| - 1]]
  }

  /** The listing sorted by createdAt descending; equal times keep their listing order. */
  function NewestFirst(listing: seq<RequestId>, requests: seq<Request>): (sorted: seq<RequestId>)
    requires Within(listing, |requests|)
    ensures Within(sorted, |requests|)
    ensures multiset(sorted) == multiset(listing)
  {
    if listing == [] then
      []
    else
      var n := |listing| - 1;
      assert listing == listing[..n] + [listing[n]];
      var init := NewestFirst(listing[..n], requests);
      InsertKeepsElements(init, listing[n], requests);
      InsertByAge(init, listing[n], requests)
  }

  lemma {:induction false} InsertKeepsElements(sorted: seq<RequestId>, id: RequestId, requests: seq<Request>)
    requires Within(sorted, |requests|) && id < |requests|
    ensures multiset(InsertByAge(sorted, id, requests)) == multiset(sorted) + multiset{id}
    ensures Within(InsertByAge(sorted, id, requests), |requests|)
  {
    if !(sorted == [] || requests[sorted[|sorted| - 1]].createdAt >= requests[id].createdAt) {
      var n := |sorted| - 1;
      assert sorted == sorted[..n] + [sorted[n]];
      InsertKeepsElements(sorted[..n], id, requests);
    }
  }

  ghost predicate SortedByAge(ids: seq<RequestId>, requests: seq<Request>)
    requires Within(ids, |requests|)
  {
    forall a, b | 0 <= a < b < |ids| :: requests[ids[a]].createdAt >= requests[ids[b]].createdAt
  }

  /** The ids created at one instant, in order: a stable sort leaves these lists alone. */
  function CreatedAt(ids: seq<RequestId>, at: int, requests: seq<Request>): seq<RequestId>
    requires Within(ids, |requests|)
  {
    if ids == [] then
      []
    else
      var init := CreatedAt(ids[..|ids| - 1], at, requests);
      var last := ids[|ids| - 1];
      if requests[last].createdAt == at then init + [last] else init
  }

  lemma CreatedAtAppend(ids: seq<RequestId>, id: RequestId, at: int, requests: seq<Request>)
    requires Within(ids, |requests|) && id < |requests|
    ensures CreatedAt(ids + [id], at, requests) ==
            if requests[id].createdAt == at
            then CreatedAt(ids, at, requests) + [id]
            else CreatedAt(ids, at, requests)
  {
    assert (ids + [id])[..|ids|] == ids;
  }

  lemma {:induction false} InsertSorts(sorted: seq<RequestId>, id: RequestId, requests: seq<Request>)
    requires Within(sorted, |requests|) && id < |requests|
    requires SortedByAge(sorted, requests)
    ensures Within(InsertByAge(sorted, id, requests), |requests|)
    ensures SortedByAge(InsertByAge(sorted, id, requests), requests)
  {
    InsertKeepsElements(sorted, id, requests);
    if !(sorted == [] || requests[sorted[|sorted| - 1]].createdAt >= requests[id].createdAt) {
      var init, last := sorted[..|sorted| - 1], sorted[|sorted| - 1];
      InsertSorts(init, id, requests);
      InsertKeepsElements(init, id, requests);
      var inner := InsertByAge(init, id, requests);
      forall a | 0 <= a < |inner|
        ensures requests[inner[a]].createdAt >= requests[last].createdAt
      {
        assert inner[a] in multiset(inner);
        assert inner[a] == id || inner[a] in init;
      }
    }
  }

  lemma {:induction false} InsertIsStable(sorted: seq<RequestId>, id: RequestId, requests: seq<Request>, at: int)
    requires Within(sorted, |requests|) && id < |requests|
    ensures Within(InsertByAge(sorted, id, requests), |requests|)
    ensures CreatedAt(InsertByAge(sorted, id, requests), at, requests) ==
            CreatedAt(sorted + [id], at, requests)
  {
    InsertKeepsElements(sorted, id, requests);
    if !(sorted == [] || requests[sorted[|sorted| - 1]].createdAt >= requests[id].createdAt) {
      var init, last := sorted[..|sorted| - 1], sorted[|sorted| - 1];
      InsertIsStable(init, id, requests, at);
      InsertKeepsElements(init, id, requests);
      assert sorted == init + [last];
      CreatedAtAppend(init, last, at, requests);
      CreatedAtAppend(sorted, id, at, requests);
      CreatedAtAppend(init, id, at, requests);
      CreatedAtAppend(InsertByAge(init, id, requests), last, at, requests);
    }
  }

  /** NewestFirst sorts, and stably. */
  lemma {:induction false} NewestFirstSortsStably(listing: seq<RequestId>, requests: seq<Request>, at: int)
    requires Within(listing, |requests|)
    ensures SortedByAge(NewestFirst(listing, requests), requests)
    ensures CreatedAt(NewestFirst(listing, requests), at, requests) == CreatedAt(listing, at, requests)
  {
    if listing != [] {
      var n := |listing| - 1;
      NewestFirstSortsStably(listing[..n], requests, at);
      var init := NewestFirst(listing[..n], requests);
      InsertSorts(init, listing[n], requests);
      InsertIsStable(init, listing[n], requests, at);
      CreatedAtAppend(init, listing[n], at, requests);
      CreatedAtAppend(listing[..n], listing[n], at, requests);
      assert listing == listing[..n] + [listing[n]];
    }
  }

  // ---------- the cut ----------

  /**
   * How many sorted requests the flagging loop takes when it stands at position `from`
   * with `from` requests already flagged against the overage.
   */
  function CutFrom(sorted: seq<RequestId>, weights: seq<int>, overage: int, from: nat): (cut: nat)
    requires Within(sorted, |weights|) && from <= |sorted|
    ensures from <= cut <= |sorted|
    ensures forall m | from <= m < cut :: SumAt(sorted[..m], weights) < overage
    ensures cut == |sorted| || SumAt(sorted[..cut], weights) >= overage
    decreases |sorted| - from
  {
    if from == |sorted| || overage - SumAt(sorted[..from], weights) <= 0 then
      from
    else
      CutFrom(sorted, weights, overage, from + 1)
  }

  /** The requests that a push of `absolute` flags. */
  function Flagged(requests: seq<Request>, key: Key, absolute: int, listing: seq<RequestId>): (flagged: seq<RequestId>)
    requires Within(listing, |requests|)
    ensures Within(flagged, |requests|)
  {
    var weights := HeldWeights(requests, key);
    var held := SumAt(listing, weights);
    if held > absolute then
      var sorted := NewestFirst(listing, requests);
      sorted[..CutFrom(sorted, weights, held - absolute, 0)]
    else
      []
  }

  function FailAll(requests: seq<Request>, flagged: seq<RequestId>): (failed: seq<Request>)
    ensures |failed| == |requests|
  {
    seq(|requests|, i requires 0 <= i < |requests| =>
      if i in flagged then requests[i].(status := Failed) else requests[i])
  }

  lemma ListingHoldsAll(requests: seq<Request>, key: Key, listing: seq<RequestId>)
    requires IsListing(requests, key, listing)
    ensures SumAt(listing, HeldWeights(requests, key)) == Held(requests, key)
  {
    SumListing(listing, HeldWeights(requests, key));
  }

  /** Reordering a listing gives a listing. */
  lemma PermutedListing(requests: seq<Request>, key: Key, listing: seq<RequestId>, other: seq<RequestId>)
    requires IsListing(requests, key, listing)
    requires multiset(other) == multiset(listing) && Within(other, |requests|)
    ensures IsListing(requests, key, other)
  {
    DistinctShuffled(listing, other);
    forall a | 0 <= a < |other|
      ensures Holds(requests[other[a]], key)
    {
      assert other[a] in multiset(other);
      assert other[a] in listing;
    }
    forall i: nat | i < |requests| && Holds(requests[i], key)
      ensures i in other
    {
      assert i in multiset(listing);
    }
  }

  /** Failing some held requests of a balance takes exactly their days out of the held sum. */
  lemma HeldAfterFailing(requests: seq<Request>, key: Key, flagged: seq<RequestId>)
    requires Distinct(flagged) && Within(flagged, |requests|)
    ensures Held(FailAll(requests, flagged), key) ==
            Held(requests, key) - SumAt(flagged, HeldWeights(requests, key))
  {
    var weights := HeldWeights(requests, key);
    assert HeldWeights(FailAll(requests, flagged), key) == Cleared(flagged, weights);
    SumCleared(flagged, weights);
  }

  /** Failing requests of one balance leaves the held days of every other balance alone. */
  lemma HeldElsewhere(requests: seq<Request>, key: Key, flagged: seq<RequestId>, other: Key)
    requires Within(flagged, |requests|)
    requires forall a | 0 <= a < |flagged| :: requests[flagged[a]].key == key
    requires other != key
    ensures Held(FailAll(requests, flagged), other) == Held(requests, other)
  {
    assert HeldWeights(FailAll(requests, flagged), other) == HeldWeights(requests, other);
  }

  /**
   * Flagging is the least newest-first cut. The flagged requests are a prefix of the sorted
   * listing; failing them brings the held days to at most the pushed balance; and failing any
   * shorter prefix leaves more days held than the balance has.
   */
  lemma FlaggingIsLeastCut(requests: seq<Request>, key: Key, absolute: int, listing: seq<RequestId>)
    requires IsListing(requests, key, listing)
    requires absolute >= 0
    ensures var sorted := NewestFirst(listing, requests);
            var flagged := Flagged(requests, key, absolute, listing);
            && IsListing(requests, key, sorted)
            && |flagged| <= |sorted| && flagged == sorted[..|flagged|]
            && Held(FailAll(requests, flagged), key) <= absolute
            && (forall m | 0 <= m < |flagged| ::
                  Held(FailAll(requests, sorted[..m]), key) > absolute)
  {
    var sorted := NewestFirst(listing, requests);
    var weights := HeldWeights(requests, key);
    var flagged := Flagged(requests, key, absolute, listing);
    PermutedListing(requests, key, listing, sorted);
    ListingHoldsAll(requests, key, listing);
    ListingHoldsAll(requests, key, sorted);
    forall m | 0 <= m <= |sorted|
      ensures Held(FailAll(requests, sorted[..m]), key) ==
              Held(requests, key) - SumAt(sorted[..m], weights)
    {
      HeldAfterFailing(requests, key, sorted[..m]);
    }
    assert sorted[..|sorted|] == sorted;
    if Held(requests, key) <= absolute {
      assert flagged == [] == sorted[..0];
    } else {
      var cut := CutFrom(sorted, weights, Held(requests, key) - absolute, 0);
      assert flagged == sorted[..cut] && |flagged| == cut;
      if cut == |sorted| {
        assert SumAt(sorted[..cut], weights) == Held(requests, key);
      }
    }
  }

  /** A negative amount flags every held request of the balance. */
  lemma NegativeFlagsAll(requests: seq<Request>, key: Key, absolute: int, listing: seq<RequestId>)
    requires IsListing(requests, key, listing) && absolute < 0
    requires forall i | 0 <= i < |requests| :: requests[i].days > 0
    ensures Flagged(requests, key, absolute, listing) == NewestFirst(listing, requests)
  {
    var sorted := NewestFirst(listing, requests);
    PermutedListing(requests, key, listing, sorted);
    ListingHoldsAll(requests, key, listing);
    HeldNonNegative(requests, key);
    hide IsListing, Held, HeldWeights, SumAt, NewestFirst;
    CutTakesAll(requests, key, sorted, Held(requests, key) - absolute);
    assert sorted[..|sorted|] == sorted;
  }

  /** No part of the held requests makes up for more than the held days. */
  lemma CutTakesAll(requests: seq<Request>, key: Key, sorted: seq<RequestId>, overage: int)
    requires IsListing(requests, key, sorted) && overage > Held(requests, key)
    requires forall i | 0 <= i < |requests| :: requests[i].days > 0
    ensures CutFrom(sorted, HeldWeights(requests, key), overage, 0) == |sorted|
  {
    hide Held, HeldWeights, SumAt;
    var cut := CutFrom(sorted, HeldWeights(requests, key), overage, 0);
    if cut < |sorted| {
      PrefixWithin(requests, key, sorted, cut);
    }
  }

  lemma PrefixWithin(requests: seq<Request>, key: Key, sorted: seq<RequestId>, m: nat)
    requires IsListing(requests, key, sorted) && m <= |sorted|
    requires forall i | 0 <= i < |requests| :: requests[i].days > 0
    ensures SumAt(sorted[..m], HeldWeights(requests, key)) <= Held(requests, key)
  {
    hide Held;
    HeldAfterFailing(requests, key, sorted[..m]);
    HeldNonNegative(FailAll(requests, sorted[..m]), key);
  }

  /** Only held requests of the pushed balance are flagged, each once. */
  lemma FlaggedAreHeld(requests: seq<Request>, key: Key, absolute: int, listing: seq<RequestId>)
    requires IsListing(requests, key, listing)
    ensures var flagged := Flagged(requests, key, absolute, listing);
            Distinct(flagged) &&
            forall a | 0 <= a < |flagged| :: Holds(requests[flagged[a]], key)
  {
    PermutedListing(requests, key, listing, NewestFirst(listing, requests));
  }
}
