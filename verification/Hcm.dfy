/** The HCM side: balances, recorded debits, and one debit call over a lossy wire. */
module Hcm {
  import opened Tables

  datatype DebitRecord = DebitRecord(key: Key, days: int, commitId: string)

  datatype HcmState = HcmState(balances: map<Key, int>, debits: map<RequestId, DebitRecord>)

  const EMPTY_HCM := HcmState(map[], map[])

  /** The forced scenarios; a timeout and a server error look alike to the caller. */
  datatype Mode = Normal | Unavailable | ForceInvalidDimension | ForceInsufficient

  datatype RefusalCode = InvalidDimension | InsufficientAtHcm

  datatype Answer = Acknowledged(commitId: string) | Retryable | Refused(code: RefusalCode)

  /** What happens to the call on its way. */
  datatype Wire = Delivered | RequestLost | ReplyLost

  /** Everything the environment decides about one call, the fresh commit id included. */
  datatype Conditions = Conditions(mode: Mode, wire: Wire, freshCommitId: string)

  function BalanceAt(hcm: HcmState, key: Key): int {
    if key in hcm.balances then hcm.balances[key] else 0
  }

  /** The debit endpoint: recorded keys are answered from the record, before any scenario. */
  function AnswerDebit(hcm: HcmState, id: RequestId, key: Key, days: int, mode: Mode, freshCommitId: string)
    : (HcmState, Answer)
  {
    if days <= 0 then
      (hcm, Retryable)
    else if id in hcm.debits then
      (hcm, Acknowledged(hcm.debits[id].commitId))
    else if mode == Unavailable then
      (hcm, Retryable)
    else if mode == ForceInvalidDimension || key !in hcm.balances then
      (hcm, Refused(InvalidDimension))
    else if mode == ForceInsufficient || hcm.balances[key] < days then
      (hcm, Refused(InsufficientAtHcm))
    else
      (HcmState(
         hcm.balances[key := hcm.balances[key] - days],
         hcm.debits[id := DebitRecord(key, days, freshCommitId)]),
       Acknowledged(freshCommitId))
  }

  /**
   * What the endpoint answers and when. A recorded key is answered with its commit id under
   * every scenario. For any other key an outage comes first, then the dimension, then the
   * balance; only an acknowledgement changes anything, and it records the debit.
   */
  lemma DebitAnswers(hcm: HcmState, id: RequestId, key: Key, days: int, mode: Mode, freshCommitId: string)
    ensures var (next, answer) := AnswerDebit(hcm, id, key, days, mode, freshCommitId);
            var known, held := key in hcm.balances, BalanceAt(hcm, key);
            if days > 0 && id in hcm.debits then
              next == hcm && answer == Acknowledged(hcm.debits[id].commitId)
            else
              && (answer == Retryable <==> days <= 0 || mode == Unavailable)
              && (answer == Refused(InvalidDimension) <==>
                    days > 0 && mode != Unavailable && (mode == ForceInvalidDimension || !known))
              && (answer == Refused(InsufficientAtHcm) <==>
                    days > 0 && known && (mode == ForceInsufficient || (mode == Normal && held < days)))
              && (answer.Acknowledged? <==> days > 0 && known && mode == Normal && held >= days)
              && (!answer.Acknowledged? ==> next == hcm)
              && (answer.Acknowledged? ==>
                    && answer.commitId == freshCommitId
                    && next.balances == hcm.balances[key := held - days]
                    && next.debits == hcm.debits[id := DebitRecord(key, days, freshCommitId)])
  {
  }

  /** One debit attempt as the client sees it: the effect at HCM and the answer received. */
  function Attempt(hcm: HcmState, id: RequestId, key: Key, days: int, conditions: Conditions)
    : (HcmState, Answer)
  {
    if conditions.wire == RequestLost then
      (hcm, Retryable)
    else
      var (next, answer) := AnswerDebit(hcm, id, key, days, conditions.mode, conditions.freshCommitId);
      (next, if conditions.wire == ReplyLost then Retryable else answer)
  }

  /** The wire loses the request, and then nothing happens, or the reply, and then all has happened. */
  lemma WireDecides(hcm: HcmState, id: RequestId, key: Key, days: int, mode: Mode, freshCommitId: string)
    ensures Attempt(hcm, id, key, days, Conditions(mode, RequestLost, freshCommitId)) == (hcm, Retryable)
    ensures Attempt(hcm, id, key, days, Conditions(mode, Delivered, freshCommitId)) ==
            AnswerDebit(hcm, id, key, days, mode, freshCommitId)
    ensures Attempt(hcm, id, key, days, Conditions(mode, ReplyLost, freshCommitId)) ==
            (Attempt(hcm, id, key, days, Conditions(mode, Delivered, freshCommitId)).0, Retryable)
  {
  }

  /**
   * A debit whose reply was lost is not taken twice: the next attempt that is answered gets the
   * first commit id, in whatever scenario it arrives, and moves nothing.
   */
  lemma LostReplyIsRecovered(hcm: HcmState, id: RequestId, key: Key, days: int, first: string,
                             mode: Mode, second: string)
    requires days > 0 && id !in hcm.debits && key in hcm.balances && hcm.balances[key] >= days
    ensures var (taken, reply) := Attempt(hcm, id, key, days, Conditions(Normal, ReplyLost, first));
            && reply == Retryable && taken.balances[key] == hcm.balances[key] - days
            && Attempt(taken, id, key, days, Conditions(mode, Delivered, second)) == (taken, Acknowledged(first))
  {
  }

  /** The days HCM has recorded against one balance. */
  function RecordedWeights(debits: map<RequestId, DebitRecord>, n: nat, key: Key): (weights: seq<int>)
    ensures |weights| == n
  {
    seq(n, i requires 0 <= i < n => if i in debits && debits[i].key == key then debits[i].days else 0)
  }
}
