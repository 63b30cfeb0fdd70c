# Time-off reservations and debits: a verified model

This project models the protocol by which the time-off service reserves days locally, debits
them at the HCM system over an unreliable wire, and keeps its snapshot, its ledger, its request
statuses and its outbox in step with HCM. It proves what every interleaving of the protocol
keeps, what only some interleavings keep and under which exact condition, and it does the same
for three smaller parts: the circuit breaker, the retry arithmetic, and the canonical JSON text
behind the HTTP idempotency hash.

How the model is laid out:

- `Balance`, `Lifecycle`, `Tables`, `Transactions`, `Flagging`: the domain arithmetic in integer
  tenths of a day (proved equal to the day-valued source functions in `DayArithmetic`), the
  tables, and each transaction body as a function from the database it starts on to the database
  it commits, or to the error that rolls it back.
- `Hcm`, `System`: HCM's debit endpoint, one debit attempt whose request or reply may be lost,
  and the step system. Every transaction and every attempt is one step. Any number of approve
  calls, the outbox worker, absolute pushes, refreshes and outside writers at HCM interleave
  freely. A run is any sequence of events from the empty state.
- `Stores`, `Delivery`, `Services`, `OutboxWorkers`: the same operations in the source's own
  form, as classes whose methods change tables, rows and fields statement by statement. Each
  method is proved against its transaction function; an approve call, a delivery, a worker tick,
  a batch and a reconciliation pass are proved to be runs of the step system.
- `Outcomes`: what each operation leaves and when it goes through, told in the statuses, balances
  and rows that a caller can look at.
- `Invariant`, `InvariantSteps`: the invariant of every state of every run. `Solvency`: what is
  added while HCM pushes nothing negative.
- `Reservations`, `ExactlyOnce`, `StatusHistory`, `CrossSystem`, `Accounting`, `Convergence`,
  `Effort`, `ClientKeys`, `Reconciliation`: the properties of runs.
- `ExactConditions`, `LostDebits`: where the code does not keep a documented promise, the exact
  condition, on the state before a step, under which the step keeps it. `Breaches`, `Stranding`
  and the end of `LostDebits`: concrete runs into every one of these.
- `CircuitBreaker`, `Retry`, `RoundingDrift`, `JsonText`, `JsonParser`, `CanonicalJson`,
  `Idempotency`: the smaller parts.

Words used below. "Every run" means every sequence of events, negative pushes included. The other
words are about one balance, whatever happens to the others. A run is *sound* for a balance when
no push to it and no outside write of it at HCM is negative. It is *clean* when no push to the
balance fails a request whose approve call lies between its first and its last transaction. It is
*covered* when no refresh pulls the balance, if there is one, below the days reserved on it. It is
*quiet* when no push, refresh or outside writer touches the balance. The *held* days of a balance
are those of its PENDING and APPROVED requests.

## Where code and documentation differ

The model follows the code. These promises of `docs/TRD.md` do not hold of it as they stand:

- Line 340, balances and reserved days are never negative: a reconciliation push of a negative
  HCM answer stores it (`ExactConditions.NonNegativeIffPushIsSound`,
  `Breaches.NegativePushIsStored`); only the batch endpoint checks the sign. Reserved days are
  never negative in any run.
- Lines 341-342, reserved days equal the held days: the closing transaction of an approve call
  writes back the row it read earlier, so after a push has failed that request it takes another
  request's days (`ExactConditions.ExactIffNoDaysTaken`, `Stranding.StaleCommitStrands`).
- Lines 347-348, HCM-driven writes carry a debit key: the adjustments of pushes, of refreshes and
  of approve calls that HCM refused for lack of balance do not
  (`ExactConditions.UnkeyedRowIff`, `Breaches.RowsWithoutDebitKey`).
- Line 370, the worker completes a debit that HCM took and the local commit missed. Two kinds of
  step leave such a debit with nothing to settle it (`LostDebits.BecomesAbandonedIff`), and then it
  stays so (`LostDebits.AbandonedForGood`). One is the end of an acknowledged approve call whose
  guards throw: an outbox row is added only after a retryable HCM error, so nothing is queued
  (`ExactConditions.StrandsIffGuardFires`, `Stranding.StaleCommitStrands`). The other is the
  worker's last mark on the row: DONE for a request that a push has failed meanwhile, which the
  worker leaves alone, or DEAD after the last attempt (`LostDebits.WorkerLosesDebit`). HCM also
  debits requests that are FAILED already, since neither caller reads the request again before it
  calls HCM (`LostDebits.BecomesLostIff`).
- The transition table of the domain layer has no step from PENDING to FAILED, which a push
  takes, nor from FAILED to COMMITTED, which a stale closing transaction takes
  (`ExactConditions.LawfulIffNotOvertaken`, `Breaches.PushFailsPending`, `Stranding.Finishing`).
- A refresh looks at no request and can leave more days reserved than the balance has
  (`ExactConditions.FitsIffNotOverbooked`, `Breaches.RefreshOverbooks`).
- The comment at apps/timeoff/src/common/idempotency/http-idempotency.interceptor.ts:76-78 says
  that of two racing calls the loser is not cached: the store overwrites, so the last one to
  finish is (`Idempotency.HistoryDecides`).

## Model

| member | source | states |
|---|---|---|
| `CrossSystem.BalancesDifferByDoubt` | apps/timeoff/src/requests/requests.service.ts:154-220 | Cross-system conservation: once a balance is seeded, with the same amount of at least zero on both sides and no request yet, in every quiet run the local balance minus HCM's balance is exactly the days of the APPROVED requests that HCM has recorded; with none in doubt the two agree, whatever replies were lost or retried. |
| `Accounting.AccountsBalance` | apps/timeoff/src/requests/requests.service.ts:303-343 | Accounting in every run, whatever pushes, refreshes and outside writes it holds: the local balance minus HCM's is what pushes and refreshes recorded as adjustments, less what outside writers supplied at HCM, plus the days in doubt, plus the days that HCM debited for requests that are FAILED here. |
| `CrossSystem.ReservationSuffices` | apps/timeoff/src/domain/balance.ts:73-89 | In every state of a quiet run after seeding HCM's own insufficiency test does not fire for an APPROVED request, and neither guard of the commit nor the debit-key index stops its local commit. |
| `CrossSystem.NoApprovalFails` | apps/hcm-mock/src/server.ts:107-115 | In a quiet run after seeding, without forced scenarios, no request of the balance is ever FAILED. |
| `Convergence.RoundConverges` | apps/timeoff/src/outbox/outbox.worker.ts:70-113 | Convergence: from any state of a seeded, quiet run with an idle worker, delivering every queued debit of the balance while HCM answers leaves nothing in doubt but calls in flight and DEAD rows; with neither the two balances are equal. |
| `Convergence.DeliveryCommits` | apps/timeoff/src/outbox/outbox.worker.ts:119-182 | A queued debit of a settling balance, delivered while HCM answers, is acknowledged, commits locally and leaves its row DONE. |
| `CrossSystem.QuietRunSettles` | apps/timeoff/src/outbox/outbox.worker.ts:119-182 | Every quiet run keeps exact and fitting reservations, live debits and the agreement of the two balances together. |
| `CrossSystem.StepDebitsLive` | apps/timeoff/src/outbox/outbox.worker.ts:135-139 | Without a push on its balance, a request that is being debited, or is queued for it, stays APPROVED. |
| `Reservations.ReservedWithinHeld` | apps/timeoff/src/requests/requests.service.ts:69-115 | In every run, stale approvals and negative pushes included, reserved days lie between zero and the held days. |
| `Reservations.ReservedIsHeldWhenClean` | apps/timeoff/src/requests/requests.service.ts:162-206 | In every run that is clean for a balance its reserved days are exactly its held days. |
| `Reservations.NoOverbooking` | apps/timeoff/src/domain/balance.ts:39-89 | In every run that is covered and sound for a balance, clean or not, its reserved days are at most the balance. |
| `Reservations.PushRestoresFit` | apps/timeoff/src/requests/requests.service.ts:345-382 | One push makes reserved days fit the balance again, from any state where they are within the held days. |
| `Reservations.StepExact` | apps/timeoff/src/requests/requests.service.ts:425-440 | No step makes exact reserved days inexact unless it closes an approve call whose request a push has failed. |
| `ExactlyOnce.HcmDebitsOnce` | apps/hcm-mock/src/server.ts:80-127 | In every run in which no outside writer touches a balance at HCM, that balance falls by exactly the days of the requests newly recorded, one record to a request; a record never changes and carries its request's key and days. |
| `ExactlyOnce.CommittedIffOneDebitRow` | apps/timeoff/src/requests/requests.service.ts:176-193 | In every run a request is COMMITTED iff the ledger has exactly one row with its debit key; every such row is a DEBIT of minus its days on its balance, and the request's commit id is the one HCM recorded. |
| `Solvency.LedgerProjectsSnapshot` | apps/timeoff/src/domain/ledger.ts:37-43 | In every run, negative pushes included, the rows of a balance add up to its snapshot. |
| `Solvency.LedgerRebuildsSnapshot` | apps/timeoff/src/domain/ledger.ts:37-64 | In every run that is sound for a balance no prefix sum of its rows in insertion order is negative, so replaying the rows from zero never throws, and it rebuilds the snapshot. |
| `Solvency.NoNegativeBalance` | docs/TRD.md:340 | In every run that is sound for a balance neither side ever holds a negative amount of it. |
| `ExactlyOnce.NoDuplicateDebitRow` | apps/timeoff/src/persistence/entities/ledger-entry.entity.ts:7 | The unique index on debit keys never turns a commit away: a request that is not COMMITTED has no row yet. |
| `ExactlyOnce.AttemptConserves` | apps/hcm-mock/src/server.ts:117-126 | One attempt, whatever happens to its request or reply, lowers HCM's balance by exactly what it newly records. |
| `Hcm.DebitAnswers` | apps/hcm-mock/src/server.ts:72-128 | What the endpoint answers and exactly when: a recorded key gets its commit id under every scenario; otherwise an outage comes first, then an unknown dimension, then too little balance; only an acknowledgement changes anything, and it lowers the balance and records the debit. |
| `Hcm.WireDecides` | apps/timeoff/src/hcm/hcm.client.ts:106-123 | A lost request does nothing; a lost reply does all that a delivered one does, and the caller cannot tell the two apart. |
| `Hcm.LostReplyIsRecovered` | apps/hcm-mock/src/server.ts:80-84 | A debit whose reply was lost is not taken twice: the next answered attempt gets the first commit id, under every scenario, and moves nothing. |
| `Delivery.DebitCallEnds` | apps/timeoff/src/hcm/retry.ts:25-36 | A debit call ends on its first attempt that is not answered retryably, with that answer, code and commit id included, as its outcome; without one it gives up after exactly the last attempt allowed. |
| `Delivery.ShortBalanceIsRefused` | apps/hcm-mock/src/server.ts:107-115 | While HCM has less than the debit asks for, a call takes nothing, however many attempts are lost, and is refused for lack of balance iff one of its attempts is delivered. |
| `Tables.ReplayIsProjection` | apps/timeoff/src/domain/ledger.ts:53-64 | Replaying rows throws exactly when some prefix sum is negative, and otherwise gives the projected balance. |
| `StatusHistory.TerminalIsForGood` | apps/timeoff/src/domain/request.ts:12-37 | In every run COMMITTED, REJECTED and CANCELLED are absorbing and FAILED gives way to COMMITTED alone. |
| `StatusHistory.StepStatus` | apps/timeoff/src/requests/requests.service.ts:188-193 | Every status change is in the transition table, or is a push failing a PENDING request, or is an approve call committing a request that a push had failed. |
| `StatusHistory.AtMostTwoChangesWhenClean` | apps/timeoff/src/domain/request.ts:12-33 | In every run that is clean for its balance a request changes status at most twice. |
| `StatusHistory.AtMostThreeChanges` | apps/timeoff/src/requests/requests.service.ts:360-372 | In every run a request changes status at most three times. |
| `StatusHistory.CleanStepStatus` | apps/timeoff/src/outbox/outbox.worker.ts:135-139 | While no approve call carries a stale row every change is in the transition table or is a push failing a PENDING request. |
| `StatusHistory.DoneMeansTerminal` | apps/timeoff/src/outbox/outbox.worker.ts:86-113 | In every run an outbox row that is DONE belongs to a request in a terminal status. |
| `StatusHistory.NoApprovalIsStranded` | apps/timeoff/src/requests/requests.service.ts:208-220 | In every run that is clean, covered and sound for a balance each APPROVED request of it has an approve call in flight or one outbox row, never both, and that row is not DONE. |
| `StatusHistory.SecondApproveIsRefused` | apps/timeoff/src/requests/requests.service.ts:124-128 | While a request's approve call is in flight the request is not PENDING, and a second approve call changes nothing. |
| `Outcomes.CreateOutcome` | apps/timeoff/src/requests/requests.service.ts:57-115 | A create call is refused for exactly one of four reasons, in this order: no positive days, no balance, too few days available, client key taken. Otherwise a PENDING request is added and its days are reserved, and nothing else changes. |
| `Outcomes.ApproveOutcome` | apps/timeoff/src/requests/requests.service.ts:124-143 | An approval begins iff the request is PENDING, and changes its status alone. |
| `Outcomes.FinishOutcome` | apps/timeoff/src/requests/requests.service.ts:162-220 | In every state that a run reaches: an acknowledged debit is committed, in all three tables, iff the balance and its reserved days are at least the days; a refused one fails the request and gives its days back iff that many are reserved, with a row on record when HCM had too little; a call that gave up queues the debit; otherwise nothing changes. |
| `Outcomes.DeliveryOutcome` | apps/timeoff/src/outbox/outbox.worker.ts:86-228 | In every state that a run reaches: a refused delivery fails its APPROVED request, gives the days back and leaves the row DONE; an acknowledged one is committed iff the balance bears it; a request settled meanwhile is left alone and its row is DONE; any other delivery uses up one attempt, the last of which leaves the row DEAD. |
| `Outcomes.WithdrawOutcome` | apps/timeoff/src/requests/requests.service.ts:223-285 | In every state that a run reaches, rejecting leaves a PENDING request REJECTED, cancelling leaves it CANCELLED, and both give its days back; a request in another status, or one whose days are no longer all reserved, is left alone. |
| `Outcomes.WithdrawErrors` | apps/timeoff/src/requests/requests.service.ts:225-227 | The caller is told of an unknown request or of a status other than PENDING exactly when that is the case. |
| `Outcomes.PendingCanBeWithdrawn` | apps/timeoff/src/requests/requests.service.ts:471-481 | While the reserved days of a balance are its held days, every PENDING request of it can be rejected and cancelled. |
| `Outcomes.PushOutcome` | apps/timeoff/src/requests/requests.service.ts:312-372 | A push stores the amount, records the difference if there is one, fails exactly the flagged requests, which were PENDING or APPROVED ones of the balance, and changes nothing else. |
| `Outcomes.RefreshOutcome` | apps/timeoff/src/balance/balance.service.ts:36-70 | A refresh goes through iff the amount is not negative; it keeps the reserved days and adds a row iff the amount differs or the balance is new. |
| `Lifecycle.IsTerminal` | apps/timeoff/src/domain/request.ts:35-46 | A status is left by no transition exactly when a request in it holds no reservation. |
| `Effort.RowPickedAtMost` | apps/timeoff/src/outbox/outbox.service.ts:57-68 | In every run, with at least one attempt allowed, the worker takes an outbox row at most maxAttempts times, by a measure that every pick lowers. |
| `Effort.HcmCalledAtMost` | apps/timeoff/src/hcm/hcm.client.ts:88-92 | In every run one request causes at most maxRetries (1 + maxAttempts) HCM debit calls over its whole life. |
| `Effort.StepEffort` | apps/timeoff/src/outbox/outbox.worker.ts:86-113 | Every step keeps the pair of measures: picks left and calls left only fall, and a new retry loop uses up one of the loops left. |
| `ClientKeys.OneReservationPerKey` | apps/timeoff/src/requests/requests.service.ts:62-115 | In every run, however create calls with one idempotency key interleave, at most one of them commits, exactly as many rows carry the key, and together the calls have raised reserved days by that one row's days. |
| `Flagging.FlaggingIsLeastCut` | apps/timeoff/src/requests/requests.service.ts:345-382 | The flagged requests are the shortest prefix, in the newest-first order, whose removal brings the held days to at most the pushed balance. |
| `Flagging.NegativeFlagsAll` | apps/timeoff/src/requests/requests.service.ts:355-372 | A push of a negative amount flags every held request of the balance. |
| `Flagging.NewestFirstSortsStably` | apps/timeoff/src/requests/requests.service.ts:357 | The order is by creation time descending, and requests created at one instant keep the order in which the database listed them. |
| `Flagging.FlaggedAreHeld` | apps/timeoff/src/requests/requests.service.ts:346-354 | A push flags only held requests of its own balance, each once. |
| `Flagging.HeldAfterFailing` | apps/timeoff/src/requests/requests.service.ts:373-381 | Failing a set of requests takes exactly their held days out of the held days of the balance. |
| `Invariant.PushReserved` | apps/timeoff/src/requests/requests.service.ts:345-384 | Whatever was reserved before, a push that finds more days held than the balance sets reserved days to the survivors' sum, which fits a balance of at least zero; any other push leaves them alone, and within the held days iff they were. |
| `InvariantSteps.RunKeeps` | docs/TRD.md:338-348 | Every run keeps the invariant: reservations within the held days, ledger and snapshot in step, commits tied to debit rows and HCM records, and every call, outbox row and the worker consistent with its request. |
| `ExactConditions.ExactIffNoDaysTaken` | apps/timeoff/src/requests/requests.service.ts:162-193 | A step makes exact reserved days inexact iff it is the closing transaction of an approve call whose request has been failed meanwhile and whose guards pass all the same. |
| `ExactConditions.PushRepairsIff` | apps/timeoff/src/requests/requests.service.ts:355-382 | After a push reserved days are exact iff they were before or the held days exceeded the pushed balance. |
| `ExactConditions.StrandsIffGuardFires` | apps/timeoff/src/requests/requests.service.ts:168-175 | The end of an approve call leaves a still APPROVED request with no call and no outbox row iff a guard of its closing transaction throws. |
| `ExactConditions.BecomesStrandedIff` | apps/timeoff/src/requests/requests.service.ts:162-220 | Over all steps: a request becomes APPROVED without a call or an outbox row exactly at the end of its approve call, when it is still APPROVED and a guard of the closing transaction throws. |
| `LostDebits.BecomesAbandonedIff` | docs/TRD.md:370 | Over all steps: a debit that HCM took is left uncommitted with nothing to settle it exactly when an acknowledged approve call ends and a guard throws, or when the worker marks the row of a request that is not COMMITTED as DONE or, its attempts used up, as DEAD. |
| `LostDebits.AbandonedForGood` | apps/timeoff/src/outbox/outbox.worker.ts:119-139 | A debit that is left with nothing to settle it stays so in every run from there on. |
| `LostDebits.BecomesLostIff` | apps/timeoff/src/outbox/outbox.worker.ts:119-139 | Over all steps: HCM comes to have debited a request that is FAILED here exactly when a push flags a request whose debit HCM has recorded, or when an attempt for an already FAILED request reaches HCM in its normal mode with its days available and its key not recorded. |
| `ExactConditions.FitsIffNotOverbooked` | apps/timeoff/src/balance/balance.service.ts:46-56 | A step makes reserved days exceed the balance iff it is a refresh to an amount from zero to below the days reserved, or a push of a negative balance. |
| `ExactConditions.NonNegativeIffPushIsSound` | apps/timeoff/src/reconciliation/reconciliation.service.ts:61-91 | A step stores a negative amount iff it is a push of a negative amount. |
| `ExactConditions.LawfulIffNotOvertaken` | apps/timeoff/src/domain/request.ts:12-23 | A step changes a status against the transition table iff it is a push that flags the request while it is PENDING, or the end of an acknowledged approve call whose request has been failed and whose two guards pass. |
| `ExactConditions.UnkeyedRowIff` | docs/TRD.md:347-348 | A step adds a ledger row without a debit key iff it is a push to a different amount, a refresh that changes or creates the balance, or the end of an approve call that HCM refused for lack of balance and whose days can be released; any other row added is a keyed DEBIT. |
| `Solvency.LedgerIsAppendOnly` | docs/TRD.md:343-344 | In every run the ledger only grows at its end, and a row carries a debit key iff it is a DEBIT. |
| `Breaches.NegativePushIsStored` | apps/timeoff/src/reconciliation/reconciliation.service.ts:69-82 | A concrete run: HCM's balance turns negative after the snapshot is seeded with 100, and the push of what HCM answers stores it. |
| `Breaches.RefreshOverbooks` | apps/timeoff/src/balance/balance.service.ts:36-56 | A concrete sound run: a refresh leaves five days reserved on a balance of three. |
| `Breaches.PushFailsPending` | apps/timeoff/src/requests/requests.service.ts:356-372 | A concrete sound run: a push fails a PENDING request, which the transition table does not allow. |
| `Breaches.RowsWithoutDebitKey` | apps/timeoff/src/requests/requests.service.ts:442-454 | A concrete sound run whose refresh and whose refused approve call each add a row without a debit key. |
| `Stranding.StaleCommitStrands` | apps/timeoff/src/requests/requests.service.ts:188-193 | A concrete sound run of eleven steps: a push overtakes an approve call, the stale commit takes the other request's days, and that request, debited at HCM, stays APPROVED with nothing left to commit it. |
| `LostDebits.WorkerLosesDebit` | apps/timeoff/src/outbox/outbox.worker.ts:131-139 | A concrete run: HCM takes a queued debit, a push of HCM's own amount fails the request before the local commit, and the worker marks the row DONE. |
| `LostDebits.LosingIsOrderly` | apps/timeoff/src/requests/requests.service.ts:345-372 | That run is sound, clean and covered. |
| `Reconciliation.BatchActsPerKey` | apps/timeoff/src/reconciliation/reconciliation.service.ts:32-59 | A batch with distinct keys acts on each key as a lone push would, leaves every other balance alone, fails exactly the requests that the lone pushes flag, and counts exactly the entries that differ. |
| `Reconciliation.BatchOrderIsIrrelevant` | apps/timeoff/src/reconciliation/reconciliation.service.ts:35-48 | Any order of a batch with distinct keys gives the same balances, requests, per-balance ledger rows, number of changes and set of flagged requests. |
| `Reconciliation.BatchAgain` | apps/timeoff/src/requests/requests.service.ts:312-384 | Ingesting amounts of a batch with distinct keys again, in any order and with no step in between, changes nothing, counts no change and flags no request. |
| `Reconciliation.ReconcileAgain` | apps/timeoff/src/reconciliation/reconciliation.service.ts:61-91 | A second error-free pass against an unchanged HCM after an error-free one reports no drift and changes nothing, in whatever order either pass lists the snapshots. |
| `Reconciliation.ReconcileActsPerKey` | apps/timeoff/src/reconciliation/reconciliation.service.ts:61-91 | A pass reports as drifted exactly the snapshots that HCM answered differently and as errors exactly those it did not answer, acts on each drifted balance as a lone push of the answer would, and leaves every other balance alone. |
| `Reconciliation.ReconcileFlags` | apps/timeoff/src/reconciliation/reconciliation.service.ts:68-82 | A pass flags, and fails, exactly the requests that the lone pushes of differing answers flag. |
| `Reconciliation.BatchIsRun` | apps/timeoff/src/reconciliation/reconciliation.service.ts:35-48 | A batch, one that names a key repeatedly included, is a run of pushes, so what holds in every run holds after every batch. |
| `Reconciliation.DistinctKeysListedInTurn` | apps/timeoff/src/reconciliation/reconciliation.service.ts:35-48 | With distinct keys, what the database listed before the batch is what it lists for each entry in its turn. |
| `Reconciliation.ReconcileIsRun` | apps/timeoff/src/reconciliation/reconciliation.service.ts:64-89 | A reconciliation pass that nothing interrupts is a run of pushes. |
| `Services.RequestsService.Create` | apps/timeoff/src/requests/requests.service.ts:51-118 | A known client key is answered with its request and reserves nothing; otherwise the tables change as the create transaction says, or not at all, and the caller gets the new request or the error. |
| `Services.RequestsService.InsertAndReserve` | apps/timeoff/src/requests/requests.service.ts:69-115 | The transaction body, with its rollback when the client key is taken. |
| `Services.RequestsService.MarkApproved` | apps/timeoff/src/requests/requests.service.ts:130-152 | Sets a PENDING request to APPROVED and hands its row on; any other request is refused. |
| `Services.RequestsService.Approve` | apps/timeoff/src/requests/requests.service.ts:120-221 | An uninterrupted approve call is the run of its begin, its debit attempts and its end, whatever calls are in flight. An unknown request and one that is not PENDING, its own call in flight included, are refused. For a PENDING request that is not queued the caller gets the row, as stored, iff it ends COMMITTED, FAILED or queued; after an error it is still APPROVED. With an open circuit HCM is not called and the request is queued; otherwise the debit call decides, an acknowledged one COMMITTED and a refused one FAILED unless the closing transaction throws. |
| `Services.RequestsService.Conclude` | apps/timeoff/src/requests/requests.service.ts:162-220 | The end of the call commits, fails or queues the request, or is rolled back, exactly as the step system's closing step; the caller gets the row iff an acknowledged request is COMMITTED or a refused one FAILED, always gets it after giving up, and otherwise gets the error and the request stays as it was. |
| `Services.CommitDebit` | apps/timeoff/src/requests/requests.service.ts:162-193 | Balance, ledger row and request change together, or nothing changes when a guard or the unique index throws. |
| `Services.RequestsService.FailApproval` | apps/timeoff/src/requests/requests.service.ts:420-469 | Releases the days, fails the request, and records the contradiction when HCM had too little; or changes nothing. |
| `Services.RequestsService.Reject` | apps/timeoff/src/requests/requests.service.ts:223-248 | Rejection is the withdrawal to REJECTED, and a caller who gets the row gets a REJECTED one. |
| `Services.RequestsService.Cancel` | apps/timeoff/src/requests/requests.service.ts:250-285 | Cancellation is the withdrawal to CANCELLED, and a caller who gets the row gets a CANCELLED one. |
| `Services.RequestsService.Withdraw` | apps/timeoff/src/requests/requests.service.ts:223-285 | Rejection and cancellation release the days of a PENDING request and set its status, and answer with the stored row; or they change nothing and answer with the error. |
| `Services.RequestsService.ReleaseReservation` | apps/timeoff/src/requests/requests.service.ts:471-481 | Gives the days back to the snapshot, if there is one and it has that many reserved. |
| `Services.RequestsService.HandleAbsoluteBalance` | apps/timeoff/src/requests/requests.service.ts:303-385 | Overwrites the snapshot, records the delta, and flags and re-reserves as the push function says, for every order in which the database lists the rows. |
| `Services.RequestsService.FlagNewest` | apps/timeoff/src/requests/requests.service.ts:356-372 | The flagging loop takes the prefix that ends where the overage does, and fails exactly those requests. |
| `Services.RequestsService.SumHeld` | apps/timeoff/src/requests/requests.service.ts:350-376 | The filtered sum over the listing is the held days of the rows that are left. |
| `Services.BalanceService.StoreRefresh` | apps/timeoff/src/balance/balance.service.ts:29-85 | A pulled balance overwrites the snapshot, records the difference and is answered with the new snapshot; a negative one changes nothing and is answered with the error. |
| `Services.ReconciliationService.Ingest` | apps/timeoff/src/reconciliation/reconciliation.service.ts:32-59 | The loop over a batch, one that names a key repeatedly included, computes the fold of its pushes, with its count and its flagged list. |
| `Services.ReconciliationService.ReconcileAll` | apps/timeoff/src/reconciliation/reconciliation.service.ts:61-91 | The loop over the snapshots pushes where HCM differs, and counts what it scanned, drifts and errors and lists the flags as the pass function says. |
| `Delivery.OutboxService.Enqueue` | apps/timeoff/src/outbox/outbox.service.ts:11-46 | A debit key that has a row keeps it; otherwise a fresh queued row is added that is due at once. |
| `Delivery.OutboxService.MarkFailed` | apps/timeoff/src/outbox/outbox.service.ts:57-68 | Counts the attempt, sets when the row is due next, and queues the row again or marks it DEAD when its attempts are used up. |
| `Delivery.OutboxService.FindDue` | apps/timeoff/src/persistence/outbox.repository.ts:39-45 | Lists queued rows whose time has come, each once, the earliest first and at most the limit; a due row is left out only when the limit is reached by rows that are due no later. |
| `Delivery.OutboxService.MarkDone` | apps/timeoff/src/outbox/outbox.service.ts:48-55 | Sets the row's status to DONE and nothing else. |
| `Delivery.OutboxService.MarkProcessing` | apps/timeoff/src/outbox/outbox.service.ts:70-76 | Sets the row's status to PROCESSING and nothing else. |
| `Delivery.HcmClient.Debit` | apps/timeoff/src/hcm/retry.ts:19-38 | One retried debit call, once the breaker has let it through, ends acknowledged, refused or given up, as the chain of its attempts does. |
| `Delivery.HcmClient.GuardedDebit` | apps/timeoff/src/hcm/hcm.client.ts:62-92 | The debit call through the breaker: an open circuit refuses it and learns nothing, any other call adds its outcome to the breaker's history; a call that gave up raises the failures by one, a refusal by HCM counts as no failure and opens no circuit, and an acknowledgement closes it. |
| `Delivery.CallsWithinRetries` | apps/timeoff/src/hcm/retry.ts:25-36 | One debit call makes between one and maxRetries attempts, and gives up only after the last. |
| `Delivery.WorkerCallsRun` | apps/timeoff/src/hcm/retry.ts:19-38 | The worker's retry loop is the run of its attempt events. |
| `Delivery.ApproveCallsRun` | apps/timeoff/src/hcm/retry.ts:19-38 | The approve call's retry loop is the run of its attempt events. |
| `OutboxWorkers.OutboxWorker.Tick` | apps/timeoff/src/outbox/outbox.worker.ts:70-84 | A tick delivers the due rows, at most 25, the earliest first, and counts them; with fewer than 25 it leaves no due row out; each of them ends DONE or has used up one more attempt, and no other row changes. A tick that finds another one running does nothing; the running flag is restored. |
| `OutboxWorkers.OutboxWorker.ProcessOne` | apps/timeoff/src/outbox/outbox.worker.ts:86-117 | An uninterrupted delivery is the run of its pick, its attempts, its transaction and its mark. Told from how its debit call ended: a refusal fails an APPROVED request, gives its days back and leaves the row DONE; an acknowledgement commits it, or the row is delivered again; a settled request is left alone; giving up uses up one attempt. No other row is touched, and a row that is not DONE is put off by 500 ms doubled for every earlier attempt, at most a minute. |
| `OutboxWorkers.OutboxWorker.CommitDelivered` | apps/timeoff/src/outbox/outbox.worker.ts:131-181 | Re-reads the request, leaves a settled one alone, and otherwise commits the debit or changes nothing. |
| `OutboxWorkers.OutboxWorker.FailDelivered` | apps/timeoff/src/outbox/outbox.worker.ts:188-228 | Fails an APPROVED request and releases its days, stopping at zero; leaves any other request alone. |
| `Stores.Database.FindByClientKey` | apps/timeoff/src/persistence/request.repository.ts:41-43 | Finds a request with the client key iff there is one. |
| `Stores.Database.InsertLedger` | apps/timeoff/src/persistence/entities/ledger-entry.entity.ts:7 | Appends the row unless its debit key is taken. |
| `Stores.HcmStore.PostDebit` | apps/hcm-mock/src/server.ts:67-128 | The debit endpoint answers recorded keys from the record and otherwise refuses, or lowers the balance and records the debit, as the endpoint function says. |
| `Stores.HcmStore.SetBalance` | apps/hcm-mock/src/store.ts:23-25 | Replaces one balance and leaves the others and every debit record alone. |
| `Stores.HcmStore.BumpBalance` | apps/hcm-mock/src/store.ts:31-37 | Adds the delta to the balance, an unknown one counting as zero. |
| `DayArithmetic.DaysRefineUnits` | apps/timeoff/src/domain/balance.ts:29-116 | On the tenths grid the day-valued guards and updates, all five of them, are those of the integer model, error for error. |
| `DayArithmetic.AcceptedIffNearGrid` | apps/timeoff/src/domain/balance.ts:9-18 | An amount is accepted iff a whole number of tenths lies within the tolerance, and then as that number. |
| `DayArithmetic.RoundError` | apps/timeoff/src/requests/requests.service.ts:321-322 | Rounding moves a number by at most one half, upwards on a tie. |
| `Balance.ReserveTakesAvailable` | apps/timeoff/src/domain/balance.ts:39-53 | A reservation goes through iff its days are not negative and available, and makes exactly them unavailable. |
| `Balance.ReleaseUndoesReserve` | apps/timeoff/src/domain/balance.ts:55-67 | A release goes through iff that many days are reserved; releasing and reserving undo each other. |
| `Balance.CommitIsReleaseThenDebit` | apps/timeoff/src/domain/balance.ts:73-89 | A commit is a release followed by a debit of the same days, and throws what the first of the two throws. |
| `Balance.DeltaIsUndone` | apps/timeoff/src/domain/balance.ts:91-100 | A delta goes through iff the balance bears it, and the opposite delta undoes it. |
| `Balance.AbsoluteIsDelta` | apps/timeoff/src/domain/balance.ts:106-116 | An absolute amount of at least zero is the delta that leads to it; a negative one is refused. |
| `RoundingDrift.DriftIsBounded` | apps/timeoff/src/requests/requests.service.ts:321-343 | From agreement, after n pushes of any amounts the ledger sum in tenths is within n/2 of ten times the balance. |
| `RoundingDrift.NoDriftOnGrid` | apps/timeoff/src/requests/requests.service.ts:321-343 | With every amount a multiple of a tenth the two never differ. |
| `RoundingDrift.DriftIsAttained` | apps/timeoff/src/requests/requests.service.ts:321-343 | The bound is reached: pushes of 0.05, 0.10, 0.15, ... days drift by exactly n/2 tenths. |
| `CircuitBreaker.StateIsFunctionOfHistory` | apps/timeoff/src/hcm/circuit-breaker.ts:27-84 | With a monotone clock the breaker's state is CLOSED, OPEN or HALF_OPEN exactly as the failures since the last success or reset and the time of the last one tell. |
| `CircuitBreaker.BusinessErrorsInvisible` | apps/timeoff/src/hcm/circuit-breaker.ts:59-70 | Dropping every business error from a history leaves every field of the breaker as it was. |
| `CircuitBreaker.FailuresCounted` | apps/timeoff/src/hcm/circuit-breaker.ts:59-71 | An error that HCM did not send, a retryable one, and a timeout, upstream or unknown one raise the count of failures by one; no other error is counted. |
| `CircuitBreaker.OpensAtThreshold` | apps/timeoff/src/hcm/circuit-breaker.ts:32-76 | From a start, a success or a reset on, retryable errors in a row leave the circuit closed below the threshold; from the threshold on it is open until the cooldown has passed since the last of them, and half open after that. |
| `CircuitBreaker.HalfOpenDecides` | apps/timeoff/src/hcm/circuit-breaker.ts:53-76 | In a half open circuit one more such error opens it again from that moment, and a success closes it. |
| `CircuitBreaker.Breaker.GetState` | apps/timeoff/src/hcm/circuit-breaker.ts:27-30 | Returns the state that the history tells. |
| `CircuitBreaker.Breaker.Begin` | apps/timeoff/src/hcm/circuit-breaker.ts:32-36 | Lets a call through iff the history does not show an open circuit. |
| `CircuitBreaker.Breaker.OnSuccess` | apps/timeoff/src/hcm/circuit-breaker.ts:53-57 | Closes the circuit and forgets the failures, from any state. |
| `CircuitBreaker.Breaker.OnFailure` | apps/timeoff/src/hcm/circuit-breaker.ts:59-76 | An error that HCM did not send, a retryable one, and a timeout, upstream or unknown one raise the failures by one, and at the threshold open the circuit from that moment; other errors change no field. |
| `CircuitBreaker.Breaker.Reset` | apps/timeoff/src/hcm/circuit-breaker.ts:47-51 | Closes the circuit and forgets the failures. |
| `Retry.WithRetry` | apps/timeoff/src/hcm/retry.ts:19-38 | Tries until an attempt returns, throws for good or is the last; reports that attempt's outcome; sleeps between attempts only, in all at most baseMs (2^(maxAttempts-1) - 1) for every jitter. |
| `Retry.DelayWithin` | apps/timeoff/src/hcm/retry.ts:10-17 | Jitter takes at most half of a delay, up to rounding, and a cap only lowers it; no delay exceeds baseMs 2^(attempt-1). |
| `Retry.DelaysDouble` | apps/timeoff/src/hcm/retry.ts:10-15 | Without jitter the first delay is the base and each one is twice the one before, up to the cap if there is one. |
| `Retry.JitterReaches` | apps/timeoff/src/hcm/retry.ts:16 | Every whole delay from one half up to the target is drawn for some sample, and the least sample draws one half. |
| `Retry.BackoffsAltogether` | apps/timeoff/src/outbox/outbox.worker.ts:115-117 | k backoffs last at most k minutes and at most 500 (2^k - 1) ms, and at least half a second each. |
| `Retry.BackoffsNeverShrink` | apps/timeoff/src/outbox/outbox.worker.ts:115-117 | Backoffs are at least 500 ms, never shrink, and stop at a minute. |
| `Retry.BackoffsDouble` | apps/timeoff/src/outbox/outbox.worker.ts:115-117 | The first backoff is half a second and each one is twice the one before, up to a minute. |
| `CanonicalJson.PrintsIdentifyValues` | apps/timeoff/src/common/idempotency/http-idempotency.interceptor.ts:88-94 | Two values print alike iff they are equal up to the order of object keys at every level. |
| `CanonicalJson.ParsingInvertsPrinting` | apps/timeoff/src/common/idempotency/http-idempotency.interceptor.ts:88-94 | A parser of JSON text reads the printed form back as the value with sorted keys, and consumes all of it. |
| `Idempotency.PreimageIdentifiesRequest` | apps/timeoff/src/common/idempotency/http-idempotency.interceptor.ts:40 | Two hash preimages are equal iff method, path and, up to key order, body are. |
| `Idempotency.StoredKeyDecides` | apps/timeoff/src/common/idempotency/http-idempotency.interceptor.ts:42-63 | Once a response is stored under a key, a later call with that key is answered with that response, its body restored from the stored text, iff it is the same request or the digest collides, and is a conflict otherwise. |
| `Idempotency.RepeatedCallIsReplayed` | apps/timeoff/src/common/idempotency/http-idempotency.interceptor.ts:34-63 | A POST, PUT, PATCH or DELETE, or any call with another than a safe method, that has a key and repeats the stored call is answered with the stored response. |
| `Idempotency.SafeCallsPassThrough` | apps/timeoff/src/common/idempotency/http-idempotency.interceptor.ts:34-36 | GET, HEAD and OPTIONS calls, and calls without a key or with an empty one, are always handled and store nothing. |
| `Idempotency.HistoryDecides` | apps/timeoff/src/common/idempotency/http-idempotency.interceptor.ts:42-82 | After any history of arriving and finishing calls, racing ones included, a call is handled iff nothing was stored under its key, is answered with the last response stored there iff it is that response's request or the digest collides, and is a conflict otherwise. |
| `Idempotency.HandledWhenEarly` | apps/timeoff/src/common/idempotency/http-idempotency.interceptor.ts:42-82 | The handler runs exactly once for every call with the key that arrives before the first response is stored under it. |
| `Idempotency.KeysAreIndependent` | apps/timeoff/src/common/idempotency/http-idempotency.interceptor.ts:42-82 | What happens to calls with other keys never changes what a call with a key is answered. |
| `Idempotency.HandledOnceWhenSerial` | apps/timeoff/src/common/idempotency/http-idempotency.interceptor.ts:16-21 | When no call with the key arrives while the handler of one is running, whatever replays, conflicts and calls with other keys come in between, the handler runs at most once more often than it throws; a handler that throws stores nothing, and the next call is handled again. |
| `Idempotency.Interceptor.Lookup` | apps/timeoff/src/common/idempotency/http-idempotency.interceptor.ts:34-63 | Decides between handling, replay and conflict from the stored record, and parses the stored body back. |
| `Idempotency.Interceptor.Remember` | apps/timeoff/src/common/idempotency/http-idempotency.interceptor.ts:63-82 | Stores the response of a participating call under its key. |

## Left out

- Process crashes and more than one worker process: a row left PROCESSING is never picked again, and a crash between HCM's answer and the local commit of an approve call leaves no outbox row.
- HCM requests that HCM handles after the caller gave up and after a later attempt was answered: an attempt is one step whose request or reply may be lost.
- Request ids are positions in the request table instead of UUIDs, and the debit key `req-<id>` is the id itself.
- The order in which the database lists rows is left open where the query names none: every order is covered. The step system has no clock: there the worker may pick any queued row, so what holds in its runs holds for every due time.
- `Idempotency.StoredKeyDecides`: assumes nothing of SHA-256; a collision of the digest is named in the statement.
- `Idempotency.Interceptor.Lookup`: stored text is read by a parser for text without extra spaces, which is what the store holds.
- `CanonicalJson.PrintsIdentifyValues`: a number is the text that JavaScript prints for it, so number formatting is not modelled.
- `Effort.HcmCalledAtMost`: assumes that both limits are at least one, as their defaults are; with fewer retries the source throws without an attempt.
- `Services.RequestsService.Approve`: states what happens with no other step in between; interleavings are the business of the step system.
- `OutboxWorkers.OutboxWorker.ProcessOne`: the same; an outbox row with another event type than the debit, which no code writes, is not modelled.
- `OutboxWorkers.OutboxWorker.Tick`: the same; the times of the clock are the caller's.
- `Services.RequestsService.Approve` and `OutboxWorkers.OutboxWorker.ProcessOne` take the breaker's decision as given; `Delivery.HcmClient.GuardedDebit` is the call that makes it.
- `DayArithmetic.DaysRefineUnits`: days are reals, so IEEE 754 rounding and values that are not finite are not modelled.
- In the step system the breaker may refuse any debit call before its first attempt.
- HCM's unauthorized answers, its test endpoints other than balance writes, the drift it adds to reported balances, and collisions of its `employee::location` keys.
- Who may cancel a request: a request that is not the caller's is answered as unknown.
- HTTP controllers, guards, validation, configuration, the audit log, log messages, timers, cron and health checks: they change no balance and no status.
- Who created, approved or rejected what, reasons, sources, timestamps other than creation times, and version counters.
- `countDaysInclusive`: days are taken as a positive amount.
