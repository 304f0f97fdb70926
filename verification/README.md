# RevertX, verified

A Dafny model of RevertX, the saga orchestrator that lets an agent pay merchants under a
budget and takes payments back when a later one fails. Four state machines share one
ledger: the budget protocol of `/pay` and its pending-payout worker, the compensation
saga with its checkpoints, the control state around both (circuit breaker, dead letters,
idempotency, wallet, rate limiter, policy stream), and the refund arithmetic that the
merchants recompute on their side. The project states what these keep over every input,
every run and every interleaving.

`dafny verify dfyconfig.toml` checks everything.

## How the model is built

* **State and code.** What the program updates in place is a class (`Database`, `Redis`,
  `ChunkQueue`, `RefundApi`, the merchants, the worker's `GraphHolder` and `Host`), and a
  routine that changes things step by step is a method, loops included. Each method's
  contract equates the new state with a function of the old one; the laws are then
  proved about those functions.
* **Answers.** Gateways, merchants, the language model, clocks, ids and exceptions are
  arbitrary inputs. A theorem about a run holds for all of them. What the program makes of an
  answer is stated in terms of the answer's own fields (`SagaAnswers`, `PayLaws`, and the
  lemmas ending in `Iff`) and carried to whole runs from there.
* **Concurrency.** In `BudgetProtocol` every single database write is one event and an
  event list is an arbitrary interleaving of any number of `/pay` calls with the recheck
  worker, any of which may stop for good at any point. In `StreamQueue` a schedule is an
  arbitrary interleaving of the producer thread and the consumer. In `SagaOverlap` any
  number of invocations of one workflow interleave read by read, effect by effect and
  checkpoint by checkpoint, each may end anywhere and each has the failing step its own
  message brings, and `Deliveries` adds the worker's tasks around them. `ExtractionPool`
  puts any number of extractions on one bounded pool of threads. `SagaRecovery` is the case of one invocation at a time, with deaths between
  nodes and inside them, and `OneAtATime` places it inside `SagaOverlap`. `Proxy`,
  `PendingPayoutWorker` and `ProcessMessageIsOneTask` prove that the sequential code is a
  participant of the concurrent protocols.
* **Money** is an exact real. Rounding to paise is the half-even rule, characterised by
  `RoundHalfEvenIsUnique`. `AgreementSurvivesEvaluationError` covers the evaluation error
  of binary floating point in the one place where two parties compare rounded figures.

| file | what it models |
|---|---|
| Schemas.dfy, Tables.dfy, Database.dfy | the records, the rows, and the SQL statements on them |
| RefundMath.dfy, Merchants.dfy | the refund figure and the merchants' own recomputation |
| Engine.dfy, BatchEval.dfy | reconciliation, fault classification, the batch evaluation loop |
| RateLimiter.dfy, Authorization.dfy, Payouts.dfy | limiter, wallet and trace, payout polling |
| BudgetProtocol.dfy, PendingPayoutWorker.dfy, Proxy.dfy, PayLaws.dfy | the budget under concurrency, rechecks, `/pay`; what `/pay` makes of the answers it gets |
| LedgerAudit.dfy | the ledger as the audit trail of the budget |
| PolicyExtractor.dfy, ExtractionPool.dfy | the streaming queue, the two-attempt extraction; several extractions on one thread pool |
| Saga.dfy, SagaAnswers.dfy, SagaLaws.dfy | the nine-node graph, what it makes of the answers about a step, its invariant, money, termination |
| SagaRecovery.dfy, SagaResume.dfy, SagaRuns.dfy | checkpoints, deaths, resumption, one invocation at a time; the laws over every such run |
| CircuitBreaker.dfy, SagaPosts.dfy, Worker.dfy | breaker and dead letters, which steps a run POSTs, message handling |
| SagaOverlap.dfy, Deliveries.dfy | invocations and message handlers of one workflow at the same time |

## What turned out not to hold

Each of these is a proved statement, with the exact condition where there is one.

* Deliveries of one workflow can overlap: the consumer bounds its tasks by nothing and
  `/pay` publishes one message per refused payment, each with a failing step of its own.
  `BurstRepeatsRefunds` POSTs every reachable step n + 1 times from any n + 1 messages,
  without any exception; from n + 1 refusals that `/pay` published these are the settled
  rows of the workflow, all of them (`RefusalBurstRepeatsRefunds`), because refusals share
  their undo list (`PublishedShareTheUndoList`).
  `PostedAtMostOncePlusOverlaps` is the bound for every interleaving,
  `OverlapBoundIsReached` attains it for every number of overlaps,
  `AtMostOnceIffNeverOverlapping` is the exact condition, and `OneMessageNeverOverlaps`
  shows that taking one message at a time meets it.
* The worker's comment that its fallback is safe because no refund has been attempted
  yet is wrong: `FallbackRepeatsRefunds` gives, for whatever there is to undo, a delivery
  that POSTs every reachable step twice. `FallbackSafeIff` is the exact condition,
  `FallbackBeforeFirstAttemptIsSafe` one that can be read off the checkpoint.
* A refund asked for twice is paid twice: merchants D and G keep no record of refunds
  (`RefundsArePaidAgain`).
* An empty policy text counts as no policy: a merchant's "" leads to a refund in full, and
  nothing else leads past the policy (`EmptyPolicyIsFullRefundIff`; over every
  interleaving, `EmptyPolicyDecides`).
* The streaming extraction can block for ever: every `q.get` and every producer run in one
  bounded pool of threads, and as many extractions as threads can fill it with gets whose
  producers wait. `NeverBlockedIff` is the exact condition, fewer extractions than threads;
  `ExtractionsAlwaysEnd` needs no fairness then.
* `commit_budget` checks no limit (`OverchargeBreaksLimit`); the limit is exceeded by at
  most what gateways settled above the request (`LimitExceededOnlyByOvercharge`), and it is
  kept if and only if every settlement fits at its moment (`MandateHoldsIff`).
* A negative amount drives the budget below zero (`NegativeAmountGoesNegative`);
  `NeverNegativeIff` is the exact condition.
* An exception after a payout was created releases its reservation, also when the payout
  was processed (`CreatedPayoutReleasedIff`), so the limit does not bound the money that
  moves: over any series of processed payouts the budget grows by what moved less what an
  exception kept off it (`ProcessedPayoutsOnBudget`), and by all that moved if and only if
  no exception struck (`ProcessedPayoutsBookedIff`).
* A merchant without real payouts that answers "pending" keeps the reservation, and no row
  is made that a recheck would find (`MockChargeBookedIff`).
* A recheck round that dies between `rollback_budget` and `resolve_pending_payout`
  releases the same hold twice (`TornRoundReleasesTwice`); such a round, and a payment
  that fails after its row was made, are the only ways (`ReleasedTwiceIff`), and the plain
  conservation law holds exactly without them (`PlainConservationIff`).
* `/pay` removes its own reference from the seen set and so never reports a duplicate
  (`PayNeverReportsDuplicate`).
* A matched payment can still be classified as a network fault, exactly when its error
  type is `connection_refused` (`MatchedNetworkFaultIsConnectionRefused`).
* A minute can admit 99 requests, not 50, and never more (`AnyMinuteAdmitsAtMost99`,
  `NinetyNineIsReached`). It admits at most 50, whatever comes, if and only if at its
  beginning there is no live counter or the live one is used up
  (`MinuteAdmitsAtMost50Iff`); so it does when it opens with a window of its own
  (`OwnWindowAdmitsAtMost50`).
* Outside its window merchant C pays the whole charge back, whatever amount the saga
  asked for and records (`DomainAcceptsComputedRefund`).
* An amount that was authorized stays spent in the wallet even when the payment is then
  refused or fails (`HistoryWalletIsAuthorizationRun`).
* An open breaker never closes again (`OpenBreakerIsFinal`), and a workflow whose saga
  has ended is never compensated again (`FinishedSagaIsFinal`).

## Model

| member | source | states |
|---|---|---|
| BudgetProtocol.BudgetIsConserved | proxy/mcp_proxy.py:441-468 | in every interleaving of payments and rechecks, used budget + money released twice = settled + held by pending, exhausted and resolved_settled payouts + reservations in flight |
| BudgetProtocol.PlainConservationIff | compensating_agent/pending_payout_worker.py:83-130 | with positive amounts, the law without the "released twice" term holds at the end of a run if and only if no recheck round of the workflow died between its rollback and its resolution and no payment of it failed after its row was made |
| BudgetProtocol.ReleasedTwiceIff | compensating_agent/pending_payout_worker.py:102-104 | in every run and for every MAX_CHECKS, nothing of a workflow was released twice if and only if neither of these two events happened to it |
| BudgetProtocol.ReleasesAreDueOrTorn | compensating_agent/pending_payout_worker.py:102-104 | a row was released once if its payout is known to have failed, plus exactly once for each round torn while releasing |
| BudgetProtocol.UndisturbedReleasesOnce | compensating_agent/pending_payout_worker.py:102-105 | a run in which no recheck dies between its two writes and no payment fails after its row was made releases nothing twice |
| BudgetProtocol.BudgetNeverNegative | db/client.py:285-298 | with non-negative amounts and neither of those two events, used budget is never negative |
| BudgetProtocol.NeverNegativeIff | db/client.py:285-298 | whatever the amounts, used budget is never negative in a run if and only if no single write takes more than is used at its moment, read off the payment or row it acts on: the whole amount for a release or a failed recheck, what is left of the request for a settlement, a negative reservation |
| BudgetProtocol.UsedAfter | db/client.py:257-298 | every write moves the used budget by what the payment or row it acts on says, and no other write moves it |
| BudgetProtocol.LimitExceededOnlyByOvercharge | db/client.py:264-298 | in every interleaving used budget stays within the limit plus what gateways settled above the requested amounts |
| BudgetProtocol.MandateHolds | db/client.py:264-283 | if every settled amount is at most the requested one, used budget never exceeds the limit |
| BudgetProtocol.MandateHoldsIff | db/client.py:257-298 | whatever the amounts, a workflow stays within its limit throughout a run if and only if its limit is not negative and every settlement fits at its moment (and no negative amount given back passes the limit) |
| BudgetProtocol.OverchargeBreaksLimit | db/client.py:291-298 | a run in which one settlement above the request breaks the limit |
| BudgetProtocol.NegativeAmountGoesNegative | proxy/mcp_proxy.py:167-196 | a run in which a negative amount leaves used budget below zero |
| BudgetProtocol.TornRoundReleasesTwice | compensating_agent/pending_payout_worker.py:103-104 | a run in which a round torn after the rollback releases the same hold twice |
| BudgetProtocol.PayoutLifecycle | compensating_agent/pending_payout_worker.py:83-120 | in every run, exactly: fewer than MAX_CHECKS rechecks while pending and MAX_CHECKS + 1 when exhausted, but for rounds torn while giving up; one release for a failed payout and none for others, but for rounds torn while releasing |
| BudgetProtocol.PayoutLifecycleUndisturbed | db/client.py:501-532 | each of these promises as an equivalence with the absence of the one kind of torn round that breaks it |
| BudgetProtocol.HoldsFollowReads | compensating_agent/pending_payout_worker.py:83-120 | in every run and interleaving a held row is released exactly once for each recheck that read reversed, rejected, cancelled or failed, and for no other; it is resolved as failed, or as settled, exactly by the status read last |
| BudgetProtocol.ReleasedIffReadUnpaid | compensating_agent/pending_payout_worker.py:83-120 | a row with no torn round was released if and only if one of its reads was one of these four, and resolved as settled if and only if one was processed |
| BudgetProtocol.ClosedRowsAreFinal | db/client.py:501-508 | a row that has left pending never changes again, its backfilled step id excepted |
| PendingPayoutWorker.RecheckOne | compensating_agent/pending_payout_worker.py:83-132 | the budgets, rows and ledger one recheck leaves behind, for each verdict and for an exception while polling; by statuses in CycleFollowsStatuses and CycleReleasesUnpaid |
| PendingPayoutWorker.RunOnce | compensating_agent/pending_payout_worker.py:135-145 | a cycle rechecks the rows that were open, in order, and goes on past exceptions |
| PendingPayoutWorker.CycleDecidesEachRow | compensating_agent/pending_payout_worker.py:135-145 | a cycle decides every row on its own: open rows are rechecked once against their own payout, others stay |
| PendingPayoutWorker.CycleFollowsStatuses | compensating_agent/pending_payout_worker.py:83-145 | after a cycle an open row is, by the one status read: settled if processed, failed if reversed, rejected, cancelled or failed, exhausted if neither at its last check, else open with one more check |
| PendingPayoutWorker.CycleReleasesUnpaid | compensating_agent/pending_payout_worker.py:83-115 | over a cycle the budget of a workflow falls by the held amounts of the payouts that read as one of these four and by nothing else, and the ledger gains one row for each of these and one for each processed |
| PendingPayoutWorker.CycleIsProtocolRun | compensating_agent/pending_payout_worker.py:83-145 | a whole cycle is a run of the concurrent protocol |
| Proxy.Pay | proxy/mcp_proxy.py:137-238 | everything a request changes and answers: limiter, caches, authorization, reservation, refusal, forwarding, death at any point |
| Proxy.Forward | proxy/mcp_proxy.py:240-506 | the gateway call, the commit, hold or rollback, ledger row, backfill, reconciliation and cached reply of a reserved payment; by the reply's fields in MockChargeBookedIff, CreatedPayoutReleasedIff and ReplyReports |
| Proxy.CallPayoutApi | proxy/mcp_proxy.py:260-417 | how a payout's poll, a forced hold and exceptions in the payout branch become settled, pending or failed |
| Proxy.EachKeyReachesGatewayOnce | proxy/mcp_proxy.py:154-165 | over every history with cached replies expiring at any moment: a cached reply equals the stored one, and a key reached a gateway once if its reply is stored, plus once for each call that died before that |
| Proxy.ReplayReturnsSameBody | proxy/mcp_proxy.py:154-165 | after any later history a replay is rate-limited or returns the same body, and leaves budgets, payouts, ledger, wallets and gateways alone |
| Proxy.PayNeverReportsDuplicate | proxy/mcp_proxy.py:484-485 | no reply of `/pay` reports a duplicate settlement |
| Proxy.CreatedPayoutReleasedIff | proxy/mcp_proxy.py:260-468 | a created payout is booked as failed and its reservation released if and only if its status reads reversed, rejected, cancelled or failed or an exception strikes later, as settled if and only if it reads processed and none does, else held; amount, ref, code and held row of each case |
| Proxy.ProcessedPayoutsOnBudget | proxy/mcp_proxy.py:321-468 | over any series of requests whose payouts were processed, limiter, caches and authorization included: the budget grows by what moved less what an exception after the payout kept off the books |
| Proxy.ProcessedPayoutsBookedIff | proxy/mcp_proxy.py:321-468 | all that moved is on the budget if and only if no exception struck after one of the payouts was read |
| PayLaws.PaidAnswersIff | proxy/mcp_proxy.py:137-258 | how far a request gets: refused from the 51st of a window on, answered from the store for a known key, and at a gateway if and only if it is new, within both wallet limits, cleared by policy and balance, within the budget and for a known merchant; each other end names the first of these that failed |
| PayLaws.MockChargeBookedIff | proxy/mcp_proxy.py:418-481 | at a merchant without real payouts the row is settled if and only if the reply is a 200 saying so, pending likewise; amount, payee, ref, code and error type are the reply's with their defaults; in every other case the reservation is given back |
| PayLaws.UnmadePayoutReleased | proxy/mcp_proxy.py:260-310 | a payout that was not created, or has no id, is on record as failed and holds nothing |
| PayLaws.BudgetIsWhatGatewaysAnswered | proxy/mcp_proxy.py:240-468 | over every history of requests at any merchants, deaths included, the used budget grows by the settled amounts and the requested amounts still open as the answers have them, and by nothing else |
| PayLaws.ReplyReports | proxy/mcp_proxy.py:470-506 | a forwarded payment is answered with its row's id and status, a match if and only if the row's fields are as expected, and the budget as it is then; this body is stored and cached |
| PayLaws.PublishedExactly | proxy/mcp_proxy.py:195-224 | over every history the compensation requests are, in order, exactly the payments refused for the mandate while the safeguard was on, as recorded |
| Proxy.ForwardIsProtocolRun | proxy/mcp_proxy.py:240-481 | a forwarded request, wherever it dies, is a run of the concurrent protocol |
| Proxy.HistoryIsProtocolRun | proxy/mcp_proxy.py:126-506 | every history of requests is a run of the concurrent protocol |
| Proxy.HistoryWalletIsAuthorizationRun | proxy/mcp_proxy.py:181-193 | over every history the wallet is that of the authorizations alone: replays spend nothing, refused and failed payments are not given back |
| LedgerAudit.LedgerExplainsBudget | proxy/mcp_proxy.py:452-477 | over every history of requests, recheck cycles and saga refunds in which no process dies half way, used budget = settled payments on the ledger + requested amounts of pending ones - those whose payout was found to have failed |
| LedgerAudit.CycleKeepsExplained | compensating_agent/pending_payout_worker.py:63-115 | the resolution rows a recheck cycle writes account for what it does to the budget |
| Database.Database.ReserveBudget | db/client.py:264-283 | the conditional update of the used budget and its reply, unknown workflow included |
| Database.Database.GetOpenPendingPayouts | db/client.py:501-508 | the ids of the rows still pending, oldest first |
| Database.Database.GetWorkflowSteps | db/client.py:393-405 | the ledger rows of one workflow in order |
| Database.Database.RecordMerchantFailure | db/client.py:414-425 | the upsert that counts a failure and opens the breaker at three |
| Payouts.PollPayout | razorpayx/client.py:214-250 | the polling loop returns the verdict of the first read that is not queued or processing, or of the last one allowed: processed if and only if that status is, failed if and only if it is reversed, rejected, cancelled or failed |
| Payouts.VerdictNamesFirstDecisiveRead | razorpayx/client.py:35-37 | for every stream: at most max(attempts, 0) + 1 reads; by the status of the first decisive one the verdict is processed, failed (reversed, rejected, cancelled, failed) or non_terminal (queued, processing, unrecognised), each if and only if |
| Authorization.GetWallet | authorization/wallet.py:38-51 | the wallet row created or reset for the day |
| Authorization.Authorize | authorization/trace.py:34-118 | decision, trace and wallet of one call, an exception of the balance check included; as an equivalence in AllowedIff |
| Authorization.AllowIffNoStepFailed | authorization/trace.py:47-118 | a call is allowed if and only if no emitted step failed; the final decision is the last step and only that |
| Authorization.AllowedIff | authorization/wallet.py:26-43 | a call is allowed if and only if its amount is within the limit for one payment and what is left of the day's, every policy check passes and, for real payouts, the balance suffices; only an allowed amount is spent, and the limits stay |
| Authorization.SpentIsSumOfAllowed | authorization/wallet.py:26-55 | over every sequence of calls on advancing dates spent_today is the sum of the amounts allowed that day and within the daily limit |
| RateLimiter.AlwaysAccounted | proxy/mcp_proxy.py:145-152 | how much of any minute's allowance the live window leaves, after every sequence of requests |
| RateLimiter.AnyMinuteAdmitsAtMost99 | proxy/mcp_proxy.py:145-152 | any half-open 60 second interval admits at most 99 requests of a workflow |
| RateLimiter.NinetyNineIsReached | proxy/mcp_proxy.py:145-152 | the bound is attained |
| RateLimiter.MinuteAdmitsAtMost50Iff | proxy/mcp_proxy.py:145-152 | after any history, every continuation admits at most 50 requests in the 60 seconds from a on if and only if at a there is no live counter or the live one has no room left |
| RateLimiter.OwnWindowAdmitsAtMost50 | proxy/mcp_proxy.py:145-152 | a minute that opens with a window of its own admits at most 50 |
| StreamQueue.CallbackReceivesChunksInOrder | engine/policy_extractor.py:138-214 | in every interleaving, failures anywhere: the callback gets a prefix of the chunks in order; a returned text is their concatenation; the stream's exception comes through exactly when it failed |
| StreamQueue.NeverStuck | engine/policy_extractor.py:171-183 | as long as the caller is not done, producer or consumer can move |
| StreamQueue.NeverBlockedForEver | engine/policy_extractor.py:171-214 | the same at any moment of any schedule of an attempt, with a thread for each side |
| StreamQueue.FairScheduleFinishes | engine/policy_extractor.py:202-214 | under every fair schedule the caller finishes within a bounded number of rounds |
| StreamQueue.AttemptAlwaysEnds | engine/policy_extractor.py:202-214 | with a thread for each side, an attempt over n chunks is over after 3n + 11 fair rounds, wherever producer or callback fail |
| ExtractionPool.PoolNeverStuck | engine/policy_extractor.py:203-214 | with fewer extractions at a time than the pool has threads: in every reachable state, as long as an extraction that has begun has not ended, something other than another start can happen |
| ExtractionPool.ExtractionsAlwaysEnd | engine/policy_extractor.py:203-214 | then every schedule without idle turns has at most 6n + 26 moves for each stream of n chunks and can only stop when every extraction has ended |
| ExtractionPool.NeverBlockedIff | engine/policy_extractor.py:205-210 | whatever has happened, each extraction that has begun can still end, if and only if fewer are let in at a time than the pool has threads |
| PolicyExtractor.SyncStreamToQueue | engine/policy_extractor.py:138-184 | all non-empty chunks and then the sentinel are put, also when the client cannot be built; the text is their concatenation |
| PolicyExtractor.Drain | engine/policy_extractor.py:209-213 | the consumer's loop receives exactly the chunks before the sentinel |
| PolicyExtractor.ExtractPolicyTerms | engine/policy_extractor.py:202-282 | the two-attempt loop answers with what the first text that parses says, refundable and penalty alike, or with the fail-safe one |
| PolicyExtractor.FailSafeIffBothAttemptsFail | engine/policy_extractor.py:222-282 | the answer is fail-safe, and then non-refundable, if and only if neither attempt came back with a text that parses; else it has the refundable and the penalty of the first text that does |
| PolicyExtractor.AttemptSucceedsOnlyOnWholeText | engine/policy_extractor.py:204-230 | in any interleaving an attempt succeeds only on the whole text of a completed stream |
| RefundMath.RoundHalfEvenIsUnique | refund_math.py:31 | the rounding is the only integer the half-even rule allows |
| RefundMath.RefundWithinOriginal | refund_math.py:27-31 | for whole paise and penalties of 0 to 100 the refund is between 0 and the charge |
| RefundMath.RefundAntitoneInPenalty | refund_math.py:29-31 | a larger penalty never refunds more |
| RefundMath.CloseValuesRoundClose | mock_merchants/merchant_d_flexstay.py:77-78 | values less than a paisa apart round to values at most a paisa apart |
| RefundMath.TwoPaiseStayApart | mock_merchants/merchant_d_flexstay.py:77-78 | values two paise or more apart never round to values within a paisa |
| RefundMath.PaisaApartCanRoundTwoApart | mock_merchants/merchant_d_flexstay.py:77-78 | that bound is sharp |
| RefundMath.ComputedRefundHalfPaisa | refund_math.py:30-31 | the computed refund is within half a paisa of the exact policy refund |
| RefundMath.ComputedRefundIff | refund_math.py:27-31 | no refund unless refundable; else the charge less its penalty, none counting as zero, in whole paise by the half-even rule, and no other figure |
| Merchants.DayWindowMerchant.Refund | mock_merchants/merchant_d_flexstay.py:62-90 | merchant D's, and with other constants merchant G's, validation of a refund |
| Merchants.DomainMerchant.Refund | mock_merchants/merchant_c_domain.py:105-131 | merchant C's validation of a refund |
| Merchants.DayWindowReplyIff | mock_merchants/merchant_d_flexstay.py:62-90 | unknown references are not found; a request is accepted if and only if it is within a paisa of the charge less the penalty inside the window and of the whole charge after it, else the expected amount is named |
| Merchants.DomainReplyIff | mock_merchants/merchant_c_domain.py:105-131 | the same at merchant C inside 48 hours with 10%; after that the whole charge is paid |
| Merchants.DayWindowAcceptsComputedRefund | mock_merchants/merchant_d_flexstay.py:62-90 | the saga's figure is accepted if and only if the window is open or the fee is within the tolerance |
| Merchants.AgreementSurvivesEvaluationError | mock_merchants/merchant_d_flexstay.py:72-78 | the agreement survives any evaluation error below a paisa on either side |
| Merchants.WrongPenaltyCaught | mock_merchants/merchant_g_catering.py:62-90 | a wrong penalty is rejected if and only if it moves the rounded refund by more than the tolerance: never for fees less than a paisa apart, always from two paise on |
| Merchants.InBetweenBothHappen | mock_merchants/merchant_g_catering.py:77-78 | between one and two paise both happen |
| Merchants.DomainAcceptsComputedRefund | mock_merchants/merchant_c_domain.py:105-131 | merchant C always accepts; what it pays is what was asked if and only if its window is open or the rounded fee is zero |
| Merchants.RefundsArePaidAgain | mock_merchants/merchant_d_flexstay.py:62-90 | the saga's figure, asked for n times for one charge inside the window, is paid n times |
| Merchants.DayWindowMerchant.TakeCharge | mock_merchants/merchant_d_flexstay.py:43-55 | a charge is filed under its reference with its amount and time, and other charges stay |
| Merchants.DomainMerchant.TakeCharge | mock_merchants/merchant_c_domain.py:47-58 | the same at merchant C |
| ReconciliationEngine.DuplicateDecidesCleanEntries | engine/reconciliation.py:29-80 | a payment matches if and only if its error type is none of the four, its code is absent or below 400, amount and payee are as expected, it is settled and its ref was not seen; the duplicate check decides exactly the entries that pass all others |
| ReconciliationEngine.MismatchNamesFirstFailure | engine/reconciliation.py:29-78 | each kind of mismatch if and only if the check it is named after is the first that fails, by the entry's fields |
| FaultClassifier.NetworkFaultIff | engine/fault_classifier.py:17-109 | a fault is the network's if and only if the error type or the code is one of the listed ones; which basis, by error type and code |
| ReconciliationEngine.MatchedNetworkFaultIsConnectionRefused | engine/fault_classifier.py:17-59 | a matched payment classifies as a network fault if and only if its error type is connection_refused |
| BatchEval.RunEval | test_harness/run_batch_eval.py:43-125 | the loop's counters, rates and unresolved list in terms of each record's verdict, which is stated by the record's fields and the records before it |
| BatchEval.AccountingCloses | test_harness/run_batch_eval.py:43-108 | clean + mismatch = total and unresolved = total - clean_correct - fault_correct, for every record list |
| BatchEval.CleanRecordMatchesIffRefIsNew | test_harness/run_batch_eval.py:47-60 | what the loop decides, for every label: an otherwise clean record matches if and only if no earlier record of its workflow has the same non-empty settlement ref, and is a duplicate otherwise |
| BatchEval.SeenDecidesMatch | test_harness/run_batch_eval.py:47-53 | reconciling against the dictionary of seen refs gives a match if and only if the fields are as expected and no earlier record carries the ref |
| BatchEval.RateReadsOneIff | test_harness/run_batch_eval.py:110-113 | a rate is in [0, 1] and reads 1 if and only if at most one in twenty thousand was missed |
| Saga.AttemptRefundNode | compensating_agent/graph.py:401-515 | result and durable effects of one refund attempt, in all its branches; by the answers in AttemptFollows and EffectsFollow |
| Saga.RefundedIffAccepted | compensating_agent/graph.py:444-491 | for every state, breaker table and reply: refunded if and only if the request was sent and the reply is a 200 that says refunded or success; rejected if and only if it was sent and answered otherwise; nothing is recovered unless refunded |
| SagaAnswers.AttemptFollows | compensating_agent/graph.py:401-515 | every outcome, the recovered amount and the message of an attempt as equivalences in the answers: policy fetch, extraction, breaker, merchant's reply |
| SagaAnswers.EffectsFollow | compensating_agent/graph.py:415-504 | all durable effects of an attempt, in order and with their amounts, by the answers: the request with the amount due, breaker, dead letter, refund row |
| SagaAnswers.MerchantTables | mock_merchants/registry.py:49-115 | the table merchant by merchant: which six have a policy to go by, which three are told the amount, and that no other id than the seven is sent a request |
| Saga.SumUnrecovered | compensating_agent/graph.py:581-588 | the loop behind financial_impact |
| Saga.LoadWorkflowLog | compensating_agent/graph.py:147-163 | the reversed and filtered steps are the undo list |
| Saga.RunNode | compensating_agent/graph.py:147-626 | every node's effects and successor |
| SagaLaws.NextKeepsConsistent | compensating_agent/graph.py:147-626 | every node keeps the graph's invariant, whatever the world and the answers |
| SagaLaws.AttemptJustified | compensating_agent/graph.py:411-491 | one attempt's outcome follows from the policy in hand: amount due when refunded, no POST on terms that forbid it |
| SagaLaws.NextKeepsHeeded | compensating_agent/graph.py:212-515 | every node keeps the terms and the amount in the state, and every result, to what was answered about the step |
| SagaLaws.EmptyPolicyIsFullRefundIff | compensating_agent/graph.py:280-288 | from the policy fetch of a merchant that has one the saga goes straight to the attempt, without terms, if and only if the text is empty; the attempt then asks for the whole settled amount |
| SagaLaws.UnreadPolicyIff | compensating_agent/graph.py:280-288 | in hindsight, for every decided step at such a merchant: it was attempted without terms exactly when the policy read was empty, and is then never non_refundable |
| SagaLaws.StepsAreConserved | compensating_agent/graph.py:147-185 | results, step in flight and steps left are, in order, the loaded list |
| SagaLaws.UndoListMembers | compensating_agent/graph.py:151-157 | the list is exactly the settled steps other than the failing one |
| SagaLaws.UndoListNewestFirst | compensating_agent/graph.py:152-157 | newest first, nothing repeated |
| SagaLaws.UndoIgnoresUnsettledRows | compensating_agent/graph.py:472-481 | the refund rows the saga appends, and any other row that is not settled, never change the list |
| SagaLaws.LiabilityPartitionsMoney | compensating_agent/graph.py:575-603 | settled total of the undone steps = settled amounts of the refunded ones + financial_impact |
| SagaLaws.RecoveredIsAcceptedDue | compensating_agent/graph.py:455-491 | the recovered total is the sum due, by the policy read for each step, over exactly the steps whose refund a merchant accepted |
| SagaLaws.ImpactIsUnaccepted | compensating_agent/graph.py:581-603 | financial_impact is the settled total of exactly the steps whose refund no merchant accepted; a rejected one always counts |
| SagaLaws.RecoveredIsExactToHalfPaisaEach | compensating_agent/graph.py:338-359 | recovered amounts differ from the exact policy refunds by at most half a paisa per refunded step |
| SagaLaws.RefundWithinCharge | compensating_agent/graph.py:345-356 | no refunded step brings back more than was expected to be charged |
| SagaLaws.SagaTerminates | compensating_agent/graph.py:657-729 | at most 5n + 3 nodes (4 for n = 0), exactly one output: a UDIR payload with the failing step's ref and amounts if and only if its response shows network or gateway trouble, else a liability report for that workflow and step |
| SagaLaws.RunCompensation | compensating_agent/graph.py:739-786 | the graph run to its end over the database is the uninterrupted run of the model |
| SagaRecovery.EveryPostAccounted | compensating_agent/graph.py:401-515 | one invocation at a time, each message with its own failing step: in every crashing run each POST belongs to a recorded result, an attempt that died, or a degraded run; dead letters and dlq outcomes correspond likewise |
| SagaRecovery.PostedAtMostOncePlusDeaths | compensating_agent/graph.py:739-786 | one invocation at a time, each message with its own failing step: in every crashing run a step is POSTed at most once + deaths inside attempt_refund on it + degraded runs |
| SagaRecovery.DenialNeverRefunds | compensating_agent/graph.py:244-336 | one invocation at a time: once policy fetch, extraction service or both extraction attempts failed, or the first text that parses says non-refundable, the step is never POSTed in any continuation, and its outcome is non_refundable or dlq |
| SagaPosts.DenialNeverRefundsAlone | compensating_agent/worker.py:89-91 | the same for one run on its own, as the fallback makes it |
| SagaRecovery.ForbiddenIsNeverPosted | compensating_agent/graph.py:428-439 | one invocation at a time: a step on terms that forbid a refund is never POSTed, deaths and restarts included |
| SagaRecovery.NothingPostedBeforeFirstAttempt | compensating_agent/graph.py:758-786 | without a checkpoint, or with one that stands before the first attempt_refund, and no degraded run, nothing has been POSTed |
| SagaOverlap.EveryPostAccounted | compensating_agent/worker.py:188 | in every interleaving of any number of invocations, each for the failing step of its own message, each POST belongs to a result that one invocation decided itself, or to the node it is in or died in; dead letters likewise |
| SagaOverlap.PostedAtMostOncePlusOverlaps | compensating_agent/worker.py:51-71 | in every interleaving of messages with failing steps of their own a step is POSTed at most once + deliveries begun while another durable invocation was at work + deaths inside attempt_refund on it + invocations without checkpointer |
| SagaOverlap.OverlapBoundIsReached | compensating_agent/worker.py:188 | for any n + 1 messages, whatever failing steps they bring, a run with n overlaps, no death and no fallback that POSTs every reachable step of the first one's plan exactly n + 1 times |
| SagaOverlap.AtMostOnceIffNeverOverlapping | compensating_agent/worker.py:188 | with something reachable to undo: runs of any messages without deaths and fallbacks and with at most n overlaps never repeat a refund if and only if n is zero |
| SagaOverlap.NoOverlapIff | compensating_agent/worker.py:188 | whatever failing steps the messages bring, nothing overlapped if and only if every delivery began with no durable invocation at work and none from an outdated look for a checkpoint |
| SagaOverlap.DenialNeverRefundsThere | compensating_agent/graph.py:244-336 | however invocations for different failing steps overlap, one in which policy knowledge failed for a step, or the policy was read as non-refundable, never POSTs it, and decides non_refundable or dlq |
| SagaOverlap.EachInvocationConservesSteps | compensating_agent/graph.py:147-185 | in every interleaving, in each invocation and in the checkpoint: results, step in flight and steps left are, in order, the settled steps of the ledger as that invocation loaded it, its own failing one excepted |
| SagaOverlap.EachReportPartitionsMoney | compensating_agent/graph.py:575-603 | in every interleaving, every liability report there is, of the checkpoint or of any invocation, splits the settled total of the steps undone there into refunded and unrecovered, and unrecovered are exactly those no merchant accepted |
| SagaOverlap.EachOutcomeFollowsAnswers | compensating_agent/graph.py:401-515 | in every interleaving, in each invocation and in the checkpoint: every outcome follows from its step's answers, and the recovered total is what is due over the accepted refunds |
| SagaOverlap.EveryPostIsDue | compensating_agent/graph.py:444-452 | in every interleaving, deaths included, every refund request is for a settled row of the ledger, sent under an answer that allows it, with that row's ref and exactly the amount due where one is asked for |
| SagaOverlap.EmptyPolicyDecides | compensating_agent/graph.py:280-288 | in every interleaving, each invocation attempts a step of a merchant with a policy without terms exactly when the policy it read was empty |
| SagaOverlap.NothingStartedNothingPosted | compensating_agent/graph.py:758-786 | whatever messages arrive: before any durable invocation started, and without one that ignores checkpoints, nothing has been POSTed |
| SagaOverlap.OneAtATime | compensating_agent/worker.py:31-71 | every run of SagaRecovery, its messages with their failing steps included, is an interleaving without overlap, with the same world, checkpoint, deaths and degraded runs |
| SagaResume.AlwaysOnCourse | compensating_agent/graph.py:758-771 | at every moment of an interrupted run, whichever messages start it again, finishing from the checkpoint is finishing from the start for the failing step the checkpoint was created for |
| SagaResume.ResumedRunIsUninterruptedRun | compensating_agent/graph.py:739-786 | however often it is interrupted between nodes or before a node's first effect, and whichever messages start it again, the run's final state, POSTs, dead letters, breakers and ledger are the uninterrupted run's for the failing step the checkpoint was created for |
| SagaResume.InterruptionsAreInvisible | compensating_agent/graph.py:758-786 | with other workflows writing rows and moving breakers at any moment, and messages with other failing steps arriving: world and checkpoint of an interrupted run are at every moment those of the run started once and never stopped |
| SagaRuns.EveryRunConservesSteps | compensating_agent/graph.py:147-185 | the conservation of steps in every crashing run, one invocation at a time, against the ledger as it was loaded |
| SagaRuns.EveryRunPartitionsMoney | compensating_agent/graph.py:575-603 | the money partition, and the impact as the settled total of the steps no merchant accepted, in every crashing run, one invocation at a time |
| SagaRuns.EveryRunFollowsAnswers | compensating_agent/graph.py:401-515 | in every crashing run every decided step's outcome follows from its answers, refunded if and only if sent and accepted, and the recovered total is the sum due over accepted replies |
| SagaRuns.EveryRunRecoversToHalfPaisaEach | compensating_agent/graph.py:441-460 | the half-paisa bound in every crashing run, one invocation at a time |
| SagaRuns.FinishedSagaIsFinal | compensating_agent/graph.py:767-771 | once the checkpoint is at the end and no invocation is at work, no delivery on the durable path decides or POSTs anything |
| SagaRuns.PublishedAreRefusals | proxy/mcp_proxy.py:197-224 | every compensation `/pay` asks for is a 403 mandate refusal that is on the ledger (PublishedExactly has the converse) |
| SagaRuns.CheckpointAnswersADelivery | compensating_agent/graph.py:758-786 | a workflow's saga is about the failing step of one message that was delivered, and of no other, in every crashing run |
| SagaRuns.PublishedShareTheUndoList | proxy/mcp_proxy.py:197-224 | refusals that `/pay` published for a workflow have the same undo list, whichever is handled first |
| SagaRuns.PublishedSagaEndsInLiability | engine/fault_classifier.py:75-87 | a saga run for a step that `/pay` published ends in a liability report and never in a dispute |
| SagaRuns.PublishedSagasEndInLiability | engine/fault_classifier.py:75-87 | the same with deaths, restarts and any number of published messages: a checkpoint at the end holds a liability report and no dispute |
| SagaRuns.SettledRowsAreUndone | compensating_agent/graph.py:151-157 | what is undone is exactly the settled rows of the workflow other than the failing step, payments and payout resolutions alike |
| CircuitBreaker.OpenIffThreeFailuresInARow | db/client.py:414-434 | after every sequence of attempts the row counts the trailing failures and is open if and only if they are at least three |
| CircuitBreaker.OpenBreakerIsFinal | compensating_agent/graph.py:418-426 | once open, no later attempt POSTs to that merchant and the breaker stays open |
| CircuitBreaker.DeadLettersAreDlqOutcomes | compensating_agent/graph.py:495-504 | dead letters and dlq outcomes correspond one to one and in order |
| SagaPosts.FinishPosts | compensating_agent/graph.py:428-491 | an uninterrupted run POSTs exactly what its results say |
| SagaPosts.LedgerShowsRecovered | compensating_agent/graph.py:438-482 | as long as refund rows get written, a run adds to the ledger exactly what its results report as recovered |
| SagaPosts.FallbackSafeIff | compensating_agent/worker.py:72-91 | a run without checkpoint repeats no refund, for all answers, if and only if every step POSTed before is at a merchant without endpoint or behind an open breaker |
| Worker.GraphHolder.GetGraph | compensating_agent/worker.py:138-159 | a fresh request replaces the checkpointer even if closing it raises, a failed opening leaves none |
| Worker.Host.Invoke | compensating_agent/worker.py:58 | one invocation: nodes until the end or the exception |
| Worker.Host.RunCompensation | compensating_agent/graph.py:739-786 | resume, start or preflight failure |
| Worker.ProcessMessage | compensating_agent/worker.py:31-112 | the two attempts, the retry condition, the fallback condition and the outcome |
| WorkerLaws.HandledIsARun | compensating_agent/worker.py:51-112 | handling a message is a run of the crash model with one degraded run exactly when it falls back |
| WorkerLaws.CompletedReachesEnd | compensating_agent/worker.py:58-65 | a message reported complete on the durable path has its checkpoint at the end |
| WorkerLaws.FallbackIsAFreshRun | compensating_agent/worker.py:81-99 | a degraded completion is one whole fresh run for the message's own failing step from where the first attempt left off, and leaves the checkpoint as it was |
| WorkerLaws.FallbackBeforeFirstAttemptIsSafe | compensating_agent/worker.py:81-91 | if no run ignored the checkpoint before and the first attempt left none, or one that stands before the first attempt_refund, nothing was POSTed and with the fallback each step is POSTed at most once |
| WorkerLaws.DeliveriesPostAtMostOnce | compensating_agent/worker.py:31-112 | over any number of deliveries handled one after the other, each with its own failing step: at most once + exceptions inside attempt_refund on the step + fallbacks |
| WorkerLaws.FallbackRepeatsRefunds | compensating_agent/worker.py:72-91 | a delivery that POSTs every reachable step twice without any exception inside a node |
| Deliveries.ConcurrentDeliveriesPostAtMostOnce | compensating_agent/worker.py:31-112 | any number of messages with failing steps of their own handled at the same time, every call, read, effect and checkpoint interleaved: at most once + overlapping starts + invocations ended inside attempt_refund on the step + fallbacks |
| Deliveries.BurstRepeatsRefunds | compensating_agent/worker.py:188 | any n + 1 messages can POST every reachable step of the first one's plan n + 1 times without any exception |
| Deliveries.RefusalBurstRepeatsRefunds | proxy/mcp_proxy.py:197-224 | n + 1 refusals that `/pay` published can make the worker POST a refund of every settled row of the workflow at a reachable merchant n + 1 times, without any exception, death or fallback |
| Deliveries.OneMessageNeverOverlaps | compensating_agent/worker.py:188 | whatever failing steps the messages bring, if one is taken only when no earlier one is being handled, nothing overlaps |
| Deliveries.MovesAreEvents | compensating_agent/worker.py:31-112 | every interleaving of tasks, each for its own message, is an interleaving of invocations, its invocations without checkpointer being the fallbacks |
| Deliveries.ProcessMessageIsOneTask | compensating_agent/worker.py:31-112 | a message handled while nobody else is at work does what the sequential method does, with the same outcome |

## Left out

- HTTP, WebSocket, Redis pub/sub, RabbitMQ, Prometheus metrics, event and trace publishing, the dashboard, launch scripts and the primary agent's planner: input and output around the state.
- Prompts, JSON parsing, anomaly detection and the policy sanitizer: a policy text and what a parser makes of it are arbitrary answers.
- `authorization/policy.py` and `authorization/real_balance.py`: their verdicts are inputs of `Authorize`.
- `reset_workflow`, the wallet and database reset tools and `get_session_metrics`.
- The reversal payout after a failed fulfilment: it changes none of the modelled state; an exception on that path is.
- Merchants.RefundsArePaidAgain: for merchants D and G; merchant C keeps no record either.
- Merchants A, B, E and F, merchant C's silent timeout and its `internal_ledger`: no recomputation of the amount.
- LangGraph itself: a checkpoint is taken to be written with the end of each node, a finished thread to run no further node, and its step limit is not modelled.
- Exceptions of the database: they end a request, a node or a recheck round at the point where they strike, which the models allow anywhere between two writes; a crash between the limiter's INCR and EXPIRE is not modelled.
- Uniqueness of step ids: the theorems that need it say so (`DistinctIds`); the code takes random ids.
- RateLimiter.AnyMinuteAdmitsAtMost99: times are as the Redis server sees them, and never run backwards.
- Authorization.SpentIsSumOfAllowed: for calls one at a time; the code checks and spends in two statements.
- Proxy.EachKeyReachesGatewayOnce: for requests one at a time; the code looks up and saves in two statements.
- Proxy.Pay: a mock reply whose amount is not a number is a death before the budget step; extra reply fields are not part of the cached body.
- PendingPayoutWorker.RunOnce: nothing else touches the three tables during a cycle; interference is the subject of `BudgetProtocol`. The ledger row written after a resolution is not an event there.
- BudgetProtocol.PayoutLifecycle: for MAX_CHECKS of at least one and one recheck worker.
- CircuitBreaker.OpenIffThreeFailuresInARow: attempts run one at a time, starting before the merchant has a row.
- SagaRecovery.DenialNeverRefunds: for one invocation at a time and runs without a degraded one; any other invocation would fetch the policy again and may be answered. Within each invocation `DenialNeverRefundsThere` says the same for every interleaving, and `DenialNeverRefundsAlone` for a run by itself.
- SagaRecovery.PostedAtMostOncePlusDeaths: for one invocation at a time, which the worker does not ensure; `PostedAtMostOncePlusOverlaps` has all interleavings.
- StreamQueue.NeverBlockedForEver: for one extraction with a thread for each side; `ExtractionPool` has the shared pool.
- StreamQueue.AttemptAlwaysEnds: the same, under schedules that keep giving both sides turns; `ExtractionsAlwaysEnd` needs neither.
- ExtractionPool.NeverBlockedIff: for callers that ask for streaming; other work in the same pool takes further threads, and the code lets in any number at a time.
- SagaRuns.FinishedSagaIsFinal: an invocation still at work can write an older checkpoint over a finished one; that is an event of `SagaOverlap`.
- SagaOverlap.PostedAtMostOncePlusOverlaps: a node reads the breaker, or the ledger, once, at its beginning; the text of a merchant-error message follows that reading.
- SagaResume.ResumedRunIsUninterruptedRun: compares with a run in which other workflows are quiet; `InterruptionsAreInvisible` lets them go on.
- Worker.ProcessMessage: a process that dies while it handles a message is a run of `SagaRecovery`, not of this method; redelivery limits and acknowledgements are not modelled.
- Amounts in dead letters: the open-breaker branch records zero when no refund was computed, so no conservation is claimed for them.
- Refunds and the budget: compensation never gives budget back, so settled payments count gross of refunds.
