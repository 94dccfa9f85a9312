# Parking payment: a model of the payment, exit and notification protocol

Four services take part in one parking payment. The car backend (`services/carpayin-backend`) quotes the fee, charges the
card and queues the notice to the car; the payment gateway (`services/mock-pg`) keeps billing keys and charges; the card
company (`services/mock-card`) approves; the parking system or PMS (`services/pms`) keeps its own sessions, caches them in
Redis and opens the barriers. The backend, the PG, the card company and the PMS each have their own ledger, calls between
them get lost, and nothing but idempotency keys, retry events and caches holds them together. This project models those
handlers and proves what holds over whole runs of them, and what does not.

## How it is built

| files | content |
|---|---|
| `Ledgers`, `CardCompany`, `PaymentGateway`, `ParkingSystem`, `CarPayIn`, `BackendService`, `Fees` | the services: each handler as a method of a class that updates its tables in place, proved equal to a function on the tables' values |
| `Protocol` | all four services as one world; a step is one handler with the fate of its remote calls, a retry, or a move of the environment; a run is any sequence of steps |
| `Invariants`, `BackendTables`, `LedgerTables`, `ExitLane`, `Safety`, `ExitSafety` | the invariants and the proof that every step keeps them |
| `Theorems`, `Conservation`, `Notices` | what follows for every run |
| `Answers`, `Lanes`, `Lifetimes` | exactly when each request is answered, refused, charged or let through and what it leaves; how long Redis keeps things, in seconds |
| `Spellings`, `LostAnswers` | a run with two spellings of one session id; a canonical run with a lost answer |
| `Interleaving` | the backend's payment and fee requests split at every read, commit and remote call |
| `RecordingSteps` | the PMS's handling of payment notices split at its commits, with cars entering and leaving in between |
| `Agreement` | the split backend handlers, run alone, are the handler-atomic ones |
| `OutboxQueue`, `OutboxRuns` | the notification outbox: rows, leases, the worker's loops, and every run of any number of workers |
| `CardRegistration` | billing keys across backend, PG and card company |
| `IdempotencyKey`, `TokenCodec` | the text under the idempotency key; base64url tokens |

A remote call is not delivered, delivered with its response lost, or delivered with its response received (`Ledgers.Delivery`).
Two granularities are used. In `Protocol` a handler runs to its end before the next one starts; in `Interleaving`, for the
backend, and in `RecordingSteps`, for the PMS, handlers interleave at every store access and may die or meet a raising store
anywhere.

Assumptions of the handler-atomic runs: stores and Redis do not raise and a handler does not stop halfway; one whole-second
clock that never runs back; random identifiers are unused ones; SHA-256 is injective. A fee request, a payment and an exit
may come in any order and with any arguments. A PMS cache entry and a fee quote may vanish at any time, a registration and a
retry event by time alone. In the outbox a claim and a mark are each one transaction: the row a mark reads is the row it
writes.

A run is "safe" here when every notice the PMS records finds its session still active. That is a property of each step, and
`Theorems.SafeExactly` shows it to be the exact condition for backend, PMS table, cache, requests and barrier log to agree all
along a run, whatever the spellings of session ids. Runs that spell each session id in one way, the canonical one or another,
are safe (`Theorems.ConsistentRunsAreSafe`).

## What the proofs found

- A session id is parsed by Python's `UUID()`, which accepts several spellings, but the quote cache and the idempotency key
  use the spelling the client sent. Two spellings of one id make two quotes and two payments, and the second notice marks
  whichever car now stands in the slot as paid. `Spellings.TwoSpellingsPaidTwice` is such a run. `Theorems.PaidOnceRunExactly`
  says exactly when a session gets a second success, `Theorems.SafeExactly` exactly when the PMS falls out of agreement, and
  `ExitLane.UnpaidExitExactly` exactly when a notice lets an unpaid car out.
- `docs/use-cases/05-fee-payment-exit.md` requires an active session for a payment; the code never checks it, and neither does
  `mark_paid` check the session it marks. Those two missing checks are the conditions of the theorems above.
- Even with canonical ids the guarantee needs whole handlers: `Interleaving.SessionPaidTwice` interleaves two fee requests
  with two payments of one session, and `Interleaving.SecondSuccessInterleaved` says exactly when a commit makes a second success.
- The PMS saves a payment request before it marks the session: a handler that dies in between leaves a session that every
  further delivery answers for and none marks (`RecordingSteps.SavedButNeverPaid`, `RecordingSteps.PaidLaterExactly`). And a
  second delivery of the same notice that is slow after its second look marks the slot of another car as paid
  (`RecordingSteps.SlowDeliveryLetsOut`, `RecordingSteps.HonestExactly`).
- A lost answer of the PG and a new quote charge a session twice at the card company, in a canonical run
  (`LostAnswers.ChargedTwiceByALostAnswer`); every charge beyond the recorded one is such a lost answer.
- The `except` of the payment handler also covers the statements after the success commit, so a store that raises there turns
  a recorded success into a failure: `Interleaving.SuccessStays` and `Interleaving.LateFaultOverwrites` are the two halves,
  `Interleaving.ChargedButFailed` a run.
- `docs/scenarios/06-payment-notification-outbox.md` promises that an event beyond its attempts becomes `dead`; a worker that
  stops during the last attempt leaves it `publishing` until that worker comes back with its mark (`OutboxRuns.CrashAtTheLastAttemptSticks`,
  `OutboxRuns.StuckIsReached`).
- A failure marked after its lease revives an event that another worker has published (`OutboxRuns.LateMarkRevives`);
  `OutboxRuns.FinalUntilLateMark` says exactly which events do so.
- Two submissions of one card order at once can leave a vehicle with a billing key the PG never saved
  (`CardRegistration.ConcurrentSubmissions`, `CardRegistration.UnsavedKeyExactly`).
- The text under the idempotency key has no separators; it is injective because the session fixes the car and the currency
  starts with a letter, over other spellings also because amounts are not negative, and not otherwise
  (`IdempotencyKey.TextInjective`, `IdempotencyKey.TextInjectiveOverSpellings` and the counterexamples beside them).

## Model

| member | source | states |
|---|---|---|
| Theorems.OpeningsAreBacked | services/pms/app/application/pms/handle_lpr_exit.py:25-57 | in every safe run, each exit-barrier opening has exactly one payment behind it: PMS request, completed backend session, success transaction, and, unless free, PG and card successes with the same amount, currency and approval number |
| Theorems.SafeExactly | services/pms/app/infra/repositories/pms_session_repository.py:62-68 | over every run of any spellings, backend, PMS table, cache, requests and barrier log agree all along if and only if each recorded notice finds its session active |
| Theorems.GoodExactly | services/pms/app/application/pms/record_payment_complete.py:30-65 | the same for one step: agreement is kept if and only if the step records no notice for a session that is no longer active |
| ExitLane.RecordedExactly | services/pms/app/application/pms/record_payment_complete.py:35-63 | a new notice keeps the PMS in agreement if and only if it finds its session active |
| ExitLane.UnpaidExitExactly | services/pms/app/application/pms/record_payment_complete.py:47-55 | right after a new notice an exit can open for a session without a request if and only if the notice's slot is held in the cache by another active session |
| Theorems.ConsistentRunsAreSafe | services/carpayin-backend/app/application/payment/process_payment.py:69-108 | a run whose payments spell each session id in one way is safe and pays every session at most once, though payment never looks at the session's status |
| Theorems.PaidOnceRunExactly | services/carpayin-backend/app/application/payment/process_payment.py:78-83 | over every run of any spellings, no session ever has two successes if and only if every payment that adds a success finds its session ongoing |
| Theorems.OpenIsSafe | services/carpayin-backend/app/application/payment/process_payment.py:78-108 | a run whose succeeding payments find their sessions ongoing is safe |
| Theorems.OpeningsFollowStatus | services/pms/app/application/pms/record_payment_complete.py:45-63 | in every safe run a session's openings are none while active, one from its payment on, one more from its exit on |
| Theorems.OneSuccessPerSpelling | services/carpayin-backend/app/application/payment/process_payment.py:69-108 | in every run at most one success per session id as spelled |
| Theorems.SecondSuccessExactly | services/carpayin-backend/app/application/payment/process_payment.py:78-83 | in any run a payment adds a second success to a session if and only if it finds the session already completed |
| Theorems.RepeatedPayment | services/carpayin-backend/app/application/payment/process_payment.py:91-108 | the same request at any later point of any run gets the same answer while its quote lives, and writes no ledger, session or outbox row |
| Theorems.ReplyIsRow | services/carpayin-backend/app/application/payment/process_payment.py:103-108 | whatever a request that is not rejected answers is the status, tx id and approval number stored under its key |
| Answers.RepliedExactly | services/carpayin-backend/app/application/payment/process_payment.py:68-173 | a payment is answered if and only if its live quote has this amount and currency, the session is this car's, and it is a repeat, or free, or the car has an active billing key |
| Answers.RefusedExactly | services/carpayin-backend/app/application/payment/process_payment.py:68-173 | each refusal has its own cause and changes nothing |
| Answers.NeverRefusedFor | services/carpayin-backend/app/application/payment/process_payment.py:78-112 | in no run is a payment refused for an unknown session or a negative amount |
| Answers.FreePaymentSucceeds | services/carpayin-backend/app/application/payment/process_payment.py:114-157 | a new payment of 0 is answered with success and FREE, stores it, closes the session, queues the notice, tells the PMS, and leaves PG and card company alone |
| Answers.CardPaymentExactly | services/carpayin-backend/app/application/payment/process_payment.py:159-238 | a new card payment succeeds if and only if both answers were heard and PG and card company have an active key and token; and its row |
| Answers.CardPaymentLeaves | services/carpayin-backend/app/application/payment/process_payment.py:184-227 | a success closes the session, queues the notice and tells the PMS; a failure leaves all of that alone |
| Answers.LedgersNameEachOther | services/mock-pg/app/application/pg/charge_billing_key.py:104-134 | the backend's PG id is the PG row's, the PG row's card id the card row's |
| Answers.RepeatTells | services/carpayin-backend/app/application/payment/process_payment.py:94-108 | a repeat of a success tells the PMS again and writes nothing else |
| Answers.QueuedOnce | services/carpayin-backend/app/infra/repositories/transaction_repository.py:93-118 | the success commit queues a transaction's notice once |
| Answers.FailureClears | services/carpayin-backend/app/infra/repositories/transaction_repository.py:56-75 | the failure update leaves no PG id or approval number and touches no other row |
| Answers.AnswerIsTheQuote | services/carpayin-backend/app/application/payment/get_parking_fee.py:54-105 | a fee request is answered with the quote then stored, a refused one stores nothing |
| Answers.FeeRefusedExactly | services/carpayin-backend/app/application/payment/get_parking_fee.py:66-84 | each refusal of a fee request and its cause, in every safe run |
| Answers.NewQuoteExactly | services/carpayin-backend/app/application/payment/get_parking_fee.py:79-105 | a new quote is the fee of the session's own entry time now, in KRW, for 900 seconds |
| Answers.FeeOwedExactly | services/pms/app/application/pms/calculate_fee.py:34-82 | what the PMS answers a fee query, and for which session |
| Lifetimes.QuoteLivesExactly | services/carpayin-backend/app/infra/redis/stores.py:11-18 | a new quote is kept for exactly 900 seconds |
| Lifetimes.RegistrationLivesExactly | services/carpayin-backend/app/application/parking/register_pre_notify.py:38-80 | only a car with an active key registers, for exactly 3600 seconds at either side |
| Lifetimes.CacheEntryLivesExactly | services/pms/app/infra/redis/stores.py:39-47 | a session's cache entry is kept for exactly 259200 seconds |
| Lifetimes.MarkingKeepsLife | services/pms/app/infra/redis/stores.py:53-62 | marking a live entry changes its status and nothing else |
| Lifetimes.MarkingRenewsLife | services/pms/app/infra/redis/stores.py:53-62 | an entry without a time left gets 259200 seconds when it is marked |
| Lifetimes.RetriedExactly | services/carpayin-backend/app/infra/workers/notify_retry_worker.py:108-129 | an event is dropped exactly when the PMS answered it and was heard, else kept with its time |
| Theorems.PaymentAddsOnly | services/carpayin-backend/app/application/payment/process_payment.py:53-238 | a payment request touches no transaction but its own key's |
| Theorems.OutboxBijection | services/carpayin-backend/app/infra/repositories/transaction_repository.py:77-118 | success transactions and outbox rows correspond one to one with matching fields; pending and failed ones have none |
| Lifetimes.SevenDaysToTell | services/carpayin-backend/app/application/payment/process_payment.py:240-272 | after a payment or repeat answered with success, in every later state of the run before 604800 seconds have passed, and for good if its notice was delivered, the PMS holds the request or the identical event is pending |
| Lifetimes.RetryEventLivesExactly | services/carpayin-backend/app/application/payment/process_payment.py:262-268 | a recorded event is kept for exactly 604800 seconds |
| Theorems.NoPaidSessionForgotten | services/carpayin-backend/app/application/payment/process_payment.py:240-272 | at any time, for every success the PMS holds the request, or a retry event with the identical payload is pending, or the time of its last event is over |
| Theorems.SessionsSimulate | services/carpayin-backend/app/application/parking/handle_entry_webhook.py:52-94 | in every safe run each backend session is its own PMS session with the same slot and entry time; ongoing implies active there, paid or exited there implies completed here |
| Theorems.LookupsAgree | services/pms/app/application/pms/calculate_fee.py:63-82 | in every safe run, for an ongoing session the lookup by lot and plate and the fallback by id find the same session, its own |
| Theorems.CacheAgreesWithTable | services/pms/app/infra/redis/stores.py:30-65 | in every safe run a cache entry names a session of its slot with its status, and an active session's slot holds itself or nothing |
| Theorems.StatusesMoveForward | services/pms/app/infra/repositories/pms_session_repository.py:62-77 | in every safe run PMS sessions only move active, paid, exited |
| Theorems.RunGrown | services/mock-pg/app/infra/repositories/transaction_repository.py:11-72 | over any run no finished ledger row changes or vanishes, sessions are never reopened, the barrier log only grows |
| Theorems.PriceBound | services/carpayin-backend/app/application/payment/get_parking_fee.py:4-95 | in every safe run an accepted amount is at most the fee at payment time and at most one block's price below it |
| Answers.AcceptedAmountInBlocks | services/pms/app/infra/fees/simple_fee_calculator.py:16-20 | an accepted amount is the number of 30-minute blocks its session had begun, by whole minutes, at some time of the last 900 seconds |
| Fees.FeeDefined | services/pms/app/infra/fees/simple_fee_calculator.py:8-24 | the fee exists exactly from 59 seconds before entry on, because seconds are truncated toward zero |
| Fees.FeeBlocks | services/pms/app/infra/fees/simple_fee_calculator.py:16-20 | n blocks are charged if and only if entry + 60(30(n-1)+1) <= now < entry + 60(30n+1), or for none less than a minute has passed |
| Fees.FeeDuration | services/pms/app/infra/fees/simple_fee_calculator.py:16-24 | the duration is the number of whole minutes since entry |
| Fees.StalenessBound | services/pms/app/infra/fees/simple_fee_calculator.py:16-20 | a quote younger than its 900 seconds is never above the present fee and at most one block below |
| Conservation.TakingsBalance | services/mock-pg/app/application/pg/charge_billing_key.py:31-134 | in every run the PG's takings are exactly the backend's plus the charges whose answer was lost, and the card company's exactly the PG's plus those lost there |
| Conservation.TakingsOrdered | services/mock-card/app/application/card/approve_card_payment.py:29-82 | backend takings at most PG takings at most card takings, equal along a link that lost nothing |
| LostAnswers.ChargesOfOneSession | services/mock-pg/app/application/pg/charge_billing_key.py:31-134 | where sessions have at most one success, a card charge is the recorded one if and only if no answer was lost on its way, and of two charges of a session one was lost |
| LostAnswers.ChargedTwiceByALostAnswer | services/carpayin-backend/app/application/payment/process_payment.py:177-238 | a canonical run that charges the card twice for one session |
| LedgerTables.FirstCharge | services/mock-pg/app/application/pg/charge_billing_key.py:31-134 | a first charge touches only its key; the PG records success exactly when the card company did and was heard, with its approval number |
| Answers.ChargeExactly | services/mock-pg/app/application/pg/charge_billing_key.py:31-134 | exactly when a first charge is stored, approved, declined or raises, in the PG's keys, the card's tokens, the amount and the link |
| Answers.ChargeRows | services/mock-pg/app/application/pg/charge_billing_key.py:74-134 | its rows: the PG's own id, key and token, and the card company's id exactly when it was heard |
| Answers.ChargedOnce | services/mock-pg/app/application/pg/charge_billing_key.py:34-44 | a known key is answered from the ledger and charges nothing |
| Answers.ApprovalExactly | services/mock-card/app/application/card/approve_card_payment.py:29-82 | exactly when a first approval raises, is declined or is approved, and the row it leaves |
| Answers.UnderstoodExactly | services/carpayin-backend/app/infra/clients/pg_client.py:74-90 | a failed status is a decline, an approval number an approval, all else raises |
| LedgerTables.ChargedLedgers | services/carpayin-backend/app/application/payment/process_payment.py:177-227 | one card payment keeps the three ledgers in agreement whatever is lost on the way |
| Notices.DeliveryOrderIrrelevant | services/pms/app/application/pms/record_payment_complete.py:31-63 | any order and any repetition of the same notices leaves the same sessions, requests, cache and multiset of openings, one more for each session per new request for it |
| Notices.DeliveredSettles | services/pms/app/infra/repositories/payment_request_repository.py:13-41 | what a sequence of notices does, said without its order: requests, sessions, cache entries and openings |
| Notices.PassClears | services/carpayin-backend/app/infra/workers/notify_retry_worker.py:97-129 | a pass with the PMS answering removes the events it is given and no other, and the PMS then holds each |
| Notices.FullPass | services/carpayin-backend/app/infra/workers/notify_retry_worker.py:97-129 | a pass over every pending event leaves none, and every success is known to the PMS unless its event had expired |
| Safety.StepBase | services/carpayin-backend/app/application/payment/process_payment.py:53-272 | every step keeps the invariant that ties transactions, quotes, outbox, ledgers, notices and retry events together |
| ExitSafety.StepExits | services/pms/app/application/pms/handle_lpr_entry.py:44-70 | every step that records no notice for an inactive session keeps PMS table, cache, requests, barrier log and backend sessions in step |
| ExitLane.ExitOpensPaid | services/pms/app/application/pms/handle_lpr_exit.py:25-57 | whoever the exit lane lets through is a paid session of that slot; "not paid" and "not found" mean what they say |
| ExitLane.ActiveRecorded | services/pms/app/application/pms/record_payment_complete.py:45-63 | a notice for an active session makes table row and cache entry paid together and opens the barrier once |
| ExitLane.EntryKept | services/pms/app/application/pms/handle_lpr_entry.py:44-98 | an entry keeps one active session per plate and takes over its slot's cache entry only from a session that is not active |
| Lanes.EntryAnswersTheActive | services/pms/app/application/pms/handle_lpr_entry.py:44-98 | the answer is the active session of the plate afterwards |
| Lanes.EntryExactly | services/pms/app/application/pms/handle_lpr_entry.py:44-98 | a session is made exactly when the plate has none active; and what it leaves |
| Lanes.BackendSessionExactly | services/carpayin-backend/app/application/parking/handle_entry_webhook.py:52-97 | the backend makes a session of an entry exactly when the slot was registered at both sides, the webhook arrived and the car has none going on; and it is that car's |
| Lanes.WebhookExactly | services/carpayin-backend/app/application/parking/handle_entry_webhook.py:52-121 | what an entry webhook is answered and the one case in which it makes a session |
| Lanes.WebhookAgain | services/carpayin-backend/app/application/parking/handle_entry_webhook.py:52-60 | a webhook that made a session is answered alike when it comes again, and changes nothing |
| Lanes.OneSessionPerCar | services/carpayin-backend/app/application/parking/handle_entry_webhook.py:75-83 | in every run a car has at most one session going on |
| Lanes.ExitExactly | services/pms/app/application/pms/handle_lpr_exit.py:25-44 | the lane opens exactly when the slot has a paid session and the cache holds no active one there |
| Lanes.ExitLeaves | services/pms/app/application/pms/handle_lpr_exit.py:46-57 | whoever is let out is exited, its cache entry gone and the opening logged |
| Lanes.RecordingExactly | services/pms/app/application/pms/record_payment_complete.py:30-65 | a notice is answered unless it is new and its session unknown; a known one changes nothing |
| Theorems.PaidOnceFirstNotice | services/pms/app/application/pms/record_payment_complete.py:45-57 | while sessions have at most one success, every notice the PMS records finds its session active |
| Spellings.TwoSpellingsPaidTwice | services/carpayin-backend/app/application/payment/process_payment.py:69-88 | a run with two spellings of one session id: charged twice, and an unpaid car let out |
| RecordingSteps.AloneIsRecording | services/pms/app/application/pms/record_payment_complete.py:30-65 | the handler's steps without interference are the handler of the atomic runs |
| RecordingSteps.PaidLaterExactly | services/pms/app/application/pms/record_payment_complete.py:31-48 | once the requests about a session are saved, whatever comes, it can still become paid if and only if a living handler stands between its second look and mark_paid |
| RecordingSteps.SavedButNeverPaid | services/pms/app/application/pms/record_payment_complete.py:31-48 | a run in which a handler dies there: the next delivery is answered, the session stays active and its car is held |
| RecordingSteps.RepeatIsAnswered | services/pms/app/application/pms/record_payment_complete.py:31-33 | a delivery of a saved request is answered and changes nothing |
| RecordingSteps.FaultsExactly | services/pms/app/application/pms/record_payment_complete.py:45-65 | a raising store ends the handler unanswered, a raising barrier only costs the opening |
| RecordingSteps.HonestExactly | services/pms/app/application/pms/record_payment_complete.py:47-55 | under any interleaving of deliveries, entries and exits, "paid" in the cache stays true if and only if no handler marks the entry of a session that is not paid |
| RecordingSteps.HonestExit | services/pms/app/application/pms/handle_lpr_exit.py:25-57 | while it is true the exit lane opens for paid sessions of the slot only |
| RecordingSteps.SlowDeliveryLetsOut | services/pms/app/infra/repositories/payment_request_repository.py:24-26 | a run of one payment, delivered twice, that lets another, unpaid car out |
| Interleaving.AtMostOneCharge | services/carpayin-backend/app/application/payment/process_payment.py:91-238 | under any interleaving the PG is called at most once per key, by the request whose insert won, and a paid success stands on its approval |
| Interleaving.RowChanges | services/carpayin-backend/app/infra/db/models.py:104-136 | a row is never removed or handed over; a success is lost exactly when its owner's except branch goes through |
| Interleaving.SuccessStays | services/carpayin-backend/app/application/payment/process_payment.py:203-227 | as long as no store raises after a success commit, a success stays |
| Interleaving.LateFaultOverwrites | services/carpayin-backend/app/application/payment/process_payment.py:209-238 | whenever a store does raise there, the recorded success becomes a failure |
| Interleaving.FaultsExactly | services/carpayin-backend/app/application/payment/process_payment.py:164-238 | where a raising store sends a request, and that it writes nothing |
| Interleaving.SessionPaidTwice | services/carpayin-backend/app/application/payment/get_parking_fee.py:54-95 | fee requests that save their quote after a payment let one canonical session be paid twice |
| Agreement.AloneIsPayment | services/carpayin-backend/app/application/payment/process_payment.py:53-238 | the split payment run alone leaves the tables and gives the answer of the handler-atomic one |
| Agreement.FeeAloneIsAsked | services/carpayin-backend/app/application/payment/get_parking_fee.py:53-105 | the split fee request run alone leaves the quotes of the handler-atomic one |
| Interleaving.SecondSuccessInterleaved | services/carpayin-backend/app/application/payment/process_payment.py:203-238 | under any interleaving with faults anywhere, a commit makes a second success of its session if and only if some request has committed without completing it, or it is completed and not every request that completed it has overwritten its success |
| Interleaving.SuccessesAndClosings | services/carpayin-backend/app/application/payment/process_payment.py:195-238 | under any interleaving with faults anywhere, successes and completed sessions are exactly those the places of the requests say |
| Interleaving.ChargedButFailed | services/carpayin-backend/app/application/payment/process_payment.py:209-238 | a run in which the PG has charged and a raising store makes the committed success a failure |
| BackendService.Service.ProcessPayment | services/carpayin-backend/app/application/payment/process_payment.py:53-238 | the handler's whole effect on all four services and its answer |
| BackendService.Service.FinishPayment | services/carpayin-backend/app/application/payment/process_payment.py:195-227 | success commit with its outbox row, session completion, and telling the PMS |
| BackendService.Service.NotifyPmsPaymentComplete | services/carpayin-backend/app/application/payment/process_payment.py:240-272 | an answer clears the retry event, anything else records it afresh |
| BackendService.Service.CallPms | services/carpayin-backend/app/infra/clients/pms_client.py:88-133 | the notice reaches the PMS unless it is lost; only a received answer counts |
| BackendService.Service.CallPg | services/carpayin-backend/app/infra/clients/pg_client.py:51-90 | the charge and how the client reads its answer, with what was lost |
| BackendService.Service.CreatePendingTransaction | services/carpayin-backend/app/infra/repositories/transaction_repository.py:17-43 | the pending row with the session's car, unless the session is unknown or the key has a row |
| BackendService.Service.MarkSuccessAndEnqueuePaymentNotification | services/carpayin-backend/app/infra/repositories/transaction_repository.py:77-118 | success and outbox row in one commit, the row only if there is none; nothing for an unknown key |
| BackendService.Service.GetSessionByPmsId | services/carpayin-backend/app/infra/repositories/parking_session_repository.py:40-45 | a session of that PMS id, or none exists |
| BackendService.Service.GetActiveSessionByCar | services/carpayin-backend/app/infra/repositories/parking_session_repository.py:47-53 | an ongoing session of that car, or none exists |
| BackendService.Service.GetParkingFee | services/carpayin-backend/app/application/payment/get_parking_fee.py:37-105 | cached quote, or the checks, the PMS query and the new quote |
| BackendService.Service.HandleEntryWebhook | services/carpayin-backend/app/application/parking/handle_entry_webhook.py:38-121 | refused without a signature or a readable time; else the session found by PMS id or car, or a new one that uses up the pre-notice |
| BackendService.Service.CarEnters | services/pms/app/application/pms/handle_lpr_entry.py:36-98 | a car's entry through both services is one possible step of the protocol |
| BackendService.Service.RetryPayment | services/carpayin-backend/app/infra/workers/notify_retry_worker.py:108-129 | one event sent again: gone when the PMS answers, otherwise kept as it is |
| BackendService.Service.ProcessPaymentRetries | services/carpayin-backend/app/infra/workers/notify_retry_worker.py:97-106 | the cursor loop retries the scanned keys in order |
| PaymentGateway.PgService.ChargeBillingKey | services/mock-pg/app/application/pg/charge_billing_key.py:31-134 | both ledgers and the answer after one charge request |
| CardCompany.CardService.ApprovePayment | services/mock-card/app/application/card/approve_card_payment.py:29-82 | the ledger and the answer after one approval request |
| ParkingSystem.PmsService.HandleLprEntry | services/pms/app/application/pms/handle_lpr_entry.py:36-98 | the existing session of the plate, or a new one with cache entry, used registration and webhook |
| ParkingSystem.PmsService.RecordPaymentComplete | services/pms/app/application/pms/record_payment_complete.py:30-65 | nothing for a known key; otherwise request, paid status, cache and barrier |
| ParkingSystem.PmsService.HandleLprExit | services/pms/app/application/pms/handle_lpr_exit.py:25-44 | the cache decides if it has an entry, else the table |
| ParkingSystem.PmsService.OpenAndExit | services/pms/app/application/pms/handle_lpr_exit.py:46-57 | barrier, cache entry, then exit status |
| ParkingSystem.PmsService.CalculateFee | services/pms/app/application/pms/calculate_fee.py:34-82 | the fee of the session found by slot, else by id, if it is active |
| ParkingSystem.PmsService.GetActiveSessionByPlate | services/pms/app/infra/repositories/pms_session_repository.py:29-35 | an active session of the plate, or none exists |
| ParkingSystem.PmsService.GetSessionByLotAndPlate | services/pms/app/infra/repositories/pms_session_repository.py:37-53 | a session of the slot with the status, or none exists |
| ParkingSystem.PmsService.UpdateStatus | services/pms/app/infra/redis/stores.py:53-62 | changes a live entry's status and keeps its time to live |
| OutboxQueue.SelectDue | services/carpayin-backend/app/infra/repositories/payment_notification_outbox_repository.py:20-35 | due, unlocked rows, oldest first, up to the limit, none passed over for a younger one |
| OutboxQueue.ClaimTakesOldest | services/carpayin-backend/app/infra/repositories/payment_notification_outbox_repository.py:37-45 | a claim touches the picked rows only, each loses one attempt and is out of reach until its lease ends |
| OutboxQueue.BackoffTable | services/carpayin-backend/app/infra/workers/payment_outbox_worker.py:83-89 | the delays are 5, 10, 20, 40, 80, 160, then 300 seconds, each twice the one before or 300 |
| OutboxQueue.MarksSay | services/carpayin-backend/app/infra/repositories/payment_notification_outbox_repository.py:47-76 | what a mark says of time, failure reason, status and next attempt, and what it leaves alone |
| OutboxQueue.OutboxRepository.ClaimDue | services/carpayin-backend/app/infra/repositories/payment_notification_outbox_repository.py:14-45 | the rows picked and the whole table after the claim |
| OutboxQueue.OutboxRepository.ClaimAll | services/carpayin-backend/app/infra/repositories/payment_notification_outbox_repository.py:37-45 | the claiming loop over the selected row objects |
| OutboxQueue.OutboxRepository.MarkPublished | services/carpayin-backend/app/infra/repositories/payment_notification_outbox_repository.py:47-54 | one row published, or unknown id |
| OutboxQueue.OutboxRepository.MarkFailed | services/carpayin-backend/app/infra/repositories/payment_notification_outbox_repository.py:56-76 | one row failed with a delay, or dead when its attempts are used up |
| OutboxQueue.PaymentOutboxWorker.PublishOne | services/carpayin-backend/app/infra/workers/payment_outbox_worker.py:76-101 | the row marked by what the publisher did, with the delay of the attempt it was claimed under |
| OutboxQueue.PaymentOutboxWorker.PublishEach | services/carpayin-backend/app/infra/workers/payment_outbox_worker.py:66-74 | the publishing loop, in claim order |
| OutboxQueue.PaymentOutboxWorker.RunOnce | services/carpayin-backend/app/infra/workers/payment_outbox_worker.py:66-74 | one scan: claim a batch, then publish and mark each |
| OutboxRuns.ScanIsARun | services/carpayin-backend/app/infra/workers/payment_outbox_worker.py:66-101 | what a scan does to the table is a run of claim, publish and mark events |
| OutboxRuns.PublishCallsBounded | services/carpayin-backend/app/infra/repositories/payment_notification_outbox_repository.py:20-45 | any workers, crashes and late marks: publish calls at most attempts at most max_attempts, and consecutive claims at least min(lease, 5) seconds apart |
| OutboxRuns.StepSpends | services/carpayin-backend/app/infra/repositories/payment_notification_outbox_repository.py:37-42 | the attempts left drop by exactly the number of rows claimed and by nothing else |
| OutboxRuns.AttemptsConserved | services/carpayin-backend/app/infra/repositories/payment_notification_outbox_repository.py:14-76 | over every run, attempts granted equal rows claimed plus attempts left, never overspent |
| OutboxRuns.OneLiveClaim | services/carpayin-backend/app/infra/repositories/payment_notification_outbox_repository.py:37-45 | with marks made within their lease, at most one unmarked claim of a row is inside its lease |
| OutboxRuns.StatusExactly | services/carpayin-backend/app/infra/repositories/payment_notification_outbox_repository.py:47-76 | the status is decided by the claims: published if and only if one succeeded, dead if and only if the last allowed one failed, and so on |
| OutboxRuns.DeadAfterMaxAttempts | services/carpayin-backend/app/infra/repositories/payment_notification_outbox_repository.py:68-74 | a row whose publishes all fail is dead exactly after max_attempts claims |
| OutboxRuns.PublishedAndDeadAreFinal | services/carpayin-backend/app/infra/repositories/payment_notification_outbox_repository.py:20-45 | with marks made within their lease no event changes a published or dead row |
| OutboxRuns.BackoffSpread | services/carpayin-backend/app/infra/workers/payment_outbox_worker.py:83-89 | after k failures the next claim is at least 0, 5, 15, 35, 75, 155, 315, 615, ... seconds after the first |
| OutboxRuns.DueExactly | services/carpayin-backend/app/infra/repositories/payment_notification_outbox_repository.py:20-35 | a row that failed in time is due exactly from the mark plus its delay in seconds on, one in a worker's hands from the end of its lease on, a new one from its creation on |
| OutboxRuns.CrashAtTheLastAttemptSticks | services/carpayin-backend/app/infra/repositories/payment_notification_outbox_repository.py:20-35 | while marks are made within their lease, a row whose last allowed claim was never marked stays publishing under every event |
| OutboxRuns.StuckIsReached | services/carpayin-backend/app/infra/repositories/payment_notification_outbox_repository.py:14-45 | for every max_attempts a run of crashing workers leaves such a row |
| OutboxRuns.WhereARowCanBe | services/carpayin-backend/app/infra/repositories/payment_notification_outbox_repository.py:20-35 | a row can still become due if and only if it is not published, not dead and has attempts left |
| OutboxRuns.LateMarkRevives | services/carpayin-backend/app/infra/repositories/payment_notification_outbox_repository.py:56-76 | a run in which a late failure revives a published row, which is then published again |
| OutboxRuns.FinalUntilLateMark | services/carpayin-backend/app/infra/repositories/payment_notification_outbox_repository.py:47-76 | with late marks allowed, exactly a late failure undoes published, exactly a late success undoes dead, and exactly a mark of it frees a stuck row |
| CardRegistration.BillingKeyIntegrity | services/carpayin-backend/app/application/card/handle_card_webhook.py:99-139 | a vehicle's key is active at the PG with the same last four, from an order of that vehicle, for an active token of a card with those digits |
| CardRegistration.VehiclesDoNotShareKeys | services/carpayin-backend/app/infra/db/models.py:53-70 | no two vehicles hold one billing key, so the unique constraint never bites |
| CardRegistration.RefusedExactly | services/carpayin-backend/app/application/card/handle_card_webhook.py:115-139 | a sent webhook is answered ok if and only if its order is still held: the last four, the vehicle and the unique key never stand in its way |
| CardRegistration.HookExactly | services/carpayin-backend/app/application/card/handle_card_webhook.py:99-139 | for any webhook, exactly when it is accepted and what it changes |
| CardRegistration.ReplayIsNoop | services/carpayin-backend/app/application/card/handle_card_webhook.py:115-121 | after a webhook was accepted, every webhook of its order is answered ok and changes nothing, also one with another key |
| CardRegistration.FirstCardWins | services/mock-pg/app/application/pg/complete_card_registration.py:38-48 | the first key of an order stays, and later submissions of the order answer with it whatever card they carry |
| CardRegistration.RegisteredKeyCharges | services/mock-pg/app/application/pg/charge_billing_key.py:31-134 | a heard charge of a registered vehicle's key succeeds in PG and card ledgers with one approval number |
| CardRegistration.UnsavedKeyExactly | services/mock-pg/app/application/pg/complete_card_registration.py:50-86 | a submission past its first look leaves the backend's keys sound if and only if it fails, its second look finds no key, its webhook is lost, or the order is no longer pending; and all three services sound if and only if it fails or finds none |
| CardRegistration.UnsavedKeyNeverCharges | services/mock-pg/app/application/pg/charge_billing_key.py:31-134 | otherwise every charge of the vehicle's key fails and no later webhook of the order repairs it |
| CardRegistration.ConcurrentSubmissions | services/mock-pg/app/application/pg/complete_card_registration.py:35-86 | a run from the beginning that leads two submissions of one order there |
| CardRegistration.TokenizedKeeps | services/mock-card/app/application/card/verify_and_tokenize_card.py:30-70 | tokens stay one per card and active, old ones unchanged, and the answer is the card's own |
| CardRegistration.StoredAreChecked | services/mock-card/app/application/card/verify_and_tokenize_card.py:33-38 | over every run the stored cards are exactly the submitted ones that were valid and reached the card company |
| CardRegistration.VehicleCardsAreChecked | services/mock-card/app/application/card/verify_and_tokenize_card.py:33-70 | a vehicle's key stands for a card that was found valid, with its last four digits |
| CardRegistration.InvalidCardIsRefused | services/mock-pg/app/application/pg/complete_card_registration.py:50-62 | an invalid card changes nothing anywhere and is answered with failure |
| CardRegistration.AnswerExactly | services/mock-pg/app/application/pg/complete_card_registration.py:35-91 | an order without a key gets one exactly for a valid card that was heard of; one with a key answers it exactly if the backend holds the order and was heard |
| CardRegistration.NewKeyStored | services/mock-pg/app/application/pg/complete_card_registration.py:68-91 | what a new key leaves at all three services |
| CardRegistration.OrderLivesExactly | services/carpayin-backend/app/application/card/create_card_order.py:147-153 | an order is held for exactly 1800 seconds |
| CardRegistration.TokenService.VerifyAndTokenize | services/mock-card/app/application/card/verify_and_tokenize_card.py:30-70 | the stored cards and the answer after one request |
| CardRegistration.WebhookService.HandleCardWebhook | services/carpayin-backend/app/application/card/handle_card_webhook.py:99-139 | the backend's keys and orders and the answer after one webhook, refused if unsigned or not active |
| CardRegistration.RegistrationService.SaveBillingKey | services/mock-pg/app/infra/repositories/billing_key_repository.py:11-27 | inserts unless the order has a key |
| CardRegistration.RegistrationService.GetByOrderId | services/mock-pg/app/infra/repositories/billing_key_repository.py:29-32 | the order's key, or none exists |
| CardRegistration.RegistrationService.CompleteCardRegistration | services/mock-pg/app/application/pg/complete_card_registration.py:35-91 | one submission's effect on all three services and its answer |
| IdempotencyKey.TextInjective | services/carpayin-backend/app/application/payment/process_payment.py:78-88 | commands with session ids of one length hash the same text if and only if they are the same |
| IdempotencyKey.TextInjectiveOverSpellings | services/carpayin-backend/app/application/payment/process_payment.py:69-88 | over all spellings with hyphens and braces, accepted commands hash the same text if and only if they are the same, spelling included |
| IdempotencyKey.NegativeAmountSameText | services/carpayin-backend/app/application/payment/process_payment.py:86-88 | with a negative amount two spellings of one session could share a text |
| IdempotencyKey.AnotherCarSameText | services/carpayin-backend/app/application/payment/process_payment.py:86-88 | without the session fixing the car two payments can share a text |
| IdempotencyKey.DigitCurrencySameText | services/carpayin-backend/app/application/payment/process_payment.py:86-88 | a currency that starts with a digit can share a text with another amount |
| IdempotencyKey.ValueOfDigits | services/carpayin-backend/app/application/payment/process_payment.py:86-88 | the decimal rendering of a number reads back as that number |
| TokenCodec.RoundTrip | services/carpayin-backend/app/infra/security.py:16-22 | every byte string survives encoding without pads and decoding |
| TokenCodec.EncodeShape | services/carpayin-backend/app/infra/security.py:16-22 | the encoding is letters of the alphabet, of length ceil(4n/3), and the restored pads are those stripped |
| TokenCodec.DecodesExactly | services/carpayin-backend/app/infra/security.py:20-22 | a string of letters decodes if and only if its length is not 1 mod 4 |
| TokenCodec.IssuedTokenValidates | services/carpayin-backend/app/infra/security.py:29-62 | an issued token yields its payload until it expires, the expired code from then on, and invalid_token for another type |
| TokenCodec.AcceptedTokenHoldsClaims | services/carpayin-backend/app/infra/security.py:30-34 | the payload holds every claim but "typ" and "exp", which are the type and the expiry |
| TokenCodec.Alphabet | services/carpayin-backend/app/infra/security.py:16-17 | the 64 letters are those of the URL-safe alphabet |
| TokenCodec.LettersAreDigits | services/carpayin-backend/app/infra/security.py:16-17 | letters are the bytes' digits in base 64, most significant first |
| TokenCodec.AcceptedExactly | services/carpayin-backend/app/infra/security.py:41-62 | a token is accepted if and only if it is an encoding of an unexpired object of the type, a dot, and that encoding's signature |

## Left out

- HTTP clients, routes, SQL sessions, MQTT and SQS: only their outcomes appear, as the fate of a call or the answer of a publish.
- Text and timestamps nothing depends on: failure reasons, log lines, completed_at, durations in responses, tokens' wire format in the payment routes.
- Malformed session ids and requests: the payment model starts after parsing and after the access token has been validated.
- BackendService.Service.HandleEntryWebhook: the notice to the car that follows a new session, and its retry event, are not in the contract.
- HMAC, SHA-256 and JSON: injective or arbitrary functions. Characters outside the base64 alphabets and misplaced pads are decoded as Python's decoder does, but only strings of letters are characterised.
- TokenCodec.IssuedTokenValidates: an `exp` claim that is not an integer counts as 0, since issued tokens always carry an integer.
- IdempotencyKey.TextInjectiveOverSpellings: not for spellings with the prefixes "urn:" and "uuid:", which UUID() also takes off.
- Stores that raise and handlers that die halfway in the four-service runs; Interleaving has both for the backend alone and RecordingSteps for the PMS alone.
- RecordingSteps.HonestExactly: reading and rewriting a cache entry is one step, and so is looking up and marking a session.
- Interleaving.AtMostOneCharge: the PG's answer is arbitrary, the PMS is not part of that state, and the billing-key lookup before the insert, which can only reject, is a request that stops there.
- Sub-second time to live in Redis: a live key has at least one whole second left.
- OutboxRuns.PublishCallsBounded: attempts and clock are unbounded integers, and the database's own clock and the worker's are one.
- The order of rows of equal age, and which of several matching rows a query returns: any of them is allowed.
- CardRegistration.BillingKeyIntegrity: nothing in the modelled code deactivates a key or a token, so their deactivation by hand is not a step; card numbers are ASCII digits; the webhook's five-minute signature window is wider here, so more replays are allowed; a billing key is saved and looked up in one step each.
- Pre-registration by the car (`register_pre_notify.py`) appears as a step of `Protocol` only, and the entry-notice retries and the publishing of entry notices do not appear.
- Login, vehicle confirmation, refresh tokens, owner verification: guards of one branch each.
- Development shortcuts (`sess_dev_001`, load-test mode, `/dev` routes, `allow_local_fallback`), the Android app, the simulator controllers, monitoring and migrations.
- `notify_pms_payment_complete.py`, which is not wired and repeats what process_payment.py does.
