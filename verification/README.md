# Verified model of the Rails (Sui) order and identity core

This project models the parts of the Rails aggregator whose behaviour is hard to see by
reading one function: the chain of mutators behind bulk creation, hook stacks, batched
edge loading, the row mapping of the generated entities, the provider-rate scan, the
identity verification life cycle, the convergence of fiat payouts with their concurrent
executors, and the aggregation of split orders into one status.

| file | what it models |
|---|---|
| `Hooks.dfy` | `withHooks`: a hook stack around one operation, with an effect trace |
| `BulkCreate.dfy`, `BulkSave.dfy` | `CreateBulk.Save`: the state function of the mutator chain and its laws; the same chain over nodes, specs and mutations as heap objects |
| `EagerLoading.dfy`, `EntityQuery.dfy` | the edge loaders as hash joins; `sqlAll` of API keys and fiat currencies; the `...OrErr` accessors |
| `RowMapping.dfy` | `createSpec`, `scanValues`, `assignValues` of the card nonce |
| `TokenRate.dfy` | the bucket scan of `GetTokenRate` |
| `KycLifecycle.dfy` | `RequestIDVerification`, `KYCWebhook`, `GetIDVerificationStatus` |
| `PayoutWebhook.dfy` | the transfer webhook |
| `PayoutExecution.dfy` | the payout protocol between executors, webhook, reconciliation, settlement, provider nodes, scheduled reassignments and the chain indexer |
| `PayoutTables.dfy` | the same protocol as one order and one task see it, in plain fields |
| `PayoutClaims.dfy`, `PayoutConfirmation.dfy`, `PayoutSettlement.dfy`, `PayoutStranding.dfy` | its laws: claims and transfers, confirmed payouts, settlements, orders that get stuck |
| `OrderStatus.dfy` | `GetLockPaymentOrderStatus` |

Code that updates things in place is a class or a method with a loop, proved against a
state function; the laws are lemmas about that function. Foreign code enters as a
parameter: the database's answers, the identity provider, signature checks, UUID parsing,
trimming and lower-casing. Unbounded integers stand for instants (nanoseconds) and ids,
exact reals for decimals.

Places where the code does less than its comments or a reader may expect are stated with
the exact condition, and with an input or a run that fails:

- an in-range rate can be overwritten (`HitSurvivesIff`, `HitCanBeOverwritten`);
- a hook that swallows errors breaks the done-suffix (`SuffixIff`, `GapRun`);
- duplicate node ids lose rows (`DuplicatesLoseRows`, `FirstDuplicateLosesItsRow`);
- a verified wallet is reported as expired after 25 hours (`SuccessIsReportedForADay`,
  `VerifiedWalletExpires`);
- a replayed KYC callback hits a newer row (`ReplayHitsNewRow`);
- one wallet spelled in two ways gets two rows (`OneRowPerWalletIff`, `TwoSpellingsTwoRows`);
- "signature already used" holds for the last signature only (`RefusedAsUsedIff`,
  `UsedSignatureIsAcceptedAgain`);
- a confirmed payout is not final (`SuccessSurvivesIff`, `SuccessCanBeLost`; with all
  writers `SuccessKeptIff`, `ConfirmedIsNotFinal`, `ReconciliationCanUndo`);
- the atomic claim that `services/order/execute.go:43` calls idempotent is exclusive, and the
  order closed to further claims, only without a hand-back by another executor
  (`ClaimIsExclusiveIff`); otherwise a second executor can hold it (`OneHolderIff`,
  `StrayResetAdmitsSecond`, `TwoExecutorsCanHoldOneOrder`);
- reassigning an order "could double-pay" (`tasks/tasks.go:116-119`): transfers are bounded by
  claims and hand-backs, and one hand-back suffices (`TransfersAreBounded`, `OrderCanBePaidTwice`);
- the settlement that `services/order/execute.go:170` calls idempotent can run twice: at
  once (`SoleSettlerIff`, `TwoSettlementsCanOverlap`) or after an accept of the paid order
  (`SettledOncePerOpening`, `AcceptReopens`);
- an order "is never stranded" (`services/order/execute.go:44`), and any failure returns it
  "to pending for re-match" (line 35): it is never pending and closed to claims exactly when no
  step gets it stuck (`NeverStuckIff`), and once stranded it waits until a node or the chain moves
  it (`StrandedUntilReleased`); a paid, a failed and an unpayable order get there
  (`PaidOrderCanStrand`, `FailedOrderCanStrand`, `GivenUpOrderStrands`);
- receipts are sorted only when lock orders exist (`FallbackIsNewestIff`,
  `StaleReceiptIsListedFirst`).

## Model

| member | source | states |
|---|---|---|
| `Hooks.Call.WithHooks` | ent/ent.go:552-583 | a nil hook anywhere is an error and nothing runs; otherwise the call behaves as the chain with hook 0 outermost; no hooks is the bare operation |
| `Hooks.Call.WithInterceptors` | ent/ent.go:618-631 | interceptors compose as hooks do, without the nil check |
| `Hooks.Call.Mutate` | ent/ent.go:558-566 | running the wrapped closures has exactly the effects and outcome of the chain |
| `Hooks.OneHook` | ent/ent.go:558-574 | outcome, calls of the operation and mutation under each single kind of hook |
| `Hooks.EffectsNest` | ent/ent.go:567-573 | for every list without retries: hooks start in list order up to the first that stops, the operation runs once iff none stops, and the started ones end in reverse; the outcome is settled outwards hook by hook |
| `Hooks.EffectsAreBracketed` | ent/ent.go:567-583 | for every list, retries included: every start has its end, hook `k` runs only inside hook `k - 1`, and the operation runs only inside all of them, once for every call |
| `Hooks.TransparentHooksNest` | ent/ent.go:558-574 | hooks that only observe or amend: all before-effects, one operation on the amended mutation, all after-effects reversed, and the operation's own outcome |
| `Hooks.TrustworthyIff` | ent/ent.go:574-583 | success of a stack means, for every operation, that its last call in this run succeeded, exactly when the outermost deciding hook does not swallow |
| `Hooks.NotSwallowingIsTrusted` | ent/ent.go:567-583 | the sufficient direction for any suffix of a stack, retries included |
| `BulkCreate.OneBuilder` | ent/apikey_create.go:427-461 | a single builder under each kind of hook: outcome, number of batches, mark |
| `BulkCreate.BatchesAreComplete` | ent/apikey_create.go:438-446 | whatever the hooks do, no batch is ever sent with an empty slot and none is taken back |
| `BulkCreate.ObservedRun` | ent/apikey_create.go:427-457 | the same all-or-nothing law for the chain entered at any builder and hook |
| `BulkCreate.ObservedSave` | ent/apikey_create.go:416-469 | with hooks that call on once: all checks pass iff there is exactly one batch call, its slots are filled in builder order from the amended mutations, and all builders or none are marked by its result; a failed check means no call and no mark |
| `BulkCreate.PlainSave` | ent/apikey_create.go:144-154 | without effective hooks: a missing or empty secret anywhere means nothing is sent and nobody is marked; otherwise one batch holds the builders' ids and secrets in order |
| `BulkCreate.AmendsAreStable` | ent/apikey_create.go:427-461 | running part of the chain leaves the mutations so that a retry sees the same secrets |
| `BulkCreate.SavedRun` | ent/apikey_create.go:438-457 | whatever was marked before: a success means everything from here on was saved by the last call |
| `BulkCreate.SafeRun` | ent/apikey_create.go:427-457 | hooks may fail or retry: marks stay a suffix, change only after an accepted batch call, and success means everything from here on was saved by the last call |
| `BulkCreate.SafeSave` | ent/apikey_create.go:448-464 | the marked builders are a suffix, empty unless a batch call was accepted |
| `BulkCreate.IdsAreKept` | ent/apikey_create.go:136-141 | whatever hooks and database do, no builder's own id changes, and its node and its row in every batch have it |
| `BulkCreate.KeyedSave` | ent/apikey_create.go:178-190 | after a trusted success every node, and its row in the last batch, has the id its builder brought |
| `BulkCreate.RejectedRun` | ent/apikey_create.go:438-454 | with a rejecting database nobody is marked and success is reported exactly by a swallowing stack |
| `BulkCreate.GapRun` | ent/apikey_create.go:438-457 | the builder before a swallowing stack is marked although the next is not |
| `BulkCreate.SuffixIff` | ent/apikey_create.go:427-469 | the marks are a suffix for every database behaviour exactly when no reached stack below the first builder swallows errors |
| `BulkSave.CreateBulk.CreateSpec` | ent/apikey_create.go:179-192 | fills both slots of position `i` from the builder's mutation and nothing else |
| `BulkSave.CreateBulk.BatchCreate` | ent/institution_create.go:505-513 | sends every spec; an accepted call writes the assigned ids into the specs |
| `BulkSave.CreateBulk.Closure` | ent/institution_create.go:489-525 | check, fill, call the next mutator or the database, mark on the way out |
| `BulkSave.CreateBulk.Mutate` | ent/apikey_create.go:427-462 | the objects after a mutator ran are those of the state function |
| `BulkSave.CreateBulk.Complete` | ent/institution_create.go:518-523 | the mutation's id becomes the node's id field, which then takes the assigned id |
| `BulkSave.CreateBulk.Save` | ent/institution_create.go:478-534 | a builder error changes nothing; otherwise the result and all objects are those of the whole chain after defaults; without ids from the database a trusted success gives every node, and its row in the last batch, the id its builder was given or else its default id |
| `BulkSave.SavedNodes` | ent/institution_create.go:518-534 | after a trusted success the node at every position carries the id given to its row by the last batch call, and the mutation's id reads the same value |
| `EagerLoading.ForeignKeysAreDistinct` | ent/cardservernonce_query.go:457-468 | the query asks for every non-null key, for nothing else, and for each key once |
| `EagerLoading.GroupByKey` | ent/cardservernonce_query.go:457-468 | the first loop builds the distinct keys in order and the index from key to nodes |
| `EagerLoading.LoadParents` | ent/cardservernonce_query.go:456-487 | for any query answer: which error is reported and what every node's edge holds |
| `EagerLoading.BatchIsLookup` | ent/cardservernonce_query.go:472-486 | for an honest query the foreign-key error is unreachable and every node gets exactly what a lookup of its own key gives |
| `EagerLoading.LoadChildren` | ent/apikey_query.go:565-595 | for any query answer: empty lists first, rows appended up to the first bad one, and the error it causes |
| `EagerLoading.RowsOfOne` | ent/apikey_query.go:582-594 | one row more joins the end of the list of its node and no other |
| `EagerLoading.LastOfOne` | ent/apikey_query.go:566-573 | one node more takes over its id in the index |
| `EagerLoading.RowErrors` | ent/apikey_query.go:583-592 | a row without a key is reported by its id, a row of no node by its key |
| `EagerLoading.LoadPartitions` | ent/apikey_query.go:582-594 | for distinct ids every node gets the subsequence of its rows, and no row is lost or duplicated |
| `EagerLoading.DuplicatesLoseRows` | ent/apikey_query.go:566-573 | every node gets its rows exactly when earlier nodes sharing an id with a later one have none |
| `EagerLoading.FirstDuplicateLosesItsRow` | ent/apikey_query.go:566-594 | two nodes with one id: the load succeeds and the row reaches the second only |
| `EntityQuery.APIKeySqlAll` | ent/apikey_query.go:444-499 | a success holds one fresh node per row with all requested edges loaded; a failure is the error of the first load, in order, that really failed |
| `EntityQuery.ParentAccessorsReport` | ent/apikey.go:47-65 | each parent accessor answers "not loaded" iff not requested, "not found" iff the join has no row, else the joined parent |
| `EntityQuery.PaymentOrdersReport` | ent/apikey.go:67-74 | the list accessor answers "not loaded" iff not requested, else the orders that refer to the key, in query order |
| `EntityQuery.HonestParentsArrive` | ent/apikey_query.go:468-479 | an honest parent query never makes the whole query fail |
| `EntityQuery.OwnedChildrenArrive` | ent/apikey_query.go:480-487 | neither does a list query that returns rows of the given nodes |
| `EntityQuery.FiatCurrencySqlAll` | ent/fiatcurrency_query.go:443-495 | the same for three list edges |
| `EntityQuery.ListsDoNotInterfere` | ent/fiatcurrency_query.go:471-493 | for any rows, duplicate ids included, every currency has the list and the accessor answer that a query for that edge alone leaves it |
| `EntityQuery.ListAccessorsReport` | ent/fiatcurrency.go:61-84 | each list accessor answers "not loaded" iff not requested, else the rows that refer to the currency, in query order |
| `RowMapping.CreateSpec` | ent/cardservernonce_create.go:287-368 | the new entity and the inserted row are those of the mutation |
| `RowMapping.RowTable` | ent/cardservernonce_create.go:293-366 | the inserted row column by column |
| `RowMapping.CreatedMatchesRow` | ent/cardservernonce_create.go:293-366 | a column is inserted iff its value was given, and the entity's field holds the same value, else the zero value |
| `RowMapping.ScanValues` | ent/cardservernonce.go:83-104 | the destination of every column |
| `RowMapping.CardServerNonce.AssignValues` | ent/cardservernonce.go:108-195 | too few values is an error that changes nothing; otherwise fields are assigned up to the first unexpected type |
| `RowMapping.AssignTable` | ent/cardservernonce.go:113-190 | each id, blob and time column sets its own field |
| `RowMapping.AssignTextTable` | ent/cardservernonce.go:113-190 | each text and key column sets its own field, an unknown one is kept under its name |
| `RowMapping.NullAssignsNothing` | ent/cardservernonce.go:113-190 | a NULL leaves the field as it was |
| `RowMapping.UnexpectedIff` | ent/cardservernonce.go:113-190 | the error of a column is raised exactly for a destination of another type |
| `RowMapping.FirstUnexpectedStops` | ent/cardservernonce.go:108-195 | the first unexpected type ends the assignment, and what came before it stays |
| `RowMapping.InsertedValuesScan` | ent/cardservernonce.go:83-104 | inserted values always fit the destinations |
| `RowMapping.CreateThenRead` | ent/cardservernonce.go:108-195 | for any columns in any order, repetitions and unknown ones included: no type error, and every selected field is the created one |
| `RowMapping.RebuiltIff` | ent/cardservernonce.go:108-195 | the created entity is rebuilt exactly when every unselected column holds its zero value |
| `TokenRate.ScanBucket` | controllers/index.go:243-264 | what one bucket does to the rate and to the ceiling |
| `TokenRate.ScanBuckets` | controllers/index.go:235-266 | the rate is the one written by the last deciding bucket, or the market rate |
| `TokenRate.BucketSays` | controllers/index.go:243-264 | a bucket hits with the topmost entry of the token whose rate times the amount lies between its bounds, both included, and misses exactly when its topmost entry of the token does not |
| `TokenRate.RangeIsInFiat` | controllers/index.go:251-257 | a quote in range only once the amount is multiplied by the rate |
| `TokenRate.AnswerIsUnique` | controllers/index.go:235-266 | that specification determines the rate |
| `TokenRate.OutOfRangeAnswer` | controllers/index.go:258-262 | with nothing in range: the topmost rate of the leftmost bucket of largest positive maximum listing the token, else the market rate |
| `TokenRate.HitSurvivesIff` | controllers/index.go:255-262 | the answer is the rate found in the last in-range bucket exactly when no later bucket lifts the ceiling; otherwise it is a later topmost rate, out of that bucket's range |
| `TokenRate.HitCanBeOverwritten` | controllers/index.go:255-262 | a concrete in-range quote that a later bucket replaces |
| `KycLifecycle.Controller.RequestIDVerification` | controllers/index.go:717-988 | every branch and fault of the handler, as one step of the state |
| `KycLifecycle.Controller.KYCWebhook` | controllers/index.go:1057-1130 | only an authentic callback acts, and only on pending rows of its address |
| `KycLifecycle.Controller.GetIDVerificationStatus` | controllers/index.go:991-1054 | the reported status, the expiry check first |
| `KycLifecycle.UnverifiedIsRefused` | controllers/index.go:723-761 | a request is told that its signature is invalid, and changes nothing, exactly when it recovers to no address or to one with other letters |
| `KycLifecycle.UnverifiedLeaveNoTrace` | controllers/index.go:723-761 | unverified requests can be left out of any run |
| `KycLifecycle.RequestTable` | controllers/index.go:763-981 | every answer to a verified request, known address or not, with each fault and the new rows |
| `KycLifecycle.ReportTable` | controllers/index.go:1043-1054 | the report by the address's row: expired an hour after its stamp, else the stored status |
| `KycLifecycle.CallbackTable` | controllers/index.go:1075-1122 | which rows a callback changes, and the status that each result code stands for |
| `KycLifecycle.RunKeepsInv` | controllers/index.go:764-981 | over every run: one row per address and per signature, and every expiry stamp is creation plus 24 hours |
| `KycLifecycle.CreationMeetsNoRow` | controllers/index.go:764-976 | the provider is asked only with no row for the address, and the insert is refused exactly when another address's row holds the signature |
| `KycLifecycle.SuccessIsForever` | controllers/index.go:788-825 | no step of any run changes or deletes a successful row |
| `KycLifecycle.ReusedUntil` | controllers/index.go:786-819 | a pending row is reused exactly until creation plus 24h15m, and its URL is then reported as current |
| `KycLifecycle.HeldIsLastAccepted` | controllers/index.go:758-981 | over every run an address's row holds the signature accepted last, or there is none because a request discarded the row and failed |
| `KycLifecycle.RefusedAsUsedIff` | controllers/index.go:778-782 | after any run a signature is refused as used exactly when it is the one accepted last for its address |
| `KycLifecycle.UsedSignatureIsAcceptedAgain` | controllers/index.go:778-819 | a signature that created a row is accepted again once another has refreshed it |
| `KycLifecycle.ResentRequestIsRefused` | controllers/index.go:778-819 | a request answered with a URL is refused when resent at once, and its URL is reported as pending |
| `KycLifecycle.SuccessIsReportedForADay` | controllers/index.go:1043-1048 | after success new requests are refused for good, yet success is reported only until creation plus 25 hours |
| `KycLifecycle.VerifiedWalletExpires` | controllers/index.go:1043-1048 | a run of one request, one success callback and 26 hours after which the wallet is verified, refused and reported as expired |
| `KycLifecycle.StaleRowIsLost` | controllers/index.go:788-800 | when the provider is unreachable the stale row is gone all the same |
| `KycLifecycle.FirstTerminalCallbackWins` | controllers/index.go:1106-1122 | over any run in which a pending row survives, its status is that of the first terminal callback for its address |
| `KycLifecycle.CallbackActsIff` | controllers/index.go:1115-1122 | a callback changes something exactly when it is terminal and finds a pending row |
| `KycLifecycle.ReplayChangesNothing` | controllers/index.go:1115-1122 | a redelivered callback changes nothing before the next request for its address |
| `KycLifecycle.ReplayHitsNewRow` | controllers/index.go:1115-1122 | after a new request the old failure fails the new row |
| `KycLifecycle.OneRowThroughoutIff` | controllers/index.go:750-769 | over every run there is one row per wallet throughout exactly when no created row spells an address that has a row in another way |
| `KycLifecycle.OneRowPerWalletIff` | controllers/index.go:750-769 | every run of verified requests for given addresses ends with one row per wallet exactly when no two of the addresses differ in letter case only |
| `KycLifecycle.TwoSpellingsTwoRows` | controllers/index.go:750-769 | two verified requests of one wallet after which it has two rows |
| `PayoutWebhook.Controller.BaaSWebhook` | controllers/baas_webhook.go:45-92 | the status codes of the signature gate; only an accepted body acts, and how |
| `PayoutWebhook.Controller.ApplyFiatPayout` | controllers/baas_webhook.go:99-153 | exactly the order whose id and reference both match changes; a success dispatches one settlement |
| `PayoutWebhook.CallbackTable` | controllers/baas_webhook.go:79-151 | every order after a callback, and what is settled: only the order whose id and stored reference are the callback's changes, and only by a terminal word |
| `PayoutWebhook.ForeignCallbacksDoNothing` | controllers/baas_webhook.go:120-136 | an order whose stored reference no callback carries ends unchanged and is never settled |
| `PayoutWebhook.CanonicalReferences` | controllers/baas_webhook.go:79-107 | which references are routed and which id each carries, both prefixes being trimmed |
| `PayoutWebhook.CallbacksConverge` | controllers/baas_webhook.go:120-129 | after any sequence every order has the last terminal status brought to it, references and all other orders unchanged |
| `PayoutWebhook.OneSettlementPerSuccess` | controllers/baas_webhook.go:143-151 | settlement is dispatched once for each matching success callback |
| `PayoutWebhook.RedeliveryIsIdempotent` | controllers/baas_webhook.go:94-98 | redelivering a whole history changes nothing |
| `PayoutWebhook.SwapIff` | controllers/baas_webhook.go:120-129 | two callbacks commute exactly when they do not bring one order different statuses |
| `PayoutWebhook.CallbacksLeaveNoError` | controllers/baas_webhook.go:127-129 | a successful payout with a leftover error is not reachable |
| `PayoutWebhook.SuccessSurvivesIff` | controllers/baas_webhook.go:109-129 | success survives exactly if nothing is brought or a success is brought last |
| `PayoutWebhook.SuccessCanBeLost` | controllers/baas_webhook.go:109-129 | a concrete paid order that a late failure callback marks failed |
| `PayoutExecution.RunKeepsOrderInv` | services/order/execute.go:98-134 | over every interleaving of all writers: no error with a pending or confirmed payout, a pending one has its provider and reference and is not open to matching, only the order's own reference, at most one claim more than resets |
| `PayoutExecution.PendingPayoutIsHit` | controllers/baas_webhook.go:99-129 | a claimed, pending payout is converged by any terminal callback with the reference the claim stored |
| `PayoutTables.OrderTable` | services/order/execute.go:98-274 | every order after any event: by the event, the acting task and the order's own fields alone |
| `PayoutTables.OrdersStay` | services/order/execute.go:98-274 | no event adds or removes an order |
| `PayoutTables.ExecuteTaskTable` | services/order/execute.go:45-166 | when an execution loads, claims, pays and ends |
| `PayoutTables.OtherTasksStay` | services/order/execute.go:45-166 | and that it leaves every other task alone |
| `PayoutTables.StartTable` | tasks/tasks.go:216-250 | which orders the other tasks take up |
| `PayoutTables.EndTable` | tasks/tasks.go:944-977 | which events end which tasks |
| `PayoutTables.TasksStay` | controllers/provider/provider.go:219-222 | no other event starts or ends a task |
| `PayoutTables.CounterTable` | services/order/execute.go:98-274 | what each history counter counts |
| `PayoutClaims.ClaimIsExclusiveIff` | services/order/execute.go:98-118 | over every run the claim is exclusive throughout, that is at most one executor holds the order and a held order is closed to further claims, exactly when none hands it back before its own claim while another holds it |
| `PayoutClaims.OneHolderIff` | services/order/execute.go:98-118 | at most one executor holds the order throughout exactly when none claims it while another holds it, and such a claim follows a hand-back of that kind |
| `PayoutClaims.StrayResetAdmitsSecond` | services/order/execute.go:251-274 | after any hand-back of that kind the next executor that starts becomes a second holder |
| `PayoutClaims.TwoExecutorsCanHoldOneOrder` | services/order/execute.go:251-274 | from any state with the order open, a run after which two executors hold it |
| `PayoutClaims.TransfersAreBounded` | services/order/execute.go:98-134 | over every run the rail is asked to pay an order at most once per claim, and so at most once more than the order is handed back |
| `PayoutClaims.OrderCanBePaidTwice` | services/order/execute.go:125-145 | a transfer that times out and is handed back, and a second one by the next executor |
| `PayoutConfirmation.SuccessKeptIff` | services/order/execute.go:226-274 | over every run a confirmed payout stays confirmed throughout exactly when no failure callback, hand-back, give-up or refused transfer of its tasks occurs |
| `PayoutConfirmation.ConfirmedIsNotFinal` | services/order/execute.go:98-153 | a run to a confirmed order that four of these steps undo |
| `PayoutConfirmation.ReconciliationCanUndo` | tasks/tasks.go:944-977 | a run to a confirmed order that the reconciliation then fails |
| `PayoutSettlement.SoleSettlerIff` | services/order/execute.go:171-215 | over every run there is at most one settlement in flight, of an order that still is as it was checked, throughout exactly when no step starts a second one or one of an order that is not open, withdraws the order, undoes its payout or marks it fulfilled |
| `PayoutSettlement.SettledOncePerOpening` | services/order/execute.go:168-218 | without such a step an order is settled at most once per claim, accept or return to fulfilled |
| `PayoutSettlement.FreshRuns` | services/order/execute.go:98-215 | from untouched orders every run keeps the order invariants and the bounds on transfers and, if undisturbed, on settlements |
| `PayoutSettlement.TwoSettlementsCanOverlap` | services/order/execute.go:171-215 | two settlements that load one confirmed order both settle it, on one claim |
| `PayoutSettlement.AcceptReopens` | controllers/provider/provider.go:219-222 | an accept after the settlement lets a redelivered confirmation settle the order again, one after the other and with nothing disturbed |
| `PayoutStranding.NeverStuckIff` | services/order/execute.go:57-62 | over every run an order is never pending and closed to claims exactly when no step is a terminal payout result or a give-up for a pending order, or the return to pending of one whose payout failed |
| `PayoutStranding.StrandedUntilReleased` | services/order/execute.go:57-62 | such an order with no task that could hand it back stays so, unclaimed, exactly until a node accepts or cancels it or the chain settles or refunds it |
| `PayoutStranding.PaidOrderCanStrand` | services/order/execute.go:125-136 | from an untouched order, a run after which the recipient is paid and the order is stranded |
| `PayoutStranding.FailedOrderCanStrand` | tasks/tasks.go:116-144 | from an untouched order, an accepted transfer that fails and is returned to pending, which nobody claims again |
| `PayoutStranding.GivenUpOrderStrands` | services/order/execute.go:75-79 | from an untouched order, a run in which the executor gives it up |
| `OrderStatus.AppendReceipts` | controllers/index.go:498-512 | the receipts of the qualifying transactions, in scan order |
| `OrderStatus.ReceiptStatuses` | controllers/index.go:499-505 | the status a receipt shows for each qualifying transaction |
| `OrderStatus.ReceiptsOfOne` | controllers/index.go:498-512 | three statuses qualify; the receipt shows the status, the hash and the time |
| `OrderStatus.TransactionsOfOne` | controllers/index.go:497-498 | the transactions of all orders, in order |
| `OrderStatus.SumOf` | controllers/index.go:521-522 | totals start at zero and grow by each figure |
| `OrderStatus.LockOrderStatus` | controllers/index.go:491-581 | split orders with the orders' own id, amount, rate and percent, totals of the orders' figures, status with cancelled shown as processing, sorted receipts and hash |
| `OrderStatus.NewestFirstIsStable` | controllers/index.go:525-528 | the sort is a permutation, newest first, and keeps the order within each instant |
| `OrderStatus.StableSortIsUnique` | controllers/index.go:525-528 | these properties determine the list, whatever algorithm sorts |
| `OrderStatus.ReceiptsReport` | controllers/index.go:525-581 | receipts of any orders are a stable permutation and the hash is that of the first-scanned newest one |
| `OrderStatus.SumOfPermutation` | controllers/index.go:521-522 | totals do not depend on the order in which split orders are read |
| `OrderStatus.PaymentOrderReceipts` | controllers/index.go:668-688 | without lock orders receipts are listed as scanned |
| `OrderStatus.FallbackIsNewestIff` | controllers/index.go:668-688 | the first listed receipt is then the newest exactly when no later one is newer |
| `OrderStatus.StaleReceiptIsListedFirst` | controllers/index.go:668-688 | two transactions of which the older is listed first |

## Left out

- BulkSave.CreateBulk.Save: the builders of one save are distinct; the same builder passed twice, whose positions would share one mutation, is not modelled. Builders that were saved before are.
- Hooks that hand their inner mutator a different mutation object, and hooks that run their inner mutator concurrently or after returning; a hook is one of seven behaviours, and nil hooks in bulk creation (a panic) are not modelled.
- Conflict options of inserts, the update and delete builders, setters and panicking wrappers: each is settled by one line or by the SQL library.
- `scanWithInterceptors`, `sqlCount` and the type assertions on what hooks and interceptors return: the same composition, a plain count, and Go's type system.
- `loadCard` and `loadSenderProfile` of the card nonce query, and `sqlAll` there: the same code as the API key's parent loads.
- EagerLoading.LoadChildren: loaded rows are values; that each row is a separate heap object is not modelled.
- RowMapping.CreateSpec: a nil and an empty nonce are not told apart, and `defaults` and the validators of `check` are not modelled; the laws hold for every mutation, checked or not.
- `GetTokenRate` outside the bucket scan: Route A quotes, the rate of a named provider, parsing of keys and entries, and the single page of at most 100 scanned keys; a read error in a list ends it like its end.
- KycLifecycle.Controller.RequestIDVerification: recovering an address from a signature is a parameter, and so is that it may fail; provider answers without the expected fields are not modelled; handlers are atomic steps, so races between two requests for one address are not covered.
- PayoutWebhook.Controller.ApplyFiatPayout: Unicode trimming and lower-casing is a parameter.
- PayoutSettlement.SoleSettlerIff: what a node or a scheduled task needs besides the order's stored fields (a live order request in Redis, the recorded payments and their ages, which orders share a gateway id) is not modelled; the step may come whenever the stored fields allow it. Re-matching is only the executor that it starts.
- The on-chain settlement call, the fulfilment record, the exclusion list and the live feed of the payout executor: calls into other services that no modelled update depends on.
- The merchant, rate and expiry fields of the order status response, `ToSubunit`, and `StreamOrderStatus`: lookups, a float conversion and a filter.
- Configuration, routing, HTTP transport, HMAC and ECDSA: wiring and foreign code.
