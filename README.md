# Subscription-management ledgers in Dafny

This project models the two contracts of a small on-chain billing and
subscription platform, as their in-memory reference implementations behave:

- **Billing** (`billing.dfy`, `billing_history.dfy`): per-account prepaid
  balances (`userBalances`), a receipt per payment (`paymentHistory`, keyed by
  account and payment id) and one payment counter shared by all accounts
  (`lastPaymentId`). `add-funds` credits the caller; `process-payment` charges
  the fixed price of 1000, or fails with `err-insufficient-balance` and changes
  nothing; `get-balance` and `get-payment` are lookups.
- **Subscription** (`subscription.dfy`, `subscription_history.dfy`): a plan
  catalogue under increasing ids starting at 1 (`lastPlanId`,
  `subscriptionPlans`) and one subscription window per account
  (`userSubscriptions`). `subscribe` fails with `err-not-found` for an unknown
  plan, otherwise overwrites the caller's window with
  `[now, now + duration * 86400)`; `is-subscription-active` distinguishes "no
  record" (not-found) from "expired" (false), with a strict `now < end`.
- `outcomes.dfy` holds what both share: the principal type, the two error
  codes and the `Success(value) | Failure(error)` result.

Each contract is a `class` whose fields are the contract's maps and counter,
updated in place by the state-changing methods. `State()` packs the fields
into a datatype value (`Ledger`, `Registry`); the operations on that value are
the specification the methods are proved against, and carry the contracts
that say what each call means. The `*_history.dfy` files prove properties of
arbitrary call sequences (invariants kept, immutability of receipts and plans,
gapless increasing ids, conservation of balance, latest subscription wins) and
replay the test suites' scenarios against the classes. The caller identity
and the clock are explicit parameters (`sender`, `now`, in whole seconds).

Where the design description and the code differ, the model follows the
code: `process-payment` charges a constant 1000 and never looks the plan up
(so it never fails with not-found and records any plan id), and `create-plan`
accepts any duration, zero included (hence "duration > 0" is a hypothesis of
`Subscription.SubscribeStartsActive`, not an invariant).

## Model

| member | source | states |
|---|---|---|
| Billing.Ledger.AddFunds | tests/billing.test.ts:21-25 | the sender's balance (0 when absent) grows by exactly the amount; every other balance, all receipts and the counter are unchanged |
| Billing.Ledger.ProcessPayment | tests/billing.test.ts:26-40 | below 1000 on the sender's balance: insufficient-balance and the state is unchanged; otherwise returns old counter + 1, the counter becomes that id, the sender's balance drops by exactly 1000 (never below 0), other balances are unchanged, exactly one key (sender, id) is added with receipt (1000, now, plan id), and no other receipt changes |
| Billing.EmptyLedger | tests/billing.test.ts:15-17 | the initial ledger satisfies the invariant, every balance reads 0 and every payment lookup is not-found |
| Billing.AddFundsValid | tests/billing.test.ts:21-25 | add-funds keeps the ledger invariant (receipt ids in 1..counter, unique across accounts, gapless, each for 1000) |
| Billing.ProcessPaymentValid | tests/billing.test.ts:32-38 | process-payment keeps the ledger invariant and leaves every existing receipt readable and unchanged |
| Billing.UnissuedPaymentNotFound | tests/billing.test.ts:45-48 | on a valid ledger, get-payment of id 0 or of an id above the counter is not-found for every account |
| Billing.IssuedPaymentFound | tests/billing.test.ts:33-38 | on a valid ledger, every id in 1..counter has a receipt, and for exactly one account |
| Billing.BillingContract.constructor | tests/billing.test.ts:15-17 | empty maps, counter 0, invariant established |
| Billing.BillingContract.AddFunds | tests/billing.test.ts:21-25 | returns success(true) and the new state is the ledger's add-funds of the old one; invariant kept |
| Billing.BillingContract.ProcessPayment | tests/billing.test.ts:26-40 | result and new state are those of the ledger's process-payment on the old state; invariant kept |
| Billing.BillingContract.GetBalance | tests/billing.test.ts:41-44 | success with the stored balance, 0 for an unknown account; no state change |
| Billing.BillingContract.GetPayment | tests/billing.test.ts:45-48 | success with the receipt stored under (account, id), not-found otherwise; no state change |
| BillingHistory.RunValid | tests/billing.test.ts:20-49 | after any sequence of add-funds and process-payment calls the ledger invariant still holds |
| BillingHistory.RunKeepsReceipts | tests/billing.test.ts:32-38 | receipts are immutable: after any later calls an existing receipt is still found, unchanged |
| BillingHistory.IssuedIdsGapless | tests/billing.test.ts:33 | the i-th successful payment of any history gets counter + 1 + i: ids are strictly increasing across all accounts, gapless, and the counter ends at the last one |
| BillingHistory.BalanceConserved | tests/billing.test.ts:21-32 | for every account, final balance + 1000 x its successful payments = initial balance + its deposits |
| BillingHistory.AddFundsAccumulates | tests/billing.test.ts:21-25 | add-funds(a) then add-funds(b) reads back as the old balance + a + b |
| BillingHistory.PaymentScenario | tests/billing.test.ts:67-79 | deposit 2000 and pay for plan 1: id 1, balance 1000, receipt (1000, now, 1) |
| BillingHistory.InsufficientBalanceScenario | tests/billing.test.ts:81-86 | deposit 500 and pay: insufficient-balance, balance still 500, no receipt |
| BillingHistory.QueryScenario | tests/billing.test.ts:88-108 | deposit 1500 reads back as 1500; payment 999 is not-found |
| Subscription.Registry.CreatePlan | tests/subscription.test.ts:24-33 | returns old counter + 1, which becomes the counter; get-plan of it yields the plan exactly as given; every other plan lookup and every subscription lookup is unchanged |
| Subscription.Registry.Subscribe | tests/subscription.test.ts:34-46 | unknown plan: not-found and the state is unchanged; otherwise success(true), the sender's record becomes (plan, now, now + duration x 86400) whatever it was before, other accounts' records, the plans and the counter are unchanged |
| Subscription.EmptyRegistry | tests/subscription.test.ts:18-20 | the initial registry satisfies the invariant; every plan and subscription lookup is not-found |
| Subscription.CreatePlanValid | tests/subscription.test.ts:24-33 | create-plan keeps the registry invariant (plan ids exactly 1..counter; each record's plan exists and its end is start + that plan's duration x 86400) and leaves every existing plan unchanged |
| Subscription.SubscribeValid | tests/subscription.test.ts:34-46 | subscribe keeps the registry invariant |
| Subscription.SubscribeStartsActive | tests/subscription.test.ts:39-61 | after subscribing to a plan of positive duration, end > start and the subscription is active at the same now |
| Subscription.ActiveIffBeforeEnd | tests/subscription.test.ts:51-62 | is-subscription-active is not-found exactly when get-user-subscription is, true exactly when now < end, false exactly when end <= now |
| Subscription.SubscriptionContract.constructor | tests/subscription.test.ts:18-20 | counter 0, empty maps, invariant established |
| Subscription.SubscriptionContract.CreatePlan | tests/subscription.test.ts:24-33 | returns success with the id and leaves the state the registry's create-plan gives; invariant kept |
| Subscription.SubscriptionContract.Subscribe | tests/subscription.test.ts:34-46 | result and new state are those of the registry's subscribe; invariant kept |
| Subscription.SubscriptionContract.GetPlan | tests/subscription.test.ts:47-50 | the stored plan or not-found; no state change |
| Subscription.SubscriptionContract.GetUserSubscription | tests/subscription.test.ts:51-54 | the stored record or not-found; no state change |
| Subscription.SubscriptionContract.IsSubscriptionActive | tests/subscription.test.ts:55-62 | not-found without a record, else whether now < end; no state change |
| SubscriptionHistory.RunValid | tests/subscription.test.ts:23-63 | after any sequence of create-plan and subscribe calls the registry invariant holds, so every window matches its plan's duration |
| SubscriptionHistory.RunKeepsPlans | tests/subscription.test.ts:24-33 | plans are immutable: after any later calls an existing plan is still found, unchanged |
| SubscriptionHistory.CreatedIdsGapless | tests/subscription.test.ts:25 | the i-th plan created in any history gets counter + 1 + i: plan ids strictly increase, without gaps |
| SubscriptionHistory.LatestSubscriptionWins | tests/subscription.test.ts:40-44 | after any history an account's record is the one its most recent successful subscribe wrote (reading the history from its end), or the earlier record if it never subscribed |
| SubscriptionHistory.ThirtyDayWindow | tests/subscription.test.ts:39-61 | a 30-day plan created first gets id 1; subscribing at t yields end t + 2592000, active at t + 1, expired at t + 2592001 |
| SubscriptionHistory.CreatePlanScenario | tests/subscription.test.ts:72-81 | the first plan gets id 1 and get-plan returns it as given |
| SubscriptionHistory.SubscribeScenario | tests/subscription.test.ts:83-116 | subscribe to plan 1 succeeds; the record names plan 1 and starts now; the subscription is active now |
| SubscriptionHistory.NotFoundScenario | tests/subscription.test.ts:118-128 | on a fresh contract plan 999, subscribing to it, an unknown account's record and its activity are all not-found |

## Left out

- The test harness (`describe`/`it`/`expect`) and the per-test reset; the reset is the classes' constructors.
- The `mockClarity.types` wrappers (`uint`, `string`, `list`, `bool`, `principal`): values are plain `nat`, `string`, `seq<string>` and `bool`.
- The host's clock and transaction sender: they are the `now` and `sender` parameters (`now` already floored to whole seconds).
- The string receipt key `account-id`: the key is the pair (account, id), so two different pairs never share a key.
- Number semantics: amounts, prices, durations, ids and times are unbounded `nat`; negative, fractional or overflowing values (JavaScript numbers, 128-bit unsigned integers on chain) are not modelled.
- The deployed contracts themselves (host storage, block time, transaction atomicity): each call is one atomic step of the model, and a failed call changes nothing.
- Plan-price lookup in `process-payment`: the code charges a constant 1000 for every plan, existing or not, and the model does the same.
- The call histories of `BillingHistory` and `SubscriptionHistory` contain only the state-changing calls; the queries change nothing, as their contracts state.
