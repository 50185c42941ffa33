# ETER credit ledger and subscription state machine, in Dafny

This project models the server side of ETER, a web application that sells
AI "consultations" for credits. It covers four parts:

- **The payment-event webhook** (`Webhook`). With its store guard as
  intended (`Webhook.GuardReady`), it checks that the store is available and
  verifies the provider's signature when signing keys are set. It then
  dispatches `checkout.session.completed`,
  `customer.subscription.updated`, `customer.subscription.deleted` and
  `invoice.paid` to handlers on the `users` and `transactions` tables.
- **The consultation route** (`Consultation`). It validates the user id and
  requires a balance of at least 5 credits. It then calls the external
  generator, debits exactly 5 credits and logs the exchange in
  `consultations`.
- **The esoteric helpers** (`Esoteric`): the zodiac sign of a (month, day)
  pair, and the numerological life-path number with its digit-summing
  reduction that keeps the master numbers 11, 22 and 33.
- **The checkout initiator** (`Checkout`). It validates the plan, checks
  the configuration, builds the subscription-session request (including
  the metadata the webhook reads back) and classifies provider errors.

The store is the class `Ledger.Store`. It has a `users` map from user id to
row, and append-only `transactions` and `consultations` sequences. Each
handler is a module-level method that takes the store (`store: Store`) and
modifies it. Its `ensures` ties the new
`Store.Snapshot()` to a specification function of the old snapshot
(`Webhook.CheckoutCompleted`, `Webhook.InvoicePaid`, `Consultation.Consult`,
and so on). The lemmas beside those functions state what the source
promises.

A `.single()` lookup is `Ledger.Single`. It returns the one matching row, or
nothing when zero or several rows match.

These parts are abstract inputs or outcomes:

- the signature check (`signatureValid`);
- the parsing of the request body (`Option`, `None` when it does not parse);
- the generator, a function from the prompt profile and the question to a
  `Completion`;
- the provider's session creation, a function from the request to a
  `ProviderOutcome`;
- the success or failure of the consultation route's two writes.

The source keeps no record of processed payment ids, so a replayed
checkout grants credits again (`Webhook.CheckoutReplayGrantsTwice`).
`Webhook.CheckoutCompletedOnce` is a separate refinement with a dedup
guard. It is not source behaviour, and nothing else uses it.

The model follows the code as written, also where it departs from the evident intent:

- The debit does not skip the vip tier (`Consultation.VipIsDebitedToo`).
- The route reports the debited balance even when the debit write fails
  (`Consultation.FailedDebitStillReported`).
- Consumption is not recorded as a transaction.

## Model

| member | source | states |
|---|---|---|
| Esoteric.ZodiacCoversMonths | src/utils/esoteric.js:6-24 | of `ZodiacSign`, the `calculateZodiacSign` cascade: a month in 1..12 always gives one of the twelve signs; "Desconocido" exactly when the month is outside 1..12 |
| Esoteric.ZodiacFollowsCusps | src/utils/esoteric.js:10-21 | for every month in 1..12 and every day, the sign is the one starting in that month if the day is on or after its cusp day, else the previous month's sign |
| Esoteric.ZodiacBoundaries | src/utils/esoteric.js:10-11 | start days are inclusive: (2,18) Acuario, (2,19) Piscis, (1,19) Capricornio, (1,20) Acuario |
| Esoteric.DigitSumBounds | src/utils/esoteric.js:67-70 | a digit sum is non-negative, at most its input, strictly smaller from two digits on, and positive for positive input (the measure that makes the loops terminate) |
| Esoteric.DigitSumModNine | src/utils/esoteric.js:67-70 | a digit sum is congruent to its input modulo 9 |
| Esoteric.Settle | src/utils/esoteric.js:62-72 | settling a non-negative sum ends in 0..9 or a master number, and settling a positive sum gives a positive result |
| Esoteric.SettleKeepsMaster | src/utils/esoteric.js:62-64 | a master number or a single digit is never reduced further |
| Esoteric.SettleModNine | src/utils/esoteric.js:64-72 | settling preserves the residue modulo 9 |
| Esoteric.SettleIsDigitalRoot | src/utils/esoteric.js:64-72 | a positive sum settles to a master number or to its digital root 1 + (s - 1) % 9 |
| Esoteric.ReduceIsDigitalRoot | src/utils/esoteric.js:36-49 | `Reduce`, the value `sumDigits` returns, of a positive number is in 1..9 or a master number, and if not a master it is the number's own digital root 1 + (n - 1) % 9 |
| Esoteric.ReduceExamples | src/utils/esoteric.js:38-46 | master numbers count only as intermediate sums: 29 reduces to 11, 11 itself to 2, 1993 to 22 |
| Esoteric.RunSettles | src/utils/esoteric.js:38-48 | from any reachable loop state, running the `sumDigits` loop to the end settles the sum so far plus the digit sum of what is left to add |
| Esoteric.SumDigits | src/utils/esoteric.js:36-49 | the loop terminates (lexicographic measure) and returns the reduction of its input, a value in 0..9 or a master number |
| Esoteric.LifePath | src/utils/esoteric.js:29-75 | for day >= 1 and month >= 1 (any year) the life-path number is in 1..9 or a master number, as the doc comment promises |
| Esoteric.LifePathKeepsMasterSum | src/utils/esoteric.js:59-62 | a master-valued sum of the three reduced parts is returned unchanged |
| Esoteric.LifePathNumber | src/utils/esoteric.js:31-75 | the nested loops compute the life-path number, and its range for day >= 1 and month >= 1 |
| Ledger.Single | src/app/api/stripe-webhook/route.js:85-94 | `.single()` yields a row exactly when one row matches, and then that row is the whole match set |
| Ledger.Store.SelectSingle | src/app/api/stripe-webhook/route.js:89 | the query-side `.single()` returns what `Single` specifies |
| Ledger.Store.FindByEmail | src/app/api/stripe-webhook/route.js:85-89 | the lookup by email returns the unique user with that email, or nothing |
| Ledger.Store.FindByCustomer | src/app/api/stripe-webhook/route.js:123-127 | the lookup by customer id returns the unique user with that `stripe_customer_id`, or nothing |
| Ledger.Store.Update | src/app/api/stripe-webhook/route.js:99-106 | `update(...).eq('id', id)` edits only that row, if it exists, and no other table |
| Ledger.Store.InsertTransaction | src/app/api/stripe-webhook/route.js:109-116 | an insert appends one row to `transactions` and changes nothing else |
| Ledger.Store.InsertConsultation | src/app/api/consulta-sueno/route.js:75-80 | an insert appends one row to `consultations` and changes nothing else |
| Webhook.PlanNamed | src/app/api/stripe-webhook/route.js:4-7 | exactly "premium" and "vip" are plans; each plan's tier is its own name; premium is {50 credits, "premium"} and only vip is unlimited |
| Webhook.CustomerEmail | src/app/api/stripe-webhook/route.js:77-82 | the session's customer email if non-empty, else the details email if non-empty, else nothing |
| Webhook.ResolvePlan | src/app/api/stripe-webhook/route.js:96 | a known plan id gives its plan; any other gives tier "free" with the parsed metadata credits, 0 when they do not parse |
| Webhook.CheckoutUser | src/app/api/stripe-webhook/route.js:77-94 | a checkout applies to a user exactly when there is an email and it matches one user, who has that email |
| Webhook.HandleCheckoutComplete | src/app/api/stripe-webhook/route.js:75-117 | the handler's new store is `CheckoutCompleted` of the old one |
| Webhook.CheckoutGrantsPremium | src/app/api/stripe-webhook/route.js:96-116 | premium: credits become old + 50, tier premium, status active, customer id from the session, one transaction with 50 credits |
| Webhook.CheckoutGrantsVip | src/app/api/stripe-webhook/route.js:103-104 | vip: credits become exactly 999999 whatever they were, and the transaction records 0 credits purchased |
| Webhook.CheckoutUnmatchedIsNoop | src/app/api/stripe-webhook/route.js:79-94 | no usable email, or an email matching no single user, changes no user and appends no transaction |
| Webhook.CheckoutFallbackPlan | src/app/api/stripe-webhook/route.js:96-113 | an unknown plan id sets tier free and adds the metadata credits or 0, except that metadata credits of -1 still store 999999 |
| Webhook.CheckoutAppendsOneTransaction | src/app/api/stripe-webhook/route.js:109-116 | a matched checkout appends exactly one completed transaction with the session id and touches no other user |
| Webhook.CheckoutReplayGrantsTwice | src/app/api/stripe-webhook/route.js:99-116 | without deduplication, a replayed premium checkout adds 100 credits and two transactions with the same payment id |
| Webhook.CheckoutCompletedOnceIdempotent | src/app/api/stripe-webhook/route.js:114 | in the separate dedup refinement (not source behaviour), delivering a checkout twice equals delivering it once |
| Webhook.HandleSubscriptionUpdate | src/app/api/stripe-webhook/route.js:120-135 | the handler's new store, or its exception, is `SubscriptionUpdated` of the old store; an exception leaves the store as it was |
| Webhook.SubscriptionUpdateTouchesStatusOnly | src/app/api/stripe-webhook/route.js:123-134 | only status and expiry of the user matched by customer id change; tier, credits, email and customer id never do; no match, no change; the update throws exactly when a user matches and the period end is unformattable |
| Webhook.HandleSubscriptionCanceled | src/app/api/stripe-webhook/route.js:138-154 | the handler's new store is `SubscriptionDeleted` of the old one |
| Webhook.SubscriptionDeletedKeepsCredits | src/app/api/stripe-webhook/route.js:141-153 | cancellation sets tier free and status canceled and leaves the balance untouched |
| Webhook.SubscriptionDeletedUnmatchedIsNoop | src/app/api/stripe-webhook/route.js:141-147 | cancellation with no single user for the customer id changes nothing |
| Webhook.HandleInvoicePaid | src/app/api/stripe-webhook/route.js:157-189 | the handler's new store is `InvoicePaid` of the old one |
| Webhook.InvoiceRenewsPremium | src/app/api/stripe-webhook/route.js:158-188 | a renewal cycle for a premium user replaces the balance with 50 (3 becomes 50, not 53) and appends one transaction with 50 credits |
| Webhook.InvoiceRenewsVip | src/app/api/stripe-webhook/route.js:170-188 | a renewal cycle for a vip user leaves the balance but still appends a transaction with 0 credits |
| Webhook.InvoiceNoop | src/app/api/stripe-webhook/route.js:158-171 | a non-renewal invoice, no single matching user, or a free or unknown tier changes nothing |
| Webhook.DispatchOutcomes | src/app/api/stripe-webhook/route.js:37-64 | of `Dispatch`, the `switch (event.type)`: it throws exactly for a subscription update of a matched user with an unformattable period end; an unhandled type changes nothing; every handled type keeps the recorded transactions as a prefix and the set of users |
| Webhook.Post | src/app/api/stripe-webhook/route.js:9-72 | the response and new store of the route are `Receive` of the old store |
| Webhook.ReceiveUnavailable | src/app/api/stripe-webhook/route.js:12-14 | with the guard as intended (`GuardReady`), an unconfigured store answers 503 before anything else and changes nothing |
| Webhook.ReceiveBadSignature | src/app/api/stripe-webhook/route.js:20-30 | with the guard as intended (`GuardReady`), the store configured, signing keys set and the provider library loaded, a failed signature check answers 400 and changes nothing |
| Webhook.ReceiveStripeLoadFails | src/app/api/stripe-webhook/route.js:20-23 | with the guard as intended and signing keys set, a provider library that fails to load (`import('stripe')` or `new Stripe`) answers 500 and changes nothing, whatever the signature or body |
| Webhook.ReceiveUnhandled | src/app/api/stripe-webhook/route.js:62-66 | with the guard as intended (`GuardReady`), an event type outside the four `case` labels is acknowledged and changes nothing |
| Webhook.ReceiveWithMissingGuardFails | src/app/api/stripe-webhook/route.js:1-14 | as written, with no exported `isSupabaseConfigured`, every request answers 500 and changes nothing |
| Webhook.ReceiveAppliesCheckout | src/app/api/stripe-webhook/route.js:37-42 | with the guard as intended, a trusted checkout event is applied and acknowledged |
| Webhook.ReceivePreservesConsistency | src/app/api/stripe-webhook/route.js:9-72 | every request keeps the set of users and their emails, only appends to transactions, and keeps every audit row pointing at an existing user |
| Consultation.AnswerText | src/app/api/consulta-sueno/route.js:58 | the answer is never empty: an empty completion becomes the fallback text, and non-empty text is kept |
| Consultation.Post | src/app/api/consulta-sueno/route.js:7-93 | the response and new store of the route are `Consult` of the old store |
| Consultation.Serve | src/app/api/consulta-sueno/route.js:31-87 | for a known user, the response and new store are `Served` of the old store: a failed completion answers 500 and changes nothing, otherwise the balance drops by 5 when the debit succeeds, and the answer, the new balance, sign and life-path number are returned |
| Consultation.Charge | src/app/api/consulta-sueno/route.js:64-80 | the debit writes the new balance only when it succeeds, and the log row is appended only when its insert succeeds; nothing else changes |
| Consultation.MissingUserIdIsRejected | src/app/api/consulta-sueno/route.js:11-13 | a missing or empty user id answers 400 and changes nothing |
| Consultation.UnknownUserIsRejected | src/app/api/consulta-sueno/route.js:16-24 | an unknown user answers 404 and changes nothing |
| Consultation.InsufficientCreditsIsRejected | src/app/api/consulta-sueno/route.js:26-28 | a balance below 5 answers 403, changes nothing, and the result does not depend on the generator, which is never called |
| Consultation.GeneratorFailureIsFree | src/app/api/consulta-sueno/route.js:50-62 | a generator failure answers 500 with no debit and no consultation row |
| Consultation.SuccessDebitsAndRecords | src/app/api/consulta-sueno/route.js:62-87 | on success the stored and reported balance is old - 5 (never negative), and exactly one row {user, question, answer, "llama3-8b-8192"} is appended |
| Consultation.EmptyCompletionUsesFallback | src/app/api/consulta-sueno/route.js:58-80 | an empty completion yields "El cosmos está nublado hoy..." and is still billed and logged |
| Consultation.VipIsDebitedToo | src/app/api/consulta-sueno/route.js:62 | the debit does not skip unlimited accounts: 999999 becomes 999994 |
| Consultation.FailedDebitStillReported | src/app/api/consulta-sueno/route.js:64-84 | when the debit write fails the balance is unchanged, yet old - 5 is reported and the consultation is still logged |
| Consultation.RowsAreLogged | src/app/api/consulta-sueno/route.js:75-80 | the rows logged for N answered requests are N, and row k carries request k's question and answer and the model name |
| Consultation.RepeatedConsultations | src/app/api/consulta-sueno/route.js:26-80 | run one after another, N answered consultations of one user (any questions, names and birth dates) with a balance of at least 5 * N lower it by exactly 5 * N, append their rows in order, and leave other users and the transactions alone |
| Consultation.ConsultPreservesConsistency | src/app/api/consulta-sueno/route.js:62-80 | a consultation keeps users, emails, tiers and transactions, and logs only for an existing user |
| Checkout.PlanInfoFor | src/app/api/create-checkout/route.js:7-18 | exactly "premium" and "vip" are valid plans |
| Checkout.Origin | src/app/api/create-checkout/route.js:45 | the origin header if present and non-empty, else http://localhost:3000 |
| Checkout.SessionRequestFor | src/app/api/create-checkout/route.js:48-63 | subscription mode, one line item {priceId, 1}, metadata {planId, the plan's credits}, and both URLs start with the origin |
| Checkout.SessionRequestUrls | src/app/api/create-checkout/route.js:57-58 | the success URL is origin + "/dashboard?success=true&plan=" + planId and the cancel URL origin + "/pricing?canceled=true" |
| Checkout.ErrorResponse | src/app/api/create-checkout/route.js:66-81 | an invalid-request error from the provider maps to 400 and every other error to 500 |
| Checkout.Post | src/app/api/create-checkout/route.js:20-82 | unparsable body is 500; an invalid plan is 400; a valid plan without the secret key is 503 with needsConfig; for a valid, configured plan, a created session answers a redirect to its URL and a provider rejection answers `ErrorResponse` of the error type; a redirect happens only in that case |
| Checkout.PlanCheckedBeforeConfig | src/app/api/create-checkout/route.js:25-38 | plan validation precedes the config check: an invalid plan without the key is 400, not 503 |
| Checkout.MetadataResolvesToSamePlan | src/app/api/create-checkout/route.js:59-62 | the metadata of a valid checkout resolves, through the webhook's PLANS, to the same credit grant and to the tier named by the plan |

## Left out

- Rendering the prompt text: the generator receives the `Profile` (name, sign, life-path number) and the question, not the template string.
- Payment amounts are kept as the provider's integer cents. The source's division by 100 is floating point.
- `current_period_end` is stored as integer seconds. The source stores the ISO string of `new Date(t * 1000)`. The model keeps the cases where that formatting throws: a missing field, or a value past the ECMAScript time range.
- Dates are integer (year, month, day) triples. `new Date(birthDate)` parsing, local-time `getDate` and invalid dates (NaN parts) are not modelled.
- `parseInt` on the metadata credits string is taken as already done. `Webhook.Metadata.credits` is its result, `None` for NaN. `Checkout.Delivered` takes the provider's conversion of metadata numbers to strings and back as the identity.
- A NULL `current_credits` is represented as 0, because every handler reads it as 0.
- `PLANS[planId]` is modelled as a two-key table. JavaScript property lookup also succeeds for keys inherited from `Object.prototype` (such as `"constructor"`). The model treats those keys as unknown plans.
- The webhook ignores the errors of its own store writes, and the model assumes those writes succeed. The consultation route's two writes do carry explicit success flags.
- Store read errors are not modelled: `Ledger.Store.FindByEmail` and `Ledger.Store.FindByCustomer` always reflect the store. In the source the webhook reads only `data` from its `.single()` lookups (stripe-webhook/route.js:85-94, 123-129, 141-147, 162-168), so a failed read looks like "no user": the event is still answered 200 and its grant or downgrade is lost, with no provider retry. The consultation route answers 404 on any `userError` (consulta-sueno/route.js:16-24), even when the user exists.
- Store availability in the consultation route is not modelled. The route has no such check, and the client module fails when it loads without configuration.
- Signature cryptography, the generator, the provider's session creation and the dynamic `import('stripe')` are foreign calls. Each is an abstract input or outcome: in the webhook, the import and `new Stripe(...)` are the flag `Webhook.Config.stripeLoads` (false answers 500), and in the checkout route their failure is a `Rejected` outcome of `create` without an error type (500).
- Concurrency: the check-then-debit race and concurrent or out-of-order webhook delivery are out of scope. `Consultation.RepeatedConsultations` is about sequential requests only.
- Logging (`console.*`) is not modelled. Response message texts are modelled only for the checkout route (`Checkout.Response.Error`).
- The UI pages, the dashboard's first-login insert of a user with 5 credits, and `src/lib/supabaseClient.js` are not part of this model. The client module is consulted only for the names it exports.

## Findings

| source | as written | input that shows it | evidently intended | confidence | as-written member | corrected member |
|---|---|---|---|---|---|---|
| src/app/api/stripe-webhook/route.js:1-14 | imports `isSupabaseConfigured` from src/lib/supabaseClient.js, which exports only `supabase`; the call on line 12 throws inside the `try`, so the route answers 500 | any delivery, e.g. a signed `checkout.session.completed` for an existing user: answered 500, no credits granted | 503 when the store is unconfigured, otherwise process the event | medium, not executed (a bundler may instead refuse to build the route; either way no event is processed) | Webhook.ReceiveWithMissingGuardFails | Webhook.ReceiveAppliesCheckout |
