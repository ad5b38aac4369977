# payme: the invoice lifecycle, modelled in Dafny

payme lets a Discord user bill a client through PayPal. The server keeps one
invoice row per bill. A row moves between DRAFT, SENT, PAID and CANCELLED.
Moves happen on the server's own routes and on PayPal's webhooks. The server
talks to PayPal's Invoicing API with a cached OAuth token. A stats route
sums the rows of one user. The Discord bot checks a user's settings before
it saves them, and turns PayPal errors into plain messages.

This project models that core and proves what it promises:

- `InvoiceStore` (store.dfy): the invoice table as a class. Its `rows` map
  holds the rows, `nextId` hands out ids, and a ghost `effects` list records
  every write and every call to PayPal or Discord, in order. `Valid()` holds
  across every operation. It says each row keeps the schema bounds, a PAID
  row has a payment time, a SENT or PAID row has a PayPal id, and no two
  rows share a PayPal id (the unique index).
- `InvoiceRoutes` (invoices.dfy): create, list by guild, get and cancel.
  What PayPal answers to create and send are parameters.
- `Webhooks` (webhooks.dfy): the signature-verification decision, the
  PayPal id found in an event, and the reconciliation of the table. This is
  a pure `Reconcile`, and the handler method is proved equal to it.
- `PayPal` (paypal.dfy): the token cache as a class with the two mutable
  fields, the recovery of the id from `href`, the payer-link fallback, the
  create payload, and how each call reads PayPal's HTTP status.
- `Stats` (stats.dfy): the counting loop, proved against reference sums.
  Lemmas give the sum identities.
- `Schemas` (schemas.dfy), `Auth` (auth.dfy), `ErrorTranslation`
  (errors.dfy) and `SetupGates` (setup.dfy) are the pure rule sets: the zod
  schemas, the bearer-secret middleware (defined, but not mounted by
  server/src/index.ts), the bot's first-match error table, and
  the `/setup` input gates.
- `Common` (common.dfy): `Option`, `Result`, JavaScript truthiness of an
  optional string, and string helpers.

The user, guild and client schemas are the predicates
`Schemas.UserUpdateAccepted`, `RegisterUserAccepted`,
`RegisterGuildAccepted`, `WebhookUpdateAccepted` and `ClientAccepted`
(server/src/validators/schemas.ts:21-52). They define acceptance and carry
no contract of their own.

Behaviours of the code that the model keeps as they are:

- PAID is not idempotent: a repeated PAID event rewrites the payment time
  and notifies the guild again.
- A CANCELLED event overwrites PAID.
- Cancelling a CANCELLED invoice cancels it again.
- There is no address-book email fallback, reminder, bulk delete or overdue
  sweeper.

## Model

| member | source | states |
|---|---|---|
| Auth.RequireApiKey | server/src/middleware/auth.ts:3-22 | No secret gives 500 "Server misconfigured". A header without "Bearer " gives 401 "Missing authorization". A wrong token gives 401 "Invalid authorization". The request passes iff a secret is set and the header is exactly "Bearer " + secret. |
| Schemas.FormatZodError | server/src/validators/schemas.ts:54-56 | The message is empty iff there are no issues. A single issue renders as `path.join(".") + ": " + message`. |
| Schemas.FormatZodErrorAppend | server/src/validators/schemas.ts:54-56 | The message for two non-empty issue lists is their two messages joined by ", ". Order is kept and no issue is dropped. |
| Schemas.RequiredTextIssues | server/src/validators/schemas.ts:4-6 | A required id field reports nothing iff it is present and non-empty, and at most one issue otherwise. |
| Schemas.EmailIssues | server/src/validators/schemas.ts:7 | An optional email reports nothing iff it is absent or a valid email. |
| Schemas.AmountIssues | server/src/validators/schemas.ts:8 | The amount reports nothing iff it is present and 0 < amount <= 1000000. |
| Schemas.CurrencyIssues | server/src/validators/schemas.ts:9 | The currency reports nothing iff it is absent or exactly 3 characters long. |
| Schemas.DescriptionIssues | server/src/validators/schemas.ts:10 | The description reports nothing iff it is present and 1 to 500 characters long. |
| Schemas.TemplateNameIssues | server/src/validators/schemas.ts:15 | A template name reports nothing iff it is present and 1 to 100 characters long. |
| Schemas.InvoiceIssues | server/src/validators/schemas.ts:3-11 | The issue list is empty iff the request meets every field rule of the invoice schema. It holds at most seven issues. |
| Schemas.ParseCreateInvoice | server/src/validators/schemas.ts:3-11 | Parsing succeeds iff every field rule holds. On failure it returns the non-empty issue list. On success it keeps each field, defaults the currency to "USD", and the result satisfies every bound. |
| Schemas.TemplateIssues | server/src/validators/schemas.ts:13-19 | The issue list is empty iff the request meets every field rule of the template schema. It holds at most five issues. |
| Schemas.ParseCreateTemplate | server/src/validators/schemas.ts:13-19 | Parsing succeeds iff the template rules hold. On failure it returns the non-empty issue list of `TemplateIssues`. On success it keeps every field, defaults the currency to "USD", and the result satisfies every bound. Amount, currency and description follow the invoice rules. |
| ErrorTranslation.MessageOf | bot/src/utils/errors.ts:18-20 | A string is used as it is. Otherwise a truthy `message` is used, else a non-empty `toString()`, else "Unknown error" (also for null or undefined). Any non-string yields a non-empty message. |
| ErrorTranslation.FirstMatchFrom | bot/src/utils/errors.ts:22-26 | It returns the first table index at or after `from` whose key occurs in the message, with no earlier key occurring. None means no key occurs. |
| ErrorTranslation.TableTranslation | bot/src/utils/errors.ts:1-26 | The translation of the first key, in declaration order, that occurs in the message. None iff no key occurs. |
| ErrorTranslation.StatusTranslation | bot/src/utils/errors.ts:28-44 | The network, 401, 403 and 5xx tests apply in that order. Otherwise the answer is "PayPal error: " and at most the first 100 characters of the message. The answer is never empty. |
| ErrorTranslation.TranslatePayPalError | bot/src/utils/errors.ts:17-45 | The first matching table key decides. The status tests apply only when no key occurs. The result is never empty. |
| SetupGates.EnsureGuild | bot/src/commands/setup.ts:81-88 | It registers the guild once, with its id and name, iff the guild id is truthy and the guild object exists. Otherwise it makes no call. |
| SetupGates.EmailShape | bot/src/commands/setup.ts:96-97 | An address the regex accepts has no white space and exactly one '@'. |
| SetupGates.HandlePaypal | bot/src/commands/setup.ts:90-111 | It refuses iff the email regex fails, before any API call. Otherwise it calls ensureGuild and then saves the email. |
| SetupGates.ToUpper | bot/src/commands/setup.ts:135 | Upper-casing keeps the length and maps exactly the letters a-z to A-Z. |
| SetupGates.HandleCurrency | bot/src/commands/setup.ts:135-154 | It refuses iff the upper-cased code is not listed and not 3 long. Otherwise it saves the upper-cased code after ensureGuild. |
| SetupGates.ListedCodesAreThreeLong | bot/src/commands/setup.ts:138 | Every listed currency code has three characters. |
| SetupGates.UnlistedOrShortIsShort | bot/src/commands/setup.ts:140 | The refusal test "not listed and not 3 long" is equivalent to "not 3 long". |
| SetupGates.CurrencyGateIsLengthThree | bot/src/commands/setup.ts:135-144 | A code is accepted iff it is 3 characters long, so the list adds nothing. |
| SetupGates.CurrencyGateSavesValidCode | bot/src/commands/setup.ts:135-153 | An accepted code passes the server's 3-letter currency rule. |
| SetupGates.HandlePaypalMe | bot/src/commands/setup.ts:173-194 | The character check comes first, then the length check (at most 50). An accepted name is saved after ensureGuild. |
| SetupGates.PaypalMeGateAgreesWithSchema | bot/src/commands/setup.ts:173-184 | The bot accepts exactly the usernames the server's user schema accepts (1-50 ASCII letters or digits). |
| SetupGates.HandleWebhook | bot/src/commands/setup.ts:226-244 | A non-administrator is refused before the URL is looked at. An administrator is refused iff the URL does not start with the Discord webhook prefix. Otherwise the URL is saved after ensureGuild. |
| SetupGates.HandleStatus | bot/src/commands/setup.ts:265-307 | No user gives the not-set-up view. Otherwise the currency is the saved one or "USD", and "Action Required" is shown iff there is no PayPal email. |
| PayPal.Acquire | server/src/services/paypal.ts:38-70 | A fresh token is returned with no request. Missing credentials fail before any request. A request is made iff the cache is stale and credentials exist. Only a granted token changes the cache, with expiry receivedAt + expires_in*1000 - 60000, where receivedAt is the clock read after the response (the freshness test uses the clock read before the request). A refused request fails with "PayPal auth failed: " + status text. A rejected request fails with its own error and leaves the cache as it was. A token is obtained iff the cache is fresh or a request was granted. |
| PayPal.ShortLivedTokenNeverReused | server/src/services/paypal.ts:66-67 | A token granted with expires_in <= 60 is stored already stale, so no call made after the response arrived reuses it. |
| PayPal.GrantedTokenReused | server/src/services/paypal.ts:39-41 | A non-empty granted token is returned, with no request, by every call after its arrival and before its expiry, whatever PayPal would answer. |
| PayPal.LastSegment | server/src/services/paypal.ts:128-129 | The result is the slash-free suffix of `href` that follows its last '/'. |
| PayPal.LastSegmentAfterSlash | server/src/services/paypal.ts:127-130 | Any base ending in '/' followed by a slash-free id gives back that id. |
| PayPal.InvoiceIdOf | server/src/services/paypal.ts:126-134 | The id is `id` when truthy, else the last segment of a truthy `href`. It is an error iff neither gives a non-empty id. A returned id is never empty. |
| PayPal.FallbackPayerLink | server/src/services/paypal.ts:140 | The link is the sandbox payer base followed by exactly the id. |
| PayPal.FallbackLinkRoundTrip | server/src/services/paypal.ts:126-155 | Href-based id recovery applied to the fallback link of a slash-free id gives back that id. |
| PayPal.PayerLink | server/src/services/paypal.ts:137-155 | The link is the details' recipient view URL when the details call succeeded and it is truthy. Otherwise, including a failed details call, it is the fallback link. |
| PayPal.BuildPayload | server/src/services/paypal.ts:78-107 | The item name is the description cut to its first 100 characters. The note is the whole description. The line item is one unit of the full amount. Currencies and emails are passed through. |
| PayPal.CreateOutcome | server/src/services/paypal.ts:118-134 | A non-2xx answer fails with "PayPal create invoice failed: " + body text. A 2xx answer yields the extracted id. A success never carries an empty id. |
| PayPal.StrictOutcome | server/src/services/paypal.ts:179-182 | Success iff the status is 2xx. Every other status fails with PayPal's text. This is how send and get read replies. |
| PayPal.DeleteOutcome | server/src/services/paypal.ts:201-207 | Success iff the status is 2xx or 404. Any other status fails with "PayPal delete invoice failed: " + text. |
| PayPal.CancelOutcome | server/src/services/paypal.ts:232-238 | Success iff the status is 2xx, 404 or 422. Any other status fails with "PayPal cancel invoice failed: " + text. |
| PayPal.BenignStatusesDiffer | server/src/services/paypal.ts:179-238 | 404 is benign for delete and cancel but an error for send. 422 is benign for cancel only. |
| PayPal.Authorized | server/src/services/paypal.ts:162 | A call whose token step failed fails with the token error. Otherwise its result is the reading of PayPal's reply. |
| PayPal.CreatedInvoice | server/src/services/paypal.ts:75-156 | A created invoice is always reported DRAFT, with a non-empty id recovered from the create reply and the payer link. Creation fails iff the token or the create reply fails. |
| PayPal.PayPalService.constructor | server/src/services/paypal.ts:25-26 | A new service holds no token and expiry 0. |
| PayPal.PayPalService.GetAccessToken | server/src/services/paypal.ts:38-70 | The fields `accessToken`/`tokenExpiry`, the token or error, and whether a request was made are exactly those of `Acquire`. |
| PayPal.PayPalService.GetInvoice | server/src/services/paypal.ts:244-264 | The cache moves as `Acquire` says. The result is the token error, or the invoice JSON iff the status is 2xx. |
| PayPal.PayPalService.CreateInvoice | server/src/services/paypal.ts:75-156 | The payload is built and sent only after a token is obtained. A failed create leaves the cache as the first token step set it. A created invoice is `CreatedInvoice` of the create reply and of a details call made with its own token step. |
| PayPal.PayPalService.SendInvoice | server/src/services/paypal.ts:161-183 | The cache moves as `Acquire` says. The result is the token error or the strict reading of the reply. |
| PayPal.PayPalService.DeleteInvoice | server/src/services/paypal.ts:188-208 | The cache moves as `Acquire` says. The result is the token error, or success on 2xx or 404. |
| PayPal.PayPalService.CancelInvoice | server/src/services/paypal.ts:213-239 | The cache moves as `Acquire` says. The result is the token error, or success on 2xx, 404 or 422. |
| InvoiceStore.StatusNameInjective | server/src/routes/invoices.ts:113 | Statuses are filtered by name, and distinct statuses have distinct names. |
| InvoiceStore.DraftRow | server/src/routes/invoices.ts:31-42 | A new row is DRAFT under its id, created at its id, with no PayPal id, link or payment time. |
| InvoiceStore.TakenIgnoresOwnRow | server/src/routes/invoices.ts:58-65 | Whether another row already holds a PayPal id does not depend on the row being updated. |
| InvoiceStore.ProviderRow | server/src/routes/webhooks.ts:83-85 | The row found by PayPal id holds that id. None iff no row holds it. |
| InvoiceStore.CancelByProvider | server/src/routes/webhooks.ts:122-128 | Update-many keeps every key. It sets CANCELLED on exactly the rows holding the PayPal id and leaves the others as they were. `CancelByProviderTouchesOneRow` shows that at most one row changes, and `CancelAllWithProvider` shows that the result keeps the table valid. |
| InvoiceStore.CancelByProviderTouchesOneRow | server/src/routes/webhooks.ts:122-128 | With the unique index, the update-many changes at most one row. |
| InvoiceStore.NewestFirst | server/src/routes/invoices.ts:115-119 | At most `take` stored rows that match the filter, strictly newest first. A matching row left out is older than every row of a full page. |
| InvoiceStore.InvoiceTable.constructor | server/src/routes/invoices.ts:31 | A new table is empty, valid, and has recorded nothing. |
| InvoiceStore.InvoiceTable.Get | server/src/routes/invoices.ts:149-151 | Find-unique by id returns the stored row iff it exists. |
| InvoiceStore.InvoiceTable.FindByProvider | server/src/routes/webhooks.ts:83-85 | Find-unique by PayPal id returns the one row holding it, or None when no row does. |
| InvoiceStore.InvoiceTable.Insert | server/src/routes/invoices.ts:31-42 | It adds the DRAFT row under a fresh id, records the insert, and keeps `Valid()`. |
| InvoiceStore.InvoiceTable.Link | server/src/routes/invoices.ts:58-65 | It saves the PayPal id and link with the status kept DRAFT. If another row already holds the id, it fails with no change. It keeps `Valid()`. |
| InvoiceStore.InvoiceTable.MarkSent | server/src/routes/invoices.ts:72-75 | It sets one row SENT, records it, changes nothing else, and keeps `Valid()`. |
| InvoiceStore.InvoiceTable.MarkPaid | server/src/routes/webhooks.ts:96-102 | It sets one row PAID with the payment time, records it, changes nothing else, and keeps `Valid()`. |
| InvoiceStore.InvoiceTable.MarkCancelled | server/src/routes/invoices.ts:170-173 | It sets one row CANCELLED, records it, changes nothing else, and keeps `Valid()`. |
| InvoiceStore.InvoiceTable.CancelAllWithProvider | server/src/routes/webhooks.ts:122-128 | The rows become `CancelByProvider` of the old rows. The update-many is recorded and `Valid()` is kept. |
| InvoiceStore.InvoiceTable.Record | server/src/routes/invoices.ts:47-54 | Recording a remote call appends it to the effects and changes no row. |
| InvoiceRoutes.EffectiveCurrency | server/src/routes/invoices.ts:38 | The currency is the requested one, else the user's truthy currency, else "USD". |
| InvoiceRoutes.UserCurrencyUnreachable | server/src/routes/invoices.ts:38 | For every request the schema accepts, the effective currency is the request's own. The user's saved currency never decides it. |
| InvoiceRoutes.InsertComesFirst | server/src/routes/invoices.ts:31-98 | On every create path the DRAFT insert is the first effect. A PayPal call happens iff there is a client email. The answer is 201 with the row as stored. |
| InvoiceRoutes.CreateForUser | server/src/routes/invoices.ts:31-98 | One of four outcomes, each with its exact rows and ordered effects. No email: the DRAFT row, no PayPal call. Create failed or id already stored: DRAFT row plus create warning, no send. Send failed: id and link saved before the send, still DRAFT, send warning. Sent: SENT, no warning. The PayPal create call carries the row id, the amount, the effective currency, the description, the user's PayPal email and the client email. |
| InvoiceRoutes.CreateInvoice | server/src/routes/invoices.ts:9-103 | A request failing the schema gives 400 with the formatted issues and no write. A user without a PayPal email gives 400 and no write. Otherwise it is one of the four outcomes of `CreatedForUser`. |
| InvoiceRoutes.ListFilter | server/src/routes/invoices.ts:111-113 | The owner and status constraints are added iff the query values are truthy. |
| InvoiceRoutes.ListGuildInvoices | server/src/routes/invoices.ts:106-126 | 200 with at most 50 stored invoices of the guild that match the truthy filters, strictly newest first. No newer match is left out. |
| InvoiceRoutes.GetInvoice | server/src/routes/invoices.ts:129-144 | 404 "Invoice not found" iff the id is absent. Otherwise 200 with the stored row. |
| InvoiceRoutes.RemoteCancelFor | server/src/routes/invoices.ts:161-168 | A remote cancel is attempted, once, iff the row has a truthy PayPal id. |
| InvoiceRoutes.CancelInvoice | server/src/routes/invoices.ts:147-180 | A missing id gives 404 and no change. A PAID invoice gives 400 and no change. Otherwise there is a remote cancel when a PayPal id exists, then the row becomes CANCELLED whatever PayPal answered. Only that row changes. |
| Webhooks.VerifyWebhook | server/src/routes/webhooks.ts:8-62 | No webhook id: accepted with no request. An id but no credentials: rejected with no request. Otherwise valid iff the token and verify calls both answered ok and the status is SUCCESS. Verify is called only after a token was obtained. |
| Webhooks.ProviderIdOf | server/src/routes/webhooks.ts:76 | The id is a truthy `resource.invoice.id`, else a truthy `resource.id`, else none. It is never empty. |
| Webhooks.NotifyFor | server/src/routes/webhooks.ts:106-116 | A notification is sent, once, iff the invoice's guild has a truthy webhook URL. |
| Webhooks.Reconcile | server/src/routes/webhooks.ts:75-129 | Other events, or no id: no change. PAID for an unknown id: no change. PAID for a known id: that one row becomes PAID at `now` whatever its status, then the guild is notified. CANCELLED: every row holding the id is cancelled, PAID ones too. |
| Webhooks.HandlePayPalWebhook | server/src/routes/webhooks.ts:64-136 | Failed verification gives 401 and no write. Every verified event gives 200 "OK", with exactly the writes and notifications of `Reconcile`. |
| Webhooks.PaidAndCancelledExclusive | server/src/routes/webhooks.ts:75-119 | No event is both a PAID and a CANCELLED event, under either spelling. |
| Webhooks.PaidReplayRewrites | server/src/routes/webhooks.ts:96-116 | Replaying a PAID event is not a no-op. It rewrites the payment time and notifies the guild again. |
| Webhooks.CancelledOverwritesPaid | server/src/routes/webhooks.ts:119-129 | A CANCELLED event after a PAID one leaves the row CANCELLED, keeping its payment time. |
| Stats.Currencies | server/src/routes/stats.ts:32-34 | The set holds exactly the currencies that occur among the invoices. |
| Stats.Tally | server/src/routes/stats.ts:16-58 | `total` is the number of invoices. Each counter is the number with its status. The totals are the reference sums. There is one bucket per occurring currency, each holding that currency's invoiced, paid and pending sums. |
| Stats.Visit | server/src/routes/stats.ts:28-58 | One turn keeps the loop invariant: it opens a zero bucket for a new currency and then counts the invoice. |
| Stats.Count | server/src/routes/stats.ts:36-57 | The status switch adds the invoice to exactly its status counter. A SENT or PAID amount goes to the totals and to its currency's bucket. |
| Stats.NewCurrencyHasZeroBucket | server/src/routes/stats.ts:32-34 | A currency not seen yet has nothing summed, so opening its bucket at zero is right. |
| Stats.CurrenciesGrow | server/src/routes/stats.ts:30-34 | Visiting an invoice adds exactly its currency to the set of currencies. |
| Stats.BucketStep | server/src/routes/stats.ts:44-52 | One invoice changes only its own currency's bucket, by its amount under its status. |
| Stats.ScalarsStep | server/src/routes/stats.ts:36-57 | One invoice adds one to its status count and its amount to the matching totals. |
| Stats.Selected | server/src/routes/stats.ts:11-14 | Exactly the user's stored rows, limited to the guild when one is given, each listed once, in increasing id order. |
| Stats.UserStats | server/src/routes/stats.ts:6-65 | The answer describes the user's invoices, each counted once. The guild filter applies only for a truthy guild id. |
| Stats.CountsAddUp | server/src/routes/stats.ts:36-57 | draft + sent + paid + cancelled equals the number of invoices. |
| Stats.InvoicedSplits | server/src/routes/stats.ts:40-53 | What is invoiced is what is paid plus what is pending, overall and in each currency. |
| Stats.IdleInvoicesAddNothing | server/src/routes/stats.ts:37-39 | DRAFT and CANCELLED invoices contribute no amount. |
| Stats.CurrencyOrder | server/src/routes/stats.ts:32-34 | Bucket currencies in opening order, without duplicates, are exactly the occurring currencies. |
| Stats.SumByCurrencyOfNothing | server/src/routes/stats.ts:16-26 | With no invoices every per-currency sum is zero. |
| Stats.SumByCurrencyStep | server/src/routes/stats.ts:44-52 | A new invoice adds its amount to exactly one currency of a duplicate-free list holding its currency. |
| Stats.SumByCurrencyCovers | server/src/routes/stats.ts:44-52 | Summing per currency over a duplicate-free list of every currency gives the overall total. |
| Stats.StatsConsistent | server/src/routes/stats.ts:16-58 | The answer is consistent: counts add up to `total`, and invoiced = paid + pending overall and in every bucket. The per-currency paid amounts add up to `totalPaid`, and the buckets are exactly the occurring currencies. |
| Stats.IdleCurrencyBucketIsZero | server/src/routes/stats.ts:32-34 | A currency whose invoices are all DRAFT or CANCELLED still has a bucket, and it is all zeros. |

## Left out

- HTTP, Express, Prisma, `fetch` and Discord are not modelled as transport. Store calls are operations on the in-memory table. What PayPal answers, and whether a request threw, are parameters.
- The 500 answers of the routes' `catch` blocks are not modelled, because the in-memory store never fails. On the create route, the one store failure the code can reach is modelled: a PayPal id already held by another row. It ends, like a failed PayPal create, in the create warning.
- server/src/services/discord.ts is not part of this model. The payment notification is an effect that never fails, as the code swallows its errors.
- Amounts are exact (`real`). Floating-point sums, `Number(inv.amount)` and `toFixed(2)` in the create payload are not modelled.
- Dates are not modelled. `createdAt` is the insertion number, so "newest first" means the largest id, and equal wall-clock times do not arise. `paidAt` is the `now` parameter. Invoice ids are natural numbers, not the database's string ids.
- The database schema is not part of this model. Status is one of four values, the only ones any writer stores.
- Stats.Selected: `findMany` without `orderBy` has no defined order. The model takes ascending id. Counts and sums do not depend on order, but the key order of the `currencies` object does.
- The key order of the JSON `currencies` object is not modelled (it is a map).
- Concurrency is not modelled: the webhook and cancel paths run one at a time.
- The environment is parameters. Base URL choice by PAYPAL_MODE and the Basic auth encoding are not modelled.
- PayPal.Acquire: a token reply lacking `access_token` or `expires_in` (an undefined token or a NaN expiry) is not modelled. A granted token has a string and an integer lifetime.
- InvoiceRoutes.CreateInvoice requires a created PayPal invoice to have a non-empty id. That is what PayPal.CreatedInvoice guarantees about the service's result.
- The cancel route ignores what PayPal answers to the cancel call, so the model records only that the call was made.
- `isEmail` and `isUrl` (zod's email and URL checks) are parameters. Inputs of the wrong JSON type (a number where a string is expected) are not modelled, and neither are zod's messages for them.
- SetupGates.ToUpper upper-cases ASCII letters only, while JavaScript's `toUpperCase` is Unicode-aware. Lengths are counted in characters, not UTF-16 code units (this also affects the 100-character cut of the item name and of the error message).
- The bot's replies after an API call, embeds, and the `result.error` branches of the setup handlers are not modelled.
- The bot command handlers for invoices, templates, clients, pay links, help and stats are not modelled: they are Discord UI over the API. This includes the template amount override (bot/src/commands/template.ts:218).
- bot/src/utils/api.ts, the process start-up code and the CRUD routes for users, guilds, clients and templates are not modelled. Only the schemas they validate with are.
- There is no address-book email fallback, payment reminder, bulk delete or overdue sweeper in this code, so none is modelled.
