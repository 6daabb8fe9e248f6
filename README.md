# Order alert add-on, modelled in Dafny

The add-on watches a Shopify store's `orders/create` webhook. When a new order's
total is strictly over the shop's configured threshold, it composes a plain-text
"high value order" alert for the shop's recipient. The settings page stores that
threshold, the recipient and an on/off switch per shop.

The model covers four source files:

- `app/routes/app._index.tsx`, the settings page. Its loader reads a shop's
  settings and creates them with defaults on first access. Its action decodes
  the submitted form and upserts all three fields. The settings table is the
  `map` field of the class `AppIndex.SettingsStore`, and loader and action are
  methods on it (`app_index.dfy`).
- `app/routes/webhooks.orders.create.ts`, the webhook that alerts on the
  webhook body. It normalises the raw order (defaults for name, currency, item
  title, quantity and price, and at most three items) and passes it to the
  composer. The handler is the method `OrdersCreateWebhook.HandleOrderCreated`
  (`orders_create_webhook.dfy`).
- `app/routes/webhooks.orders.create.tsx`, the variant that queries the store's
  API for the order before alerting. The query's answer is an input. The
  handler is tied to the specification function `QueryFlow`
  (`orders_create_query_webhook.dfy`).
- `app/services/email.server.ts`: `sendOrderAlert` as a pure function from the
  order, the threshold and the shop domain to the text it logs and the result
  it returns (`email_server.dfy`).

The JavaScript semantics this code relies on are modelled once and shared:

- `js_strings.dfy`: `trim` with ECMAScript's white space, `join`,
  `slice(0, n)` and `||` on optional strings.
- `js_numbers.dfy`: `parseFloat`, defined as a left-to-right scanner of the
  decimal-literal grammar of section 21.1.2.12 of ECMA-262; `toFixed(2)`,
  section 21.1.3.3; integer-to-text in templates; `>` against a threshold,
  where NaN is never greater.

Each handler returns its reply together with the trace of calls it makes to the
outside, in order: the settings read, the order query and the alert request.
`scenarios.dfy` runs the sample order of `test-webhook.js` through the settings
page and both handlers.

Facts about the code that the model keeps:

- The alert carries no subject line. The only subject is inside the commented-out
  mail transport.
- The composer never fails.
- The normalised order keeps the total's text. The composer parses it.
- The webhook reads the settings before it looks at the total, and checks the
  recipient only after the threshold comparison.
- The page's form is part of the model as far as what it submits. With the box
  unticked it submits neither text field, so that save is never stored (see
  "## Findings").

Definitions that the lemmas and contracts below are about:

| definition | source | defines |
|---|---|---|
| JsNumbers.ParseFloat | app/routes/webhooks.orders.create.ts:43 | `parseFloat`: skip leading white space, read an optional sign, then `Infinity` or the longest decimal literal, else NaN |
| JsNumbers.ParseFloatOf | app/services/email.server.ts:45 | `parseFloat` of a value that may be absent, which reads as NaN |
| JsNumbers.ScanDecimal | app/routes/webhooks.orders.create.ts:43 | the scan over whole digits, an optional point and fraction digits, then an optional exponent |
| JsNumbers.GreaterThan | app/routes/webhooks.orders.create.ts:53 | `>` of a number against a finite threshold: false for NaN and negative infinity, true for positive infinity |
| JsNumbers.Rounded2 | app/services/email.server.ts:60 | the value `toFixed(2)` shows, with the sign of the number |
| JsNumbers.Fixed2 | app/services/email.server.ts:60-61 | `toFixed(2)` of a finite number: a `-` for a negative one, then the magnitude's hundredths `Cents` written as whole digits, a point and two digits |
| JsNumbers.ToFixed2 | app/services/email.server.ts:51 | `toFixed(2)` of any number: NaN and the infinities print their names |
| JsStrings.Join | app/services/email.server.ts:52 | `join`: the parts with the separator between each two |
| EmailServer.ItemLine | app/services/email.server.ts:49-51 | one item: title, quantity, the order's currency, and the parsed unit price to two decimals |
| EmailServer.TopItems | app/services/email.server.ts:48-52 | the item lines of the first three items, joined by newlines |
| EmailServer.IdText | app/services/email.server.ts:66 | the id as the template prints it, `undefined` when absent |
| EmailServer.Fields | app/services/email.server.ts:41-66 | each value the template interpolates, as it prints |
| EmailServer.MessageLines | app/services/email.server.ts:55-68 | the fourteen lines of the template, with the fields in place |
| EmailServer.MessageText | app/services/email.server.ts:55-68 | those lines joined by newlines |
| AppIndex.PageForm | app/routes/app._index.tsx:103-131 | what the page's form submits: all three fields when the box is ticked, nothing when it is unticked |
| AppIndex.IntendedPageForm | app/routes/app._index.tsx:136-140 | the form the page evidently means to submit: both text fields always, and the checkbox when ticked |
| OrdersCreateWebhook.OrderTotal | app/routes/webhooks.orders.create.ts:43 | `parseFloat(total_price \|\| "0")` |
| OrdersCreateWebhook.ExceedsThreshold | app/routes/webhooks.orders.create.ts:53 | the total is strictly over the shop's threshold |
| OrdersCreateWebhook.ShouldAlert | app/routes/webhooks.orders.create.ts:53-56 | over the threshold, with a non-empty recipient |
| OrdersCreateWebhook.AlertsOn | app/routes/webhooks.orders.create.ts:33-39 | the shop has a settings record with alerts enabled |
| OrdersCreateQueryWebhook.QueryFlow | app/routes/webhooks.orders.create.tsx:7-84 | the querying handler's reply and calls, case by case |

## Model

| member | source | states |
|---|---|---|
| JsStrings.TrimStart | app/services/email.server.ts:42 | the result is a suffix of the input and does not start with white space |
| JsStrings.TrimEnd | app/services/email.server.ts:42 | the result is a prefix of the input and does not end with white space |
| JsStrings.TrimStartDropsSpace | app/services/email.server.ts:42 | everything `TrimStart` drops is white space, so the suffix it keeps is the longest one |
| JsStrings.TrimEndDropsSpace | app/services/email.server.ts:42 | everything `TrimEnd` drops is white space, so the prefix it keeps is the longest one |
| JsStrings.Trim | app/services/email.server.ts:42 | the trimmed text has no white space at either end |
| JsStrings.TrimRemovesOnlySpace | app/services/email.server.ts:42 | the trimmed text occurs in the input with only white space before and after it |
| JsStrings.TrimStartOfSpaces | app/services/email.server.ts:54-69 | white space followed by a text that starts with none trims back to that text |
| JsStrings.TrimEndOfSpaces | app/services/email.server.ts:54-69 | a text that ends without white space, followed by white space, trims back to that text |
| JsStrings.TrimFramed | app/services/email.server.ts:54-69 | trimming a non-empty trimmed text framed by white space gives the text back |
| JsStrings.TrimIdempotent | app/services/email.server.ts:42 | trimming twice equals trimming once |
| JsStrings.OrElse | app/routes/webhooks.orders.create.ts:64 | `o \|\| fallback`: the value when present and non-empty, else the fallback |
| JsStrings.Slice | app/routes/webhooks.orders.create.ts:68 | `slice(0, n)`: the first n elements, or all of them when there are fewer |
| JsStrings.JoinStartsWith | app/services/email.server.ts:52 | a joined text begins with its first part |
| JsStrings.JoinEndsWith | app/services/email.server.ts:52 | a joined text ends with its last part |
| JsStrings.JoinContainsPart | app/services/email.server.ts:52 | every part occurs in the joined text |
| JsNumbers.OrElseInt | app/routes/webhooks.orders.create.ts:71 | `quantity \|\| 1`: the value when present and non-zero, else the fallback |
| JsNumbers.NatText | app/services/email.server.ts:51 | the decimal text of a natural number is non-empty, all digits, has that value and has no leading zero |
| JsNumbers.IntText | app/services/email.server.ts:51 | a non-negative integer prints as its digits, a negative one as `-` and the digits of its magnitude, with no leading zero |
| JsNumbers.Cents | app/services/email.server.ts:60 | the hundredths shown are the nearest integer to 100x, the larger one on a tie |
| JsNumbers.Rounded2Close | app/services/email.server.ts:60 | the value `toFixed(2)` shows is within 0.005 of the number |
| JsNumbers.Fixed2Shape | app/services/email.server.ts:60-61 | `toFixed(2)` prints an optional `-`, at least one digit, a point and exactly two digits |
| JsNumbers.ScanWholeDigits | app/routes/webhooks.orders.create.ts:43 | digits read before the point all join the whole part |
| JsNumbers.ScanFractionDigits | app/routes/webhooks.orders.create.ts:43 | digits read after the point all join the fraction |
| JsNumbers.NotInfinity | app/routes/webhooks.orders.create.ts:43 | a text that starts with a digit is not read as `Infinity` |
| JsNumbers.ParsePointed | app/routes/webhooks.orders.create.ts:43 | digits, a point and digits parse to their decimal value |
| JsNumbers.ParseWholeThen | app/routes/webhooks.orders.create.ts:43 | digits followed by text that cannot continue the literal parse to the digits' value, so the rest is ignored |
| JsNumbers.ParseWhole | app/routes/webhooks.orders.create.ts:43 | a run of digits parses to its value |
| JsNumbers.ParseFloatSkipsSpace | app/routes/webhooks.orders.create.ts:43 | leading white space does not change what `parseFloat` reads |
| JsNumbers.ParseNatText | app/routes/webhooks.orders.create.ts:43 | `parseFloat` reads back the decimal text of any natural number |
| JsNumbers.ParseFloatOfMinus | app/routes/webhooks.orders.create.ts:43 | a leading `-` negates the value of the literal after it |
| JsNumbers.ParseFixed2 | app/services/email.server.ts:60 | parsing what `toFixed(2)` prints gives back exactly the value it shows |
| JsNumbers.Rounded2Exact | app/services/email.server.ts:60-61 | a value with at most two decimals is shown unchanged |
| JsNumbers.ParseFixed2Exact | app/services/email.server.ts:60-61 | a value with at most two decimals prints and parses back to itself |
| EmailServer.CustomerName | app/services/email.server.ts:41-43 | "Guest Customer" without a customer, else the trimmed full name |
| EmailServer.ItemLines | app/services/email.server.ts:48-52 | one line per item, in order, each in the order's currency |
| EmailServer.OrderLink | app/services/email.server.ts:66 | the admin link uses the shop domain, or `your-store` when it is missing or empty, and prints a missing id as `undefined` |
| EmailServer.EmailContent | app/services/email.server.ts:54-69 | the trim removes exactly the template's frame: the message is the template lines joined by newlines |
| EmailServer.MessageIsTrimmed | app/services/email.server.ts:54-69 | the message starts with the alert header and has no white space at either end |
| EmailServer.TextShowsFields | app/services/email.server.ts:57-68 | each interpolated line of the template occurs in the message |
| EmailServer.SendOrderAlert | app/services/email.server.ts:37-93 | the logged message is for `to`, and the result is always success with the fixed message |
| EmailServer.ContentShowsOrderAndCustomer | app/services/email.server.ts:58-59 | the message names the order and the customer |
| EmailServer.ContentShowsTotal | app/services/email.server.ts:45-60 | the message shows the parsed total to two decimals after the order's currency |
| EmailServer.ContentShowsThreshold | app/services/email.server.ts:61-68 | the message shows the threshold to two decimals, on its own line and in the closing sentence |
| EmailServer.ContentShowsLink | app/services/email.server.ts:66 | the message carries the order's admin link |
| EmailServer.ContentShowsItem | app/services/email.server.ts:48-64 | each of the first three items has its line in the message |
| EmailServer.TopItemsIgnoresRest | app/services/email.server.ts:48 | items after the third never reach the message, and the section has at most three lines |
| EmailServer.ItemLineIgnoresItemCurrency | app/services/email.server.ts:51 | an item line shows the order's currency, whatever currency the item carries |
| EmailServer.ItemLinesIgnoreItemCurrency | app/services/email.server.ts:48-52 | the items section does not depend on the items' own currency codes |
| EmailServer.GuestWithoutCustomer | app/services/email.server.ts:41-43 | without a customer the message reads "Guest Customer" |
| AppIndex.Lookup | app/routes/app._index.tsx:25-27 | a record is found exactly when the shop has one, and it is that shop's record |
| AppIndex.GetOrCreate | app/routes/app._index.tsx:25-40 | the shop ends with a record, equal to the one returned; an existing record is returned with nothing written; a missing one is created with threshold 100, no recipient and alerts on; other shops are untouched |
| AppIndex.DecodeForm | app/routes/app._index.tsx:45-49 | the checkbox is on exactly when the field is `on`; a missing threshold is NaN, otherwise it is `parseFloat` of the field; the recipient is present exactly when the field is |
| AppIndex.ToRecord | app/routes/app._index.tsx:52-65 | a write stores all three fields, and exactly when the threshold is finite and a recipient is present |
| AppIndex.SettingsStore.FindUnique | app/routes/app._index.tsx:25-27 | finds the shop's record exactly when it has one |
| AppIndex.SettingsStore.Upsert | app/routes/app._index.tsx:52-65 | the shop's record is created or replaced, and nothing else changes |
| AppIndex.SettingsStore.Load | app/routes/app._index.tsx:21-41 | the table and the returned record are those of `GetOrCreate` applied to the old table |
| AppIndex.SettingsStore.Save | app/routes/app._index.tsx:43-68 | a storable form is upserted, then the page redirects to `/app`; otherwise the upsert throws and the table is unchanged |
| AppIndex.GetOrCreateIdempotent | app/routes/app._index.tsx:25-38 | loading twice gives the same record and table as loading once |
| AppIndex.LoadAfterSave | app/routes/app._index.tsx:25-65 | a load after a save returns the saved record and writes nothing |
| AppIndex.SaveKeepsOtherShops | app/routes/app._index.tsx:52-53 | saving one shop's settings leaves every other shop's record as it was |
| AppIndex.TickedFormIsStored | app/routes/app._index.tsx:103-131 | the page's form with the box ticked stores its threshold and recipient with alerts on |
| AppIndex.UntickedFormIsNotStored | app/routes/app._index.tsx:118-129 | the page's form with the box unticked submits no threshold and no recipient, so it is never stored |
| AppIndex.PageNeverStoresAlertsOff | app/routes/app._index.tsx:103-131 | no form the page submits stores alerts switched off |
| AppIndex.IntendedFormStoresSwitch | app/routes/app._index.tsx:136-140 | the intended form stores the threshold, the recipient and the checkbox as ticked or not |
| AppIndex.SavedFormIsStored | app/routes/app._index.tsx:47-65 | a form with a finite threshold and a recipient is stored field for field |
| OrdersCreateWebhook.Report | app/routes/webhooks.orders.create.ts:84-88 | an alert request is logged for its recipient and always succeeds |
| OrdersCreateWebhook.OrderCurrency | app/routes/webhooks.orders.create.ts:64 | the body's currency when present and non-empty, else USD |
| OrdersCreateWebhook.OrderName | app/routes/webhooks.orders.create.ts:60 | the name, else a non-zero order number as text, else "Unknown"; never empty |
| OrdersCreateWebhook.NormalizeItem | app/routes/webhooks.orders.create.ts:69-78 | title, else name, else "Unknown Item"; a missing or zero quantity becomes 1; a missing or empty price becomes "0.00"; the order's currency |
| OrdersCreateWebhook.NormalizeItems | app/routes/webhooks.orders.create.ts:68 | each item normalised, in order |
| OrdersCreateWebhook.Normalize | app/routes/webhooks.orders.create.ts:58-82 | the id and total text kept, the name and currency defaulted, the first three items normalised, never a customer |
| OrdersCreateWebhook.NormalizedFieldsAreSet | app/routes/webhooks.orders.create.ts:58-82 | every default leaves a field that is set: non-empty name, currency and titles, non-zero quantities, a price, one currency throughout |
| OrdersCreateWebhook.NormalizeIdempotent | app/routes/webhooks.orders.create.ts:58-82 | a normalised order, read back as a body, normalises to itself |
| OrdersCreateWebhook.HandleOrderCreated | app/routes/webhooks.orders.create.ts:9-93 | 401 on failed authentication; a thrown 400 without a body; settings off or missing stops after the read; otherwise success, alerting with the normalised order exactly when the total is over the threshold and a recipient is set |
| OrdersCreateWebhook.AtThresholdNeverAlerts | app/routes/webhooks.orders.create.ts:53 | a total equal to the threshold never alerts |
| OrdersCreateWebhook.UnparsableTotalNeverAlerts | app/routes/webhooks.orders.create.ts:43-53 | a total that parses to NaN never alerts |
| OrdersCreateWebhook.MissingTotalIsZero | app/routes/webhooks.orders.create.ts:43 | a missing or empty total counts as 0 |
| OrdersCreateWebhook.MissingTotalNeverAlerts | app/routes/webhooks.orders.create.ts:43-53 | so it never alerts under a threshold of zero or more |
| OrdersCreateWebhook.CentsTotalAlertsIffOver | app/routes/webhooks.orders.create.ts:43-56 | a total written with two decimals alerts exactly when its value is over the threshold and a recipient is set |
| OrdersCreateQueryWebhook.HandleOrderCreatedWithQuery | app/routes/webhooks.orders.create.tsx:7-84 | the reply and the calls made are those of `QueryFlow` on the table |
| OrdersCreateQueryWebhook.GatesComeFirst | app/routes/webhooks.orders.create.tsx:8-21 | authentication, body and settings are checked before anything is queried or sent |
| OrdersCreateQueryWebhook.QueriesIffOverThreshold | app/routes/webhooks.orders.create.tsx:25-65 | the order is queried exactly when alerts are on and the total is strictly over the threshold |
| OrdersCreateQueryWebhook.AlertsIffFoundAndRecipient | app/routes/webhooks.orders.create.tsx:28-76 | an alert goes out exactly when the order was queried and found, and a recipient is set |
| OrdersCreateQueryWebhook.FailsIffQueryFails | app/routes/webhooks.orders.create.tsx:29-80 | the reply is the 500 exactly when the query is made and fails |
| OrdersCreateQueryWebhook.SucceedsUnlessQueryFails | app/routes/webhooks.orders.create.tsx:28-83 | past the settings gate the reply is success or the 500, nothing else |
| OrdersCreateQueryWebhook.AlertUsesQueriedOrder | app/routes/webhooks.orders.create.tsx:67-76 | the alert carries the queried order, not the webhook body, with the shop's recipient and threshold |
| Scenarios.TestOrderTotal | test-webhook.js:4-8 | the sample total "150.00" reads as 150 |
| Scenarios.TestOrderAlerts | test-webhook.js:4-27 | the sample order alerts under a threshold of 100 with a recipient |
| Scenarios.AtHundredDoesNotAlert | test-webhook.js:4-27 | the same order with a total of exactly 100.00 does not |
| Scenarios.TestOrderNormalized | test-webhook.js:4-27 | the normalised sample keeps its id, name, total and both items, all in USD |
| Scenarios.TestFormIsStored | app/routes/app._index.tsx:47-65 | the form with threshold "100.00", a recipient and the box ticked stores exactly those settings |
| Scenarios.TestAlertContent | test-webhook.js:4-27 | the sample alert shows the order name, "Guest Customer", "USD 150.00", "USD 100.00", both item lines and the link |
| Scenarios.SampleRun | test-webhook.js:4-27 | saving the settings redirects, then the webhook reads the settings and sends one alert with the normalised sample |
| Scenarios.DisabledRun | app/routes/webhooks.orders.create.ts:37-39 | with alerts off, the sample webhook only reads the settings |
| Scenarios.QueryFailsRun | app/routes/webhooks.orders.create.tsx:77-80 | the querying variant queries the sample order, and a failed query gives the 500 |
| Scenarios.UntickedSaveRun | app/routes/app._index.tsx:47-65 | saving the unticked form makes the upsert throw, and the shop's alerts stay on |
| Scenarios.IntendedUntickedSaveRun | app/routes/app._index.tsx:47-67 | with the intended form the same save redirects and switches alerts off, keeping threshold and recipient |

## Left out

- JsNumbers.Cents: uses exact decimal values, not IEEE-754 doubles. `parseFloat` does not round its result to the nearest double here, and `toFixed(2)` rounds the exact value half up. So a value such as 1.005, which JavaScript holds just below 1.005, prints "1.01" here but "1.00" in JavaScript.
- JsNumbers.Fixed2: `toFixed(2)` of a magnitude of 10^21 or more prints exponent notation in JavaScript. That case is not modelled.
- EmailServer.IdText: prints an absent id as `undefined`. A body whose `id` is `null` prints `null` in JavaScript (`webhooks.orders.create.ts:59` passes it through); the model does not tell `null` from absent there, though the composer declares the id a string.
- JsNumbers.IntText: covers integers only. A non-integer or NaN quantity in a body prints differently in JavaScript, and the raw body types quantities and order numbers as integers.
- OrdersCreateWebhook.RawOrder types the fields the handler reads: strings, integers and lists. A field of another JSON type, such as a numeric `total_price`, is not modelled.
- `authenticate.webhook` is an input of type `WebhookAuth`. Signature checking is not modelled.
- `authenticate.admin` on the settings page is assumed to succeed, and the shop is a parameter. Its login redirect is not modelled.
- The database schema is not part of this model. The table is assumed to hold a finite number, a required string and a boolean per shop. A form whose threshold is NaN or infinite, or that has no recipient, then makes the upsert throw: the action's error escapes, nothing is stored, and there is no redirect (`UpsertThrows`). With a schema that accepted those values, they would be stored instead. Because of this assumption the page can never store alerts switched off (see "## Findings"). Other database errors are not modelled.
- The order query of `webhooks.orders.create.tsx` is an input of type `QueryOutcome`. Its fields are assumed to have the types the query declares. A null name or a null customer name part, which JavaScript prints as "null", is not modelled.
- OrdersCreateQueryWebhook.QueryFlow: the composer never fails in the model, so the `catch` at `webhooks.orders.create.tsx:77-80` covers only the failed query.
- `process.env.SHOPIFY_SHOP_DOMAIN` is the `shopDomain` parameter of the handlers and of the composer.
- Console logging is not modelled: the logs at `webhooks.orders.create.ts:7-54` and `webhooks.orders.create.tsx:78`. The composer's log is kept as the text it logs (`AlertReport.content`).
- The mail transport and subject line are not modelled: they exist only as commented-out code at `email.server.ts:77-90`.
- The React component `Index` of `app._index.tsx` (the page UI) is not modelled.
- Both webhook files define the same `orders/create` route. Which one the router serves is not modelled; each handler is modelled on its own.
- Awaiting, and any concurrency between webhook calls, are not modelled: each call runs to completion against the table.
- A JSON reply is its status and body fields. Response headers are not modelled.

## Findings

| source | as written | input that shows it | evidently intended | confidence | as-written member | corrected member |
|---|---|---|---|---|---|---|
| app/routes/app._index.tsx:118-140 | the threshold and recipient fields are `disabled` while the box is unticked, so the unticked form submits neither, and the action's upsert gets NaN and a missing recipient | unticking the box with both fields filled in and saving: `PageForm(false, "100.00", "a@b.com")` | the save button stays enabled in exactly that case, so the save should store alerts off and keep the two values | not executed; depends on the schema rejecting a missing recipient, which is not part of this model | AppIndex.UntickedFormIsNotStored | AppIndex.IntendedFormStoresSwitch |
