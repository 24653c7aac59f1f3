# royaldream, modelled in Dafny

royaldream is a small top-up shop. A buyer picks a product and a price
tier, leaves a game id and a WhatsApp number, and receives a QRIS invoice
from a payment gateway. The gateway's deposit webhook marks the order paid.
An operator fulfils it by hand, from the admin panel or by sending a
`done`/`reject` command over WhatsApp. Pending invoices whose expiry passes
are swept to `expired`. The operator can also withdraw the balance to a
bank account: draft, account check, submit, status poll. A WebSocket hub
pushes invoice, dashboard, WhatsApp-session and log updates to the pages
that subscribed to them.

The model keeps the deterministic bookkeeping and leaves out the I/O.
The gateway's replies, the clock, the random bytes, the password hash and
the database's answers are all parameters. The modules are:

- `Js`: the JavaScript runtime behaviour the code relies on, namely
  `trim`, ASCII case mapping, `String(n)`, `Number(s)`, `split`/`join`,
  `includes` and truthiness of parsed JSON values.
- `Wrappers`: `Option` and `Result`.
- `Bus`: the bus event log.
- `Gateway`: what the handlers see of a gateway reply.
- `Db`: the ORM's unique-key message.
- `Phone`: normalisation of Indonesian numbers to the E.164 form with
  country code 62.
- `Ids`: order ids, withdrawal ids and invoice tokens, built from a date and
  random bytes.
- `Templates`: `encodeURIComponent`, the invoice link and the WhatsApp
  message texts.
- `Settings`: the key/value settings table, as a class.
- `Bootstrap`: the primary admin, the single-admin rule and the default
  settings rows.
- `AppRoutes`: the admin mount path and the SPA-JSON route test.
- `Orders`: the order record, its two status axes and the store class with
  one method per handler.
- `Sweep`: one tick of the expiry sweep over the store.
- `Withdrawals`: the withdrawal record, its seven-value status and the store
  class.
- `Realtime`: the server's per-connection subscriptions and broadcast; the
  page's subscription mirror, replay on open and handler dispatch.
- `WhatsApp`: the session state and its transitions, the admin command
  grammar, the send and pairing guards, and the five-minute single-use OTP
  store.
- `PasswordReset`: the two reset routes over the admin table and the OTP
  store.
- `Ui`: the page helpers `escapeHtml` and `pill`, the tier drop-down, the
  invoice-push match and the log-line format.

Each route handler has two parts. One is a pure specification function
that returns the new table, the events emitted and the reply. The other is
a method on the store class, whose `ensures` ties the new fields to that
function. Lemmas about the specification state the rules the code follows.

Two points where the model follows the code rather than its description:

- The administrator test in the WhatsApp command handler compares the
  normalised admin number with the JID text before the first `@`. The
  number is not normalised again on the sender's side.
- `Number('')` is 0, and `Number(setting) || 20` also turns a configured 0
  into 20. So the expiry minutes are never 0 but may be negative: a
  negative setting yields an order that is already expired.

## Model

| member | source | states |
|---|---|---|
| Phone.OnlyDigits | src/utils/phone.js:1 | the result is made only of digits and is no longer than the input |
| Phone.OnlyDigitsCounts | src/utils/phone.js:1 | each digit occurs in the result as often as in the input; other characters do not occur |
| Phone.OnlyDigitsAppend | src/utils/phone.js:1 | digit extraction distributes over concatenation, so order is kept |
| Phone.OnlyDigitsOfDigits | src/utils/phone.js:1 | an all-digit input is returned unchanged |
| Phone.StripLeadingZeros | src/utils/phone.js:9 | the result is a suffix of the input that does not start with 0 |
| Phone.RewriteSpec | src/utils/phone.js:7-11 | the three rewrites give all digits starting with 62, and raw is 0 followed by the rest after 62 |
| Phone.RewriteLeadingZero | src/utils/phone.js:7 | a number starting with 0 becomes 62 followed by the rest |
| Phone.RewriteOther | src/utils/phone.js:8-9 | a number starting with neither 0 nor 62 gets 62 put in front (after dropping zeros) |
| Phone.NormalizeSpec | src/utils/phone.js:3-12 | no digits gives both fields null; otherwise e164 is all digits starting with 62 and raw is "0" + e164 without its 62 |
| Phone.NormalizeIdempotent | src/utils/phone.js:7-11 | normalising e164 again gives the same e164 |
| Phone.NormalizeRawRoundTrip | src/utils/phone.js:11 | normalising raw gives back the original e164 |
| Phone.E164Fixed | src/utils/phone.js:3-12 | a digit string that starts with 62 is its own e164 |
| Phone.RawFixed | src/utils/phone.js:3-12 | the national form "0" + rest of a 62-number normalises back to it |
| Ids.HexByte | src/utils/id.js:4 | one byte gives two lower-case hex digits |
| Ids.Hex | src/utils/id.js:4 | hex text is twice as long as the bytes and all lower-case hex |
| Ids.HexValue | src/utils/id.js:4 | a hex digit's value is below 16 and names that digit |
| Ids.Unhex | src/utils/id.js:4 | decoding halves the length |
| Ids.UnhexHex | src/utils/id.js:4 | decoding the hex text of any bytes gives the bytes back |
| Ids.HexByteValue | src/utils/id.js:4 | the two digits of a byte are its high and low nibble |
| Ids.RandHex | src/utils/id.js:3-5 | randHex(n) is exactly n lower-case hex characters, a prefix of the bytes' hex |
| Ids.Pad2Spec | src/utils/id.js:10-11 | padStart(2,'0') of a month or day gives two digits of that value |
| Ids.Token | src/utils/id.js:15-17 | a token is 36 lower-case hex characters |
| Ids.OrderIdFormat | src/utils/id.js:7-13 | an order id is RD, the 4-digit year, the 2-digit month and day, then 10 upper-case hex digits |
| Ids.YearDigits | src/utils/id.js:9 | a four-digit year prints as four digits that read back as the year |
| Ids.OrderLayout | src/utils/id.js:12 | the prefix, year, month, day and hex part sit at fixed offsets of the order id |
| Ids.WithdrawLayout | src/utils/id.js:24 | the prefix, dashes, date digits and hex part sit at fixed offsets of the withdrawal id |
| Ids.FourDigits | src/utils/id.js:9 | a year from 1000 to 9999 prints as four digits |
| Ids.WithdrawIdFormat | src/utils/id.js:19-25 | a withdrawal id is the prefix, "-", eight date digits that read back as the year, month and day, "-", then 10 lower-case hex digits |
| Ids.WithdrawIdsDiffer | src/utils/id.js:24 | an id with prefix WD never equals one with prefix WDREF |
| Withdrawals.CreatedIdsDiffer | src/routes/api.admin.js:289-290 | the wd_id and ref_id a create draws always differ |
| Templates.PercentByte | src/services/wa/templates.js:8 | a percent escape is "%" and two characters |
| Templates.Utf8 | src/services/wa/templates.js:8 | UTF-8 gives one to four bytes, each below 256 |
| Templates.PercentBytesSafe | src/services/wa/templates.js:8 | percent escapes use only URI-safe characters |
| Templates.EncodeIsUriSafe | src/services/wa/templates.js:8 | encodeURIComponent output has only unreserved characters and "%" |
| Templates.EncodeIdentity | src/services/wa/templates.js:8 | encoding leaves a text unchanged exactly when all its characters are unreserved |
| Templates.EncodeGrows | src/services/wa/templates.js:8 | encoding never shortens a text |
| Templates.DropTrailingSlash | src/services/wa/templates.js:6 | at most one trailing slash is removed, and one is removed when present |
| Templates.LinkIsNotPlaceholder | src/services/wa/templates.js:5-9 | a built link never equals the placeholder text |
| Templates.InvoiceLinkSpec | src/services/wa/templates.js:5-9 | the placeholder text comes back exactly when the base is empty; otherwise base + "/p/invoice?token=" + encoded token |
| Templates.NoteLineSpec | src/services/wa/templates.js:49-81 | a non-empty note is shown as _note_, an empty one as the fallback |
| Templates.ConcatIncludes | src/services/wa/templates.js:12-96 | every piece of a message occurs in the message |
| Templates.InvoiceCreatedEmbeds | src/services/wa/templates.js:15-22 | the invoice-created text contains the order id and the invoice link |
| Templates.PaidEmbeds | src/services/wa/templates.js:29-36 | the paid text contains the order id and the invoice link |
| Templates.ProcessingEmbeds | src/services/wa/templates.js:43-52 | the processing text contains the order id, the note line and the link |
| Templates.DoneEmbeds | src/services/wa/templates.js:59-68 | the done text contains the order id, the note line and the link |
| Templates.RejectedEmbeds | src/services/wa/templates.js:75-84 | the rejected text contains the order id, the note line and the link |
| Templates.OtpEmbedsCode | src/services/wa/templates.js:89-96 | the OTP text contains the code |
| Settings.StoredText | src/services/settingsService.js:10-11 | null and undefined are stored as '', a string as itself |
| Settings.SettingsTable.GetSetting | src/services/settingsService.js:4-7 | a stored value is returned, even an empty one; a missing key or a NULL value gives the fallback |
| Settings.SettingsTable.SetSetting | src/services/settingsService.js:8-12 | the one key is set to String(value ?? '') and nothing else changes |
| Settings.SettingsTable.GetWebhookSecret | src/services/settingsService.js:24-26 | the trimmed webhook_secret, '' when missing |
| Settings.SettingsTable.GetAdminWa | src/services/settingsService.js:28-30 | the trimmed wa_admin, '' when missing |
| Settings.SettingsTable.GetSiteUrl | src/services/settingsService.js:32-34 | the trimmed site_url, '' when missing |
| Settings.TrimmedSetting | src/services/settingsService.js:24-34 | the value has no whitespace at either end and is '' for a missing key |
| Settings.SetThenGet | src/services/settingsService.js:4-11 | after a set, get of that key returns the stored text for any fallback, and other keys are unchanged |
| Settings.EmptyIsNotMissing | src/services/settingsService.js:6 | a stored '' is returned as '', a missing key as the fallback |
| Settings.TrimmedSettingStable | src/services/settingsService.js:24-34 | trimming an accessor's value again changes nothing |
| Bootstrap.AdminTable.BootstrapPrimaryAdmin | src/server.js:14-27 | an admin is created exactly when the table is empty, and it is the one primary admin |
| Bootstrap.WithoutZero | src/server.js:35 | destroy where is_primary = 0 keeps exactly the rows whose flag is not 0 |
| Bootstrap.AdminTable.EnforceSingleAdmin | src/server.js:29-36 | the table becomes the enforced table |
| Bootstrap.EnforcedSpec | src/server.js:29-36 | after enforcement no remaining row has flag 0, a non-empty table stays non-empty, no primary is deleted |
| Bootstrap.EnforcedAllPrimary | src/server.js:29-36 | with flags 0 or 1, every remaining admin is primary |
| Bootstrap.EnforcedIdempotent | src/server.js:29-36 | a second enforcement changes nothing |
| Bootstrap.BootstrapThenEnforce | src/server.js:14-36 | after bootstrap on an empty table, enforcement keeps the single primary admin |
| Bootstrap.Ensured | src/server.js:38-52 | afterwards each listed key exists; existing values are unchanged and created ones are '' |
| Bootstrap.EnsuredIdempotent | src/server.js:49-50 | ensureSettings is idempotent |
| Bootstrap.EnsureSettings | src/server.js:48-51 | the loop leaves the table equal to the ensured table |
| AppRoutes.SlashRunEnd | src/app.js:98 | the run of slashes from a position ends at the first non-slash |
| AppRoutes.SlashRunStart | src/app.js:98 | the run of slashes before a position starts just after the last non-slash |
| AppRoutes.DropLeadingSlashes | src/app.js:98 | a suffix of the input without a leading slash; only slashes are cut |
| AppRoutes.DropTrailingSlashes | src/app.js:98 | a prefix of the input without a trailing slash; only slashes are cut |
| AppRoutes.StripSlashesSpec | src/app.js:98 | ADMIN_PATH has no slash at either end, and it is the input with only slashes cut from its ends |
| AppRoutes.AdminPathDefault | src/app.js:98 | an unset path gives admin |
| AppRoutes.WantsSpaJsonSpec | src/app.js:100-106 | true exactly when the path contains /p/; a missing path gives false |
| Bus.LogLine | src/services/realtime/logger.js:3-8 | a log line is an object with four fields |
| Gateway.MessageOr | src/routes/api.admin.js:329 | a missing or falsy message gives the fallback, a truthy one its text |
| Gateway.Caught | src/routes/api.admin.js:361-362 | a caught error replies with its message when that is non-empty, otherwise with 'Server error' |
| Gateway.FirstTruthy | src/routes/api.admin.js:336-341 | the value of the first truthy data field among the keys (truthy, every earlier one falsy), none exactly when all are falsy |
| Gateway.FirstTruthyText | src/routes/api.admin.js:404-409 | the first truthy data field as text, null when all are falsy |
| Gateway.FirstIsUnique | src/routes/api.admin.js:336-341 | at most one field is the first truthy one |
| Orders.OwnerOf | src/models/Order.js:8 | the order carrying a token |
| Orders.InsertKeepsValid | src/models/Order.js:7-8 | inserting under a fresh id and token keeps ids and tokens unique |
| Orders.UpdateKeepsValid | src/models/Order.js:7-8 | an update that keeps id and token keeps ids and tokens unique |
| Orders.FindProduct | src/routes/api.public.js:21-22 | found exactly when the number is an active product's id |
| Orders.FindTier | src/routes/api.public.js:24-25 | found exactly when it is an active tier of that product |
| Orders.ExpiryMinutes | src/routes/api.public.js:33 | the configured minutes when they parse to a non-zero number, else 20 |
| Orders.OptionalText | src/routes/api.public.js:48 | email is stored exactly when it is truthy |
| Orders.ReadOrderForm | src/routes/api.public.js:19-28 | the form takes Number of the ids, the normalised number and an email only when one was given |
| Orders.DepositId | src/routes/api.public.js:66-69 | `data.id`, else `data.trx_id`, else `data.transaction_id`, the first truthy one as text, and null when none is |
| Orders.ReadDeposit | src/routes/api.public.js:54-71 | a throw, an accepted reply (status 'true') with its DepositId, or a refusal with its message |
| Orders.CreateValidation | src/routes/api.public.js:21-28 | creation is refused with nothing written, called or emitted unless the product, the tier and the phone are valid |
| Orders.CreatedOrder | src/routes/api.public.js:36-52 | the new order is pending, waiting, qty 1, price equal to the tier price, the normalised number, expiry now + minutes·60000 |
| Orders.CreateDepositOutcome | src/routes/api.public.js:54-90 | a thrown call replies `e.message \|\| 'Server error'`; a refused deposit fails the order with the error reply; an accepted one keeps it pending with the deposit id ReadDeposit read |
| Orders.CreateStoresDepositId | src/routes/api.public.js:61-69 | from the gateway's reply, an accepted deposit stores DepositId: the first truthy of id, trx_id and transaction_id |
| Orders.CreateKeepsTable | src/routes/api.public.js:36-71 | only the row under the new id is written, and ids and tokens stay unique |
| Orders.OrderStore.Create | src/routes/api.public.js:17-92 | the store and the events become what the create handler specifies |
| Orders.OrderStore.Record | src/routes/api.public.js:36-71 | inserting the pending row, requesting the deposit and recording its reply leave the store as the second half of the handler specifies, with ids and tokens still unique |
| Orders.DepositRow | src/routes/api.public.js:61-71 | recording the deposit reply keeps the row's id and token |
| Orders.CreateWritesOneRow | src/routes/api.public.js:36-71 | a create leaves the table alone or writes exactly one row, under the fresh id with the fresh token |
| Orders.OrderStore.FindByToken | src/routes/api.public.js:147 | found exactly when an order carries the token, and it is that order |
| Orders.WebhookAuth | src/routes/api.public.js:97-101 | without a non-empty secret equal to the header, 403 and nothing changes |
| Orders.WebhookPaidRule | src/routes/api.public.js:110-131 | an order becomes paid exactly when authorised, status word paid-like and order not yet paid; then one dashboard and one invoice event |
| Orders.WebhookIdempotent | src/routes/api.public.js:113 | a repeated delivery changes nothing and emits nothing |
| Orders.WebhookUnknownOrder | src/routes/api.public.js:104-108 | a missing reff or an unknown order leaves every order unchanged |
| Orders.OrderStore.Webhook | src/routes/api.public.js:95-138 | the store and the events become what the webhook specifies |
| Orders.CancelCall | src/routes/api.public.js:150-152 | a gateway cancel is asked for exactly when the order has a deposit id |
| Orders.CancelRule | src/routes/api.public.js:141-163 | refused for an empty or unknown token or a paid order; otherwise canceled with one dashboard and one invoice event |
| Orders.OrderStore.Cancel | src/routes/api.public.js:141-163 | the store and the events become what the cancel handler specifies |
| Orders.SetFulfilment | src/routes/api.admin.js:245-251 | sets the fulfilment status and the note (null when empty), nothing else |
| Orders.ActionStatus | src/routes/api.admin.js:244-255 | processing, done and rejected name their status; nothing else does |
| Orders.OrderStatusRule | src/routes/api.admin.js:233-274 | an unknown order or action changes nothing; otherwise only that order's fulfilment and note change, never pay_status |
| Orders.OrderStore.OrderStatus | src/routes/api.admin.js:233-274 | the store and the events become what the status route specifies |
| Orders.OrderStore.Fulfil | src/routes/api.admin.js:245 | order.update with the new status and note only |
| Orders.OrderStore.Announce | src/routes/api.admin.js:267-268 | one dashboard and one invoice event are appended |
| Orders.Dashboard | src/routes/api.admin.js:116-120 | counts of all, paid and waiting orders, with paid and waiting at most all |
| Orders.OrderStore.DashboardCounts | src/routes/api.admin.js:114-125 | the counts of the current table |
| Sweep.ExpiredAtSpec | src/services/cleanupService.js:21-25 | the processed orders are expired with everything else kept; other orders are untouched |
| Sweep.InvoiceEventsSpec | src/services/cleanupService.js:36 | one invoice event per processed order, with its token, in order |
| Sweep.CancelCallsSpec | src/services/cleanupService.js:22-24 | a gateway cancel is asked for exactly for processed orders with a deposit id |
| Sweep.Completed | src/services/cleanupService.js:21-43 | a failing update stops the batch at that row |
| Sweep.Attempted | src/services/cleanupService.js:22-25 | the failing row's cancel was still attempted |
| Sweep.Closing | src/services/cleanupService.js:39-42 | one dashboard event and the log line exactly when the batch was non-empty and completed |
| Sweep.CancelRow | src/services/cleanupService.js:22-24 | the cancel call, when the row has a deposit id |
| Sweep.MarkExpired | src/services/cleanupService.js:25-36 | the row expires and its invoice event is emitted |
| Sweep.ExpireRow | src/services/cleanupService.js:22-36 | one pass of the loop body |
| Sweep.ExpirePrefix | src/services/cleanupService.js:21-37 | the loop over the first k rows gives the expired table, the cancels and the events of those rows |
| Sweep.ExpireRows | src/services/cleanupService.js:21-37 | the loop stops at a failing update, and the rows before it are done |
| Sweep.Tick | src/services/cleanupService.js:9-44 | one tick is the loop followed by the closing events |
| Sweep.ExpiredAtValid | src/services/cleanupService.js:25 | expiring rows keeps ids and tokens unique |
| Sweep.SecondTickSkipsExpired | src/services/cleanupService.js:14-25 | a second tick at the same time selects none of the orders just expired |
| Sweep.TickOutcome | src/services/cleanupService.js:12-25 | each selected order is expired with its fulfilment kept, unselected orders are unchanged, and a batch of fewer than 50 leaves no order due |
| Sweep.Earliest | src/services/cleanupService.js:18 | an order of the set whose expiry is no later than any other's |
| Sweep.TakeSpec | src/services/cleanupService.js:12-19 | the query over the untaken orders gives at most n distinct due orders in ascending expiry, all of them when fewer than n, none expiring after a due order left out |
| Sweep.ConsBatch | src/services/cleanupService.js:17-18 | the earliest remaining order in front of a batch of the rest is a batch one longer |
| Sweep.BatchIsSelection | src/services/cleanupService.js:12-19 | a batch of 50 over the whole table is a selection as IsSelection describes it |
| Sweep.SelectIsSelection | src/services/cleanupService.js:12-19 | the query `Select` satisfies IsSelection: at most 50 due orders, oldest first, all of them when fewer, and no due order left out expires before one taken |
| Withdrawals.UpdateKeepsValid | src/models/Withdraw.js:8-9 | an update keeping both ids keeps them unique |
| Withdrawals.ReadWdForm | src/routes/api.admin.js:279-282 | the trimmed texts (empty bank name is null) and Number(nominal \|\| 0) |
| Withdrawals.CreateRule | src/routes/api.admin.js:284-299 | an empty bank code, an empty account or nominal ≤ 0 is refused with nothing changed; a NaN nominal fails on the insert with the caught message; otherwise a draft with the form's bank code, bank name and account, created_by the operator, fee 0 and total_debit = nominal |
| Withdrawals.WithdrawStore.Create | src/routes/api.admin.js:277-316 | the store becomes what the create handler specifies |
| Withdrawals.AccountName | src/routes/api.admin.js:336-345 | the first truthy of account_name, nama, name and nama_pemilik, as trimmed text; null when that text is empty or no field is truthy |
| Withdrawals.ReadAccountCheck | src/routes/api.admin.js:325-341 | a throw, a found account with its name, or a refusal with its message |
| Withdrawals.CheckRule | src/routes/api.admin.js:318-364 | any withdrawal is first set to checking; a refusal then gives failed with last_error, success gives ready with the name |
| Withdrawals.WithdrawStore.StartCheck | src/routes/api.admin.js:323-325 | status checking and the account-check call |
| Withdrawals.WithdrawStore.Check | src/routes/api.admin.js:318-364 | the store becomes what the check handler specifies |
| Withdrawals.ReadTransfer | src/routes/api.admin.js:393-406 | a throw, a refusal with its message, or an accepted transfer whose id is `data.id`, else `data.transfer_id` (null when neither is truthy), with `Number(fee \|\| 0)` and `status \|\| 'submitted'` |
| Withdrawals.NewFee | src/routes/api.admin.js:411 | only a positive gateway fee replaces the fee |
| Withdrawals.SubmitGuard | src/routes/api.admin.js:371-373 | a withdrawal that is not ready or draft is left unchanged, with no gateway call |
| Withdrawals.SubmitOutcome | src/routes/api.admin.js:386-414 | submitted first; a refusal gives failed; success sets the fee rule, total_debit = nominal + fee, the transfer id and provider_status `status \|\| 'submitted'` |
| Withdrawals.WithdrawStore.StartSubmit | src/routes/api.admin.js:375-393 | status submitted with approver and time, and the transfer call |
| Withdrawals.WithdrawStore.Submit | src/routes/api.admin.js:366-431 | the store becomes what the submit handler specifies |
| Withdrawals.ReadPoll | src/routes/api.admin.js:438-441 | a throw, a refusal with its message, or the lower-cased status word |
| Withdrawals.NextStatus | src/routes/api.admin.js:442-445 | success/sukses give success, failed/gagal give failed, anything else keeps the status |
| Withdrawals.PollRule | src/routes/api.admin.js:433-469 | needs a transfer id and an answer; records the word; finished_at is set only on success or failed |
| Withdrawals.PollReopensFinished | src/routes/api.admin.js:441-452 | no terminal guard: a succeeded withdrawal polled as failed becomes failed |
| Withdrawals.WithdrawStore.Poll | src/routes/api.admin.js:433-469 | the store becomes what the status handler specifies |
| Realtime.TokenOrNull | src/services/realtime/ws.js:16 | msg.token when truthy, else null |
| Realtime.HandleMessageRule | src/services/realtime/ws.js:13-21 | a malformed frame or unknown type changes nothing; each sub_* message changes only its own field |
| Realtime.HandleMessageIdempotent | src/services/realtime/ws.js:16-19 | handling the same frame twice is handling it once |
| Realtime.Deliver | src/services/realtime/ws.js:47-49 | an open connection that passes the filter gets one copy; any other is untouched |
| Realtime.RouteRule | src/services/realtime/ws.js:24-38 | each bus event reaches exactly the connections that asked for it, with its type tag |
| Realtime.Hub.Start | src/services/realtime/ws.js:7-41 | the hub is started and logs WS started |
| Realtime.Hub.Connect | src/services/realtime/ws.js:10-11 | a new connection subscribes to nothing |
| Realtime.Hub.Receive | src/services/realtime/ws.js:13-21 | only that connection's subscriptions change, as the handler says |
| Realtime.Hub.Broadcast | src/services/realtime/ws.js:43-51 | nothing before start; then one copy to each open connection passing the filter and to no other |
| Realtime.Hub.Publish | src/services/realtime/ws.js:24-38 | the event's listener broadcasts with its filter and payload |
| Realtime.OpenMessages | public/assets/wsrt.js:20-23 | onopen sends at most four messages |
| Realtime.ResubscribeRestores | public/assets/wsrt.js:15-24 | the replay is in the order invoice, logs, dashboard, wa, and it restores the server's view of the mirror |
| Realtime.ReplayOrder | public/assets/wsrt.js:20-23 | each kind at most once, in rank order |
| Realtime.ReplayRestores | public/assets/wsrt.js:20-23 | replaying on a fresh connection gives the mirror's server view |
| Realtime.HandleAllAppend | src/services/realtime/ws.js:13-21 | frames handled in order compose |
| Realtime.DispatchSpec | public/assets/wsrt.js:38 | every handler gets the message once, in registration order |
| Realtime.RtClient.Opened | public/assets/wsrt.js:15-24 | onopen appends exactly the replay messages |
| Realtime.RtClient.SubInvoice | public/assets/wsrt.js:51-54 | always recorded; sent only on an open socket |
| Realtime.RtClient.SubLogs | public/assets/wsrt.js:56-59 | recorded as a boolean; sent only on an open socket |
| Realtime.RtClient.SubDashboard | public/assets/wsrt.js:61-64 | recorded as a boolean; sent only on an open socket |
| Realtime.RtClient.SubWa | public/assets/wsrt.js:66-69 | recorded as a boolean; sent only on an open socket |
| Realtime.RtClient.On | public/assets/wsrt.js:49 | a handler is appended |
| Realtime.RtClient.OnMessage | public/assets/wsrt.js:34-39 | an unparsable or falsy frame reaches no handler; any other reaches every handler |
| Realtime.RtClient.Closed | public/assets/wsrt.js:26-30 | the socket is closed; the mirror is kept |
| Realtime.RtClient.Reconnect | public/assets/wsrt.js:12-13 | a new connecting socket; the mirror is kept |
| Realtime.SentMatchesMirror | public/assets/wsrt.js:51-69 | a message sent on subscription sets the server's field to the mirror's value |
| WhatsApp.SafeStateFields | src/services/wa/waService.js:46-55 | the payload holds the state's values under the six public names |
| WhatsApp.SafeStateOnlySix | src/services/wa/waService.js:46-55 | no other key is present |
| WhatsApp.Merge | src/services/wa/waService.js:57-60 | given fields replace, others are kept, updated_at is now |
| WhatsApp.MergeIdempotent | src/services/wa/waService.js:57-60 | merging the same patch twice is merging it once |
| WhatsApp.WaService.EmitState | src/services/wa/waService.js:57-60 | the state is merged and its public snapshot is published |
| WhatsApp.WaService.Start | src/services/wa/waService.js:66-82 | connecting with no error, a socket, the snapshot and a log line |
| WhatsApp.QrState | src/services/wa/waService.js:87-96 | connecting, the new QR, pairing code cleared |
| WhatsApp.WaService.OnQr | src/services/wa/waService.js:87-96 | the QR state is published and logged |
| WhatsApp.OpenState | src/services/wa/waService.js:98-107 | open, QR, pairing and error cleared, me set |
| WhatsApp.WaService.OnOpen | src/services/wa/waService.js:98-107 | the open state is published, with me only from a live socket |
| WhatsApp.CloseState | src/services/wa/waService.js:109-123 | close, me null, last_error "WA disconnected: code or unknown" |
| WhatsApp.DisconnectTextSpec | src/services/wa/waService.js:113 | the text names the code or says unknown |
| WhatsApp.WaService.OnClose | src/services/wa/waService.js:109-123 | the socket is dropped and a restart is scheduled exactly when the code is not loggedOut |
| WhatsApp.WaService.OnUpdate | src/services/wa/waService.js:85-124 | the qr part, then the open or close part |
| WhatsApp.LogoutState | src/services/wa/waService.js:196-210 | idle, with qr, pairing, me and error null |
| WhatsApp.WaService.Logout | src/services/wa/waService.js:196-210 | socket dropped, idle state published, one restart scheduled |
| WhatsApp.WaService.RequestPairingCode | src/services/wa/waService.js:189-194 | fails without a socket; on success sets the code and clears the QR |
| WhatsApp.WaService.SendToUser | src/services/wa/waService.js:175-180 | sends exactly when there is a socket and a number |
| WhatsApp.WaService.SendToAdmin | src/services/wa/waService.js:182-187 | sends to the normalised admin number read from the settings, nothing when it has no digits |
| WhatsApp.ParseParts | src/services/wa/waService.js:146-152 | a command exactly when the first token, lower-cased, is done or reject; the id is token 2; the note is the rest joined and trimmed |
| WhatsApp.CommandRoundTrip | src/services/wa/waService.js:146-152 | a text written as verb, id and note parses back to them |
| WhatsApp.AdminSenderRule | src/services/wa/waService.js:138-145 | the admin's own JID is honoured; with no admin number nothing is |
| WhatsApp.CommandTarget | src/services/wa/waService.js:127-153 | a target exactly for a non-empty text from the admin that parses and names a known order |
| WhatsApp.WaService.OnCommand | src/services/wa/waService.js:137-167 | with the admin number and site URL read from the settings, the target order's fulfilment and note change, the buyer is sent the verb's text built from that order, and the two events follow unless the send throws |
| WhatsApp.WaService.Tell | src/services/wa/waService.js:160-166 | the buyer is sent the text when there is a socket and a number, and the two events follow unless the send throws |
| WhatsApp.CommandReplyNamesOrder | src/services/wa/templates.js:57-86 | the buyer's message names the order, carries the note or its fallback, and links to that order's invoice |
| WhatsApp.WaService.OnMessage | src/services/wa/waService.js:126-170 | the first message's sender and text: an ignored message changes nothing, and an admin command has OnCommand's effect |
| WhatsApp.CommandRule | src/services/wa/waService.js:153-164 | a command changes only that order's fulfilment status and note (null when empty) |
| WhatsApp.VerifySpec | src/services/wa/waService.js:221-227 | true exactly for a stored, unexpired code; the code is removed in every case |
| WhatsApp.OtpSingleUse | src/services/wa/waService.js:221-227 | a code is accepted at most once |
| WhatsApp.OtpLifetimeRule | src/services/wa/waService.js:215-227 | a fresh code is accepted exactly up to five minutes after it was made |
| WhatsApp.OtpStore.Gen | src/services/wa/waService.js:215-219 | the code is String(n), stored with expiry now + 5 minutes |
| WhatsApp.OtpStore.Verify | src/services/wa/waService.js:221-227 | the answer and the store are those of the verify specification |
| WhatsApp.OtpFormat | src/services/wa/waService.js:216 | a generated code is six digits of n's value |
| PasswordReset.Utf16Length | src/routes/api.admin.js:97 | the length in UTF-16 units is between |s| and 2·|s| |
| PasswordReset.Utf16LengthBmp | src/routes/api.admin.js:97 | BMP text has length |s| |
| PasswordReset.PrimaryIndex | src/routes/api.admin.js:99-100 | the first primary admin, none exactly when there is none |
| PasswordReset.ConfirmRule | src/routes/api.admin.js:91-111 | success exactly when the code is live, the password has 8 units and a primary exists; then only its hash changes; the code is used up |
| PasswordReset.ConfirmErrors | src/routes/api.admin.js:96-100 | the error messages come in the handler's order |
| PasswordReset.ConfirmOnce | src/routes/api.admin.js:96 | the same code never resets twice |
| PasswordReset.ResetService.Request | src/routes/api.admin.js:81-89 | a new code is stored and sent to the admin number read from the settings; a failed send gives its error |
| PasswordReset.ResetService.Confirm | src/routes/api.admin.js:91-111 | the tables become what the confirm specification says |
| Ui.UnescapeEscape | public/assets/app.js:392-394 | unescaping the escaped text gives the text back |
| Ui.UnescapeChar | public/assets/app.js:393 | each character's escape reads back as the character |
| Ui.EscapeSafe | public/assets/app.js:392-394 | the output contains no <, >, " or ' |
| Ui.EscapeIdentity | public/assets/app.js:392-394 | text without the five special characters is unchanged |
| Ui.EscapeGrows | public/assets/app.js:392-394 | escaping never shortens the text |
| Ui.EscapeFalsy | public/assets/app.js:393 | a falsy value gives '' |
| Ui.GoodTones | public/assets/app.js:386-390 | paid, done, success and open give ok |
| Ui.WarnTones | public/assets/app.js:386-390 | pending, waiting, processing and connecting give warn |
| Ui.BadTones | public/assets/app.js:386-390 | failed, rejected, expired, canceled, close and no value give bad |
| Ui.ToneCases | public/assets/app.js:386-390 | for every value: ok exactly for the ok words, warn exactly for the in-progress words, bad for everything else, after lower-casing |
| Ui.ToneIgnoresCase | public/assets/app.js:387 | the tone does not depend on letter case |
| Ui.PillShape | public/assets/app.js:386-390 | the pill is a pill span that contains the escaped text |
| Ui.Matching | public/assets/app.js:227 | only active tiers whose product id string-equals the selected one, no more than the input |
| Ui.MatchingCounts | public/assets/app.js:227 | each listed tier is kept as often as it occurs, any other not at all |
| Ui.MatchingAppend | public/assets/app.js:227 | filtering a concatenation filters each part in order |
| Ui.MatchingOne | public/assets/app.js:227 | a single tier is kept exactly when it is listed |
| Ui.MatchingSnoc | public/assets/app.js:227 | one more tier is kept at the end exactly when it is listed |
| Ui.InsertSorted | public/assets/app.js:228 | insertion keeps the list sorted by sort_order (missing as 0) |
| Ui.InsertPermutes | public/assets/app.js:228 | insertion adds exactly the one tier |
| Ui.SortSpec | public/assets/app.js:228 | the sorted list is sorted and a permutation of the input |
| Ui.SortStable | public/assets/app.js:228 | tiers with equal key keep their order |
| Ui.TierOptionsRule | public/assets/app.js:222-233 | the drop-down lists exactly the matching tiers, each as often as it occurs, sorted by sort_order, with tiers of equal key in their original order |
| Ui.ReloadRule | public/assets/app.js:103-108 | the invoice page reloads exactly for an invoice push whose token is its own |
| Ui.ReloadNeedsInvoice | public/assets/app.js:103-108 | no other push reloads it |
| Ui.LogLineRendering | public/assets/app.js:748-754 | a logger line renders as [ts] LEVEL - msg, then the meta text when meta is truthy, with level info when empty |
| Ui.LogLineFields | public/assets/app.js:751 | the fields read back from a logger line are its own |

## Left out

- The I/O is not modelled. Express routing, sessions and CSRF are out,
  and so are the Sequelize models beyond the columns the handlers read
  and write. The Baileys socket, the QR rendering, the filesystem and
  `console` are out too. Their results appear as parameters.
- The payment gateway's HTTP client (src/services/gateway) is not part of
  this model. A call is an entry in the store's `calls` log, and its reply
  is a parameter.
- bcrypt is not modelled: the password hash is a parameter.
- `crypto.randomBytes` and `crypto.randomInt` are parameters: the bytes and
  the number drawn.
- The clock is a parameter (milliseconds and the ISO text of the log line).
  `setInterval` and `setTimeout` are not modelled: a scheduled WhatsApp
  restart is a counter, and a client reconnect is a separate method.
- Concurrency is not modelled. Each handler runs to completion, in the
  order its method is called, and the `await`s in between are not
  interleaved.
- `toLocaleString('id-ID')` (the amounts and dates in the messages) is
  abstract: the formatted text is a parameter, as in
  WhatsApp.WaService.OnCommand's `amountText` and `expiresText`.
- `JSON.stringify` is kept abstract. A frame is the parsed value, a
  request is its field values, and the snapshot columns `req_snapshot`,
  `res_snapshot` and `provider_payload` are not modelled.
- `logAudit` writes to the audit table and swallows its own errors. It does
  not change anything the model tracks, so it is left out.
- Js.LowerChar: case mapping covers ASCII letters and the Kelvin sign only,
  not all of Unicode.
- Js.ParseNumber: `Number()` is modelled on optionally signed decimal
  integers (and empty text as 0). Fractions, exponents, hex literals and
  `Infinity` read as NaN.
- JSON numbers in parsed values are integers: floating point is not
  modelled.
- The database's other failures are not modelled. A failing insert is the
  `dbError` parameter. A failing update in a handler comes before any reply
  and is not modelled beyond the sweep's `failAt`. A failing sweep query is
  a tick with no rows.
- Sweep.Tick takes the rows the query returned as a parameter. Its
  `IsSelection` predicate states what the query guarantees, and `Select`
  is one query result that meets it. The database may order orders of
  equal expiry differently, so the lemmas use `IsSelection`.
- The withdrawal's `admin_note`, `confirmed_by`, `confirmed_at` and
  `whatsapp_done_sent_at` are never written by the modelled code. Its
  `provider_status` is modelled: submit stores `status || 'submitted'`, and
  a poll then stores the lower-cased status word.
- Orders.CreateSpec, Orders.WebhookSpec and Orders.OrderStatusSpec do not
  model the WhatsApp messages their routes send (the admin's new-order and
  payment notices, and the buyer's invoice, paid, processing, done and
  rejected texts): only whether a send threw (`notify`) is an input, so
  who receives which text is not modelled there. The admin command path
  records its messages in WhatsApp.WaService's `outbox`.
- Orders.ReadDeposit: a refusal's reply carries the text of the gateway's
  `message`; the route passes a non-string `message` through unchanged.
- The `code` field of the close log line is left out when the code is
  undefined, as `JSON.stringify` does.
- Ui's query-string decoding of the invoice page's token is not modelled:
  the page's token is given decoded.
- The dashboard and WhatsApp-panel branches of the page's push handler
  are not modelled. They reload page parts (DOM).
- A message whose `msg.key` read would throw is an ignored message in
  WhatsApp.WaService.OnMessage.
