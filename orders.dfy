/** The order store: the order record, its two status axes, and the
    handlers that move an order along them (create, the deposit webhook,
    buyer cancel, the operator's fulfilment action) with the events each
    one emits. The gateway's replies, the clock and the random ids are
    inputs. */
module Orders {
  import opened Wrappers
  import opened Js
  import opened Phone
  import opened Settings
  import opened Gateway
  import opened Bus
  import opened Db
  import Templates

  // ---------------------------------------------------------------------
  // The record
  // ---------------------------------------------------------------------

  /** `pay_status` as this program writes it. */
  datatype PayStatus = Pending | Paid | Failed | Canceled | Expired

  /** `fulfill_status`, the column's ENUM. */
  datatype FulfillStatus = Waiting | Processing | Done | Rejected

  /** A row of `orders`. Counts and prices are unsigned columns; None is a
      NULL column. Times are milliseconds since the epoch. */
  datatype Order = Order(
    orderId: string,
    invoiceToken: string,
    productId: nat,
    tierId: nat,
    gameId: string,
    nickname: string,
    whatsapp: Option<string>,
    whatsappRaw: Option<string>,
    email: Option<string>,
    qty: nat,
    unitPrice: nat,
    grossAmount: nat,
    payStatus: PayStatus,
    fulfillStatus: FulfillStatus,
    adminNote: Option<string>,
    providerDepositId: Option<string>,
    expiresAt: Option<int>)

  /** The table is keyed by `order_id`, and `invoice_token` is unique. */
  predicate ValidOrders(orders: map<string, Order>) {
    && (forall id :: id in orders ==> orders[id].orderId == id)
    && (forall a, b :: a in orders && b in orders && orders[a].invoiceToken == orders[b].invoiceToken ==> a == b)
  }

  predicate HasToken(orders: map<string, Order>, token: string) {
    exists id :: id in orders && orders[id].invoiceToken == token
  }

  /** `Order.findOne({ where: { invoice_token } })`: the unique owner. */
  ghost function OwnerOf(orders: map<string, Order>, token: string): (id: string)
    requires HasToken(orders, token)
    ensures id in orders && orders[id].invoiceToken == token
  {
    var id :| id in orders && orders[id].invoiceToken == token; id
  }

  /** Changing a row in place, without touching its id or its token, keeps
      the table valid. */
  lemma UpdateKeepsValid(orders: map<string, Order>, id: string, o: Order)
    requires ValidOrders(orders) && id in orders
    requires o.orderId == id && o.invoiceToken == orders[id].invoiceToken
    ensures ValidOrders(orders[id := o])
  {
  }

  /** Adding a row under a fresh id with a fresh token keeps the table
      valid. */
  lemma InsertKeepsValid(orders: map<string, Order>, o: Order)
    requires ValidOrders(orders) && o.orderId !in orders && !HasToken(orders, o.invoiceToken)
    ensures ValidOrders(orders[o.orderId := o])
  {
  }

  /** What one handler leaves behind: the table, the events it emitted in
      order, the gateway calls it made in order, and its reply. */
  datatype Step<R> = Step(orders: map<string, Order>, emitted: seq<Event>, calls: seq<Call>, reply: R)

  /** The two events every successful order change ends with. */
  function Changed(token: string): seq<Event> {
    [DashboardUpdated, InvoiceUpdated(token)]
  }

  // ---------------------------------------------------------------------
  // POST /public/order
  // ---------------------------------------------------------------------

  /** A row of `products` (only what the lookup reads). */
  datatype ProductRow = ProductRow(active: int)
  /** A row of `product_tiers`. */
  datatype TierRow = TierRow(productId: nat, active: int, price: nat)
  datatype Catalog = Catalog(products: map<nat, ProductRow>, tiers: map<nat, TierRow>)

  /** `Product.findOne({ where: { id: n, active: 1 } })` for the number
      `n` read from the form (None: NaN). */
  function FindProduct(c: Catalog, n: Option<int>): (p: Option<nat>)
    ensures p.Some? <==> n.Some? && n.value >= 0 && n.value in c.products && c.products[n.value].active == 1
    ensures p.Some? ==> Some(p.value as int) == n
  {
    if n.Some? && n.value >= 0 && n.value in c.products && c.products[n.value].active == 1 then Some(n.value)
    else None
  }

  /** `ProductTier.findOne({ where: { id: n, product_id, active: 1 } })`. */
  function FindTier(c: Catalog, n: Option<int>, productId: nat): (t: Option<nat>)
    ensures t.Some? <==> n.Some? && n.value >= 0 && n.value in c.tiers
                         && c.tiers[n.value].productId == productId && c.tiers[n.value].active == 1
    ensures t.Some? ==> t.value in c.tiers && Some(t.value as int) == n
  {
    if n.Some? && n.value >= 0 && n.value in c.tiers && c.tiers[n.value].productId == productId
       && c.tiers[n.value].active == 1
    then Some(n.value)
    else None
  }

  const ExpirySettingKey: string := "invoice_exp_minutes"

  /** `Number(setting) || 20`: the configured minutes when they read as a
      non-zero number, and 20 otherwise. */
  function ExpiryMinutes(setting: string): (m: int)
    ensures m != 0
    ensures ParseNumber(setting).Some? && ParseNumber(setting).value != 0 ==> m == ParseNumber(setting).value
    ensures ParseNumber(setting).None? || ParseNumber(setting) == Some(0) ==> m == 20
  {
    var n := ParseNumber(setting);
    if n.Some? && n.value != 0 then n.value else 20
  }

  /** `email ? String(email).trim() : null`. */
  function OptionalText(v: Option<JsonValue>): (r: Option<string>)
    ensures r.Some? <==> v.Some? && Truthy(v.value)
  {
    if v.Some? && Truthy(v.value) then Some(Trim(JsString(v.value))) else None
  }

  /** The fields of the order form, read from the request body as the
      handler reads them. */
  datatype OrderForm = OrderForm(
    productId: Option<int>,
    tierId: Option<int>,
    gameId: string,
    nickname: string,
    whatsapp: WaNumber,
    email: Option<string>)

  /** `Number(product_id)`, `Number(tier_id)`, the trimmed texts, the
      normalised number and the optional e-mail. */
  function ReadOrderForm(body: JsonValue): (f: OrderForm)
    ensures f.productId == ToNumber(Get(body, "product_id")) && f.tierId == ToNumber(Get(body, "tier_id"))
    ensures f.whatsapp == Normalize(TextOr(Get(body, "whatsapp")))
    ensures f.email.Some? <==> FieldTruthy(body, "email")
  {
    OrderForm(ToNumber(Get(body, "product_id")), ToNumber(Get(body, "tier_id")), FormText(body, "game_id"),
              FormText(body, "nickname"), Normalize(TextOr(Get(body, "whatsapp"))), OptionalText(Get(body, "email")))
  }

  /** The row `Order.create` inserts. */
  function NewOrder(oid: string, inv: string, productId: nat, tierId: nat, f: OrderForm,
                    price: nat, expiresAt: int): Order
  {
    Order(
      oid, inv, productId, tierId,
      f.gameId, f.nickname,
      f.whatsapp.e164, f.whatsapp.raw,
      f.email,
      1, price, price,
      Pending, Waiting,
      None, None, Some(expiresAt))
  }

  /** `dep?.data?.id || dep?.data?.trx_id || dep?.data?.transaction_id`,
      as text, or null. */
  function DepositId(dep: Reply): (d: Option<string>)
    ensures TruthyField(dep, "id") ==> d == Some(JsString(DataField(dep, "id").value))
    ensures !TruthyField(dep, "id") && TruthyField(dep, "trx_id") ==>
      d == Some(JsString(DataField(dep, "trx_id").value))
    ensures !TruthyField(dep, "id") && !TruthyField(dep, "trx_id") && TruthyField(dep, "transaction_id") ==>
      d == Some(JsString(DataField(dep, "transaction_id").value))
    ensures !TruthyField(dep, "id") && !TruthyField(dep, "trx_id") && !TruthyField(dep, "transaction_id") ==>
      d == None
  {
    FirstOfThree(dep, "id", "trx_id", "transaction_id");
    FirstTruthyText(dep, ["id", "trx_id", "transaction_id"])
  }

  /** What the create handler makes of the deposit reply: the call threw;
      its status was not 'true' (with its message when truthy); or it was
      accepted, with the gateway's deposit id. */
  datatype Deposit = DepositThrew(error: string) | DepositRefused(message: Option<string>) | DepositAccepted(depositId: Option<string>)

  function ReadDeposit(dep: Reply): (d: Deposit)
    ensures d.DepositThrew? <==> dep.Threw?
    ensures d.DepositAccepted? <==> Succeeded(dep)
    ensures d.DepositRefused? ==>
      d.message.GetOr("unknown") == MessageOr(dep, "unknown")
      && d.message.GetOr("Gagal buat invoice") == MessageOr(dep, "Gagal buat invoice")
    ensures d.DepositAccepted? ==> d.depositId == DepositId(dep)
  {
    if dep.Threw? then DepositThrew(dep.error)
    else if !Succeeded(dep) then
      // The route replies with the raw `dep?.message`; the model keeps its text.
      var m := GetOpt(Body(dep), "message");
      DepositRefused(if m.Some? && Truthy(m.value) then Some(JsString(m.value)) else None)
    else DepositAccepted(DepositId(dep))
  }

  /** The handler of POST /public/order. `f` is the form, `expMin` the
      configured expiry (see `ExpiryMinutes`), `oid`/`inv` the generated
      order id and token, `now` the clock, `dep` the deposit reply and
      `notify` whether a WhatsApp notification threw (with the error's
      message); the audit write swallows its own errors. */
  ghost function CreateSpec(orders: map<string, Order>, c: Catalog, f: OrderForm, expMin: int,
                            oid: string, inv: string, now: int,
                            dep: Deposit, notify: Option<string>): Step<Result<string, string>>
  {
    var prod := FindProduct(c, f.productId);
    if prod.None? then Step(orders, [], [], Err("Produk tidak valid"))
    else
      var tier := FindTier(c, f.tierId, prod.value);
      if tier.None? then Step(orders, [], [], Err("Nominal tidak valid"))
      else
        if f.whatsapp.e164.None? then Step(orders, [], [], Err("WhatsApp tidak valid"))
        else
          var price := c.tiers[tier.value].price;
          var o := NewOrder(oid, inv, prod.value, tier.value, f, price, now + expMin * 60 * 1000);
          if oid in orders || HasToken(orders, inv) then Step(orders, [], [], Err(UniqueViolation))
          else RecordSpec(orders, o, price, dep, notify)
  }

  /** The second half of a create: the pending row `o` is inserted, the
      deposit for `price` is requested, and its reply is recorded on the
      row; the change events follow only a clean success. */
  ghost function RecordSpec(orders: map<string, Order>, o: Order, price: nat,
                            dep: Deposit, notify: Option<string>): Step<Result<string, string>>
  {
    var call := [CreateDeposit(o.orderId, price)];
    var written := orders[o.orderId := DepositRow(o, dep)];
    if dep.DepositThrew? then Step(written, [], call, Err(Caught(dep.error)))
    else if dep.DepositRefused? then Step(written, [], call, Err(dep.message.GetOr("Gagal buat invoice")))
    else if notify.Some? then Step(written, [], call, Err(Caught(notify.value)))
    else Step(written, Changed(o.invoiceToken), call,
              Ok("/p/invoice?token=" + Templates.EncodeUriComponent(o.invoiceToken)))
  }

  /** The new row as the deposit reply leaves it: unchanged when the call
      threw, failed with the gateway's message when it was refused, and
      holding the deposit id when it was accepted. */
  function DepositRow(o: Order, dep: Deposit): (r: Order)
    ensures r.orderId == o.orderId && r.invoiceToken == o.invoiceToken
  {
    match dep
    case DepositThrew(_) => o
    case DepositRefused(message) =>
      o.(payStatus := Failed, adminNote := Some("Deposit error: " + message.GetOr("unknown")))
    case DepositAccepted(depositId) => o.(providerDepositId := depositId)
  }

  /** A create either leaves the table alone or writes one row under the
      fresh id, with the fresh token. */
  lemma CreateWritesOneRow(orders: map<string, Order>, c: Catalog, f: OrderForm, expMin: int,
                           oid: string, inv: string, now: int, dep: Deposit, notify: Option<string>)
    ensures var st := CreateSpec(orders, c, f, expMin, oid, inv, now, dep, notify);
      || st.orders == orders
      || (&& oid !in orders && !HasToken(orders, inv) && oid in st.orders
          && st.orders == orders[oid := st.orders[oid]]
          && st.orders[oid].orderId == oid && st.orders[oid].invoiceToken == inv)
  {
  }

  /** Creation is refused, with nothing written and nothing sent, exactly
      when the product is not an active one, the tier is not an active tier
      of that product, or the number has no digits. */
  lemma CreateValidation(orders: map<string, Order>, c: Catalog, f: OrderForm, expMin: int,
                         oid: string, inv: string, now: int, dep: Deposit, notify: Option<string>)
    ensures var st := CreateSpec(orders, c, f, expMin, oid, inv, now, dep, notify);
      var prod := FindProduct(c, f.productId);
      var valid := prod.Some? && FindTier(c, f.tierId, prod.value).Some? && f.whatsapp.e164.Some?;
      && (!valid ==> st.orders == orders && st.emitted == [] && st.calls == [] && st.reply.Err?)
      && (valid && oid !in orders && !HasToken(orders, inv) ==> oid in st.orders && st.calls == [CreateDeposit(oid, st.orders[oid].grossAmount)])
  {
  }

  /** A create writes at most the one row under the new id: every other
      row stays as it was, and the table stays valid. */
  lemma CreateKeepsTable(orders: map<string, Order>, c: Catalog, f: OrderForm, expMin: int,
                         oid: string, inv: string, now: int, dep: Deposit, notify: Option<string>)
    requires ValidOrders(orders)
    ensures var st := CreateSpec(orders, c, f, expMin, oid, inv, now, dep, notify);
      && ValidOrders(st.orders)
      && (st.orders == orders || (oid !in orders && st.orders.Keys == orders.Keys + {oid}))
      && (forall id :: id in orders ==> id in st.orders && st.orders[id] == orders[id])
  {
    var st := CreateSpec(orders, c, f, expMin, oid, inv, now, dep, notify);
    CreateWritesOneRow(orders, c, f, expMin, oid, inv, now, dep, notify);
    if st.orders != orders {
      InsertKeepsValid(orders, st.orders[oid]);
    }
  }

  /** The order a create inserts: pending and waiting, quantity 1, the
      tier's price as unit price and total, the normalised number, and an
      expiry `expMin` minutes after `now`. */
  lemma CreatedOrder(orders: map<string, Order>, c: Catalog, f: OrderForm, expMin: int,
                     oid: string, inv: string, now: int, dep: Deposit, notify: Option<string>)
    ensures var st := CreateSpec(orders, c, f, expMin, oid, inv, now, dep, notify);
      oid in st.orders && oid !in orders ==>
        var o, p, t := st.orders[oid], FindProduct(c, f.productId), FindTier(c, f.tierId, st.orders[oid].productId);
        && o.orderId == oid && o.invoiceToken == inv
        && o.qty == 1 && o.unitPrice == o.grossAmount
        && p == Some(o.productId) && t == Some(o.tierId) && o.grossAmount == c.tiers[o.tierId].price
        && o.fulfillStatus == Waiting
        && (o.payStatus == Pending || o.payStatus == Failed)
        && o.whatsapp == f.whatsapp.e164 && o.whatsappRaw == f.whatsapp.raw && o.whatsapp.Some?
        && o.gameId == f.gameId && o.nickname == f.nickname && o.email == f.email
        && o.expiresAt == Some(now + expMin * 60000)
  {
  }

  /** The deposit reply decides the order's payment status: a reply whose
      status is not 'true' marks it failed with the gateway's message kept
      in the note; a successful one leaves it pending with the gateway's
      deposit id, and only then are the two change events emitted. */
  lemma CreateDepositOutcome(orders: map<string, Order>, c: Catalog, f: OrderForm, expMin: int,
                             oid: string, inv: string, now: int, dep: Deposit, notify: Option<string>)
    ensures var st := CreateSpec(orders, c, f, expMin, oid, inv, now, dep, notify);
      oid in st.orders && oid !in orders ==>
        && (dep.DepositThrew? ==> st.orders[oid].payStatus == Pending && st.reply == Err(Caught(dep.error)) && st.emitted == [])
        && (dep.DepositRefused? ==>
              st.orders[oid].payStatus == Failed
              && st.orders[oid].adminNote == Some("Deposit error: " + dep.message.GetOr("unknown"))
              && st.reply == Err(dep.message.GetOr("Gagal buat invoice")) && st.emitted == [])
        && (dep.DepositAccepted? ==>
              st.orders[oid].payStatus == Pending && st.orders[oid].providerDepositId == dep.depositId)
        && (st.emitted != [] <==> dep.DepositAccepted? && notify.None?)
        && (st.emitted != [] ==> st.emitted == Changed(inv) && st.reply.Ok?)
  {
  }

  /** Read from the gateway's reply, an accepted deposit stores on the new
      row the first truthy one of `id`, `trx_id` and `transaction_id` as
      text, and null when none is. */
  lemma CreateStoresDepositId(orders: map<string, Order>, c: Catalog, f: OrderForm, expMin: int,
                              oid: string, inv: string, now: int, reply: Reply, notify: Option<string>)
    ensures var st := CreateSpec(orders, c, f, expMin, oid, inv, now, ReadDeposit(reply), notify);
      oid in st.orders && oid !in orders && Succeeded(reply) ==>
        && st.orders[oid].payStatus == Pending
        && st.orders[oid].providerDepositId == DepositId(reply)
  {
    var dep := ReadDeposit(reply);
    if Succeeded(reply) {
      assert dep == DepositAccepted(DepositId(reply));
      CreateDepositOutcome(orders, c, f, expMin, oid, inv, now, dep, notify);
    }
  }

  // ---------------------------------------------------------------------
  // POST /public/webhook/deposit
  // ---------------------------------------------------------------------

  datatype WebhookReply = Forbidden | Acknowledged(ok: bool)

  const PaidWords: seq<string> := ["paid", "success", "sukses", "completed"]

  /** `String(status || '').toLowerCase()`: the status word as compared. */
  function StatusWord(body: JsonValue): string {
    ToLower(TextOr(Get(body, "status")))
  }

  /** The status words the webhook treats as payment. */
  predicate PaidLike(word: string) {
    word in PaidWords
  }

  /** `String(data?.reff_id || '').trim()`. */
  function ReffId(body: JsonValue): string {
    Trim(TextOr(GetOpt(Get(body, "data"), "reff_id")))
  }

  /** The line `logger.error('webhook error', { err })` publishes. */
  function WebhookErrorLine(ts: string, err: string): JsonValue {
    LogLine(ts, "error", "webhook error", Some(JObject([("err", JStr(err))])))
  }

  /** The handler of the deposit webhook. `secret` is `getWebhookSecret()`,
      `header` the `x-webhook-secret` header, `reff` the body's
      `ReffId` and `word` its `StatusWord`; `notify` is the error a
      WhatsApp notification threw, if one did, and `ts` the clock's text
      for the log line the handler then publishes. */
  function WebhookSpec(orders: map<string, Order>, secret: string, header: Option<string>,
                       reff: string, word: string, notify: Option<string>, ts: string): Step<WebhookReply>
  {
    if secret == "" || header.GetOr("") != secret then Step(orders, [], [], Forbidden)
    else
      if reff == "" || reff !in orders then Step(orders, [], [], Acknowledged(true))
      else
        var o := orders[reff];
        if PaidLike(word) && o.payStatus != Paid then
          var paid := orders[reff := o.(payStatus := Paid)];
          if notify.Some? then Step(paid, [Log(WebhookErrorLine(ts, notify.value))], [], Acknowledged(false))
          else Step(paid, Changed(o.invoiceToken), [], Acknowledged(true))
        else Step(orders, [], [], Acknowledged(true))
  }

  /** The webhook changes nothing and answers 403 unless a non-empty
      secret is configured and the header carries exactly it. */
  lemma WebhookAuth(orders: map<string, Order>, secret: string, header: Option<string>, ts: string,
                    reff: string, word: string, notify: Option<string>)
    ensures var st := WebhookSpec(orders, secret, header, reff, word, notify, ts);
      (st.reply == Forbidden <==> secret == "" || header.GetOr("") != secret)
      && (st.reply == Forbidden ==> st.orders == orders && st.emitted == [])
  {
  }

  /** An order becomes paid exactly when the request is authorised, names
      it, carries a paid-like status and it is not paid yet; that is also
      exactly when the two change events may be emitted, and no other order
      changes. A non-paid order becomes paid whatever its status was,
      expired and canceled included. */
  lemma WebhookPaidRule(orders: map<string, Order>, secret: string, header: Option<string>, ts: string,
                        reff: string, word: string, notify: Option<string>)
    ensures var st := WebhookSpec(orders, secret, header, reff, word, notify, ts);
      var marks := secret != "" && header.GetOr("") == secret && reff != "" && reff in orders
                   && PaidLike(word) && orders[reff].payStatus != Paid;
      && (marks ==> st.orders == orders[reff := orders[reff].(payStatus := Paid)])
      && (!marks ==> st.orders == orders)
      && (!marks ==> st.emitted == [] && st.reply != Acknowledged(false))
      && (marks && notify.None? ==> st.emitted == Changed(orders[reff].invoiceToken) && st.reply == Acknowledged(true))
      && (marks && notify.Some? ==> st.emitted == [Log(WebhookErrorLine(ts, notify.value))] && st.reply == Acknowledged(false))
      && st.calls == []
  {
  }

  /** A repeated delivery changes nothing and emits nothing. */
  lemma WebhookIdempotent(orders: map<string, Order>, secret: string, header: Option<string>, ts: string,
                          reff: string, word: string, n1: Option<string>, n2: Option<string>)
    ensures var once := WebhookSpec(orders, secret, header, reff, word, n1, ts);
      var twice := WebhookSpec(once.orders, secret, header, reff, word, n2, ts);
      twice.orders == once.orders && twice.emitted == []
  {
  }

  /** A missing reff_id or an unknown order leaves every order unchanged. */
  lemma WebhookUnknownOrder(orders: map<string, Order>, secret: string, header: Option<string>, ts: string,
                            reff: string, word: string, notify: Option<string>)
    requires reff !in orders
    ensures WebhookSpec(orders, secret, header, reff, word, notify, ts).orders == orders
    ensures WebhookSpec(orders, secret, header, reff, word, notify, ts).emitted == []
  {
  }

  // ---------------------------------------------------------------------
  // POST /public/invoice/cancel
  // ---------------------------------------------------------------------

  /** `if (order.provider_deposit_id)`: a non-empty deposit id. */
  predicate HasDepositId(o: Order) {
    o.providerDepositId.Some? && o.providerDepositId.value != ""
  }

  /** The gateway cancel a row asks for (none without a deposit id). */
  function CancelCall(o: Order): (r: seq<Call>)
    ensures |r| <= 1 && (r != [] <==> HasDepositId(o))
  {
    if HasDepositId(o) then [CancelDeposit(o.providerDepositId.value)] else []
  }

  /** The handler of the buyer's cancel. The gateway's answer to the cancel
      is ignored, so it is not an input. */
  ghost function CancelSpec(orders: map<string, Order>, inv: string): Step<Result<(), string>> {
    if inv == "" then Step(orders, [], [], Err("Token kosong"))
    else if !HasToken(orders, inv) then Step(orders, [], [], Err("Invoice tidak ditemukan"))
    else
      var id := OwnerOf(orders, inv);
      var o := orders[id];
      if o.payStatus == Paid then Step(orders, [], [], Err("Sudah paid"))
      else Step(orders[id := o.(payStatus := Canceled)], Changed(inv), CancelCall(o), Ok(()))
  }

  /** Cancel is refused, changing nothing, for an empty or unknown token
      and for a paid order; otherwise exactly the owning order becomes
      canceled, its deposit is cancelled at the gateway when it has one,
      and the two change events carry its token. */
  lemma CancelRule(orders: map<string, Order>, inv: string)
    requires ValidOrders(orders)
    ensures var st := CancelSpec(orders, inv);
      && (st.reply.Ok? <==> inv != "" && HasToken(orders, inv) && orders[OwnerOf(orders, inv)].payStatus != Paid)
      && (st.reply.Err? ==> st.orders == orders && st.emitted == [] && st.calls == [])
      && (st.reply.Ok? ==>
            var id := OwnerOf(orders, inv);
            && st.orders == orders[id := orders[id].(payStatus := Canceled)]
            && st.emitted == Changed(inv)
            && st.calls == CancelCall(orders[id])
            && ValidOrders(st.orders))
  {
    if inv != "" && HasToken(orders, inv) {
      var id := OwnerOf(orders, inv);
      UpdateKeepsValid(orders, id, orders[id].(payStatus := Canceled));
    }
  }

  // ---------------------------------------------------------------------
  // POST /order/:orderId/status and the shared fulfilment update
  // ---------------------------------------------------------------------

  /** `{ fulfill_status, admin_note: note || null }`. */
  function SetFulfilment(o: Order, s: FulfillStatus, note: string): (r: Order)
    ensures r.fulfillStatus == s
    ensures r.adminNote == (if note == "" then None else Some(note))
    ensures r.(fulfillStatus := o.fulfillStatus, adminNote := o.adminNote) == o
  {
    o.(fulfillStatus := s, adminNote := if note == "" then None else Some(note))
  }

  /** The three action words the operator route accepts. */
  function ActionStatus(action: string): (s: Option<FulfillStatus>)
    ensures s == Some(Processing) <==> action == "processing"
    ensures s == Some(Done) <==> action == "done"
    ensures s == Some(Rejected) <==> action == "rejected"
    ensures s != Some(Waiting)
  {
    if action == "processing" then Some(Processing)
    else if action == "done" then Some(Done)
    else if action == "rejected" then Some(Rejected)
    else None
  }

  /** The handler of POST /order/:orderId/status. */
  function OrderStatusSpec(orders: map<string, Order>, orderId: string, action: string, note: string,
                           notify: Option<string>): Step<Result<(), string>>
  {
    if orderId !in orders then Step(orders, [], [], Err("Order tidak ditemukan"))
    else
      var s := ActionStatus(action);
      if s.None? then Step(orders, [], [], Err("Action invalid"))
      else
        var o := orders[orderId];
        var next := orders[orderId := SetFulfilment(o, s.value, note)];
        if notify.Some? then Step(next, [], [], Err(Caught(notify.value)))
        else Step(next, Changed(o.invoiceToken), [], Ok(()))
  }

  /** The action sets only the fulfilment status and the note of the named
      order; it never reads or changes the payment status. An unknown order
      or any other action word changes nothing. */
  lemma OrderStatusRule(orders: map<string, Order>, orderId: string, a: string, note: string, notify: Option<string>)
    requires ValidOrders(orders)
    ensures var st := OrderStatusSpec(orders, orderId, a, note, notify);
      && ((orderId !in orders || ActionStatus(a).None?) ==> st.orders == orders && st.emitted == [] && st.reply.Err?)
      && (orderId in orders && ActionStatus(a).None? ==> st.reply == Err("Action invalid"))
      && (orderId in orders && ActionStatus(a).Some? ==>
            && st.orders.Keys == orders.Keys
            && st.orders[orderId].payStatus == orders[orderId].payStatus
            && st.orders[orderId].fulfillStatus == ActionStatus(a).value
            && st.orders[orderId] == SetFulfilment(orders[orderId], ActionStatus(a).value, note)
            && (forall id :: id in orders && id != orderId ==> st.orders[id] == orders[id])
            && ValidOrders(st.orders))
  {
    if orderId in orders && ActionStatus(a).Some? {
      UpdateKeepsValid(orders, orderId, SetFulfilment(orders[orderId], ActionStatus(a).value, note));
    }
  }

  // ---------------------------------------------------------------------
  // GET /dashboard/json
  // ---------------------------------------------------------------------

  datatype Counts = Counts(orders: nat, paid: nat, waiting: nat)

  /** `Order.count()`, and the counts of paid and of waiting orders. */
  function Dashboard(orders: map<string, Order>): (c: Counts)
    ensures c.orders == |orders|
    ensures c.paid <= c.orders && c.waiting <= c.orders
    ensures c.paid == |set id | id in orders && orders[id].payStatus == Paid|
    ensures c.waiting == |set id | id in orders && orders[id].fulfillStatus == Waiting|
  {
    var paid := set id | id in orders && orders[id].payStatus == Paid;
    var waiting := set id | id in orders && orders[id].fulfillStatus == Waiting;
    SubsetCard(paid, orders.Keys);
    SubsetCard(waiting, orders.Keys);
    Counts(|orders|, |paid|, |waiting|)
  }

  lemma {:induction false} SubsetCard(a: set<string>, b: set<string>)
    requires a <= b
    ensures |a| <= |b|
    decreases |b|
  {
    if a != {} {
      var x :| x in a;
      SubsetCard(a - {x}, b - {x});
    }
  }

  // ---------------------------------------------------------------------
  // The store
  // ---------------------------------------------------------------------

  class OrderStore {
    var orders: map<string, Order>
    /** Everything emitted on the bus, oldest first. */
    var events: seq<Event>
    /** Every gateway request made, oldest first. */
    var calls: seq<Call>

    ghost predicate Valid() reads this {
      ValidOrders(orders)
    }

    constructor ()
      ensures Valid() && orders == map[] && events == [] && calls == []
    {
      orders := map[];
      events := [];
      calls := [];
    }

    /** Finds the order carrying `token`. */
    method FindByToken(token: string) returns (id: Option<string>)
      requires Valid()
      ensures id.Some? <==> HasToken(orders, token)
      ensures id.Some? ==> id.value == OwnerOf(orders, token)
    {
      if HasToken(orders, token) {
        var k :| k in orders && orders[k].invoiceToken == token;
        id := Some(k);
      } else {
        id := None;
      }
    }

    /** POST /public/order, step by step: validate, insert the pending row,
        ask the gateway for a deposit, then record its outcome. `f` is the
        form as `ReadOrderForm` reads it from the body, `expMin` the
        `ExpiryMinutes` of the configured setting and `dep` the deposit
        reply as `ReadDeposit` reads it. */
    method Create(c: Catalog, f: OrderForm, expMin: int, oid: string, inv: string,
                       now: int, dep: Deposit, notify: Option<string>) returns (r: Result<string, string>)
      requires Valid()
      modifies this
      ensures Valid()
      ensures var st := CreateSpec(old(orders), c, f, expMin, oid, inv, now, dep, notify);
        orders == st.orders && events == old(events) + st.emitted && calls == old(calls) + st.calls && r == st.reply
    {
      var prod := FindProduct(c, f.productId);
      if prod.None? { return Err("Produk tidak valid"); }
      var tier := FindTier(c, f.tierId, prod.value);
      if tier.None? { return Err("Nominal tidak valid"); }
      if f.whatsapp.e164.None? { return Err("WhatsApp tidak valid"); }
      var price := c.tiers[tier.value].price;
      var o := NewOrder(oid, inv, prod.value, tier.value, f, price, now + expMin * 60 * 1000);
      var taken := FindByToken(inv);
      if oid in orders || taken.Some? { return Err(UniqueViolation); }
      r := Record(o, price, dep, notify);
    }

    /** Inserts the pending row, asks the gateway for the deposit and
        records its reply on the row. */
    method Record(o: Order, price: nat, dep: Deposit, notify: Option<string>) returns (r: Result<string, string>)
      requires Valid() && o.orderId !in orders && !HasToken(orders, o.invoiceToken)
      modifies this
      ensures Valid()
      ensures var st := RecordSpec(old(orders), o, price, dep, notify);
        orders == st.orders && events == old(events) + st.emitted && calls == old(calls) + st.calls && r == st.reply
    {
      var oid := o.orderId;
      InsertKeepsValid(orders, o);
      ghost var before := orders;
      orders := orders[oid := o];
      calls := calls + [CreateDeposit(oid, price)];
      if dep.DepositThrew? { return Err(Caught(dep.error)); }
      var row := DepositRow(o, dep);
      UpdateKeepsValid(orders, oid, row);
      assert orders[oid := row] == before[oid := row];
      orders := orders[oid := row];
      if dep.DepositRefused? { return Err(dep.message.GetOr("Gagal buat invoice")); }
      if notify.Some? { return Err(Caught(notify.value)); }
      events := events + [DashboardUpdated, InvoiceUpdated(o.invoiceToken)];
      r := Ok("/p/invoice?token=" + Templates.EncodeUriComponent(o.invoiceToken));
    }

    /** POST /public/webhook/deposit; `reff` and `word` are the body's
        `ReffId` and `StatusWord`. */
    method Webhook(secret: string, header: Option<string>, reff: string, word: string, notify: Option<string>, ts: string)
      returns (r: WebhookReply)
      requires Valid()
      modifies this
      ensures Valid()
      ensures var st := WebhookSpec(old(orders), secret, header, reff, word, notify, ts);
        orders == st.orders && events == old(events) + st.emitted && calls == old(calls) && r == st.reply
    {
      if secret == "" { return Forbidden; }
      var got := header.GetOr("");
      if got != secret { return Forbidden; }
      if reff == "" { return Acknowledged(true); }
      if reff !in orders { return Acknowledged(true); }
      var o := orders[reff];
      if PaidLike(word) && o.payStatus != Paid {
        UpdateKeepsValid(orders, reff, o.(payStatus := Paid));
        orders := orders[reff := o.(payStatus := Paid)];
        if notify.Some? {
          events := events + [Log(WebhookErrorLine(ts, notify.value))];
          return Acknowledged(false);
        }
        events := events + [DashboardUpdated];
        events := events + [InvoiceUpdated(o.invoiceToken)];
      }
      r := Acknowledged(true);
    }

    /** POST /public/invoice/cancel; `inv` is the body's `FormText` of
        `token`. */
    method Cancel(inv: string) returns (r: Result<(), string>)
      requires Valid()
      modifies this
      ensures Valid()
      ensures var st := CancelSpec(old(orders), inv);
        orders == st.orders && events == old(events) + st.emitted && calls == old(calls) + st.calls && r == st.reply
    {
      if inv == "" { return Err("Token kosong"); }
      var found := FindByToken(inv);
      if found.None? { return Err("Invoice tidak ditemukan"); }
      var id := found.value;
      var o := orders[id];
      if o.payStatus == Paid { return Err("Sudah paid"); }
      if HasDepositId(o) {
        calls := calls + [CancelDeposit(o.providerDepositId.value)];
      }
      UpdateKeepsValid(orders, id, o.(payStatus := Canceled));
      orders := orders[id := o.(payStatus := Canceled)];
      events := events + [DashboardUpdated, InvoiceUpdated(o.invoiceToken)];
      r := Ok(());
    }

    /** POST /order/:orderId/status; `action` and `note` are the body's
        `FormText` of those fields. */
    method OrderStatus(orderId: string, action: string, note: string, notify: Option<string>) returns (r: Result<(), string>)
      requires Valid()
      modifies this
      ensures Valid()
      ensures var st := OrderStatusSpec(old(orders), orderId, action, note, notify);
        orders == st.orders && events == old(events) + st.emitted && calls == old(calls) && r == st.reply
    {
      if orderId !in orders { return Err("Order tidak ditemukan"); }
      var o := orders[orderId];
      var s := ActionStatus(action);
      if s.None? { return Err("Action invalid"); }
      UpdateKeepsValid(orders, orderId, SetFulfilment(o, s.value, note));
      orders := orders[orderId := SetFulfilment(o, s.value, note)];
      if notify.Some? { return Err(Caught(notify.value)); }
      events := events + [DashboardUpdated, InvoiceUpdated(o.invoiceToken)];
      r := Ok(());
    }

    /** The fulfilment update of a WhatsApp `done`/`reject` command; the
        message to the buyer and the events follow in the caller. */
    method Fulfil(orderId: string, s: FulfillStatus, note: string)
      requires Valid() && orderId in orders
      modifies this
      ensures Valid()
      ensures orders == old(orders)[orderId := SetFulfilment(old(orders)[orderId], s, note)]
      ensures events == old(events) && calls == old(calls)
    {
      UpdateKeepsValid(orders, orderId, SetFulfilment(orders[orderId], s, note));
      orders := orders[orderId := SetFulfilment(orders[orderId], s, note)];
    }

    /** The two events that announce a changed order. */
    method Announce(token: string)
      modifies this
      ensures orders == old(orders) && calls == old(calls) && events == old(events) + Changed(token)
    {
      events := events + [DashboardUpdated];
      events := events + [InvoiceUpdated(token)];
    }

    /** GET /dashboard/json. */
    method DashboardCounts() returns (c: Counts)
      ensures c.orders == |orders| && c.paid <= c.orders && c.waiting <= c.orders
      ensures c == Dashboard(orders)
    {
      c := Dashboard(orders);
    }
  }
}
