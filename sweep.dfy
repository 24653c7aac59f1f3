/** One tick of the expiry sweep: the pending orders whose expiry has
    passed are selected oldest first, at most a batch at a time; each gets
    its gateway deposit cancelled when it has one, becomes expired and is
    announced; a non-empty batch that completes is announced once more. */
module Sweep {
  import opened Wrappers
  import opened Js
  import opened Gateway
  import opened Bus
  import opened Orders

  /** The rows the sweep query matches: pending, with an expiry that has
      passed. */
  predicate Due(o: Order, now: int) {
    o.payStatus == Pending && o.expiresAt.Some? && o.expiresAt.value < now
  }

  /** `limit: 50`. */
  const BatchLimit: nat := 50

  /** What the query `findAll` returns, as a property of the ids it lists:
      at most 50 distinct due orders in ascending expiry; when fewer than 50
      come back, every due order is among them; a due order left out never
      expires before one that was taken. */
  ghost predicate IsSelection(orders: map<string, Order>, now: int, rows: seq<string>) {
    && |rows| <= BatchLimit
    && Listed(orders, rows)
    && (forall i :: 0 <= i < |rows| ==> Due(orders[rows[i]], now))
    && (forall i, j :: 0 <= i < j < |rows| ==>
          orders[rows[i]].expiresAt.value <= orders[rows[j]].expiresAt.value)
    && (|rows| < BatchLimit ==> forall id :: id in orders && Due(orders[id], now) ==> id in rows)
    && (forall id, i :: id in orders && Due(orders[id], now) && id !in rows && 0 <= i < |rows| ==>
          orders[rows[i]].expiresAt.value <= orders[id].expiresAt.value)
  }

  /** Distinct ids of rows of the table. */
  predicate Listed(orders: map<string, Order>, rows: seq<string>) {
    && (forall i :: 0 <= i < |rows| ==> rows[i] in orders)
    && (forall i, j :: 0 <= i < j < |rows| ==> rows[i] != rows[j])
  }

  /** The table once the orders in `ids` have been set to expired, one
      after the other. */
  function ExpiredAt(orders: map<string, Order>, ids: seq<string>): (m: map<string, Order>)
    ensures m.Keys == orders.Keys
  {
    if |ids| == 0 then orders
    else
      var m := ExpiredAt(orders, ids[..|ids| - 1]);
      var id := ids[|ids| - 1];
      if id in m then m[id := m[id].(payStatus := Expired)] else m
  }

  /** Row by row: an order listed in `ids` is the original with its payment
      status set to expired and nothing else changed; any other order is
      as it was. */
  lemma {:induction false} ExpiredAtSpec(orders: map<string, Order>, ids: seq<string>)
    ensures forall id :: id in orders ==>
              ExpiredAt(orders, ids)[id] == if id in ids then orders[id].(payStatus := Expired) else orders[id]
  {
    if |ids| > 0 {
      var init := ids[..|ids| - 1];
      ExpiredAtSpec(orders, init);
      assert forall id :: id in ids <==> id in init || id == ids[|ids| - 1];
    }
  }

  /** The gateway cancels asked for while processing `ids`, in order. */
  function CancelCalls(orders: map<string, Order>, ids: seq<string>): seq<Call>
    requires forall i :: 0 <= i < |ids| ==> ids[i] in orders
  {
    if |ids| == 0 then []
    else CancelCalls(orders, ids[..|ids| - 1]) + CancelCall(orders[ids[|ids| - 1]])
  }

  /** One `INVOICE_UPDATED` per processed order, with its token. */
  function InvoiceEvents(orders: map<string, Order>, ids: seq<string>): (es: seq<Event>)
    requires forall i :: 0 <= i < |ids| ==> ids[i] in orders
    ensures |es| == |ids|
  {
    if |ids| == 0 then []
    else InvoiceEvents(orders, ids[..|ids| - 1]) + [InvoiceUpdated(orders[ids[|ids| - 1]].invoiceToken)]
  }

  /** The i-th of those events carries the token of the i-th order. */
  lemma {:induction false} InvoiceEventsSpec(orders: map<string, Order>, ids: seq<string>)
    requires forall i :: 0 <= i < |ids| ==> ids[i] in orders
    ensures forall i :: 0 <= i < |ids| ==> InvoiceEvents(orders, ids)[i] == InvoiceUpdated(orders[ids[i]].invoiceToken)
  {
    if |ids| > 0 {
      var init := ids[..|ids| - 1];
      InvoiceEventsSpec(orders, init);
      assert forall i :: 0 <= i < |init| ==> init[i] == ids[i];
    }
  }

  /** How many rows are expired before the update at `failAt` (if any)
      throws. */
  function Completed(n: nat, failAt: Option<nat>): (k: nat)
    ensures k <= n
    ensures k < n <==> failAt.Some? && failAt.value < n
  {
    if failAt.Some? && failAt.value < n then failAt.value else n
  }

  /** How many rows reach the gateway cancel: the failing row does too,
      since its cancel comes before its update. */
  function Attempted(n: nat, failAt: Option<nat>): (k: nat)
    ensures Completed(n, failAt) <= k <= n
    ensures k == Completed(n, failAt) + (if Completed(n, failAt) < n then 1 else 0)
  {
    if failAt.Some? && failAt.value < n then failAt.value + 1 else n
  }

  /** `logger.warn('Auto-expired invoices', { count })`. */
  function ExpiredLine(ts: string, count: nat): JsonValue {
    LogLine(ts, "warn", "Auto-expired invoices", Some(JObject([("count", JNum(count))])))
  }

  /** What follows the loop: the dashboard event and the log line, only
      after a non-empty batch that went through. */
  function Closing(rows: seq<string>, failAt: Option<nat>, ts: string): (es: seq<Event>)
    ensures es != [] <==> |rows| > 0 && Completed(|rows|, failAt) == |rows|
    ensures es != [] ==> es == [DashboardUpdated, Log(ExpiredLine(ts, |rows|))]
  {
    if |rows| > 0 && Completed(|rows|, failAt) == |rows| then [DashboardUpdated, Log(ExpiredLine(ts, |rows|))]
    else []
  }

  /** The first half of the loop body: the gateway cancel, when the row
      has a deposit id. */
  method CancelRow(store: OrderStore, id: string)
    requires id in store.orders
    modifies store
    ensures store.calls == old(store.calls) + CancelCall(old(store.orders)[id])
    ensures store.orders == old(store.orders) && store.events == old(store.events)
  {
    var o := store.orders[id];
    if HasDepositId(o) {
      store.calls := store.calls + [CancelDeposit(o.providerDepositId.value)];
    }
  }

  /** The second half: `o.update({ pay_status: 'expired' })` and the
      row's `INVOICE_UPDATED`. */
  method MarkExpired(store: OrderStore, id: string)
    requires id in store.orders
    modifies store
    ensures store.orders == old(store.orders)[id := old(store.orders)[id].(payStatus := Expired)]
    ensures store.events == old(store.events) + [InvoiceUpdated(old(store.orders)[id].invoiceToken)]
    ensures store.calls == old(store.calls)
  {
    var o := store.orders[id];
    store.orders := store.orders[id := o.(payStatus := Expired)];
    store.events := store.events + [InvoiceUpdated(o.invoiceToken)];
  }

  /** One pass of the loop body. */
  method ExpireRow(store: OrderStore, id: string)
    requires id in store.orders
    modifies store
    ensures store.calls == old(store.calls) + CancelCall(old(store.orders)[id])
    ensures store.orders == old(store.orders)[id := old(store.orders)[id].(payStatus := Expired)]
    ensures store.events == old(store.events) + [InvoiceUpdated(old(store.orders)[id].invoiceToken)]
  {
    CancelRow(store, id);
    MarkExpired(store, id);
  }

  /** The `for` loop over the first `k` rows: each is cancelled at the
      gateway when it has a deposit id, then expired and announced. */
  method ExpirePrefix(store: OrderStore, rows: seq<string>, k: nat)
    requires k <= |rows| && Listed(store.orders, rows)
    modifies store
    ensures store.orders == ExpiredAt(old(store.orders), rows[..k])
    ensures store.calls == old(store.calls) + CancelCalls(old(store.orders), rows[..k])
    ensures store.events == old(store.events) + InvoiceEvents(old(store.orders), rows[..k])
  {
    ghost var orders0, calls0, events0 := store.orders, store.calls, store.events;
    var i := 0;
    while i < k
      invariant 0 <= i <= k
      invariant store.orders == ExpiredAt(orders0, rows[..i])
      invariant store.calls == calls0 + CancelCalls(orders0, rows[..i])
      invariant store.events == events0 + InvoiceEvents(orders0, rows[..i])
    {
      var id := rows[i];
      StepShape(orders0, calls0, events0, rows, i);
      ExpireRow(store, id);
      i := i + 1;
    }
  }

  /** The loop as it runs: it stops at the row at `failAt` (if any), whose
      cancel has already been sent when its update throws. */
  method ExpireRows(store: OrderStore, rows: seq<string>, failAt: Option<nat>)
    requires Listed(store.orders, rows) && store.Valid()
    modifies store
    ensures store.Valid()
    ensures store.orders == ExpiredAt(old(store.orders), rows[..Completed(|rows|, failAt)])
    ensures store.calls == old(store.calls) + CancelCalls(old(store.orders), rows[..Attempted(|rows|, failAt)])
    ensures store.events == old(store.events) + InvoiceEvents(old(store.orders), rows[..Completed(|rows|, failAt)])
  {
    ghost var orders0, calls0 := store.orders, store.calls;
    var k := Completed(|rows|, failAt);
    ExpiredAtValid(orders0, rows[..k]);
    ExpirePrefix(store, rows, k);
    if k < |rows| {
      StepShape(orders0, calls0, [], rows, k);
      CancelRow(store, rows[k]);
    }
  }

  /** One tick over the selected `rows`: the loop, then the dashboard
      event and the log line when a non-empty batch went through (a throw
      inside the loop lands in the outer catch, which skips them). A
      throwing gateway cancel is caught and changes nothing, so its outcome
      is not an input; the audit write swallows its own errors. `ts` is the
      clock's text for the log line. */
  method Tick(store: OrderStore, rows: seq<string>, failAt: Option<nat>, ts: string)
    requires store.Valid() && Listed(store.orders, rows)
    modifies store
    ensures store.Valid()
    ensures var k, a := Completed(|rows|, failAt), Attempted(|rows|, failAt);
      && store.orders == ExpiredAt(old(store.orders), rows[..k])
      && store.calls == old(store.calls) + CancelCalls(old(store.orders), rows[..a])
      && store.events == old(store.events) + InvoiceEvents(old(store.orders), rows[..k]) + Closing(rows, failAt, ts)
  {
    ExpireRows(store, rows, failAt);
    if |rows| > 0 && Completed(|rows|, failAt) == |rows| {
      store.events := store.events + [DashboardUpdated, Log(ExpiredLine(ts, |rows|))];
    }
  }

  /** The records after one more row, in the shape the loop builds them. */
  lemma StepShape(orders: map<string, Order>, calls: seq<Call>, events: seq<Event>, rows: seq<string>, i: nat)
    requires i < |rows| && Listed(orders, rows)
    ensures var m, id := ExpiredAt(orders, rows[..i]), rows[i];
      && id in m
      && m[id := m[id].(payStatus := Expired)] == ExpiredAt(orders, rows[..i + 1])
      && (calls + CancelCalls(orders, rows[..i])) + CancelCall(m[id]) == calls + CancelCalls(orders, rows[..i + 1])
      && (events + InvoiceEvents(orders, rows[..i])) + [InvoiceUpdated(m[id].invoiceToken)] == events + InvoiceEvents(orders, rows[..i + 1])
  {
    var id := rows[i];
    Advance(orders, rows, i);
    Assoc(calls, CancelCalls(orders, rows[..i]), CancelCall(orders[id]));
    Assoc(events, InvoiceEvents(orders, rows[..i]), [InvoiceUpdated(orders[id].invoiceToken)]);
  }

  lemma Assoc<T>(a: seq<T>, b: seq<T>, c: seq<T>)
    ensures a + (b + c) == (a + b) + c
  {
  }

  /** Expiring any of the rows keeps the table valid. */
  lemma ExpiredAtValid(orders: map<string, Order>, ids: seq<string>)
    requires ValidOrders(orders)
    ensures ValidOrders(ExpiredAt(orders, ids))
  {
    ExpiredAtSpec(orders, ids);
    var m := ExpiredAt(orders, ids);
    assert forall id :: id in m ==> m[id].orderId == orders[id].orderId && m[id].invoiceToken == orders[id].invoiceToken;
  }

  /** Processing one more row extends each of the three records by that
      row's share. */
  lemma Advance(orders: map<string, Order>, rows: seq<string>, i: nat)
    requires i < |rows| && Listed(orders, rows)
    ensures var id := rows[i];
      && ExpiredAt(orders, rows[..i])[id] == orders[id]
      && ExpiredAt(orders, rows[..i + 1]) == ExpiredAt(orders, rows[..i])[id := orders[id].(payStatus := Expired)]
      && CancelCalls(orders, rows[..i + 1]) == CancelCalls(orders, rows[..i]) + CancelCall(orders[id])
      && InvoiceEvents(orders, rows[..i + 1]) == InvoiceEvents(orders, rows[..i]) + [InvoiceUpdated(orders[id].invoiceToken)]
  {
    var p, q := rows[..i], rows[..i + 1];
    assert rows[i] !in p;
    assert q[..i] == p;
    ExpiredAtSpec(orders, p);
  }

  /** The gateway is asked to cancel exactly the processed orders that have
      a deposit id, with no more calls than rows (`Advance` gives the
      order: one row's call after the earlier rows' calls). */
  lemma {:induction false} CancelCallsSpec(orders: map<string, Order>, ids: seq<string>)
    requires forall i :: 0 <= i < |ids| ==> ids[i] in orders
    ensures |CancelCalls(orders, ids)| <= |ids|
    ensures forall i :: 0 <= i < |ids| && HasDepositId(orders[ids[i]]) ==>
              CancelDeposit(orders[ids[i]].providerDepositId.value) in CancelCalls(orders, ids)
    ensures forall c :: c in CancelCalls(orders, ids) ==>
              exists i :: 0 <= i < |ids| && HasDepositId(orders[ids[i]]) && c == CancelDeposit(orders[ids[i]].providerDepositId.value)
  {
    if |ids| > 0 {
      var init := ids[..|ids| - 1];
      CancelCallsSpec(orders, init);
      assert forall i :: 0 <= i < |init| ==> init[i] == ids[i];
    }
  }

  /** A second tick at the same time selects none of the orders the first
      one expired. */
  lemma SecondTickSkipsExpired(orders: map<string, Order>, now: int, rows: seq<string>, k: nat, rows2: seq<string>)
    requires k <= |rows|
    requires IsSelection(ExpiredAt(orders, rows[..k]), now, rows2)
    ensures forall j :: 0 <= j < |rows2| ==> rows2[j] !in rows[..k]
  {
    ExpiredAtSpec(orders, rows[..k]);
  }

  /** A batch that went through leaves no processed order due, keeps every
      fulfilment status, and leaves the orders it did not select as they
      were; a selection of fewer than 50 leaves nothing due at all. */
  lemma TickOutcome(orders: map<string, Order>, now: int, rows: seq<string>)
    requires IsSelection(orders, now, rows)
    ensures var m := ExpiredAt(orders, rows);
      && (forall i :: 0 <= i < |rows| ==> m[rows[i]].payStatus == Expired && m[rows[i]].fulfillStatus == orders[rows[i]].fulfillStatus)
      && (forall id :: id in orders && id !in rows ==> m[id] == orders[id])
      && (|rows| < BatchLimit ==> forall id :: id in m ==> !Due(m[id], now))
  {
    ExpiredAtSpec(orders, rows);
  }

  /** The due orders not yet taken. */
  ghost function DueRest(orders: map<string, Order>, now: int, taken: set<string>): set<string> {
    set id | id in orders && Due(orders[id], now) && id !in taken
  }

  /** The expiry of an order, 0 when it has none (a due order always has one). */
  function ExpiryOf(o: Order): int {
    if o.expiresAt.Some? then o.expiresAt.value else 0
  }

  /** An order of `rest` whose expiry is the earliest. */
  ghost function Earliest(orders: map<string, Order>, rest: set<string>): (id: string)
    requires rest != {} && forall x :: x in rest ==> x in orders
    ensures id in rest
    ensures forall x :: x in rest ==> ExpiryOf(orders[id]) <= ExpiryOf(orders[x])
    decreases |rest|
  {
    var x :| x in rest;
    assert forall z :: z in rest ==> z == x || z in rest - {x};
    if rest - {x} == {} then x
    else
      var y := Earliest(orders, rest - {x});
      if ExpiryOf(orders[x]) <= ExpiryOf(orders[y]) then x else y
  }

  /** The query `findAll({ where: due, order: expires_at ASC, limit: n })`
      over the orders outside `taken`: the earliest one first, then the
      rest of the batch. */
  ghost function Take(orders: map<string, Order>, now: int, n: nat, taken: set<string>): seq<string>
    decreases n
  {
    var rest := DueRest(orders, now, taken);
    if n == 0 || rest == {} then []
    else
      var id := Earliest(orders, rest);
      [id] + Take(orders, now, n - 1, taken + {id})
  }

  /** The rows one tick selects at time `now`. */
  ghost function Select(orders: map<string, Order>, now: int): seq<string> {
    Take(orders, now, BatchLimit, {})
  }

  /** A batch of at most `n` distinct due orders outside `taken`, in
      ascending expiry, holding all of them when it is shorter than `n`,
      and with no due order left out expiring before one taken. */
  ghost predicate IsBatch(orders: map<string, Order>, now: int, n: nat, taken: set<string>, rows: seq<string>) {
    && BatchRows(orders, now, n, taken, rows)
    && BatchSorted(orders, rows)
    && BatchComplete(orders, now, n, taken, rows)
    && BatchOldest(orders, now, taken, rows)
  }

  ghost predicate BatchRows(orders: map<string, Order>, now: int, n: nat, taken: set<string>, rows: seq<string>) {
    && |rows| <= n
    && (forall i :: 0 <= i < |rows| ==> rows[i] in DueRest(orders, now, taken))
    && (forall i, j :: 0 <= i < j < |rows| ==> rows[i] != rows[j])
  }

  ghost predicate BatchSorted(orders: map<string, Order>, rows: seq<string>) {
    forall i, j :: 0 <= i < j < |rows| && rows[i] in orders && rows[j] in orders ==>
      ExpiryOf(orders[rows[i]]) <= ExpiryOf(orders[rows[j]])
  }

  ghost predicate BatchComplete(orders: map<string, Order>, now: int, n: nat, taken: set<string>, rows: seq<string>) {
    |rows| < n ==> forall id :: id in DueRest(orders, now, taken) ==> id in rows
  }

  ghost predicate BatchOldest(orders: map<string, Order>, now: int, taken: set<string>, rows: seq<string>) {
    forall id, i :: id in DueRest(orders, now, taken) && id !in rows && 0 <= i < |rows| && rows[i] in orders ==>
      ExpiryOf(orders[rows[i]]) <= ExpiryOf(orders[id])
  }

  /** Putting the earliest remaining order in front of a batch of the
      rest gives a batch one longer. */
  lemma ConsBatch(orders: map<string, Order>, now: int, n: nat, taken: set<string>, id: string, tail: seq<string>)
    requires n > 0 && id in DueRest(orders, now, taken)
    requires forall x :: x in DueRest(orders, now, taken) ==> ExpiryOf(orders[id]) <= ExpiryOf(orders[x])
    requires IsBatch(orders, now, n - 1, taken + {id}, tail)
    ensures IsBatch(orders, now, n, taken, [id] + tail)
  {
    var rest, rest2 := DueRest(orders, now, taken), DueRest(orders, now, taken + {id});
    assert forall x :: x in rest2 <==> x in rest && x != id;
    var rows := [id] + tail;
    assert forall i :: 0 < i < |rows| ==> rows[i] == tail[i - 1];
    assert BatchRows(orders, now, n, taken, rows);
    assert BatchSorted(orders, rows) by {
      assert forall i :: 0 <= i < |tail| ==> tail[i] in rest;
    }
    assert BatchComplete(orders, now, n, taken, rows);
    assert BatchOldest(orders, now, taken, rows);
  }

  /** `Take` builds a batch. */
  lemma {:induction false} TakeSpec(orders: map<string, Order>, now: int, n: nat, taken: set<string>)
    ensures IsBatch(orders, now, n, taken, Take(orders, now, n, taken))
    decreases n
  {
    var rest := DueRest(orders, now, taken);
    if n > 0 && rest != {} {
      var id := Earliest(orders, rest);
      TakeSpec(orders, now, n - 1, taken + {id});
      ConsBatch(orders, now, n, taken, id, Take(orders, now, n - 1, taken + {id}));
    }
  }

  /** A full batch over the whole table is what `IsSelection` describes. */
  lemma BatchIsSelection(orders: map<string, Order>, now: int, rows: seq<string>)
    requires IsBatch(orders, now, BatchLimit, {}, rows)
    ensures IsSelection(orders, now, rows)
  {
    assert forall id :: id in orders && Due(orders[id], now) <==> id in DueRest(orders, now, {});
    assert forall i :: 0 <= i < |rows| ==> rows[i] in orders && Due(orders[rows[i]], now);
  }

  /** The selection one tick makes is the one `IsSelection` describes. */
  lemma SelectIsSelection(orders: map<string, Order>, now: int)
    ensures IsSelection(orders, now, Select(orders, now))
  {
    TakeSpec(orders, now, BatchLimit, {});
    BatchIsSelection(orders, now, Select(orders, now));
  }
}
