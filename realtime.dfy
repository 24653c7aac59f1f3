/** Real-time pushes over WebSocket: the server keeps a subscription record
    per connection and forwards bus events to the connections that asked
    for them; the browser keeps a mirror of what it asked for and replays
    it whenever its socket opens. Frames are modelled as parsed JSON values
    (`JSON.stringify`/`JSON.parse` are taken to be inverse). */
module Realtime {
  import opened Wrappers
  import opened Js
  import opened Bus

  // ---------------------------------------------------------------------
  // Server: one connection's subscriptions
  // ---------------------------------------------------------------------

  /** `ws.subs`: the invoice token (None is null) and three flags. */
  datatype Subs = Subs(invoice: Option<JsonValue>, logs: bool, dashboard: bool, wa: bool)

  /** A new connection subscribes to nothing. */
  const DefaultSubs: Subs := Subs(None, false, false, false)

  /** `msg.token || null`. */
  function TokenOrNull(msg: JsonValue): (t: Option<JsonValue>)
    ensures t.Some? ==> Truthy(t.value) && Get(msg, "token") == t
    ensures t.None? ==> !FieldTruthy(msg, "token")
  {
    var v := Get(msg, "token");
    if v.Some? && Truthy(v.value) then v else None
  }

  /** The `message` handler; `frame` is the parsed frame, None when
      `JSON.parse` throws. The four tests run one after another. */
  function HandleMessage(subs: Subs, frame: Option<JsonValue>): Subs {
    if frame.None? then subs
    else
      var m := frame.value;
      Update(subs, FieldIsString(m, "type", "sub_invoice"), FieldIsString(m, "type", "sub_logs"),
             FieldIsString(m, "type", "sub_dashboard"), FieldIsString(m, "type", "sub_wa"),
             TokenOrNull(m), FieldTruthy(m, "on"))
  }

  /** The four `if`s of the handler, given whether the type names each kind,
      the token to store and the `!!on` flag. */
  function Update(subs: Subs, inv: bool, logs: bool, dash: bool, wa: bool, token: Option<JsonValue>, on: bool): Subs {
    var s1 := if inv then subs.(invoice := token) else subs;
    var s2 := if logs then s1.(logs := on) else s1;
    var s3 := if dash then s2.(dashboard := on) else s2;
    if wa then s3.(wa := on) else s3
  }

  /** The message kinds the handler understands. */
  predicate KnownType(m: JsonValue) {
    Get(m, "type") in [Some(JStr("sub_invoice")), Some(JStr("sub_logs")), Some(JStr("sub_dashboard")), Some(JStr("sub_wa"))]
  }

  /** A malformed frame and a message of any other type change nothing; each
      known message changes only its own field: `sub_invoice` stores a
      truthy token or null, the others store `!!on`. */
  lemma HandleMessageRule(subs: Subs, frame: Option<JsonValue>)
    ensures var r := HandleMessage(subs, frame);
      && (frame.None? || !KnownType(frame.value) ==> r == subs)
      && (frame.Some? && FieldIsString(frame.value, "type", "sub_invoice") ==>
            r == subs.(invoice := TokenOrNull(frame.value))
            && (r.invoice.None? <==> !FieldTruthy(frame.value, "token")))
      && (frame.Some? && FieldIsString(frame.value, "type", "sub_logs") ==> r == subs.(logs := FieldTruthy(frame.value, "on")))
      && (frame.Some? && FieldIsString(frame.value, "type", "sub_dashboard") ==> r == subs.(dashboard := FieldTruthy(frame.value, "on")))
      && (frame.Some? && FieldIsString(frame.value, "type", "sub_wa") ==> r == subs.(wa := FieldTruthy(frame.value, "on")))
  {
  }

  /** Receiving the same frame twice is the same as receiving it once. */
  lemma HandleMessageIdempotent(subs: Subs, frame: Option<JsonValue>)
    ensures HandleMessage(HandleMessage(subs, frame), frame) == HandleMessage(subs, frame)
  {
    if frame.Some? {
      var m := frame.value;
      UpdateIdempotent(subs, FieldIsString(m, "type", "sub_invoice"), FieldIsString(m, "type", "sub_logs"),
        FieldIsString(m, "type", "sub_dashboard"), FieldIsString(m, "type", "sub_wa"),
        TokenOrNull(m), FieldTruthy(m, "on"));
    }
  }

  /** Each update stores a value that does not depend on the old one, so
      doing them twice is doing them once. */
  lemma UpdateIdempotent(subs: Subs, inv: bool, logs: bool, dash: bool, wa: bool, token: Option<JsonValue>, on: bool)
    ensures var r := Update(subs, inv, logs, dash, wa, token, on);
      Update(r, inv, logs, dash, wa, token, on) == r
  {
  }

  /** The frames of a connection, handled in order. */
  function HandleAll(subs: Subs, frames: seq<JsonValue>): Subs
    decreases |frames|
  {
    if |frames| == 0 then subs
    else HandleAll(HandleMessage(subs, Some(frames[0])), frames[1..])
  }

  // ---------------------------------------------------------------------
  // Server: broadcast and the four bus listeners
  // ---------------------------------------------------------------------

  /** `WebSocket.OPEN`. */
  const Open: int := 1

  /** A connection: its `readyState`, its `subs` and the frames sent to
      it, oldest first. */
  datatype Conn = Conn(readyState: int, subs: Subs, outbox: seq<JsonValue>)

  /** The four filters passed to `broadcast`. */
  datatype Filter = InvoiceIs(token: string) | WantsDashboard | WantsWa | WantsLogs

  predicate Passes(f: Filter, s: Subs) {
    match f
    case InvoiceIs(t) => s.invoice == Some(JStr(t))
    case WantsDashboard => s.dashboard
    case WantsWa => s.wa
    case WantsLogs => s.logs
  }

  /** One pass of the broadcast loop over a connection. */
  function Deliver(c: Conn, f: Filter, msg: JsonValue): (d: Conn)
    ensures d.readyState == c.readyState && d.subs == c.subs
    ensures c.readyState == Open && Passes(f, c.subs) ==> d.outbox == c.outbox + [msg]
    ensures !(c.readyState == Open && Passes(f, c.subs)) ==> d == c
  {
    if c.readyState != Open then c
    else if !Passes(f, c.subs) then c
    else c.(outbox := c.outbox + [msg])
  }

  /** The own fields of the state pushed with `WA_UPDATED`, spread after
      `type`. */
  function Spread(payload: JsonValue): seq<(string, JsonValue)> {
    if payload.JObject? then payload.fields else []
  }

  /** The filter and the payload each bus listener hands to `broadcast`. */
  function Route(e: Event): (Filter, JsonValue) {
    match e
    case InvoiceUpdated(t) => (InvoiceIs(t), JObject([("type", JStr("invoice")), ("token", JStr(t))]))
    case DashboardUpdated => (WantsDashboard, JObject([("type", JStr("dashboard"))]))
    case WaUpdated(p) => (WantsWa, JObject([("type", JStr("wa"))] + Spread(p)))
    case Log(line) => (WantsLogs, JObject([("type", JStr("log")), ("line", line)]))
  }

  /** The subscription an event is meant for, stated per event. */
  predicate Wants(s: Subs, e: Event) {
    match e
    case InvoiceUpdated(t) => s.invoice == Some(JStr(t))
    case DashboardUpdated => s.dashboard
    case WaUpdated(_) => s.wa
    case Log(_) => s.logs
  }

  /** The type tag a pushed message carries. */
  function Tag(e: Event): string {
    match e
    case InvoiceUpdated(_) => "invoice"
    case DashboardUpdated => "dashboard"
    case WaUpdated(_) => "wa"
    case Log(_) => "log"
  }

  /** The value of the last `key` of `a + b` is the one in `b` when `b` has
      the key, and otherwise the one in `a`. */
  lemma {:induction false} LastFieldAppend(a: seq<(string, JsonValue)>, b: seq<(string, JsonValue)>, key: string)
    ensures LastField(a + b, key) == if LastField(b, key).Some? then LastField(b, key) else LastField(a, key)
    decreases |b|
  {
    if |b| == 0 {
      assert a + b == a;
    } else {
      assert (a + b)[..|a + b| - 1] == a + b[..|b| - 1];
      LastFieldAppend(a, b[..|b| - 1], key);
    }
  }

  /** Each listener's push reaches an open connection exactly when the
      connection asked for that event (for an invoice, when its token is
      the event's token), and carries the event's type tag; the invoice push
      carries the token, the log push the line. A WhatsApp state with no
      `type` field of its own keeps the tag. */
  lemma RouteRule(c: Conn, e: Event)
    requires e.WaUpdated? ==> Get(e.state, "type").None?
    ensures var (f, msg) := Route(e);
      && (Deliver(c, f, msg) != c <==> c.readyState == Open && Wants(c.subs, e))
      && Get(msg, "type") == Some(JStr(Tag(e)))
      && (e.InvoiceUpdated? ==> Get(msg, "token") == Some(JStr(e.invoiceToken)))
      && (e.Log? ==> Get(msg, "line") == Some(e.entry))
  {
    match e
    case InvoiceUpdated(t) => Get2("type", JStr("invoice"), "token", JStr(t), "type");
      Get2("type", JStr("invoice"), "token", JStr(t), "token");
    case DashboardUpdated => Get1("type", JStr("dashboard"), "type");
    case WaUpdated(p) =>
      LastFieldAppend([("type", JStr("wa"))], Spread(p), "type");
      Get1("type", JStr("wa"), "type");
    case Log(line) => Get2("type", JStr("log"), "line", line, "type");
      Get2("type", JStr("log"), "line", line, "line");
  }

  class Hub {
    /** `wss` is set: `startWs` has run. */
    var started: bool
    /** `wss.clients`, in the order they connected. */
    var clients: seq<Conn>

    constructor ()
      ensures !started && clients == []
    {
      started := false;
      clients := [];
    }

    /** `startWs`: from here on connections arrive and the listeners run. It
        logs one line, returned here. */
    method Start(ts: string) returns (e: Event)
      modifies this
      ensures started && clients == old(clients)
      ensures e == Log(LogLine(ts, "info", "WS started", None))
    {
      started := true;
      e := Log(LogLine(ts, "info", "WS started", None));
    }

    /** A `connection`: the socket is open and subscribes to nothing. */
    method Connect()
      requires started
      modifies this
      ensures started && clients == old(clients) + [Conn(Open, DefaultSubs, [])]
    {
      clients := clients + [Conn(Open, DefaultSubs, [])];
    }

    /** The socket of connection `i` changes state (it closes). */
    method SetReadyState(i: int, state: int)
      requires 0 <= i < |clients|
      modifies this
      ensures started == old(started)
      ensures clients == old(clients)[i := old(clients)[i].(readyState := state)]
    {
      clients := clients[i := clients[i].(readyState := state)];
    }

    /** A frame arrives on connection `i`. */
    method Receive(i: int, frame: Option<JsonValue>)
      requires 0 <= i < |clients|
      modifies this
      ensures started == old(started)
      ensures clients == old(clients)[i := old(clients)[i].(subs := HandleMessage(old(clients)[i].subs, frame))]
    {
      clients := clients[i := clients[i].(subs := HandleMessage(clients[i].subs, frame))];
    }

    /** `broadcast(filter, payload)`: nothing before `startWs`; then one copy
        to every open connection that passes the filter, and none to any
        other. */
    method Broadcast(f: Filter, msg: JsonValue)
      modifies this
      ensures started == old(started)
      ensures !started ==> clients == old(clients)
      ensures started ==> (|clients| == |old(clients)|
        && forall j :: 0 <= j < |clients| ==> clients[j] == Deliver(old(clients)[j], f, msg))
    {
      if !started { return; }
      var i := 0;
      while i < |clients|
        invariant started && 0 <= i <= |clients| == |old(clients)|
        invariant forall j :: 0 <= j < i ==> clients[j] == Deliver(old(clients)[j], f, msg)
        invariant forall j :: i <= j < |clients| ==> clients[j] == old(clients)[j]
      {
        var c := clients[i];
        if c.readyState != Open { i := i + 1; continue; }
        if !Passes(f, c.subs) { i := i + 1; continue; }
        clients := clients[i := c.(outbox := c.outbox + [msg])];
        i := i + 1;
      }
    }

    /** A bus event reaches the listener `startWs` registered for it. */
    method Publish(e: Event)
      modifies this
      ensures started == old(started)
      ensures !started ==> clients == old(clients)
      ensures started ==> (|clients| == |old(clients)|
        && forall j :: 0 <= j < |clients| ==> clients[j] == Deliver(old(clients)[j], Route(e).0, Route(e).1))
    {
      var (f, msg) := Route(e);
      Broadcast(f, msg);
    }
  }

  // ---------------------------------------------------------------------
  // Browser: the subscription mirror
  // ---------------------------------------------------------------------

  /** `WS.subs` in the page: the token as the page passed it (null at
      first) and three booleans. */
  datatype ClientSubs = ClientSubs(invoice: JsonValue, logs: bool, dashboard: bool, wa: bool)

  const InitialClientSubs: ClientSubs := ClientSubs(JNull, false, false, false)

  function SubInvoiceMsg(token: JsonValue): JsonValue {
    JObject([("type", JStr("sub_invoice")), ("token", token)])
  }

  /** `{ type, on }` for one of the three flags. */
  function FlagMsg(kind: string, on: bool): JsonValue {
    JObject([("type", JStr(kind)), ("on", JBool(on))])
  }

  /** What `onopen` sends: the invoice when truthy, then each flag that is
      on, in the order invoice, logs, dashboard, wa. */
  function OpenMessages(s: ClientSubs): (msgs: seq<JsonValue>)
    ensures |msgs| <= 4
  {
    Piece(Truthy(s.invoice), SubInvoiceMsg(s.invoice))
    + Piece(s.logs, FlagMsg("sub_logs", true))
    + Piece(s.dashboard, FlagMsg("sub_dashboard", true))
    + Piece(s.wa, FlagMsg("sub_wa", true))
  }

  /** One `if (...) send(...)` of `onopen`. */
  function Piece(c: bool, m: JsonValue): (p: seq<JsonValue>)
    ensures |p| <= 1
  {
    if c then [m] else []
  }

  /** The place of a message kind in the replay order. */
  function Rank(m: JsonValue): int {
    var t := Get(m, "type");
    if t == Some(JStr("sub_invoice")) then 0
    else if t == Some(JStr("sub_logs")) then 1
    else if t == Some(JStr("sub_dashboard")) then 2
    else if t == Some(JStr("sub_wa")) then 3
    else 4
  }

  /** What the server stores once it has the mirror: a truthy token, or
      null, and the three flags. */
  function ServerView(s: ClientSubs): Subs {
    Subs(if Truthy(s.invoice) then Some(s.invoice) else None, s.logs, s.dashboard, s.wa)
  }

  /** The replay is in the order invoice, logs, dashboard, wa with no kind
      twice, and a fresh connection that receives it ends up with exactly
      the page's subscriptions. */
  lemma ResubscribeRestores(s: ClientSubs)
    ensures RankedIn(OpenMessages(s), 0, 4)
    ensures HandleAll(DefaultSubs, OpenMessages(s)) == ServerView(s)
  {
    ReplayOrder(s);
    ReplayRestores(s);
  }

  lemma ReplayOrder(s: ClientSubs)
    ensures RankedIn(OpenMessages(s), 0, 4)
  {
    var a := Piece(Truthy(s.invoice), SubInvoiceMsg(s.invoice));
    var b := Piece(s.logs, FlagMsg("sub_logs", true));
    var c := Piece(s.dashboard, FlagMsg("sub_dashboard", true));
    var d := Piece(s.wa, FlagMsg("sub_wa", true));
    assert RankedIn(a, 0, 1) by {
      RankInvoice(s.invoice);
      PieceRanked(Truthy(s.invoice), SubInvoiceMsg(s.invoice), 0);
    }
    assert RankedIn(b, 1, 2) by {
      RankFlag("sub_logs", true);
      PieceRanked(s.logs, FlagMsg("sub_logs", true), 1);
    }
    assert RankedIn(c, 2, 3) by {
      RankFlag("sub_dashboard", true);
      PieceRanked(s.dashboard, FlagMsg("sub_dashboard", true), 2);
    }
    assert RankedIn(d, 3, 4) by {
      RankFlag("sub_wa", true);
      PieceRanked(s.wa, FlagMsg("sub_wa", true), 3);
    }
    FourRanked(a, b, c, d);
  }

  lemma FourRanked(a: seq<JsonValue>, b: seq<JsonValue>, c: seq<JsonValue>, d: seq<JsonValue>)
    requires RankedIn(a, 0, 1) && RankedIn(b, 1, 2) && RankedIn(c, 2, 3) && RankedIn(d, 3, 4)
    ensures RankedIn(a + b + c + d, 0, 4)
  {
    RankedAppend(a, b, 0, 1, 2);
    RankedAppend(a + b, c, 0, 2, 3);
    RankedAppend(a + b + c, d, 0, 3, 4);
  }

  /** Ranks strictly increasing and within [lo, hi): each kind at most once,
      in replay order. */
  predicate RankedIn(msgs: seq<JsonValue>, lo: int, hi: int) {
    && (forall i, j :: 0 <= i < j < |msgs| ==> Rank(msgs[i]) < Rank(msgs[j]))
    && (forall i :: 0 <= i < |msgs| ==> lo <= Rank(msgs[i]) < hi)
  }

  lemma PieceRanked(c: bool, m: JsonValue, k: int)
    requires Rank(m) == k
    ensures RankedIn(Piece(c, m), k, k + 1)
  {
  }

  lemma RankedAppend(a: seq<JsonValue>, b: seq<JsonValue>, lo: int, mid: int, hi: int)
    requires lo <= mid <= hi && RankedIn(a, lo, mid) && RankedIn(b, mid, hi)
    ensures RankedIn(a + b, lo, hi)
  {
    forall i | 0 <= i < |a + b|
      ensures lo <= Rank((a + b)[i]) < hi
    {
      if i < |a| { assert (a + b)[i] == a[i]; } else { assert (a + b)[i] == b[i - |a|]; }
    }
    forall i, j | 0 <= i < j < |a + b|
      ensures Rank((a + b)[i]) < Rank((a + b)[j])
    {
      if j < |a| {
        assert (a + b)[i] == a[i] && (a + b)[j] == a[j];
      } else if i >= |a| {
        assert (a + b)[i] == b[i - |a|] && (a + b)[j] == b[j - |a|];
      } else {
        assert (a + b)[i] == a[i] && (a + b)[j] == b[j - |a|];
      }
    }
  }

  lemma ReplayRestores(s: ClientSubs)
    ensures HandleAll(DefaultSubs, OpenMessages(s)) == ServerView(s)
  {
    var a := Piece(Truthy(s.invoice), SubInvoiceMsg(s.invoice));
    var b := Piece(s.logs, FlagMsg("sub_logs", true));
    var c := Piece(s.dashboard, FlagMsg("sub_dashboard", true));
    var d := Piece(s.wa, FlagMsg("sub_wa", true));
    var s0 := DefaultSubs.(invoice := if Truthy(s.invoice) then Some(s.invoice) else None);
    var s1 := s0.(logs := s.logs);
    var s2 := s1.(dashboard := s.dashboard);
    var s3 := ServerView(s);
    assert HandleAll(DefaultSubs, a) == s0 by { ReplayInvoice(DefaultSubs, s.invoice); }
    assert HandleAll(s0, b) == s1 by { ReplayFlag(s0, "sub_logs", s.logs); }
    assert HandleAll(s1, c) == s2 by { ReplayFlag(s1, "sub_dashboard", s.dashboard); }
    assert HandleAll(s2, d) == s3 by { ReplayFlag(s2, "sub_wa", s.wa); }
    FourSteps(DefaultSubs, s0, s1, s2, s3, a, b, c, d);
  }

  lemma FourSteps(x0: Subs, x1: Subs, x2: Subs, x3: Subs, x4: Subs,
                  a: seq<JsonValue>, b: seq<JsonValue>, c: seq<JsonValue>, d: seq<JsonValue>)
    requires HandleAll(x0, a) == x1 && HandleAll(x1, b) == x2 && HandleAll(x2, c) == x3 && HandleAll(x3, d) == x4
    ensures HandleAll(x0, a + b + c + d) == x4
  {
    HandleAllAppend(x0, a, b);
    HandleAllAppend(x0, a + b, c);
    HandleAllAppend(x0, a + b + c, d);
  }

  lemma ReplayInvoice(subs: Subs, token: JsonValue)
    requires subs.invoice.None?
    ensures HandleAll(subs, Piece(Truthy(token), SubInvoiceMsg(token)))
      == subs.(invoice := if Truthy(token) then Some(token) else None)
  {
    HandleInvoiceMsg(subs, token);
  }

  lemma ReplayFlag(subs: Subs, kind: string, on: bool)
    requires kind == "sub_logs" ==> !subs.logs
    requires kind == "sub_dashboard" ==> !subs.dashboard
    requires kind == "sub_wa" ==> !subs.wa
    ensures var r := HandleAll(subs, Piece(on, FlagMsg(kind, true)));
      && (kind == "sub_logs" ==> r == subs.(logs := on))
      && (kind == "sub_dashboard" ==> r == subs.(dashboard := on))
      && (kind == "sub_wa" ==> r == subs.(wa := on))
  {
    HandleFlagMsg(subs, kind, true);
  }

  /** The server's reading of the page's invoice message. */
  lemma HandleInvoiceMsg(subs: Subs, token: JsonValue)
    ensures HandleMessage(subs, Some(SubInvoiceMsg(token))) == subs.(invoice := if Truthy(token) then Some(token) else None)
    ensures HandleAll(subs, [SubInvoiceMsg(token)]) == HandleMessage(subs, Some(SubInvoiceMsg(token)))
  {
    Get2("type", JStr("sub_invoice"), "token", token, "type");
    Get2("type", JStr("sub_invoice"), "token", token, "token");
  }

  /** The server's reading of the page's flag messages. */
  lemma HandleFlagMsg(subs: Subs, kind: string, on: bool)
    ensures var r := HandleMessage(subs, Some(FlagMsg(kind, on)));
      && (kind == "sub_logs" ==> r == subs.(logs := on))
      && (kind == "sub_dashboard" ==> r == subs.(dashboard := on))
      && (kind == "sub_wa" ==> r == subs.(wa := on))
    ensures HandleAll(subs, [FlagMsg(kind, on)]) == HandleMessage(subs, Some(FlagMsg(kind, on)))
  {
    Get2("type", JStr(kind), "on", JBool(on), "type");
    Get2("type", JStr(kind), "on", JBool(on), "on");
  }

  lemma RankInvoice(token: JsonValue)
    ensures Rank(SubInvoiceMsg(token)) == 0
  {
    Get2("type", JStr("sub_invoice"), "token", token, "type");
  }

  lemma RankFlag(kind: string, on: bool)
    ensures kind == "sub_logs" ==> Rank(FlagMsg(kind, on)) == 1
    ensures kind == "sub_dashboard" ==> Rank(FlagMsg(kind, on)) == 2
    ensures kind == "sub_wa" ==> Rank(FlagMsg(kind, on)) == 3
  {
    Get2("type", JStr(kind), "on", JBool(on), "type");
  }

  lemma {:induction false} HandleAllAppend(subs: Subs, a: seq<JsonValue>, b: seq<JsonValue>)
    ensures HandleAll(subs, a + b) == HandleAll(HandleAll(subs, a), b)
    decreases |a|
  {
    if |a| == 0 {
      assert a + b == b;
    } else {
      assert (a + b)[1..] == a[1..] + b;
      HandleAllAppend(HandleMessage(subs, Some(a[0])), a[1..], b);
    }
  }

  /** The pairs (handler, message) of one dispatch, in registration
      order. */
  function Dispatch(handlers: seq<nat>, msg: JsonValue): (d: seq<(nat, JsonValue)>)
    ensures |d| == |handlers|
    decreases |handlers|
  {
    if |handlers| == 0 then [] else Dispatch(handlers[..|handlers| - 1], msg) + [(handlers[|handlers| - 1], msg)]
  }

  /** Every registered handler gets the message, once each, in the order
      they were registered. */
  lemma {:induction false} DispatchSpec(handlers: seq<nat>, msg: JsonValue)
    ensures forall i :: 0 <= i < |handlers| ==> Dispatch(handlers, msg)[i] == (handlers[i], msg)
    decreases |handlers|
  {
    if |handlers| > 0 {
      DispatchSpec(handlers[..|handlers| - 1], msg);
    }
  }

  /** `window.WSRT` in one page. Handlers are named by numbers; each call
      of a handler is recorded in `dispatched`, and a handler that throws is
      recorded like any other. */
  class RtClient {
    var subs: ClientSubs
    /** `WS.ws.readyState` of the current socket. */
    var readyState: int
    /** Frames sent on the sockets, oldest first. */
    var sent: seq<JsonValue>
    var handlers: seq<nat>
    var dispatched: seq<(nat, JsonValue)>

    /** Loading the script calls `connect()`: the socket is connecting. */
    constructor ()
      ensures subs == InitialClientSubs && readyState == 0 && sent == [] && handlers == [] && dispatched == []
    {
      subs := InitialClientSubs;
      readyState := 0;
      sent := [];
      handlers := [];
      dispatched := [];
    }

    /** The reconnect timer's `connect()`: a new socket, connecting. */
    method Reconnect()
      modifies this
      ensures readyState == 0
      ensures subs == old(subs) && sent == old(sent) && handlers == old(handlers) && dispatched == old(dispatched)
    {
      readyState := 0;
    }

    /** The socket closes; the reconnect is a timer, not modelled here. */
    method Closed()
      modifies this
      ensures readyState == 3
      ensures subs == old(subs) && sent == old(sent) && handlers == old(handlers) && dispatched == old(dispatched)
    {
      readyState := 3;
    }

    /** `onopen`: the mirror is replayed in order. */
    method Opened()
      modifies this
      ensures readyState == Open
      ensures sent == old(sent) + OpenMessages(subs)
      ensures subs == old(subs) && handlers == old(handlers) && dispatched == old(dispatched)
    {
      readyState := Open;
      SendIf(Truthy(subs.invoice), SubInvoiceMsg(subs.invoice));
      SendIf(subs.logs, FlagMsg("sub_logs", true));
      SendIf(subs.dashboard, FlagMsg("sub_dashboard", true));
      SendIf(subs.wa, FlagMsg("sub_wa", true));
    }

    /** `if (c) WS.ws.send(m)`. */
    method SendIf(c: bool, m: JsonValue)
      modifies this
      ensures sent == old(sent) + Piece(c, m)
      ensures subs == old(subs) && readyState == old(readyState) && handlers == old(handlers) && dispatched == old(dispatched)
    {
      if c { sent := sent + [m]; }
    }

    /** `WS.subInvoice(token)`: recorded always, sent only on an open
        socket. */
    method SubInvoice(token: JsonValue)
      modifies this
      ensures subs == old(subs).(invoice := token)
      ensures sent == old(sent) + (if readyState == Open then [SubInvoiceMsg(token)] else [])
      ensures readyState == old(readyState) && handlers == old(handlers) && dispatched == old(dispatched)
    {
      subs := subs.(invoice := token);
      if readyState == Open { sent := sent + [SubInvoiceMsg(token)]; }
    }

    /** `WS.subLogs(on)`. */
    method SubLogs(on: JsonValue)
      modifies this
      ensures subs == old(subs).(logs := Truthy(on))
      ensures sent == old(sent) + (if readyState == Open then [FlagMsg("sub_logs", Truthy(on))] else [])
      ensures readyState == old(readyState) && handlers == old(handlers) && dispatched == old(dispatched)
    {
      subs := subs.(logs := Truthy(on));
      if readyState == Open { sent := sent + [FlagMsg("sub_logs", Truthy(on))]; }
    }

    /** `WS.subDashboard(on)`. */
    method SubDashboard(on: JsonValue)
      modifies this
      ensures subs == old(subs).(dashboard := Truthy(on))
      ensures sent == old(sent) + (if readyState == Open then [FlagMsg("sub_dashboard", Truthy(on))] else [])
      ensures readyState == old(readyState) && handlers == old(handlers) && dispatched == old(dispatched)
    {
      subs := subs.(dashboard := Truthy(on));
      if readyState == Open { sent := sent + [FlagMsg("sub_dashboard", Truthy(on))]; }
    }

    /** `WS.subWa(on)`. */
    method SubWa(on: JsonValue)
      modifies this
      ensures subs == old(subs).(wa := Truthy(on))
      ensures sent == old(sent) + (if readyState == Open then [FlagMsg("sub_wa", Truthy(on))] else [])
      ensures readyState == old(readyState) && handlers == old(handlers) && dispatched == old(dispatched)
    {
      subs := subs.(wa := Truthy(on));
      if readyState == Open { sent := sent + [FlagMsg("sub_wa", Truthy(on))]; }
    }

    /** `WS.on(fn)`. */
    method On(h: nat)
      modifies this
      ensures handlers == old(handlers) + [h]
      ensures subs == old(subs) && readyState == old(readyState) && sent == old(sent) && dispatched == old(dispatched)
    {
      handlers := handlers + [h];
    }

    /** `onmessage`: a frame that does not parse (None) or parses to a falsy
        value reaches no handler; any other reaches every handler, in
        registration order. */
    method OnMessage(frame: Option<JsonValue>)
      modifies this
      ensures frame.None? || !Truthy(frame.value) ==> dispatched == old(dispatched)
      ensures frame.Some? && Truthy(frame.value) ==> dispatched == old(dispatched) + Dispatch(handlers, frame.value)
      ensures subs == old(subs) && readyState == old(readyState) && sent == old(sent) && handlers == old(handlers)
    {
      if frame.None? || !Truthy(frame.value) { return; }
      var msg := frame.value;
      var i := 0;
      while i < |handlers|
        invariant 0 <= i <= |handlers|
        invariant dispatched == old(dispatched) + Dispatch(handlers[..i], msg)
        invariant subs == old(subs) && readyState == old(readyState) && sent == old(sent) && handlers == old(handlers)
      {
        assert handlers[..i + 1][..i] == handlers[..i];
        dispatched := dispatched + [(handlers[i], msg)];
        i := i + 1;
      }
      assert handlers[..i] == handlers;
    }
  }

  /** A subscription the page sends straight away sets the server's field
      to the value the page records. */
  lemma SentMatchesMirror(server: Subs, on: JsonValue, token: JsonValue)
    ensures HandleMessage(server, Some(FlagMsg("sub_logs", Truthy(on)))).logs == Truthy(on)
    ensures HandleMessage(server, Some(FlagMsg("sub_dashboard", Truthy(on)))).dashboard == Truthy(on)
    ensures HandleMessage(server, Some(FlagMsg("sub_wa", Truthy(on)))).wa == Truthy(on)
    ensures HandleMessage(server, Some(SubInvoiceMsg(token))).invoice == ServerView(InitialClientSubs.(invoice := token)).invoice
  {
    HandleFlagMsg(server, "sub_logs", Truthy(on));
    HandleFlagMsg(server, "sub_dashboard", Truthy(on));
    HandleFlagMsg(server, "sub_wa", Truthy(on));
    HandleInvoiceMsg(server, token);
  }
}
