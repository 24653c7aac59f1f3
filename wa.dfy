/** The WhatsApp session manager: the published session state and its
    transitions on the socket's connection events, the operator's `done` and
    `reject` commands, the send and pairing guards, and the one-time codes
    for the password reset. The socket, the QR renderer and the clock are
    inputs: each event arrives with what the library reported and the
    current time. */
module WhatsApp {
  import opened Wrappers
  import opened Js
  import opened Bus
  import Phone
  import Orders
  import Templates
  import Settings

  // ---------------------------------------------------------------------
  // waState
  // ---------------------------------------------------------------------

  datatype Connection = Idle | Connecting | Opened | Closed

  /** The `connection` text. */
  function ConnectionText(c: Connection): string {
    match c
    case Idle => "idle"
    case Connecting => "connecting"
    case Opened => "open"
    case Closed => "close"
  }

  /** `waState`; None is null, times are milliseconds. */
  datatype WaState = WaState(
    connection: Connection,
    lastQrPng: Option<string>,
    pairingCode: Option<string>,
    lastError: Option<string>,
    me: Option<JsonValue>,
    updatedAt: int)

  function Nullable(v: Option<string>): JsonValue {
    if v.Some? then JStr(v.value) else JNull
  }

  /** `safeState()`: a copy of exactly the six public fields. */
  function SafeState(st: WaState): JsonValue {
    JObject([("connection", JStr(ConnectionText(st.connection))),
             ("last_qr_png", Nullable(st.lastQrPng)),
             ("pairing_code", Nullable(st.pairingCode)),
             ("last_error", Nullable(st.lastError)),
             ("me", st.me.GetOr(JNull)),
             ("updated_at", JNum(st.updatedAt))])
  }

  /** The payload of `WA_UPDATED`: `{ state: safeState() }`. */
  function StatePayload(st: WaState): JsonValue {
    JObject([("state", SafeState(st))])
  }

  /** Property reads on an object whose keys are distinct. */
  lemma ReadDistinct(fs: seq<(string, JsonValue)>, i: nat)
    requires i < |fs| && forall a, b :: 0 <= a < b < |fs| ==> fs[a].0 != fs[b].0
    ensures Get(JObject(fs), fs[i].0) == Some(fs[i].1)
  {
  }

  /** `safeState()` holds the state's values under the six public names. */
  lemma SafeStateFields(st: WaState)
    ensures var j := SafeState(st);
      && Get(j, "connection") == Some(JStr(ConnectionText(st.connection)))
      && Get(j, "last_qr_png") == Some(Nullable(st.lastQrPng))
      && Get(j, "pairing_code") == Some(Nullable(st.pairingCode))
      && Get(j, "last_error") == Some(Nullable(st.lastError))
      && Get(j, "me") == Some(st.me.GetOr(JNull))
      && Get(j, "updated_at") == Some(JNum(st.updatedAt))
  {
    var fs := SafeState(st).fields;
    SafeKeysDistinct(st);
    ReadDistinct(fs, 0);
    ReadDistinct(fs, 1);
    ReadDistinct(fs, 2);
    ReadDistinct(fs, 3);
    ReadDistinct(fs, 4);
    ReadDistinct(fs, 5);
  }

  lemma SafeKeysDistinct(st: WaState)
    ensures var fs := SafeState(st).fields; forall a, b :: 0 <= a < b < |fs| ==> fs[a].0 != fs[b].0
  {
  }

  /** ... and nothing else: the socket, the credentials and any other
      property are never published. */
  lemma SafeStateOnlySix(st: WaState, key: string)
    requires key !in ["connection", "last_qr_png", "pairing_code", "last_error", "me", "updated_at"]
    ensures Get(SafeState(st), key).None?
  {
  }

  /** The argument of `emitState`: each field given or left out. */
  datatype Patch = Patch(
    connection: Option<Connection>,
    lastQrPng: Option<Option<string>>,
    pairingCode: Option<Option<string>>,
    lastError: Option<Option<string>>,
    me: Option<Option<JsonValue>>)

  const NoChange: Patch := Patch(None, None, None, None, None)

  function Pick<T>(given: Option<T>, current: T): T {
    if given.Some? then given.value else current
  }

  /** `Object.assign(waState, extra, { updated_at: now })`. */
  function Merge(st: WaState, p: Patch, now: int): (r: WaState)
    ensures r.updatedAt == now
    ensures p.connection.Some? ==> r.connection == p.connection.value
    ensures p.connection.None? ==> r.connection == st.connection
    ensures p.lastQrPng.None? ==> r.lastQrPng == st.lastQrPng
    ensures p.pairingCode.None? ==> r.pairingCode == st.pairingCode
    ensures p.lastError.None? ==> r.lastError == st.lastError
    ensures p.me.None? ==> r.me == st.me
  {
    WaState(Pick(p.connection, st.connection), Pick(p.lastQrPng, st.lastQrPng), Pick(p.pairingCode, st.pairingCode),
            Pick(p.lastError, st.lastError), Pick(p.me, st.me), now)
  }

  /** Emitting the same patch twice at the same time is emitting it once,
      and an empty patch only refreshes the time. */
  lemma MergeIdempotent(st: WaState, p: Patch, now: int)
    ensures Merge(Merge(st, p, now), p, now) == Merge(st, p, now)
    ensures Merge(st, NoChange, now) == st.(updatedAt := now)
  {
  }

  /** `DisconnectReason.loggedOut`. */
  const LoggedOut: int := 401

  /** `WA disconnected: ${code || 'unknown'}`. */
  function DisconnectText(code: Option<int>): string {
    "WA disconnected: " + (if code.Some? && code.value != 0 then IntToString(code.value) else "unknown")
  }

  /** The state after a QR event; `png` is the rendered QR, None when the
      renderer throws. */
  function QrState(st: WaState, png: Option<string>, now: int): (r: WaState)
    ensures r.connection == Connecting && r.lastQrPng == png && r.pairingCode.None?
    ensures r.lastError == st.lastError && r.me == st.me && r.updatedAt == now
  {
    Merge(st.(lastQrPng := png, pairingCode := None), Patch(Some(Connecting), None, None, None, None), now)
  }

  /** The state after `open`; `me` is `sock?.user || null`. */
  function OpenState(st: WaState, me: Option<JsonValue>, now: int): (r: WaState)
    ensures r == WaState(Opened, None, None, None, me, now)
  {
    Merge(st, Patch(Some(Opened), Some(None), Some(None), Some(None), Some(me)), now)
  }

  /** The state after `close` with the reported status code. */
  function CloseState(st: WaState, code: Option<int>, now: int): (r: WaState)
    ensures r.connection == Closed && r.me.None? && r.lastError == Some(DisconnectText(code))
    ensures r.lastQrPng == st.lastQrPng && r.pairingCode == st.pairingCode && r.updatedAt == now
  {
    Merge(st, Patch(Some(Closed), None, None, Some(Some(DisconnectText(code))), Some(None)), now)
  }

  /** The state after `waLogout`. */
  function LogoutState(st: WaState, now: int): (r: WaState)
    ensures r == WaState(Idle, None, None, None, None, now)
  {
    Merge(st, Patch(Some(Idle), Some(None), Some(None), Some(None), Some(None)), now)
  }

  /** The disconnect text always names the code, or says unknown. */
  lemma DisconnectTextSpec(code: Option<int>)
    ensures StartsWith(DisconnectText(code), "WA disconnected: ")
    ensures code.None? || code.value == 0 ==> DisconnectText(code) == "WA disconnected: unknown"
    ensures code.Some? && code.value > 0 ==>
      var t := DisconnectText(code)[17..]; AllDigits(t) && DigitsValue(t) == code.value
  {
    var t := DisconnectText(code);
    assert t[..17] == "WA disconnected: ";
    if code.Some? && code.value > 0 {
      assert t[17..] == IntToString(code.value);
      DigitsValueOfNatToString(code.value);
    }
  }

  /** The log lines the connection events write. */
  function QrLine(ts: string): JsonValue { LogLine(ts, "info", "WA QR updated", None) }

  function OpenLine(ts: string, me: Option<JsonValue>): JsonValue {
    LogLine(ts, "info", "WA connected", Some(JObject([("user", me.GetOr(JNull))])))
  }

  /** `{ code, shouldReconnect }`; an undefined code is left out, as
      `JSON.stringify` leaves it out. */
  function CloseLine(ts: string, code: Option<int>, reconnect: bool): JsonValue {
    LogLine(ts, "warn", "WA disconnected",
            Some(JObject((if code.Some? then [("code", JNum(code.value))] else []) + [("shouldReconnect", JBool(reconnect))])))
  }

  /** A `sendMessage` made: the JID and the text. */
  datatype Sent = Sent(jid: string, text: string)

  /** `${waE164}@s.whatsapp.net`. */
  function Jid(wa: string): string { wa + "@s.whatsapp.net" }

  // ---------------------------------------------------------------------
  // The operator's commands
  // ---------------------------------------------------------------------

  datatype Verb = DoneVerb | RejectVerb

  /** A parsed command: the verb, the order id and the trimmed note. */
  datatype Command = Command(verb: Verb, orderId: string, note: string)

  /** The parsing of an admin text: trim, split on single spaces, the first
      token lower-cased is the verb, the second the order id (or ''), the
      rest joined with spaces and trimmed the note. None: not a command. */
  function ParseCommand(text: string): Option<Command> {
    ParseParts(Split(Trim(text), ' '))
  }

  function ParseParts(parts: seq<string>): (c: Option<Command>)
    requires |parts| >= 1
    ensures c.Some? <==> ToLower(parts[0]) in ["done", "reject"]
  {
    var cmd := ToLower(parts[0]);
    var orderId := if |parts| > 1 then parts[1] else "";
    var note := Trim(Join(if |parts| > 2 then parts[2..] else [], ' '));
    if cmd == "done" then Some(Command(DoneVerb, orderId, note))
    else if cmd == "reject" then Some(Command(RejectVerb, orderId, note))
    else None
  }

  predicate NoWhitespace(s: string) {
    forall i :: 0 <= i < |s| ==> !IsWhitespace(s[i])
  }

  /** A text written as verb, order id and note, each separated by one
      space, parses back to that verb (in any letter case), that id and that
      note, when the note has no whitespace at its ends. */
  lemma CommandRoundTrip(word: string, id: string, note: string)
    requires word != "" && NoWhitespace(word) && NoWhitespace(id)
    requires note != "" && !IsWhitespace(note[0]) && !IsWhitespace(note[|note| - 1])
    ensures var c := ParseCommand(word + " " + id + " " + note);
      && (ToLower(word) == "done" ==> c == Some(Command(DoneVerb, id, note)))
      && (ToLower(word) == "reject" ==> c == Some(Command(RejectVerb, id, note)))
      && (ToLower(word) !in ["done", "reject"] ==> c.None?)
  {
    var text := word + " " + id + " " + note;
    TrimCommand(word, id, note);
    NoSpace(word);
    NoSpace(id);
    SplitCommand(word, id, note);
    var parts := [word, id] + Split(note, ' ');
    assert parts[2..] == Split(note, ' ');
    JoinSplit(note, ' ');
    TrimNoop(note);
  }

  lemma NoSpace(s: string)
    requires NoWhitespace(s)
    ensures ' ' !in s
  {
    assert forall i :: 0 <= i < |s| ==> s[i] != ' ';
  }

  lemma TrimCommand(word: string, id: string, note: string)
    requires word != "" && !IsWhitespace(word[0])
    requires note != "" && !IsWhitespace(note[|note| - 1])
    ensures Trim(word + " " + id + " " + note) == word + " " + id + " " + note
  {
    var text := word + " " + id + " " + note;
    assert text[0] == word[0] && text[|text| - 1] == note[|note| - 1];
    TrimNoop(text);
  }

  lemma SplitCommand(word: string, id: string, note: string)
    requires ' ' !in word && ' ' !in id
    ensures Split(word + " " + id + " " + note, ' ') == [word, id] + Split(note, ' ')
  {
    assert word + " " + id + " " + note == word + [' '] + (id + [' '] + note);
    SplitCons(word, ' ', id + [' '] + note);
    SplitCons(id, ' ', note);
  }

  /** `normAdmin && fromNum === normAdmin`: the sender's JID up to the first
      '@' is the configured admin number as normalised. */
  predicate IsAdminSender(from: string, adminWa: string) {
    var n := Phone.Normalize(adminWa).e164;
    n.Some? && n.value != "" && Split(from, '@')[0] == n.value
  }

  /** Messages from the admin's own JID are honoured; with no digits in
      the configured number, no sender is. */
  lemma AdminSenderRule(from: string, adminWa: string)
    ensures Phone.OnlyDigits(adminWa) == "" ==> !IsAdminSender(from, adminWa)
    ensures Phone.OnlyDigits(adminWa) != "" ==>
      IsAdminSender(Jid(Phone.Normalize(adminWa).e164.value), adminWa)
  {
    Phone.NormalizeSpec(adminWa);
    if Phone.OnlyDigits(adminWa) != "" {
      var n := Phone.Normalize(adminWa).e164.value;
      JidUser(n);
    }
  }

  /** The user part of a number's JID is the number. */
  lemma JidUser(n: string)
    requires AllDigits(n)
    ensures Split(Jid(n), '@')[0] == n
  {
    assert forall i :: 0 <= i < |n| ==> n[i] != '@';
    assert Jid(n) == n + ['@'] + "s.whatsapp.net";
    SplitCons(n, '@', "s.whatsapp.net");
  }

  /** What an incoming text does to the orders: None when it is ignored
      (empty, not from the admin, not a command, or naming no order). */
  function CommandTarget(orders: map<string, Orders.Order>, from: string, text: string, adminWa: string): (t: Option<Command>)
    ensures t.Some? ==> text != "" && IsAdminSender(from, adminWa) && ParseCommand(text) == t && t.value.orderId in orders
    ensures text != "" && IsAdminSender(from, adminWa) && ParseCommand(text).Some? && ParseCommand(text).value.orderId in orders
            ==> t.Some?
  {
    if text == "" || !IsAdminSender(from, adminWa) then None
    else
      var c := ParseCommand(text);
      if c.Some? && c.value.orderId in orders then c else None
  }

  function VerbStatus(v: Verb): Orders.FulfillStatus {
    if v == DoneVerb then Orders.Done else Orders.Rejected
  }

  /** The order as a template prints it. `amountText` is the
      `toLocaleString('id-ID')` of its gross amount and `expiresText` that
      of its expiry; locale formatting is not modelled. */
  function OrderShown(o: Orders.Order, amountText: string, expiresText: Option<string>): Templates.OrderText {
    Templates.OrderText(o.orderId, o.invoiceToken, o.gameId, o.nickname, amountText, expiresText)
  }

  /** The buyer's message for a command. */
  function CommandReply(c: Command, siteUrl: string, shown: Templates.OrderText): string {
    if c.verb == DoneVerb then Templates.Done(siteUrl, shown, c.note) else Templates.Rejected(siteUrl, shown, c.note)
  }

  /** The buyer's message names the order, carries the operator's note (or
      the verb's fallback) and links to the order's own invoice. */
  lemma CommandReplyNamesOrder(c: Command, siteUrl: string, o: Orders.Order, amountText: string, expiresText: Option<string>)
    ensures var m := CommandReply(c, siteUrl, OrderShown(o, amountText, expiresText));
      && Includes(m, o.orderId)
      && Includes(m, Templates.InvoiceLink(siteUrl, o.invoiceToken))
      && Includes(m, Templates.NoteLine(c.note, if c.verb == DoneVerb then Templates.NoDoneNote else Templates.NoRejectNote))
  {
    var shown := OrderShown(o, amountText, expiresText);
    if c.verb == DoneVerb {
      Templates.DoneEmbeds(siteUrl, shown, c.note);
    } else {
      Templates.RejectedEmbeds(siteUrl, shown, c.note);
    }
  }

  /** A `messages.upsert` message's text: `conversation`, else
      `extendedTextMessage.text`, else ''. */
  function MessageText(msg: Option<JsonValue>): string {
    var m := GetOpt(msg, "message");
    if m.None? || !Truthy(m.value) then ""
    else
      var conv := Get(m.value, "conversation");
      if conv.Some? && Truthy(conv.value) then JsString(conv.value)
      else TextOr(GetOpt(Get(m.value, "extendedTextMessage"), "text"))
  }

  /** `msg.key.remoteJid || ''`. */
  function SenderJid(msg: Option<JsonValue>): string {
    TextOr(GetOpt(GetOpt(msg, "key"), "remoteJid"))
  }

  // ---------------------------------------------------------------------
  // The service
  // ---------------------------------------------------------------------

  class WaService {
    var state: WaState
    /** `sock !== null`. */
    var hasSocket: bool
    /** Restarts of the service scheduled on a timer. */
    var restarts: nat
    /** Events put on the bus, oldest first. */
    var events: seq<Event>
    var outbox: seq<Sent>

    /** Module load: idle, nothing known. */
    constructor (now: int)
      ensures state == WaState(Idle, None, None, None, None, now)
      ensures !hasSocket && restarts == 0 && events == [] && outbox == []
    {
      state := WaState(Idle, None, None, None, None, now);
      hasSocket := false;
      restarts := 0;
      events := [];
      outbox := [];
    }

    /** `emitState(extra)`: merge, then publish the six public fields. */
    method EmitState(p: Patch, now: int)
      modifies this
      ensures state == Merge(old(state), p, now)
      ensures events == old(events) + [WaUpdated(StatePayload(state))]
      ensures hasSocket == old(hasSocket) && restarts == old(restarts) && outbox == old(outbox)
    {
      state := Merge(state, p, now);
      events := events + [WaUpdated(StatePayload(state))];
    }

    /** `startWaService` once the credentials and library version are
        loaded: connecting, error cleared, a new socket. */
    method Start(now: int, ts: string)
      modifies this
      ensures state == old(state).(connection := Connecting, lastError := None, updatedAt := now)
      ensures hasSocket && restarts == old(restarts) && outbox == old(outbox)
      ensures events == old(events) + [WaUpdated(StatePayload(state)), Log(LogLine(ts, "info", "WA service started", None))]
    {
      state := state.(connection := Connecting, lastError := None);
      EmitState(NoChange, now);
      hasSocket := true;
      events := events + [Log(LogLine(ts, "info", "WA service started", None))];
    }

    /** The `qr` part of `connection.update`. */
    method OnQr(png: Option<string>, now: int, ts: string)
      modifies this
      ensures state == QrState(old(state), png, now)
      ensures events == old(events) + [WaUpdated(StatePayload(state)), Log(QrLine(ts))]
      ensures hasSocket == old(hasSocket) && restarts == old(restarts) && outbox == old(outbox)
    {
      state := state.(lastQrPng := png, pairingCode := None);
      EmitState(Patch(Some(Connecting), None, None, None, None), now);
      events := events + [Log(QrLine(ts))];
    }

    /** The `open` part; `user` is `sock.user`, read only while there is
        a socket. */
    method OnOpen(user: Option<JsonValue>, now: int, ts: string)
      modifies this
      ensures var me := if old(hasSocket) && user.Some? && Truthy(user.value) then user else None;
        && state == OpenState(old(state), me, now)
        && events == old(events) + [WaUpdated(StatePayload(state)), Log(OpenLine(ts, me))]
      ensures hasSocket == old(hasSocket) && restarts == old(restarts) && outbox == old(outbox)
    {
      var me := if hasSocket && user.Some? && Truthy(user.value) then user else None;
      EmitState(Patch(Some(Opened), Some(None), Some(None), Some(None), Some(me)), now);
      events := events + [Log(OpenLine(ts, state.me))];
    }

    /** The `close` part: the socket is dropped, and a restart is scheduled
        unless the code says the session was logged out. */
    method OnClose(code: Option<int>, now: int, ts: string)
      modifies this
      ensures state == CloseState(old(state), code, now)
      ensures events == old(events) + [WaUpdated(StatePayload(state)), Log(CloseLine(ts, code, code != Some(LoggedOut)))]
      ensures !hasSocket && outbox == old(outbox)
      ensures restarts == old(restarts) + (if code != Some(LoggedOut) then 1 else 0)
    {
      var reconnect := code != Some(LoggedOut);
      EmitState(Patch(Some(Closed), None, None, Some(Some(DisconnectText(code))), Some(None)), now);
      events := events + [Log(CloseLine(ts, code, reconnect))];
      hasSocket := false;
      if reconnect { restarts := restarts + 1; }
    }

    /** `connection.update`: the QR part when `qr` is truthy, then the
        `open` or `close` part as `connection` says. */
    method OnUpdate(connection: string, qr: string, code: Option<int>, png: Option<string>, user: Option<JsonValue>,
                    now: int, ts: string)
      modifies this
      ensures var s1 := if qr != "" then QrState(old(state), png, now) else old(state);
        var me := if old(hasSocket) && user.Some? && Truthy(user.value) then user else None;
        var s2 := if connection == "open" then OpenState(s1, me, now) else s1;
        state == (if connection == "close" then CloseState(s2, code, now) else s2)
      ensures hasSocket == (old(hasSocket) && connection != "close") && outbox == old(outbox)
      ensures restarts == old(restarts) + (if connection == "close" && code != Some(LoggedOut) then 1 else 0)
    {
      if qr != "" { OnQr(png, now, ts); }
      if connection == "open" { OnOpen(user, now, ts); }
      if connection == "close" { OnClose(code, now, ts); }
    }

    /** `requestPairingCode`; `reply` is the socket's answer (Err: it
        threw). */
    method RequestPairingCode(reply: Result<string, string>, now: int) returns (r: Result<string, string>)
      modifies this
      ensures !old(hasSocket) ==> r == Err("WA socket belum siap") && state == old(state) && events == old(events)
      ensures old(hasSocket) && reply.Err? ==> r == reply && state == old(state) && events == old(events)
      ensures old(hasSocket) && reply.Ok? ==>
        && r == reply
        && state == old(state).(pairingCode := Some(reply.value), lastQrPng := None, updatedAt := now)
        && events == old(events) + [WaUpdated(StatePayload(state))]
      ensures hasSocket == old(hasSocket) && restarts == old(restarts) && outbox == old(outbox)
    {
      if !hasSocket { return Err("WA socket belum siap"); }
      if reply.Err? { return reply; }
      EmitState(Patch(None, Some(None), Some(Some(reply.value)), None, None), now);
      r := reply;
    }

    /** `waLogout`: the socket is dropped whatever `logout` does, the state
        is reset and a restart is always scheduled. */
    method Logout(now: int)
      modifies this
      ensures state == LogoutState(old(state), now)
      ensures events == old(events) + [WaUpdated(StatePayload(state))]
      ensures !hasSocket && restarts == old(restarts) + 1 && outbox == old(outbox)
    {
      hasSocket := false;
      EmitState(Patch(Some(Idle), Some(None), Some(None), Some(None), Some(None)), now);
      restarts := restarts + 1;
    }

    /** `sendToUser`: nothing without a socket or a number. */
    method SendToUser(wa: Option<string>, text: string) returns (sent: bool)
      modifies this
      ensures sent == (hasSocket && wa.Some? && wa.value != "")
      ensures outbox == old(outbox) + (if sent then [Sent(Jid(wa.value), text)] else [])
      ensures state == old(state) && hasSocket == old(hasSocket) && restarts == old(restarts) && events == old(events)
    {
      if !hasSocket { return false; }
      if wa.None? || wa.value == "" { return false; }
      outbox := outbox + [Sent(Jid(wa.value), text)];
      sent := true;
    }

    /** `sendToAdmin`: to the admin number read from the settings
        (`getAdminWa()`) as normalised, or nowhere. */
    method SendToAdmin(settings: Settings.SettingsTable, text: string) returns (sent: bool)
      modifies this
      ensures var n := Phone.Normalize(Settings.TrimmedSetting(settings.rows, Settings.AdminWaKey)).e164;
        && sent == (hasSocket && n.Some? && n.value != "")
        && outbox == old(outbox) + (if sent then [Sent(Jid(n.value), text)] else [])
      ensures state == old(state) && hasSocket == old(hasSocket) && restarts == old(restarts) && events == old(events)
    {
      var adminWa := settings.GetAdminWa();
      var n := Phone.Normalize(adminWa).e164;
      if n.None? || n.value == "" { return false; }
      sent := SendToUser(n, text);
    }

    /** `messages.upsert` with a message of sender `from` and text `text`:
        the admin number is read from the settings, and when the message is
        the admin's command for a known order the order is updated, the
        buyer is sent the verb's text built from that order and the site
        URL read from the settings, and the two order events follow unless
        the send throws (`notify`). `amountText` and `expiresText` are the
        order's locale texts. */
    method OnCommand(store: Orders.OrderStore, settings: Settings.SettingsTable, from: string, text: string,
                     amountText: string, expiresText: Option<string>, notify: Option<string>)
      requires store.Valid()
      modifies this, store
      ensures store.Valid() && store.calls == old(store.calls)
      ensures state == old(state) && hasSocket == old(hasSocket) && restarts == old(restarts) && events == old(events)
      ensures var adminWa := Settings.TrimmedSetting(settings.rows, Settings.AdminWaKey);
        var t := CommandTarget(old(store.orders), from, text, adminWa);
        && (t.None? ==> store.orders == old(store.orders) && store.events == old(store.events) && outbox == old(outbox))
        && (t.Some? ==>
              var c, o := t.value, old(store.orders)[t.value.orderId];
              var siteUrl := Settings.TrimmedSetting(settings.rows, Settings.SiteUrlKey);
              var reply := CommandReply(c, siteUrl, OrderShown(o, amountText, expiresText));
              var sent := hasSocket && o.whatsapp.Some? && o.whatsapp.value != "";
              && store.orders == old(store.orders)[c.orderId := Orders.SetFulfilment(o, VerbStatus(c.verb), c.note)]
              && outbox == old(outbox) + (if sent then [Sent(Jid(o.whatsapp.value), reply)] else [])
              && store.events == old(store.events) + (if sent && notify.Some? then [] else Orders.Changed(o.invoiceToken)))
    {
      var adminWa := settings.GetAdminWa();
      var t := CommandTarget(store.orders, from, text, adminWa);
      if t.None? { return; }
      var c := t.value;
      var o := store.orders[c.orderId];
      var siteUrl := settings.GetSiteUrl();
      store.Fulfil(c.orderId, VerbStatus(c.verb), c.note);
      Tell(store, o, CommandReply(c, siteUrl, OrderShown(o, amountText, expiresText)), notify);
    }

    /** The buyer of `o` is sent `reply`, and the two order events follow
        unless the send throws. */
    method Tell(store: Orders.OrderStore, o: Orders.Order, reply: string, notify: Option<string>)
      requires store.Valid()
      modifies this, store
      ensures store.Valid() && store.calls == old(store.calls) && store.orders == old(store.orders)
      ensures state == old(state) && hasSocket == old(hasSocket) && restarts == old(restarts) && events == old(events)
      ensures var sent := hasSocket && o.whatsapp.Some? && o.whatsapp.value != "";
        && outbox == old(outbox) + (if sent then [Sent(Jid(o.whatsapp.value), reply)] else [])
        && store.events == old(store.events) + (if sent && notify.Some? then [] else Orders.Changed(o.invoiceToken))
    {
      var sent := SendToUser(o.whatsapp, reply);
      if sent && notify.Some? { return; }
      store.Announce(o.invoiceToken);
    }

    /** `messages.upsert`: the first message's sender and text, then the
        command it may carry. */
    method OnMessage(store: Orders.OrderStore, settings: Settings.SettingsTable, msg: Option<JsonValue>,
                     amountText: string, expiresText: Option<string>, notify: Option<string>)
      requires store.Valid()
      modifies this, store
      ensures store.Valid() && store.calls == old(store.calls)
      ensures state == old(state) && hasSocket == old(hasSocket) && restarts == old(restarts) && events == old(events)
      ensures var adminWa := Settings.TrimmedSetting(settings.rows, Settings.AdminWaKey);
        var t := CommandTarget(old(store.orders), SenderJid(msg), MessageText(msg), adminWa);
        && (t.None? ==> store.orders == old(store.orders) && store.events == old(store.events) && outbox == old(outbox))
        && (t.Some? ==>
              var c, o := t.value, old(store.orders)[t.value.orderId];
              var siteUrl := Settings.TrimmedSetting(settings.rows, Settings.SiteUrlKey);
              var reply := CommandReply(c, siteUrl, OrderShown(o, amountText, expiresText));
              var sent := hasSocket && o.whatsapp.Some? && o.whatsapp.value != "";
              && store.orders == old(store.orders)[c.orderId := Orders.SetFulfilment(o, VerbStatus(c.verb), c.note)]
              && outbox == old(outbox) + (if sent then [Sent(Jid(o.whatsapp.value), reply)] else [])
              && store.events == old(store.events) + (if sent && notify.Some? then [] else Orders.Changed(o.invoiceToken)))
    {
      OnCommand(store, settings, SenderJid(msg), MessageText(msg), amountText, expiresText, notify);
    }
  }

  /** A command changes only the fulfilment status and the note of the order
      it names, never its payment status, and keeps the table valid. */
  lemma CommandRule(orders: map<string, Orders.Order>, from: string, text: string, adminWa: string)
    requires Orders.ValidOrders(orders)
    ensures var t := CommandTarget(orders, from, text, adminWa);
      t.Some? ==>
        var id, o2 := t.value.orderId, Orders.SetFulfilment(orders[t.value.orderId], VerbStatus(t.value.verb), t.value.note);
        && Orders.ValidOrders(orders[id := o2])
        && o2.payStatus == orders[id].payStatus
        && o2.fulfillStatus == (if t.value.verb == DoneVerb then Orders.Done else Orders.Rejected)
        && o2.adminNote == (if t.value.note == "" then None else Some(t.value.note))
  {
    var t := CommandTarget(orders, from, text, adminWa);
    if t.Some? {
      var id := t.value.orderId;
      Orders.UpdateKeepsValid(orders, id, Orders.SetFulfilment(orders[id], VerbStatus(t.value.verb), t.value.note));
    }
  }

  // ---------------------------------------------------------------------
  // One-time codes
  // ---------------------------------------------------------------------

  /** Five minutes in milliseconds. */
  const OtpLifetime: int := 5 * 60 * 1000

  /** `verifyOtp` on the stored expiries: the answer and the store after
      it. */
  function VerifySpec(codes: map<string, int>, code: string, now: int): (r: (bool, map<string, int>))
    ensures r.0 <==> code in codes && now <= codes[code]
    ensures r.1 == codes - {code}
  {
    if code !in codes then (false, codes)
    else if now > codes[code] then (false, codes - {code})
    else (true, codes - {code})
  }

  /** A code is accepted at most once: after any lookup it is gone, so a
      second verification fails whatever the time, until it is generated
      again. */
  lemma OtpSingleUse(codes: map<string, int>, code: string, t1: int, t2: int)
    ensures !VerifySpec(VerifySpec(codes, code, t1).1, code, t2).0
  {
  }

  /** A fresh code is accepted exactly up to five minutes after it was
      generated. */
  lemma OtpLifetimeRule(codes: map<string, int>, code: string, generated: int, now: int)
    ensures VerifySpec(codes[code := generated + OtpLifetime], code, now).0 <==> now <= generated + 300000
  {
  }

  /** `otpStore`. */
  class OtpStore {
    var codes: map<string, int>

    constructor ()
      ensures codes == map[]
    {
      codes := map[];
    }

    /** `genOtp`; `n` is `crypto.randomInt(100000, 999999)`. */
    method Gen(n: int, now: int) returns (code: string)
      requires 100000 <= n < 999999
      modifies this
      ensures code == IntToString(n) && codes == old(codes)[code := now + OtpLifetime]
    {
      code := IntToString(n);
      codes := codes[code := now + OtpLifetime];
    }

    /** `verifyOtp`. */
    method Verify(code: string, now: int) returns (ok: bool)
      modifies this
      ensures (ok, codes) == VerifySpec(old(codes), code, now)
    {
      if code !in codes { return false; }
      if now > codes[code] {
        codes := codes - {code};
        return false;
      }
      codes := codes - {code};
      ok := true;
    }
  }

  /** A generated code is six decimal digits. */
  lemma OtpFormat(n: int)
    requires 100000 <= n < 999999
    ensures |IntToString(n)| == 6 && AllDigits(IntToString(n)) && DigitsValue(IntToString(n)) == n
  {
    DigitsValueOfNatToString(n);
    SixDigits(n);
  }

  lemma SixDigits(n: nat)
    requires 100000 <= n < 1000000
    ensures |NatToString(n)| == 6
  {
    var m1 := n / 10;
    var m2 := m1 / 10;
    var m3 := m2 / 10;
    var m4 := m3 / 10;
    var m5 := m4 / 10;
    assert 10000 <= m1 < 100000 && 1000 <= m2 < 10000 && 100 <= m3 < 1000 && 10 <= m4 < 100 && 1 <= m5 < 10;
    LengthStep(n);
    LengthStep(m1);
    LengthStep(m2);
    LengthStep(m3);
    LengthStep(m4);
  }

  lemma LengthStep(n: nat)
    requires n >= 10
    ensures |NatToString(n)| == |NatToString(n / 10)| + 1
  {
  }
}
