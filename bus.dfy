/** The process-wide event bus: each `bus.emit` becomes an entry appended
    to a log. */
module Bus {
  import opened Wrappers
  import opened Js

  datatype Event =
    | DashboardUpdated
    | InvoiceUpdated(invoiceToken: string)
    | Log(entry: JsonValue)
    | WaUpdated(state: JsonValue)

  /** The line the logger publishes: `{ ts, level, msg, meta: meta || null }`
      with `ts` the clock's ISO text. */
  function LogLine(ts: string, level: string, msg: string, meta: Option<JsonValue>): (line: JsonValue)
    ensures line.JObject? && |line.fields| == 4
  {
    JObject([("ts", JStr(ts)), ("level", JStr(level)), ("msg", JStr(msg)),
             ("meta", if meta.Some? && Truthy(meta.value) then meta.value else JNull)])
  }
}
