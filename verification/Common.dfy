// Shared vocabulary: optional values, JSON documents and the constants of src/Constants.h.

module Common {
  datatype Option<+T> = None | Some(value: T)

  // Any JSON document. Text is never modelled: a request is either a document or not parseable at all.
  datatype Json =
    | Null
    | Bool(b: bool)
    | Number(n: real)
    | Str(s: string)
    | Arr(items: seq<Json>)
    | Obj(fields: map<string, Json>)

  datatype Payload = Malformed | Parsed(j: Json)

  // The string stored under `key`, if `j` is an object that has one.
  function StrField(j: Json, key: string): Option<string> {
    if j.Obj? && key in j.fields && j.fields[key].Str? then Some(j.fields[key].s) else None
  }

  // `operator[]` on an object: replaces whatever the key held before.
  function WithField(j: Json, key: string, v: Json): Json
    requires j.Obj?
  {
    Obj(j.fields[key := v])
  }

  function OrEmpty(s: Option<string>): string {
    if s.Some? then s.value else ""
  }

  const MAX_CLIENT_SEND_QUEUE_BYTES: nat := 32 * 1024 * 1024
  const MAX_CONCURRENT_REQUESTS: nat := 64
  const MAX_CLIENTS: nat := 64

  const TYPE := "type"
  const ID := "id"
  const DATA := "data"
  const EVENTS := "events"
  const CLIENT_ID := "client_id"
  const PING := "ping"
  const SUBSCRIBE := "subscribe"
  const UNSUBSCRIBE := "unsubscribe"
}
