// What the server puts on the wire, before it becomes text.

module Messages {
  import opened Common

  type Handle = nat

  // An `Error` is {"type":"error"}, a `Pong` echoes a string id when there is one, and a
  // `Response` is the reply envelope: `error` is written only when not empty, `events` only
  // by a successful subscription request. The order of the listed events is not modelled.
  datatype Message =
    | Error(error: string)
    | Pong(echo: Option<string>)
    | Response(id: string, success: bool, result: Option<Json>, error: string, events: Option<set<string>>)
    | Push(event: string, data: Json)

  // Why a frame was sent: written inline by the IO thread, in reply to a request that arrived
  // on `origin`, or as a push of `event`.
  datatype Cause = Inline | ReplyTo(origin: Handle) | PushOf(event: string)

  datatype Frame = Frame(cause: Cause, msg: Message, size: nat)

  // Length of a message once dumped; any total function will do.
  type Sizer = Message -> nat

  function MakeFrame(sizeOf: Sizer, cause: Cause, msg: Message): Frame {
    Frame(cause, msg, sizeOf(msg))
  }
}
