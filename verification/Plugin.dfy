// src/Plugin.cpp: the request processor run by each worker thread, and the callbacks that push
// events behind the HasSubscribers gate. Both act on the server object.

module Plugin {
  import opened Common
  import opened Messages
  import opened Requests
  import opened WebSocketServer
  import Handlers
  import R = Registry
  import N = Network

  // `origin` is the connection the request arrived on; it labels the reply and decides nothing.
  method ProcessRequest(server: WebSocketServer, payload: Payload, sdk: Handlers.Sdk, origin: Handle)
    returns (reply: Option<Message>)
    requires server.Valid()
    modifies server`subscriptionCounts, server.sessions.Values, server.server
    ensures server.Valid()
    ensures payload.Malformed? || !payload.j.Obj? ==> reply == None
    ensures payload.Parsed? && payload.j.Obj? && IsSubscription(payload.j) ==>
              var answer := SubscriptionHandled(old(server.Registry()), payload);
              && answer.Answer? && reply == Some(answer.reply) && server.Registry() == answer.r
    ensures payload.Parsed? && payload.j.Obj? && !IsSubscription(payload.j) ==>
              && reply == Handlers.Answered(sdk, payload) && reply.Some?
              && server.Registry() == old(server.Registry())
    ensures reply == None ==>
              server.Registry() == old(server.Registry()) && server.server.queues == old(server.server.queues)
    ensures reply.Some? ==>
              server.server.queues ==
              N.Routed(server.Registry(), old(server.server.queues), OrEmpty(StrField(payload.j, CLIENT_ID)),
                       MakeFrame(server.sizeOf, ReplyTo(origin), reply.value))
  {
    reply := None;
    if payload.Malformed? || !payload.j.Obj? { return; }
    var kind := StrField(payload.j, TYPE);
    var clientId := OrEmpty(StrField(payload.j, CLIENT_ID));
    if kind == Some(SUBSCRIBE) || kind == Some(UNSUBSCRIBE) {
      reply := server.HandleSubscriptionRequest(payload);
    } else {
      reply := Handlers.HandleRequest(sdk, payload);
      Handlers.EveryReplyIsCoherent(sdk, payload);
    }
    server.RouteOutgoing(MakeFrame(server.sizeOf, ReplyTo(origin), reply.value), clientId);
  }

  // One EuroScope callback: gate, validity check of the SDK object, push. The gate saves work and
  // nothing else: the queues end up as if the push had always been attempted.
  method OnCallback(server: WebSocketServer, event: string, isValid: bool, data: Json)
    requires R.IndexAgrees(server.Registry())
    requires forall h :: h in server.Registry().sessions ==> server.Registry().sessions[h].handshakeDone
    modifies server.server
    ensures server.server.queues ==
            if isValid then
              N.Broadcasted(server.Registry(), old(server.server.queues), event,
                            MakeFrame(server.sizeOf, PushOf(event), Push(event, data)))
            else old(server.server.queues)
  {
    var f := MakeFrame(server.sizeOf, PushOf(event), Push(event, data));
    var any := server.HasSubscribers(event);
    if !any {
      N.SkippedPushIsEmpty(server.Registry(), server.server.queues, event, f);
      return;
    }
    if !isValid { return; }
    server.Broadcast(event, f);
  }
}
