// What becomes of one request: triage on the IO thread (OnMessage), the split made by the
// request processor of the plugin, and the subscription manager's answer.

module Requests {
  import opened Common
  import opened Messages
  import opened Registry
  import Handlers

  // ----- OnMessage, after the session lookup -----

  datatype Triage =
    | Reject(reply: Message)
    | Heartbeat(reply: Message)
    | Unhandled
    | Overloaded(reply: Message)
    | Admit(request: Json)

  function Triaged(payload: Payload, clientId: string, hasProcessor: bool, active: nat): Triage {
    if payload.Malformed? then Reject(Error("Invalid JSON"))
    else
      var j := payload.j;
      if !j.Obj? then Reject(Error("Invalid request: expected a JSON object"))
      else if StrField(j, TYPE).None? then Reject(Error("Missing 'type' field"))
      else if StrField(j, TYPE).value == PING then Heartbeat(Pong(StrField(j, ID)))
      else if !hasProcessor then Unhandled
      else if active >= MAX_CONCURRENT_REQUESTS then
        Overloaded(Error("Server busy: too many in-flight requests"))
      else Admit(WithField(j, CLIENT_ID, Str(clientId)))
  }

  // What a worker can rely on: an object with a string type that names its own client.
  predicate WellFormed(request: Json, clientId: string) {
    request.Obj? && StrField(request, TYPE).Some? && StrField(request, CLIENT_ID) == Some(clientId)
  }

  // The request a worker gets is the message it stands for, but for the client id, whatever
  // `client_id` the sender wrote.
  predicate Derived(payload: Payload, clientId: string, request: Json) {
    && payload.Parsed? && payload.j.Obj?
    && StrField(payload.j, TYPE).Some? && StrField(payload.j, TYPE).value != PING
    && request == WithField(payload.j, CLIENT_ID, Str(clientId))
  }

  // Whether `m` answers `payload`: the right complaint about a message that is not a request, a
  // pong with its id, a refusal, the subscription manager's reply with its id, which lists events
  // exactly when it reports success, or what the handlers answer this very request under some
  // state of the SDK.
  ghost predicate Fits(payload: Payload, m: Message) {
    if payload.Malformed? then m == Error("Invalid JSON")
    else if !payload.j.Obj? then m == Error("Invalid request: expected a JSON object")
    else if StrField(payload.j, TYPE).None? then m == Error("Missing 'type' field")
    else if StrField(payload.j, TYPE).value == PING then m == Pong(StrField(payload.j, ID))
    else
      || m == Error("Server busy: too many in-flight requests")
      || (if IsSubscription(payload.j) then
            m.Response? && m.id == OrEmpty(StrField(payload.j, ID)) && (m.success <==> m.events.Some?)
          else exists sdk :: Handlers.Answered(sdk, payload) == Some(m))
  }

  // An object with a string under `type` that is no ping.
  predicate IsRequest(payload: Payload) {
    && payload.Parsed? && payload.j.Obj? && "type" in payload.j.fields && payload.j.fields["type"].Str?
    && payload.j.fields["type"].s != "ping"
  }

  // `m` is what the IO thread answers `payload` by itself: a complaint about what is no request, a
  // pong, or, once 64 requests are in flight, that it is busy.
  predicate AnsweredByItself(payload: Payload, hasProcessor: bool, active: nat, m: Message) {
    if payload.Malformed? then m == Error("Invalid JSON")
    else if !payload.j.Obj? then m == Error("Invalid request: expected a JSON object")
    else if "type" !in payload.j.fields || !payload.j.fields["type"].Str? then m == Error("Missing 'type' field")
    else if payload.j.fields["type"].s == "ping" then
      var id := if "id" in payload.j.fields then payload.j.fields["id"] else Null;
      m == Pong(if id.Str? then Some(id.s) else None)
    else hasProcessor && active >= 64 && m == Error("Server busy: too many in-flight requests")
  }

  // Triage is exactly this: it answers by itself, drops a request when nobody is there to process
  // one, and hands it on, naming its client, exactly while fewer than 64 are in flight.
  lemma TriageExactly(payload: Payload, clientId: string, hasProcessor: bool, active: nat)
    ensures var t := Triaged(payload, clientId, hasProcessor, active);
            && (t.Reject? || t.Heartbeat? || t.Overloaded? ==>
                  AnsweredByItself(payload, hasProcessor, active, t.reply))
            && (t.Unhandled? <==> IsRequest(payload) && !hasProcessor)
            && (t.Admit? <==> IsRequest(payload) && hasProcessor && active < 64)
            && (t.Admit? ==> t.request == Obj(payload.j.fields["client_id" := Str(clientId)]))
  {
  }

  lemma AdmittedNamesItsClient(payload: Payload, clientId: string, hasProcessor: bool, active: nat)
    ensures var t := Triaged(payload, clientId, hasProcessor, active);
            && (t.Admit? ==>
                  && WellFormed(t.request, clientId) && Derived(payload, clientId, t.request)
                  && hasProcessor && active < MAX_CONCURRENT_REQUESTS)
            && (t.Reject? || t.Heartbeat? || t.Overloaded? ==>
                  Fits(payload, t.reply) && (t.reply.Error? || t.reply.Pong?))
            && (t.Unhandled? ==> !hasProcessor) && (t.Overloaded? ==> active >= 64)
  {
    assert TYPE != CLIENT_ID by { assert |TYPE| != |CLIENT_ID|; }
  }

  // The fields a worker looks at are those of the message.
  lemma DerivedKeepsFields(payload: Payload, clientId: string, request: Json)
    requires Derived(payload, clientId, request)
    ensures request.Obj? && StrField(request, CLIENT_ID) == Some(clientId)
    ensures forall key :: key != CLIENT_ID ==> StrField(request, key) == StrField(payload.j, key)
    ensures StrField(request, ID) == StrField(payload.j, ID)
    ensures IsSubscription(request) <==> IsSubscription(payload.j)
    ensures StrField(request, TYPE) == StrField(payload.j, TYPE)
    ensures RequestedEvents(request) == RequestedEvents(payload.j)
  {
    assert |TYPE| != |CLIENT_ID| && |ID| != |CLIENT_ID| && |DATA| != |CLIENT_ID|;
    forall key | key != CLIENT_ID
      ensures StrField(request, key) == StrField(payload.j, key)
    {
    }
    assert DATA in request.fields <==> DATA in payload.j.fields;
    hide StrField, StringsOf;
  }

  // The client id plays no part in what the handlers answer.
  lemma DerivedAnswered(payload: Payload, clientId: string, request: Json, sdk: Handlers.Sdk)
    requires Derived(payload, clientId, request)
    ensures Handlers.Answered(sdk, Parsed(request)) == Handlers.Answered(sdk, payload)
  {
    assert |DATA| != |CLIENT_ID|;
    assert DATA in request.fields <==> DATA in payload.j.fields;
    assert Handlers.CallsignOf(request) == Handlers.CallsignOf(payload.j);
    DerivedKeepsFields(payload, clientId, request);
    hide StrField, Handlers.CallsignOf, Handlers.QueryResult, Handlers.ActionReply;
  }

  // ----- the request processor -----

  predicate IsSubscription(request: Json) {
    StrField(request, TYPE) == Some(SUBSCRIBE) || StrField(request, TYPE) == Some(UNSUBSCRIBE)
  }

  predicate AboutEvents(payload: Payload) {
    payload.Parsed? && payload.j.Obj? && IsSubscription(payload.j)
  }

  // ----- HandleSubscriptionRequest -----

  function StringsOf(items: seq<Json>): set<string> {
    set i | 0 <= i < |items| && items[i].Str? :: items[i].s
  }

  // The requested event types, or None when `events` is present but not an array.
  function RequestedEvents(req: Json): Option<set<string>>
    requires req.Obj?
  {
    if DATA in req.fields && req.fields[DATA].Obj? && EVENTS in req.fields[DATA].fields then
      var field := req.fields[DATA].fields[EVENTS];
      if field.Arr? then Some(StringsOf(field.items)) else None
    else Some({})
  }

  // The operation a well-formed subscription request asks for.
  function OpAsked(req: Json): SubOp
    requires req.Obj? && RequestedEvents(req).Some?
  {
    var events := RequestedEvents(req).value;
    if StrField(req, TYPE) == Some(SUBSCRIBE) then Subscribe(events) else Unsubscribe(events)
  }

  predicate AsksFor(payload: Payload, op: SubOp) {
    && AboutEvents(payload) && RequestedEvents(payload.j).Some? && op == OpAsked(payload.j)
  }

  // A reply to a subscription request reports success exactly when it lists events.
  lemma SuccessLists(payload: Payload, m: Message)
    requires AboutEvents(payload) && m.Response? && Fits(payload, m)
    ensures m.success <==> m.events.Some?
  {
    assert |SUBSCRIBE| != |PING| && |UNSUBSCRIBE| != |PING|;
  }

  // ----- what a subscription request says, in its own words -----

  predicate HasType(payload: Payload, kind: string) {
    && payload.Parsed? && payload.j.Obj?
    && "type" in payload.j.fields && payload.j.fields["type"] == Str(kind)
  }

  // The event is a string of the array under `events` in the object under `data`.
  predicate Names(payload: Payload, e: string) {
    && payload.Parsed? && payload.j.Obj? && "data" in payload.j.fields
    && var data := payload.j.fields["data"];
    && data.Obj? && "events" in data.fields && data.fields["events"].Arr?
    && Str(e) in data.fields["events"].items
  }

  ghost predicate NamesNone(payload: Payload) {
    forall e :: !Names(payload, e)
  }

  // There is something under `events` that is no array.
  predicate BadEvents(payload: Payload) {
    && payload.Parsed? && payload.j.Obj? && "data" in payload.j.fields
    && var data := payload.j.fields["data"];
    && data.Obj? && "events" in data.fields && !data.fields["events"].Arr?
  }

  predicate Subscribes(payload: Payload, e: string) {
    HasType(payload, "subscribe") && Names(payload, e)
  }

  ghost predicate Unsubscribes(payload: Payload, e: string) {
    HasType(payload, "unsubscribe") && (Names(payload, e) || NamesNone(payload))
  }

  lemma TypesSubscription(payload: Payload)
    requires payload.Parsed? && payload.j.Obj?
    ensures IsSubscription(payload.j) <==> HasType(payload, "subscribe") || HasType(payload, "unsubscribe")
  {
  }

  lemma EventsNamed(payload: Payload)
    requires payload.Parsed? && payload.j.Obj?
    ensures RequestedEvents(payload.j).None? <==> BadEvents(payload)
    ensures RequestedEvents(payload.j).Some? ==>
              forall e :: e in RequestedEvents(payload.j).value <==> Names(payload, e)
  {
    if RequestedEvents(payload.j).Some? {
      forall e
        ensures e in RequestedEvents(payload.j).value <==> Names(payload, e)
      {
        if Names(payload, e) {
          var items := payload.j.fields["data"].fields["events"].items;
          var i :| 0 <= i < |items| && items[i] == Str(e);
          assert items[i].s == e;
        }
      }
    }
  }

  // ----- its answer -----

  // Which session's set was rewritten, by which operation, and to what.
  datatype Change = Change(h: Handle, op: SubOp, listed: set<string>)

  datatype SubscriptionAnswer =
    | NoAnswer
    | Answer(r: Registry, reply: Message, change: Option<Change>)

  function Failure(id: string, error: string): Message {
    Response(id, false, None, error, None)
  }

  function SubscriptionHandled(r: Registry, payload: Payload): SubscriptionAnswer {
    if payload.Malformed? || !payload.j.Obj? then NoAnswer
    else
      var req := payload.j;
      var id := OrEmpty(StrField(req, ID));
      var clientId := OrEmpty(StrField(req, CLIENT_ID));
      var events := RequestedEvents(req);
      if events.None? then Answer(r, Failure(id, "Invalid 'events' field; expected an array of strings"), None)
      else if clientId !in r.idToHdl then Answer(r, Failure(id, "Unknown client"), None)
      else
        var h := r.idToHdl[clientId];
        if h !in r.sessions then Answer(r, Failure(id, "Unknown client"), None)
        else
          var op := OpAsked(req);
          var r' := Resubscribed(r, h, op);
          var subs := r'.sessions[h].subs;
          Answer(r', Response(id, true, None, "", Some(subs)), Some(Change(h, op, subs)))
  }

  // The answer to a well-formed request whose client id leads to `h` or nowhere: it is never empty,
  // it touches only that client's session, it reports success exactly when it makes the change asked
  // for, and then it lists that client's new set.
  lemma AnswerFacts(r: Registry, request: Json, clientId: string, h: Handle)
    requires WellFormed(request, clientId)
    requires clientId in r.idToHdl ==> r.idToHdl[clientId] == h && h in r.sessions
    ensures var a := SubscriptionHandled(r, Parsed(request));
            && a.Answer? && a.reply.Response? && (a.reply.success <==> a.reply.error == "")
            && a.reply.id == OrEmpty(StrField(request, ID))
            && (a.reply.success <==> a.change.Some?)
            && (a.change.None? ==> a.r == r && a.reply.events.None?)
            && (a.change.Some? ==>
                  && a.change.value.h == h && h in r.sessions
                  && RequestedEvents(request).Some? && a.change.value.op == OpAsked(request)
                  && a.change.value.listed == Applied(r.sessions[h].subs, a.change.value.op)
                  && a.reply.events == Some(a.change.value.listed)
                  && a.r == Resubscribed(r, h, a.change.value.op))
  {
    hide Acquired, Released, RequestedEvents, OpAsked, Applied, StrField;
    assert |"Unknown client"| > 0 && |"Invalid 'events' field; expected an array of strings"| > 0;
  }

  // The answer to a subscription request that names `clientId`, without reference to the functions
  // it is computed by.
  ghost predicate Confirmed(r: Registry, r': Registry, payload: Payload, clientId: string, reply: Message)
    requires payload.Parsed? && payload.j.Obj?
  {
    var id := OrEmpty(StrField(payload.j, ID));
    if BadEvents(payload) then
      r' == r && reply == Response(id, false, None, "Invalid 'events' field; expected an array of strings", None)
    else if clientId !in r.idToHdl || r.idToHdl[clientId] !in r.sessions then
      r' == r && reply == Response(id, false, None, "Unknown client", None)
    else
      var h := r.idToHdl[clientId];
      && r'.sessions.Keys == r.sessions.Keys && r'.idToHdl == r.idToHdl
      && (forall k :: k in r.sessions && k != h ==> r'.sessions[k] == r.sessions[k])
      && reply == Response(id, true, None, "", Some(r'.sessions[h].subs))
      && forall e :: e in r'.sessions[h].subs <==>
           if HasType(payload, "subscribe") then e in r.sessions[h].subs || Names(payload, e)
           else e in r.sessions[h].subs && !Names(payload, e) && !NamesNone(payload)
  }

  lemma HandledConfirms(r: Registry, payload: Payload)
    requires payload.Parsed? && payload.j.Obj?
    ensures var a := SubscriptionHandled(r, payload);
            a.Answer? && Confirmed(r, a.r, payload, OrEmpty(StrField(payload.j, CLIENT_ID)), a.reply)
  {
    EventsNamed(payload);
    hide RequestedEvents, Names, Acquired, Released;
  }

  // All of this is the same for the message and for the request a worker gets for it.
  lemma DerivedSays(payload: Payload, clientId: string, request: Json)
    requires IsRequest(payload) && request == Obj(payload.j.fields["client_id" := Str(clientId)])
    ensures forall kind :: HasType(Parsed(request), kind) <==> HasType(payload, kind)
    ensures forall e :: Names(Parsed(request), e) <==> Names(payload, e)
    ensures NamesNone(Parsed(request)) <==> NamesNone(payload)
    ensures BadEvents(Parsed(request)) <==> BadEvents(payload)
    ensures StrField(request, ID) == StrField(payload.j, ID) && StrField(request, CLIENT_ID) == Some(clientId)
  {
    assert |"type"| != |"client_id"| && |"data"| != |"client_id"| && |"id"| != |"client_id"|;
  }
}
