// What a client gets for its message when nothing stands in the way: a complaint, a pong or a
// refusal from the IO thread, or a worker and that worker's reply; and when it may be refused.

module Service {
  import opened Common
  import opened Messages
  import opened Registry
  import opened Network
  import opened Requests
  import opened Protocol
  import opened Invariants
  import opened Locking
  import opened History
  import opened Accounts
  import opened Runs
  import opened Entries
  import opened Safety
  import Handlers

  // ----- refusals -----

  // In every run a client is told that the server is busy only by the triage of its own request,
  // and only when 64 requests were in flight.
  lemma BusyOnlyWhenFull(cfg: Config, steps: seq<Step>, h: Handle, j: nat)
    requires CanRun(cfg, INITIAL, steps)
    requires var s := After(cfg, INITIAL, steps);
             && h in s.history && j < |s.history[h]| && s.history[h][j].Enqueued?
             && s.history[h][j].f.msg == Error("Server busy: too many in-flight requests")
    ensures exists i: nat ::
              && i < |steps| && steps[i] == Step.Io(Dispatch)
              && var s := At(cfg, INITIAL, steps, i);
              && s.io.Holding? && s.io.h == h && s.active == 64
              && After(cfg, INITIAL, steps).history[h][j].answers == Some(s.io.ticket)
  {
    hide Reachable, Inv, Orderly, Exec, Enabled, CanRun, RepliesTo, Raises;
    var e := After(cfg, INITIAL, steps).history[h][j];
    AtEnd(cfg, INITIAL, steps);
    EntryExplained(cfg, steps, |steps|, h, j);
    var i: nat :| i < |steps| && Explains(cfg, At(cfg, INITIAL, steps, i), steps[i], h, e);
    InitialReachable(cfg);
    ReachableOn(cfg, INITIAL, steps);
    ReachableAt(cfg, INITIAL, steps, i);
    ErrorsAreInline(cfg, After(cfg, INITIAL, steps), h, j);
    WorkersAreCounted(cfg, At(cfg, INITIAL, steps, i));
    BusyMeansFull(At(cfg, INITIAL, steps, i).io.payload, cfg.hasProcessor, At(cfg, INITIAL, steps, i).active);
  }

  lemma ErrorsAreInline(cfg: Config, s: State, h: Handle, j: nat)
    requires Reachable(cfg, s) && h in s.history && j < |s.history[h]|
    requires s.history[h][j].Enqueued? && s.history[h][j].f.msg.Error?
    ensures s.history[h][j].f.cause.Inline? && s.history[h][j].answers.Some?
  {
    hide Reachable, Orderly;
    InvReachable(cfg, s);
    assert Justified(s.history[h][..j], s.history[h][j], h);
  }

  lemma BusyMeansFull(payload: Payload, hasProcessor: bool, active: nat)
    requires AnsweredByItself(payload, hasProcessor, active, Error("Server busy: too many in-flight requests"))
    ensures hasProcessor && active >= 64 && IsRequest(payload)
  {
    assert |"Server busy: too many in-flight requests"| == 40 && |"Invalid JSON"| == 12;
    assert |"Invalid request: expected a JSON object"| == 39 && |"Missing 'type' field"| == 20;
  }

  // ----- the IO thread answers by itself -----

  // A message of a client with a live connection that is no request, or one too many, is answered by
  // the next two steps of the IO thread, and nothing else changes.
  lemma AnsweredAtOnce(cfg: Config, s: State, h: Handle, payload: Payload, m: Message)
    requires Reachable(cfg, s) && s.io.Idle? && s.lock.Free? && h in s.reg.sessions && h in s.queues
    requires AnsweredByItself(payload, cfg.hasProcessor, s.active, m)
    ensures var run := [Step.Io(Receive(h, payload)), Step.Io(Dispatch)];
            && CanRun(cfg, s, run)
            && var s', f := After(cfg, s, run), Frame(Inline, m, cfg.sizeOf(m));
            && h in s.history && s'.queues == s.queues[h := s.queues[h] + [f]]
            && s'.history == s.history[h := s.history[h] + [Enqueued(f, Some(|s.requests|))]]
            && s'.io.Idle? && s'.reg == s.reg && s'.workers == s.workers && s'.active == s.active
  {
    hide Reachable, Inv, Orderly, CanRun, After, AnsweredByItself, Triaged, Exec, Enabled;
    InvReachable(cfg, s);
    KnownConnections(s);
    var s1, s2 := Receiving(s, h, payload), Dispatching(cfg, Receiving(s, h, payload));
    OneAnswer(payload, s1.io.clientId, cfg.hasProcessor, s.active, m);
    assert s2 == Inlined(cfg, s1, h, s1.io.ticket, m);
    QueueEffect(Settled(s1, h, s1.io.ticket), h, MakeFrame(cfg.sizeOf, Inline, m), Some(s1.io.ticket));
    TwoIoSteps(cfg, s, h, payload);
    hide Transmitted;
  }

  lemma TwoIoSteps(cfg: Config, s: State, h: Handle, payload: Payload)
    requires s.io.Idle? && s.lock.Free? && h in s.reg.sessions
    ensures var run := [Step.Io(Receive(h, payload)), Step.Io(Dispatch)];
            CanRun(cfg, s, run) && After(cfg, s, run) == Dispatching(cfg, Receiving(s, h, payload))
  {
    hide CanRun, After, Dispatching;
    var s1, s2 := Receiving(s, h, payload), Dispatching(cfg, Receiving(s, h, payload));
    var a: seq<Step> := [Step.Io(Dispatch)];
    NoSteps(cfg, s2);
    OneStep(cfg, s1, Step.Io(Dispatch), []);
    assert a + [] == a;
    OneStep(cfg, s, Step.Io(Receive(h, payload)), a);
    assert [Step.Io(Receive(h, payload))] + a == [Step.Io(Receive(h, payload)), Step.Io(Dispatch)];
  }

  lemma OneAnswer(payload: Payload, clientId: string, hasProcessor: bool, active: nat, m: Message)
    requires AnsweredByItself(payload, hasProcessor, active, m)
    ensures var t := Triaged(payload, clientId, hasProcessor, active);
            (t.Reject? || t.Heartbeat? || t.Overloaded?) && t.reply == m
  {
    TriageExactly(payload, clientId, hasProcessor, active);
  }

  // ----- a client connects -----

  // A handshake that opens gives the connection a session of its own, under its handle and its id, with
  // no subscriptions and nothing queued, and changes nobody else's.
  lemma OpenedIsKnown(cfg: Config, s: State, h: Handle, id: string)
    requires Reachable(cfg, s) && IoEnabled(s, Open(h, id))
    ensures var s' := ExecIo(cfg, s, Open(h, id));
            && h !in s.reg.sessions && id !in s.reg.idToHdl
            && s'.reg.sessions == s.reg.sessions[h := Session(id, true, {})]
            && s'.reg.idToHdl == s.reg.idToHdl[id := h] && s'.reg.counts == s.reg.counts
            && s'.queues == s.queues[h := []] && s'.history == s.history[h := []]
            && s'.io.Idle? && s'.workers == s.workers
  {
    hide Reachable, Orderly, RequestsInHand, WorkersCounted, StopOrdered, Histories, Streams, Consistent;
    InvReachable(cfg, s);
    FreshId(s, id);
  }

  // ----- a worker takes a request -----

  // The worker the message `payload` of `h` gets.
  function WorkerFor(s: State, h: Handle, payload: Payload): Worker
    requires payload.Parsed? && payload.j.Obj? && h in s.ids
  {
    Worker(h, |s.requests|, Obj(payload.j.fields["client_id" := Str(s.ids[h])]), Ready)
  }

  // The states the IO thread goes through while it hands a request to worker `w`.
  function Taking(s: State, h: Handle, payload: Payload, w: nat): seq<State>
    requires payload.Parsed? && payload.j.Obj? && h in s.ids
  {
    var worker := WorkerFor(s, h, payload);
    var s1 := s.(io := Holding(h, |s.requests|, s.ids[h], payload), requests := s.requests + [Request(h, payload)]);
    var s2 := s1.(io := Admitted(h, |s.requests|, worker.request));
    var s3 := s2.(io := Counted(h, |s.requests|, worker.request), active := s.active + 1);
    [s, s1, s2, s3, s3.(io := Idle, workers := s.workers[w := worker])]
  }

  function TakingSteps(h: Handle, payload: Payload, w: nat): seq<Step> {
    [Step.Io(Receive(h, payload)), Step.Io(Dispatch), Step.Io(Count), Step.Io(Spawn(w))]
  }

  lemma ReceivedThenAdmitted(cfg: Config, s: State, h: Handle, payload: Payload, w: nat)
    requires Inv(s) && s.io.Idle? && s.lock.Free? && h in s.reg.sessions && h in s.ids
    requires IsRequest(payload) && cfg.hasProcessor && s.active < 64
    ensures var states, steps := Taking(s, h, payload, w), TakingSteps(h, payload, w);
            StepTo(cfg, states[0], steps[0], states[1]) && StepTo(cfg, states[1], steps[1], states[2])
  {
    hide Inv, Triaged, Identities, IsRequest;
    assert Identities(s) by { IdentitiesOf(s); }
    SessionId(s, h);
    assert IsRequest(payload) ==> payload.Parsed? && payload.j.Obj? by { RequestIsObject(payload); }
    TriageExactly(payload, s.ids[h], cfg.hasProcessor, s.active);
  }

  lemma IdentitiesOf(s: State)
    requires Inv(s)
    ensures Identities(s)
  {
  }

  lemma RequestIsObject(payload: Payload)
    ensures IsRequest(payload) ==> payload.Parsed? && payload.j.Obj?
  {
  }

  // While fewer than 64 requests are in flight, any further one gets a worker of its own, in four
  // steps of the IO thread and without an answer from it.
  lemma RequestTaken(cfg: Config, s: State, h: Handle, payload: Payload, w: nat)
    requires Reachable(cfg, s) && s.io.Idle? && s.lock.Free? && h in s.reg.sessions && w !in s.workers
    requires IsRequest(payload) && cfg.hasProcessor && s.active < 64
    ensures h in s.ids && CanRun(cfg, s, TakingSteps(h, payload, w))
    ensures After(cfg, s, TakingSteps(h, payload, w)) ==
            s.(requests := s.requests + [Request(h, payload)], active := s.active + 1,
               workers := s.workers[w := WorkerFor(s, h, payload)])
  {
    hide Reachable, Inv, Orderly, CanRun, After, Exec, Enabled, StepTo, IsRequest;
    InvReachable(cfg, s);
    IdentitiesOf(s);
    SessionId(s, h);
    RequestIsObject(payload);
    var states, steps := Taking(s, h, payload, w), TakingSteps(h, payload, w);
    ReceivedThenAdmitted(cfg, s, h, payload, w);
    CountedThenSpawned(cfg, s, h, payload, w);
    TraceRuns(cfg, states, steps);
  }

  lemma CountedThenSpawned(cfg: Config, s: State, h: Handle, payload: Payload, w: nat)
    requires payload.Parsed? && payload.j.Obj? && h in s.ids && w !in s.workers
    ensures var states, steps := Taking(s, h, payload, w), TakingSteps(h, payload, w);
            StepTo(cfg, states[2], steps[2], states[3]) && StepTo(cfg, states[3], steps[3], states[4])
  {
  }

  // ----- and sends its reply -----

  // Worker `w` has a reply and knows its own client, which is there and has room for it.
  predicate ReadyToSend(cfg: Config, s: State, w: nat) {
    && s.lock.Free? && s.active > 0 && w in s.workers && s.workers[w].pc.Routing?
    && var worker := s.workers[w];
    && worker.pc.clientId != "" && worker.pc.clientId in s.reg.idToHdl
    && s.reg.idToHdl[worker.pc.clientId] == worker.origin
    && worker.origin in s.queues && worker.origin in s.history
    && Bytes(s.queues[worker.origin]) + cfg.sizeOf(worker.pc.reply) <= MAX_CLIENT_SEND_QUEUE_BYTES
  }

  function SendingSteps(w: nat, h: Handle): seq<Step> {
    [Step.Work(w, Route), Step.Deliver(Check(h)), Step.Deliver(Act), Step.Deliver(Release), Step.Work(w, Leave)]
  }

  // The reply is on its client's queue and on record, and its worker is gone.
  function Replied(cfg: Config, s: State, w: nat): State
    requires ReadyToSend(cfg, s, w)
  {
    var worker := s.workers[w];
    var h, f := worker.origin, Frame(ReplyTo(worker.origin), worker.pc.reply, cfg.sizeOf(worker.pc.reply));
    s.(queues := s.queues[h := s.queues[h] + [f]],
       history := s.history[h := s.history[h] + [Enqueued(f, Some(worker.ticket))]],
       settledAt := s.settledAt[worker.ticket := |s.history[h]|],
       workers := s.workers - {w}, active := s.active - 1)
  }

  function Sending(cfg: Config, s: State, w: nat): seq<State>
    requires ReadyToSend(cfg, s, w)
  {
    var worker := s.workers[w];
    var h, f := worker.origin, Frame(ReplyTo(worker.origin), worker.pc.reply, cfg.sizeOf(worker.pc.reply));
    var done := Replied(cfg, s, w).(workers := s.workers[w := worker.(pc := Leaving)], active := s.active);
    [s, s.(lock := Held(Replier(w), f, {h}, None)), s.(lock := Held(Replier(w), f, {}, Some(Checked(h, true)))),
     done.(lock := Held(Replier(w), f, {}, None)), done, Replied(cfg, s, w)]
  }

  lemma ReplySent(cfg: Config, s: State, w: nat)
    requires ReadyToSend(cfg, s, w)
    ensures var steps := SendingSteps(w, s.workers[w].origin);
            CanRun(cfg, s, steps) && After(cfg, s, steps) == Replied(cfg, s, w)
  {
    hide CanRun, After, StepTo, Replied;
    FirstHalf(cfg, s, w);
    ReplyQueued(cfg, s, w);
    SecondHalf(cfg, s, w);
    TraceRuns(cfg, Sending(cfg, s, w), SendingSteps(w, s.workers[w].origin));
  }

  lemma FirstHalf(cfg: Config, s: State, w: nat)
    requires ReadyToSend(cfg, s, w)
    ensures var states, steps := Sending(cfg, s, w), SendingSteps(w, s.workers[w].origin);
            StepTo(cfg, states[0], steps[0], states[1]) && StepTo(cfg, states[1], steps[1], states[2])
  {
    hide Ending, Replied, Bytes;
    var h := s.workers[w].origin;
    assert {h} - {h} == {};
  }

  lemma ReplyQueued(cfg: Config, s: State, w: nat)
    requires ReadyToSend(cfg, s, w)
    ensures var states, steps := Sending(cfg, s, w), SendingSteps(w, s.workers[w].origin);
            StepTo(cfg, states[2], steps[2], states[3])
  {
    hide Ending, Bytes;
    var worker, s2 := s.workers[w], Sending(cfg, s, w)[2];
    QueueEffect(Settled(s2, worker.origin, worker.ticket), worker.origin, s2.lock.f, Some(worker.ticket));
    hide Transmitted;
    AnswerShares(s2, w, worker.origin, s2.lock.f);
  }

  lemma SecondHalf(cfg: Config, s: State, w: nat)
    requires ReadyToSend(cfg, s, w)
    ensures var states, steps := Sending(cfg, s, w), SendingSteps(w, s.workers[w].origin);
            StepTo(cfg, states[3], steps[3], states[4]) && StepTo(cfg, states[4], steps[4], states[5])
  {
    hide Bytes;
  }

  // ----- from the message to the reply -----

  lemma HandlerReplies(cfg: Config, s: State, w: nat, payload: Payload, id: string, sdk: Handlers.Sdk, m: Message)
    requires w in s.workers && s.workers[w].pc.Ready? && IsRequest(payload)
    requires s.workers[w].request == Obj(payload.j.fields["client_id" := Str(id)])
    requires !HasType(payload, "subscribe") && !HasType(payload, "unsubscribe")
    requires Handlers.Answered(sdk, payload) == Some(m)
    ensures StepTo(cfg, s, Step.Work(w, Handle(sdk)), WithPc(s, w, Routing(m, id)))
  {
    hide Handlers.Answered, Ending;
    assert Derived(payload, id, s.workers[w].request);
    DerivedAnswered(payload, id, s.workers[w].request, sdk);
    DerivedKeepsFields(payload, id, s.workers[w].request);
  }

  // A subscription request changes the set as it says, and the reply lists the new set; one with
  // something else than an array under `events` changes nothing.
  ghost predicate Obeyed(r: Registry, r': Registry, h: Handle, payload: Payload, m: Message)
    requires payload.Parsed? && payload.j.Obj? && h in r.sessions
  {
    var id := OrEmpty(StrField(payload.j, ID));
    if BadEvents(payload) then
      r' == r && m == Response(id, false, None, "Invalid 'events' field; expected an array of strings", None)
    else
      && r'.sessions.Keys == r.sessions.Keys && r'.idToHdl == r.idToHdl
      && (forall k :: k in r.sessions && k != h ==> r'.sessions[k] == r.sessions[k])
      && (forall e :: e in r'.sessions[h].subs <==>
            Subscribes(payload, e) || (e in r.sessions[h].subs && !Unsubscribes(payload, e)))
      && m == Response(id, true, None, "", Some(r'.sessions[h].subs))
  }

  lemma ObeyedKeepsIds(r: Registry, r': Registry, h: Handle, payload: Payload, m: Message)
    requires payload.Parsed? && payload.j.Obj? && h in r.sessions && Obeyed(r, r', h, payload, m)
    ensures r'.idToHdl == r.idToHdl
  {
  }

  lemma ConfirmedObeys(s: State, r': Registry, h: Handle, payload: Payload, request: Json, m: Message)
    requires IsRequest(payload) && h in s.ids && h in s.reg.sessions
    requires request == Obj(payload.j.fields["client_id" := Str(s.ids[h])])
    requires s.ids[h] in s.reg.idToHdl && s.reg.idToHdl[s.ids[h]] == h
    requires HasType(payload, "subscribe") || HasType(payload, "unsubscribe")
    requires Confirmed(s.reg, r', Parsed(request), s.ids[h], m)
    ensures Obeyed(s.reg, r', h, payload, m)
  {
    hide Names, NamesNone, BadEvents, StrField, IsRequest;
    DerivedSays(payload, s.ids[h], request);
    assert |"subscribe"| != |"unsubscribe"|;
  }

  lemma SubscribingShape(s: State, w: nat)
    requires w in s.workers && SubscriptionHandled(s.reg, Parsed(s.workers[w].request)).Answer?
    ensures var s', a := Subscribing(s, w), SubscriptionHandled(s.reg, Parsed(s.workers[w].request));
            var id := OrEmpty(StrField(s.workers[w].request, CLIENT_ID));
            && s' == s.(reg := a.r, history := s'.history,
                        workers := s.workers[w := s.workers[w].(pc := Routing(a.reply, id))])
            && s'.history.Keys == s.history.Keys
  {
    hide SubscriptionHandled, Subscribing, Ending, StrField;
    SubscribingParts(s, w);
  }

  // What worker `w` does with a subscription request.
  lemma ManagerReplies(cfg: Config, s: State, w: nat, payload: Payload) returns (m: Message)
    requires Inv(s) && s.lock.Free? && w in s.workers && s.workers[w].pc.Ready? && IsRequest(payload)
    requires s.workers[w].origin in s.ids && s.workers[w].origin in s.reg.sessions
    requires s.workers[w].request == Obj(payload.j.fields["client_id" := Str(s.ids[s.workers[w].origin])])
    requires HasType(payload, "subscribe") || HasType(payload, "unsubscribe")
    ensures WorkEnabled(s, w, ManageSubscription)
    ensures var h, s' := s.workers[w].origin, Subscribing(s, w);
            && Obeyed(s.reg, s'.reg, h, payload, m)
            && s'.workers == s.workers[w := s.workers[w].(pc := Routing(m, s.ids[h]))]
            && s' == s.(reg := s'.reg, history := s'.history, workers := s'.workers)
            && s'.history.Keys == s.history.Keys && s'.reg.idToHdl == s.reg.idToHdl
  {
    hide Inv, Identities, SubscriptionHandled, Subscribing, Confirmed, HasType, Names, NamesNone, BadEvents, Obeyed;
    var h, request := s.workers[w].origin, s.workers[w].request;
    DerivedSays(payload, s.ids[h], request);
    TypesSubscription(Parsed(request));
    HandledConfirms(s.reg, Parsed(request));
    IdentitiesOf(s);
    IdLeadsHome(s, h);
    SubscribingShape(s, w);
    var a := SubscriptionHandled(s.reg, Parsed(request));
    m := a.reply;
    ConfirmedObeys(s, a.r, h, payload, request, m);
    assert a.r.idToHdl == s.reg.idToHdl by { ObeyedKeepsIds(s.reg, a.r, h, payload, m); }
  }

  // A run of the server serves one request of `h`: its reply `m` is what is queued on the connection,
  // no other connection, no counter and no worker is left changed.
  ghost predicate Serves(cfg: Config, s: State, s': State, h: Handle, m: Message) {
    && h in s.queues
    && s'.queues == s.queues[h := s.queues[h] + [Frame(ReplyTo(h), m, cfg.sizeOf(m))]]
    && s'.workers == s.workers && s'.active == s.active && s'.io.Idle? && s'.lock.Free?
    && s'.wire == s.wire && s'.ids == s.ids && s'.push == s.push && s'.stop == s.stop
  }

  function ServingSteps(h: Handle, payload: Payload, w: nat, work: WorkStep): seq<Step> {
    TakingSteps(h, payload, w) + [Step.Work(w, work)] + SendingSteps(w, h)
  }

  // The run up to the reply, and from there.
  lemma Serving(cfg: Config, s: State, taken: State, got: State, h: Handle, payload: Payload, w: nat, work: WorkStep)
    requires CanRun(cfg, s, TakingSteps(h, payload, w)) && After(cfg, s, TakingSteps(h, payload, w)) == taken
    requires StepTo(cfg, taken, Step.Work(w, work), got) && ReadyToSend(cfg, got, w) && got.workers[w].origin == h
    ensures CanRun(cfg, s, ServingSteps(h, payload, w, work))
    ensures After(cfg, s, ServingSteps(h, payload, w, work)) == Replied(cfg, got, w)
  {
    hide CanRun, After, Exec, Enabled, ReadyToSend, Replied, TakingSteps, SendingSteps;
    ReplySent(cfg, got, w);
    OneStep(cfg, taken, Step.Work(w, work), SendingSteps(w, h));
    RunOn(cfg, s, TakingSteps(h, payload, w), [Step.Work(w, work)] + SendingSteps(w, h));
    assert TakingSteps(h, payload, w) + ([Step.Work(w, work)] + SendingSteps(w, h)) ==
           ServingSteps(h, payload, w, work);
  }

  // The worker that took the request has got the reply `m`, and its own client can be sent it.
  lemma GotServes(cfg: Config, s: State, taken: State, got: State, h: Handle, payload: Payload, w: nat,
        work: WorkStep, m: Message)
    requires payload.Parsed? && payload.j.Obj? && h in s.ids && s.ids[h] != "" && h in s.queues && w !in s.workers
    requires s.lock.Free? && s.io.Idle?
    requires CanRun(cfg, s, TakingSteps(h, payload, w)) && After(cfg, s, TakingSteps(h, payload, w)) == taken
    requires taken == s.(requests := s.requests + [Request(h, payload)], active := s.active + 1,
                         workers := s.workers[w := WorkerFor(s, h, payload)])
    requires StepTo(cfg, taken, Step.Work(w, work), got)
    requires got == taken.(reg := got.reg, history := got.history,
                           workers := taken.workers[w := taken.workers[w].(pc := Routing(m, s.ids[h]))])
    requires h in got.history && s.ids[h] in got.reg.idToHdl && got.reg.idToHdl[s.ids[h]] == h
    requires Bytes(s.queues[h]) + cfg.sizeOf(m) <= MAX_CLIENT_SEND_QUEUE_BYTES
    ensures var run := ServingSteps(h, payload, w, work);
            && CanRun(cfg, s, run)
            && Serves(cfg, s, After(cfg, s, run), h, m) && After(cfg, s, run).reg == got.reg
  {
    hide CanRun, After, StepTo, Bytes, ServingSteps, TakingSteps;
    Serving(cfg, s, taken, got, h, payload, w, work);
    assert got.workers - {w} == s.workers;
  }

  // While fewer than 64 requests are in flight, a client whose connection has room gets what the
  // handlers answer its request, whatever the SDK says, and nobody else notices.
  lemma QueryServed(cfg: Config, s: State, h: Handle, payload: Payload, w: nat, sdk: Handlers.Sdk, m: Message)
    requires Reachable(cfg, s) && s.io.Idle? && s.lock.Free? && h in s.reg.sessions && h in s.queues
    requires w !in s.workers && IsRequest(payload) && cfg.hasProcessor && s.active < 64
    requires !HasType(payload, "subscribe") && !HasType(payload, "unsubscribe")
    requires Handlers.Answered(sdk, payload) == Some(m)
    requires Bytes(s.queues[h]) + cfg.sizeOf(m) <= MAX_CLIENT_SEND_QUEUE_BYTES
    ensures var run := ServingSteps(h, payload, w, Handle(sdk));
            && CanRun(cfg, s, run)
            && Serves(cfg, s, After(cfg, s, run), h, m) && After(cfg, s, run).reg == s.reg
  {
    hide Reachable, Inv, Orderly, CanRun, After, StepTo, IsRequest, HasType, Handlers.Answered, Bytes,
         ServingSteps, TakingSteps;
    RequestTaken(cfg, s, h, payload, w);
    RequestIsObject(payload);
    Registered(cfg, s, h);
    var taken := After(cfg, s, TakingSteps(h, payload, w));
    HandlerReplies(cfg, taken, w, payload, s.ids[h], sdk, m);
    var got := WithPc(taken, w, Routing(m, s.ids[h]));
    GotServes(cfg, s, taken, got, h, payload, w, Handle(sdk), m);
  }

  lemma SubscribingStep(cfg: Config, s: State, w: nat)
    requires WorkEnabled(s, w, ManageSubscription)
    ensures StepTo(cfg, s, Step.Work(w, ManageSubscription), Subscribing(s, w))
  {
    hide Subscribing, WorkEnabled;
  }

  lemma Registered(cfg: Config, s: State, h: Handle)
    requires Reachable(cfg, s) && h in s.reg.sessions
    ensures h in s.ids && h in s.history && s.ids[h] != "" && s.ids[h] in s.reg.idToHdl && s.reg.idToHdl[s.ids[h]] == h
  {
    hide RequestsInHand, WorkersCounted, StopOrdered, Histories, Streams, Orderly, IndexAgrees;
    InvReachable(cfg, s);
  }

  // And one that subscribes or unsubscribes gets its set changed as it says, and listed.
  lemma SubscriptionServed(cfg: Config, s: State, h: Handle, payload: Payload, w: nat) returns (m: Message)
    requires Reachable(cfg, s) && s.io.Idle? && s.lock.Free? && h in s.reg.sessions && h in s.queues
    requires w !in s.workers && IsRequest(payload) && cfg.hasProcessor && s.active < 64
    requires HasType(payload, "subscribe") || HasType(payload, "unsubscribe")
    ensures Bytes(s.queues[h]) + cfg.sizeOf(m) <= MAX_CLIENT_SEND_QUEUE_BYTES ==>
              var run := ServingSteps(h, payload, w, ManageSubscription);
              && CanRun(cfg, s, run)
              && Serves(cfg, s, After(cfg, s, run), h, m) && Obeyed(s.reg, After(cfg, s, run).reg, h, payload, m)
  {
    hide Reachable, Inv, Orderly, CanRun, After, IsRequest, HasType, Bytes, ServingSteps, TakingSteps,
         Subscribing, StepTo, Serves, Obeyed, WorkEnabled;
    RequestTaken(cfg, s, h, payload, w);
    RequestIsObject(payload);
    Registered(cfg, s, h);
    var taken := After(cfg, s, TakingSteps(h, payload, w));
    ReachableOn(cfg, s, TakingSteps(h, payload, w));
    InvReachable(cfg, taken);
    m := ManagerReplies(cfg, taken, w, payload);
    var got := Subscribing(taken, w);
    if Bytes(s.queues[h]) + cfg.sizeOf(m) <= MAX_CLIENT_SEND_QUEUE_BYTES {
      assert StepTo(cfg, taken, Step.Work(w, ManageSubscription), got) by { SubscribingStep(cfg, taken, w); }
      GotServes(cfg, s, taken, got, h, payload, w, ManageSubscription, m);
    }
  }
}
