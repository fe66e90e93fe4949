// The inductive invariant of the protocol, in groups, and its preservation by every step.

module Invariants {
  import opened Common
  import opened Messages
  import opened Registry
  import opened Network
  import opened Requests
  import opened Protocol
  import opened History
  import Handlers

  // ----- the groups -----

  ghost predicate Identities(s: State) {
    && Consistent(s.reg)
    && (forall h :: h in s.ids ==> s.ids[h] != "")
    && (forall h, k :: h in s.ids && k in s.ids && s.ids[h] == s.ids[k] ==> h == k)
    && (forall h :: h in s.reg.sessions ==>
          h in s.ids && s.reg.sessions[h].clientId == s.ids[h] && s.reg.sessions[h].handshakeDone)
    && s.history.Keys == s.ids.Keys && s.wire.Keys == s.ids.Keys
    && s.queues.Keys <= s.ids.Keys
  }

  // `request` is what became of the message received from `h` under this ticket.
  predicate StandsFor(s: State, h: Handle, ticket: nat, request: Json) {
    && ticket < |s.requests| && s.requests[ticket].h == h
    && h in s.ids && Derived(s.requests[ticket].payload, s.ids[h], request)
  }

  ghost predicate WorkerInHand(s: State, worker: Worker) {
    && worker.origin in s.ids && worker.origin in s.history
    && WellFormed(worker.request, s.ids[worker.origin])
    && StandsFor(s, worker.origin, worker.ticket, worker.request)
    && (worker.pc.Routing? ==>
          && worker.pc.clientId == s.ids[worker.origin]
          && worker.pc.reply.Response? && Handlers.Coherent(worker.pc.reply)
          && Fits(s.requests[worker.ticket].payload, worker.pc.reply)
          && (worker.pc.reply.events.Some? ==>
            WasListed(s.history[worker.origin], worker.pc.reply.events.value, worker.ticket)))
  }

  ghost predicate RequestsInHand(s: State) {
    && (s.io.Holding? ==>
          && s.io.h in s.ids && s.io.clientId == s.ids[s.io.h]
          && s.io.ticket < |s.requests| && s.requests[s.io.ticket] == Request(s.io.h, s.io.payload))
    && (s.io.Admitted? || s.io.Counted? ==>
          && s.io.h in s.ids && s.io.h in s.history && WellFormed(s.io.request, s.ids[s.io.h])
          && StandsFor(s, s.io.h, s.io.ticket, s.io.request))
    && (forall w :: w in s.workers ==> WorkerInHand(s, s.workers[w]))
  }

  // Counted but not yet started: the window between fetch_add and the thread.
  function Starting(s: State): nat { if s.io.Counted? then 1 else 0 }

  ghost predicate WorkersCounted(s: State) {
    && s.active == |s.workers| + Starting(s)
    && s.active + (if s.io.Admitted? then 1 else 0) <= MAX_CONCURRENT_REQUESTS
  }

  ghost predicate StopOrdered(s: State) {
    && (s.stop.Waiting? || s.stop.Clearing? || s.stop.Down? ==> s.io.Exited?)
    && (s.stop.Clearing? || s.stop.Down? ==> s.active == 0)
    && (s.running ==> s.stop.Up?)
    && (s.stop.Down? ==> s.reg == EMPTY)
  }

  ghost predicate Histories(s: State) {
    && (forall h :: h in s.history ==> Truthful(s.history[h], h) && AskedFor(s.requests, s.history[h], h))
    && (forall h :: h in s.reg.sessions && h in s.history ==> s.reg.sessions[h].subs == Fold(s.history[h]))
  }

  ghost predicate Streams(s: State) {
    forall h :: h in s.queues && h in s.wire && h in s.history ==>
      Bounded(s.queues[h]) && s.wire[h] + s.queues[h] == FramesOf(s.history[h])
  }

  ghost predicate Inv(s: State) {
    && Identities(s) && RequestsInHand(s) && WorkersCounted(s) && StopOrdered(s)
    && Histories(s) && Streams(s)
  }

  // ----- helpers -----

  // The session found for an id is that of the connection the id was given to.
  lemma IdLeadsHome(s: State, h: Handle)
    requires Identities(s) && h in s.ids
    ensures s.ids[h] in s.reg.idToHdl ==> s.reg.idToHdl[s.ids[h]] == h && h in s.reg.sessions
    ensures h in s.reg.sessions ==> s.ids[h] in s.reg.idToHdl
  {
  }

  lemma EmptyConsistent()
    ensures Consistent(EMPTY)
  {
    forall e
      ensures CountOf(EMPTY.counts, e) == |Subscribers(EMPTY.sessions, e)|
    {
      assert Subscribers(EMPTY.sessions, e) == {};
    }
  }

  // Facts about a worker survive as long as ids stay and histories only grow.
  ghost predicate Grows(s: State, s': State) {
    && (forall h :: h in s.ids ==> h in s'.ids && s'.ids[h] == s.ids[h])
    && (forall h :: h in s.history ==> h in s'.history && s.history[h] <= s'.history[h])
    && s.requests <= s'.requests
  }

  lemma WorkerKept(s: State, s': State, worker: Worker)
    requires WorkerInHand(s, worker) && Grows(s, s')
    ensures WorkerInHand(s', worker)
  {
    if worker.pc.Routing? && worker.pc.reply.events.Some? {
      ListedForever(s.history[worker.origin], s'.history[worker.origin], worker.pc.reply.events.value, worker.ticket);
    }
  }

  // Every worker but `w` is as before.
  lemma OthersKept(s: State, s': State, w: nat)
    requires RequestsInHand(s) && Grows(s, s')
    requires s'.io == s.io
    requires forall v :: v in s'.workers && v != w ==> v in s.workers && s'.workers[v] == s.workers[v]
    requires w in s'.workers ==> WorkerInHand(s', s'.workers[w])
    ensures RequestsInHand(s')
  {
    hide WorkerInHand;
    assert s'.io.Admitted? || s'.io.Counted? ==> s'.io.h in s'.history;
    forall v | v in s'.workers
      ensures WorkerInHand(s', s'.workers[v])
    {
      if v != w { WorkerKept(s, s', s.workers[v]); }
    }
  }

  // Nothing about requests changes, except that the IO thread may be done with one.
  lemma RequestsFramed(s: State, s': State)
    requires RequestsInHand(s) && Grows(s, s') && s'.workers == s.workers
    requires s'.io == s.io || s'.io.Idle? || s'.io.Exited?
    ensures RequestsInHand(s')
  {
    hide WorkerInHand;
    forall w | w in s'.workers
      ensures WorkerInHand(s', s'.workers[w])
    {
      WorkerKept(s, s', s.workers[w]);
    }
  }

  lemma IdentitiesFramed(s: State, s': State)
    requires Identities(s)
    requires s'.reg == s.reg && s'.ids == s.ids && s'.wire.Keys == s.wire.Keys
    requires s'.history.Keys == s.history.Keys && s'.queues.Keys <= s.queues.Keys
    ensures Identities(s')
  {
    hide Consistent;
  }

  lemma ConnectionsFramed(s: State, s': State)
    requires Histories(s) && Streams(s)
    requires s'.history == s.history && s'.wire == s.wire && s.requests <= s'.requests
    requires forall h :: h in s'.queues ==> h in s.queues && s'.queues[h] == s.queues[h]
    requires forall h :: h in s'.reg.sessions ==> h in s.reg.sessions && s'.reg.sessions[h] == s.reg.sessions[h]
    ensures Histories(s') && Streams(s')
  {
    hide Truthful, Bounded, AskedFor;
    forall h | h in s'.history
      ensures AskedFor(s'.requests, s'.history[h], h)
    {
      AskedForever(s.requests, s'.requests, s.history[h], h);
    }
  }

  // Requests, histories and streams do not notice: only sessions or connections may have gone.
  lemma RestFramed(s: State, s': State)
    requires RequestsInHand(s) && Histories(s) && Streams(s)
    requires s'.workers == s.workers && (s'.io == s.io || s'.io.Idle? || s'.io.Exited?)
    requires s'.ids == s.ids && s'.requests == s.requests && s'.history == s.history && s'.wire == s.wire
    requires forall h :: h in s'.queues ==> h in s.queues && s'.queues[h] == s.queues[h]
    requires forall h :: h in s'.reg.sessions ==> h in s.reg.sessions && s'.reg.sessions[h] == s.reg.sessions[h]
    ensures RequestsInHand(s') && Histories(s') && Streams(s')
  {
    assert RequestsInHand(s') by { hide *; SameGrows(s, s'); RequestsFramed(s, s'); }
    hide RequestsInHand;
    ConnectionsFramed(s, s');
  }

  lemma SameGrows(s: State, s': State)
    requires s'.ids == s.ids && s'.history == s.history && s'.requests == s.requests
    ensures Grows(s, s')
  {
  }

  // ----- queueing one frame -----

  ghost predicate MayQueue(s: State, after: Queues, f: Frame, a: Option<nat>) {
    && after.Keys == s.queues.Keys
    && forall h :: h in s.queues && h in s.history && after[h] != s.queues[h] ==>
         && after[h] == s.queues[h] + [f]
         && Justified(s.history[h], Enqueued(f, a), h)
         && (GuardedFrame(f) ==> GuardedBytes(s.queues[h]) + f.size <= MAX_CLIENT_SEND_QUEUE_BYTES)
  }

  // One connection's stream, before and after.
  lemma StreamAppend(q: seq<Frame>, wire: seq<Frame>, entries: seq<Entry>, f: Frame, a: Option<nat>, h: Handle)
    requires Truthful(entries, h) && Justified(entries, Enqueued(f, a), h)
    requires Bounded(q) && (GuardedFrame(f) ==> GuardedBytes(q) + f.size <= MAX_CLIENT_SEND_QUEUE_BYTES)
    requires wire + q == FramesOf(entries)
    ensures Truthful(entries + [Enqueued(f, a)], h) && Bounded(q + [f])
    ensures wire + (q + [f]) == FramesOf(entries + [Enqueued(f, a)])
    ensures Fold(entries + [Enqueued(f, a)]) == Fold(entries)
  {
    HistoryAppend(entries, Enqueued(f, a));
    TruthfulAppend(entries, Enqueued(f, a), h);
    BoundedAppend(q, f);
    assert wire + (q + [f]) == (wire + q) + [f];
  }

  lemma TransmittedStreams(s: State, after: Queues, f: Frame, a: Option<nat>)
    requires Identities(s) && Histories(s) && Streams(s) && MayQueue(s, after, f, a)
    ensures Histories(Transmitted(s, after, f, a)) && Streams(Transmitted(s, after, f, a))
  {
    hide Consistent, Truthful, Bounded, Justified, GuardedBytes, Fold, FramesOf, AskedFor;
    var s' := Transmitted(s, after, f, a);
    forall h | h in s.history
      ensures Truthful(s'.history[h], h) && Fold(s'.history[h]) == Fold(s.history[h])
      ensures AskedFor(s.requests, s'.history[h], h)
      ensures h in after ==> Bounded(after[h]) && s.wire[h] + after[h] == FramesOf(s'.history[h])
    {
      if h in s.queues && after[h] == s.queues[h] + [f] {
        assert |after[h]| == |s.queues[h]| + 1;
        StreamAppend(s.queues[h], s.wire[h], s.history[h], f, a, h);
        AskedAppend(s.requests, s.history[h], Enqueued(f, a), h);
      }
    }
  }

  lemma TransmittedGrows(s: State, after: Queues, f: Frame, a: Option<nat>)
    ensures Grows(s, Transmitted(s, after, f, a))
  {
  }

  lemma TransmittedKeeps(s: State, after: Queues, f: Frame, a: Option<nat>)
    requires Inv(s) && MayQueue(s, after, f, a)
    ensures Inv(Transmitted(s, after, f, a))
  {
    hide Identities, RequestsInHand, Histories, Streams, Grows, MayQueue;
    var s' := Transmitted(s, after, f, a);
    TransmittedGrows(s, after, f, a);
    TransmittedIdentities(s, after, f, a);
    RequestsFramed(s, s');
    TransmittedStreams(s, after, f, a);
  }

  lemma TransmittedIdentities(s: State, after: Queues, f: Frame, a: Option<nat>)
    requires Identities(s) && MayQueue(s, after, f, a)
    ensures Identities(Transmitted(s, after, f, a))
  {
    hide Identities, MayQueue;
    SameKeys(s, after, f, a);
    IdentitiesFramed(s, Transmitted(s, after, f, a));
  }

  lemma SameKeys(s: State, after: Queues, f: Frame, a: Option<nat>)
    requires MayQueue(s, after, f, a)
    ensures after.Keys == s.queues.Keys
  {
  }

  // ----- ending a request -----

  lemma SettledKeeps(s: State, h: Handle, ticket: nat)
    requires Inv(s)
    ensures Inv(Settled(s, h, ticket))
  {
    hide Identities, RequestsInHand, Histories, Streams;
    IdentitiesFramed(s, Settled(s, h, ticket));
    RestFramed(s, Settled(s, h, ticket));
  }

  lemma NotedConnections(s: State, h: Handle, entry: Entry)
    requires Histories(s) && Streams(s) && entry.Lost? && h in s.history
    ensures Histories(Noted(s, h, entry)) && Streams(Noted(s, h, entry))
  {
    hide Truthful, Bounded, Fold, FramesOf, AskedFor;
    HistoryAppend(s.history[h], entry);
    TruthfulAppend(s.history[h], entry, h);
    AskedAppend(s.requests, s.history[h], entry, h);
  }

  lemma NotedKeeps(s: State, h: Handle, entry: Entry)
    requires Inv(s) && entry.Lost?
    ensures Inv(Noted(s, h, entry))
  {
    hide Identities, RequestsInHand, Histories, Streams, Grows;
    if h in s.history {
      var s' := Noted(s, h, entry);
      ChangeGrows(s, s', h, entry);
      IdentitiesFramed(s, s');
      RequestsFramed(s, s');
      NotedConnections(s, h, entry);
    }
  }

  lemma LosesKeeps(s: State, h: Handle, ticket: nat, why: Outcome)
    requires Inv(s)
    ensures Inv(LosesRequest(s, h, ticket, why))
  {
    hide Inv;
    SettledKeeps(s, h, ticket);
    NotedKeeps(Settled(s, h, ticket), h, Lost(ticket, why));
  }

  // ----- the IO thread -----

  lemma FreshId(s: State, id: string)
    requires Identities(s) && id !in s.ids.Values
    ensures id !in s.reg.idToHdl && forall h :: h in s.ids ==> s.ids[h] != id
  {
    hide Consistent;
    forall h | h in s.ids
      ensures s.ids[h] != id
    {
      assert s.ids[h] in s.ids.Values;
    }
    if id in s.reg.idToHdl {
      MappedIdWasGiven(s, id);
    }
  }

  lemma MappedIdWasGiven(s: State, id: string)
    requires Identities(s) && id in s.reg.idToHdl
    ensures s.reg.idToHdl[id] in s.ids && s.ids[s.reg.idToHdl[id]] == id
  {
  }

  lemma OpenIdentities(s: State, h: Handle, id: string)
    requires Identities(s) && IoEnabled(s, Open(h, id))
    ensures Identities(Opening(s, h, id))
  {
    hide Consistent;
    FreshId(s, id);
    assert Consistent(Opened(s.reg, h, id)) by { OpenedConsistent(s.reg, h, id); }
    OpenKeys(s, h, id);
    OpenIds(s, h, id);
  }

  lemma OpenKeys(s: State, h: Handle, id: string)
    requires s.history.Keys == s.ids.Keys && s.wire.Keys == s.ids.Keys && s.queues.Keys <= s.ids.Keys
    ensures var s' := Opening(s, h, id);
            s'.history.Keys == s'.ids.Keys && s'.wire.Keys == s'.ids.Keys && s'.queues.Keys <= s'.ids.Keys
  {
  }

  lemma OpenIds(s: State, h: Handle, id: string)
    requires Identities(s) && h !in s.ids && id != "" && forall k :: k in s.ids ==> s.ids[k] != id
    ensures var s' := Opening(s, h, id);
            && (forall k :: k in s'.ids ==> s'.ids[k] != "")
            && (forall k, l :: k in s'.ids && l in s'.ids && s'.ids[k] == s'.ids[l] ==> k == l)
            && (forall k :: k in s'.reg.sessions ==>
                  k in s'.ids && s'.reg.sessions[k].clientId == s'.ids[k] && s'.reg.sessions[k].handshakeDone)
  {
    hide Consistent;
  }

  lemma OpenRequests(s: State, h: Handle, id: string)
    requires RequestsInHand(s) && h !in s.ids && h !in s.history && s.io.Idle?
    ensures RequestsInHand(Opening(s, h, id))
  {
    var s' := Opening(s, h, id);
    hide RequestsInHand;
    assert Grows(s, s');
    hide Grows;
    RequestsFramed(s, s');
  }

  lemma OpenConnections(s: State, h: Handle, id: string)
    requires Histories(s) && Streams(s)
    ensures Histories(Opening(s, h, id)) && Streams(Opening(s, h, id))
  {
    OpenEmpty(h);
    assert AskedFor(s.requests, [], h);
    hide Truthful, Bounded, AskedFor;
  }

  lemma OpenKeeps(s: State, h: Handle, id: string)
    requires Inv(s) && IoEnabled(s, Open(h, id))
    ensures Inv(Opening(s, h, id))
  {
    hide Consistent, RequestsInHand, Histories, Streams;
    assert h !in s.history;
    hide Identities;
    OpenIdentities(s, h, id);
    OpenRequests(s, h, id);
    OpenConnections(s, h, id);
  }

  lemma OpenEmpty(h: Handle)
    ensures Truthful([], h) && Bounded([])
  {
  }

  lemma CloseIdentities(s: State, h: Handle)
    requires Identities(s)
    ensures Identities(s.(reg := Closed(s.reg, h)))
  {
    hide Consistent, Released;
    ClosedConsistent(s.reg, h);
  }

  lemma CloseKeeps(s: State, h: Handle)
    requires Inv(s)
    ensures Inv(s.(reg := Closed(s.reg, h)))
  {
    hide Identities, RequestsInHand, WorkersCounted, Histories, Streams, StopOrdered, Released;
    CloseStops(s, h);
    CloseIdentities(s, h);
    RestFramed(s, s.(reg := Closed(s.reg, h)));
    assert WorkersCounted(s.(reg := Closed(s.reg, h))) by { SameCount(s, s.(reg := Closed(s.reg, h))); }
  }

  lemma SameCount(s: State, s': State)
    requires WorkersCounted(s) && s'.active == s.active && s'.workers == s.workers && s'.io == s.io
    ensures WorkersCounted(s')
  {
  }

  lemma CloseStops(s: State, h: Handle)
    requires StopOrdered(s)
    ensures StopOrdered(s.(reg := Closed(s.reg, h)))
  {
    hide Released;
  }

  lemma ReceiveKeeps(s: State, h: Handle, payload: Payload)
    requires Inv(s) && s.io.Idle?
    ensures Inv(Receiving(s, h, payload))
  {
    hide Identities, RequestsInHand, Histories, Streams, WorkersCounted;
    var s' := Receiving(s, h, payload);
    if h in s.reg.sessions {
      SessionId(s, h);
      IdentitiesFramed(s, s');
      ConnectionsFramed(s, s');
      Uncounted(s, s');
      ReceiveRequests(s, h, payload);
    }
  }

  lemma SessionId(s: State, h: Handle)
    requires Identities(s) && h in s.reg.sessions
    ensures h in s.ids && s.reg.sessions[h].clientId == s.ids[h]
  {
    hide Consistent;
  }

  lemma ReceiveRequests(s: State, h: Handle, payload: Payload)
    requires RequestsInHand(s) && s.io.Idle? && h in s.reg.sessions
    requires h in s.ids && s.reg.sessions[h].clientId == s.ids[h]
    ensures RequestsInHand(Receiving(s, h, payload))
  {
    hide RequestsInHand, Grows;
    var s' := Receiving(s, h, payload);
    var mid := s.(requests := s'.requests);
    assert Grows(s, mid) by { MoreRequests(s, Request(h, payload)); }
    RequestsFramed(s, mid);
    assert s'.requests[s'.io.ticket] == Request(h, payload);
    RequestsHolding(mid, s');
  }

  lemma MoreRequests(s: State, request: Request)
    ensures Grows(s, s.(requests := s.requests + [request]))
  {
  }

  lemma Uncounted(s: State, s': State)
    requires WorkersCounted(s) && s'.active == s.active && s'.workers == s.workers
    requires !s.io.Counted? && !s'.io.Counted? && !s'.io.Admitted?
    ensures WorkersCounted(s')
  {
  }

  lemma RequestsHolding(s: State, s': State)
    requires RequestsInHand(s) && s' == s.(io := s'.io)
    requires s'.io.Holding? ==>
               && s'.io.h in s.ids && s'.io.clientId == s.ids[s'.io.h]
               && s'.io.ticket < |s.requests| && s.requests[s'.io.ticket] == Request(s'.io.h, s'.io.payload)
    requires s'.io.Admitted? || s'.io.Counted? ==>
               && s'.io.h in s.ids && s'.io.h in s.history && WellFormed(s'.io.request, s.ids[s'.io.h])
               && StandsFor(s, s'.io.h, s'.io.ticket, s'.io.request)
    ensures RequestsInHand(s')
  {
    hide WellFormed, WasListed, Fits, Derived;
    forall w | w in s'.workers
      ensures WorkerInHand(s', s'.workers[w])
    {
      assert WorkerInHand(s, s.workers[w]);
    }
  }

  lemma InlineMayQueue(cfg: Config, s: State, h: Handle, ticket: nat, m: Message)
    requires m.Error? || m.Pong?
    ensures var f := MakeFrame(cfg.sizeOf, Inline, m);
            MayQueue(s, Sent(s.queues, h, f), f, Some(ticket))
  {
  }

  lemma IdleKeeps(s: State)
    requires Inv(s) && s.io.Holding?
    ensures Inv(s.(io := Idle))
  {
    hide Identities, RequestsInHand, Histories, Streams;
    IdentitiesFramed(s, s.(io := Idle));
    RestFramed(s, s.(io := Idle));
  }

  // The IO thread answers by itself.
  lemma InlineKeeps(cfg: Config, s: State, m: Message)
    requires Inv(s) && s.io.Holding? && (m.Error? || m.Pong?)
    ensures Inv(Inlined(cfg, s, s.io.h, s.io.ticket, m))
  {
    hide Inv, MayQueue, Noted;
    var h, ticket, f := s.io.h, s.io.ticket, MakeFrame(cfg.sizeOf, Inline, m);
    if h in s.queues {
      var mid := Settled(s, h, ticket);
      SettledKeeps(s, h, ticket);
      InlineMayQueue(cfg, mid, h, ticket, m);
      TransmittedKeeps(mid, Sent(s.queues, h, f), f, Some(ticket));
      IdleKeeps(Transmitted(mid, Sent(s.queues, h, f), f, Some(ticket)));
    } else {
      LosesKeeps(s, h, ticket, ClientGone);
      NotedOnly(s, h, ticket, ClientGone);
      IdleKeeps(LosesRequest(s, h, ticket, ClientGone));
    }
  }

  lemma NotedOnly(s: State, h: Handle, ticket: nat, why: Outcome)
    ensures var s' := LosesRequest(s, h, ticket, why);
            s' == s.(history := s'.history, settledAt := s'.settledAt)
  {
  }

  lemma UnhandledKeeps(s: State)
    requires Inv(s) && s.io.Holding?
    ensures Inv(LosesRequest(s, s.io.h, s.io.ticket, NoProcessor).(io := Idle))
  {
    hide Inv, LosesRequest;
    LosesKeeps(s, s.io.h, s.io.ticket, NoProcessor);
    NotedOnly(s, s.io.h, s.io.ticket, NoProcessor);
    IdleKeeps(LosesRequest(s, s.io.h, s.io.ticket, NoProcessor));
  }

  lemma DispatchKeeps(cfg: Config, s: State)
    requires Inv(s) && s.io.Holding?
    ensures Inv(Dispatching(cfg, s))
  {
    hide Inlined, LosesRequest, Fits, Triaged;
    AdmittedNamesItsClient(s.io.payload, s.io.clientId, cfg.hasProcessor, s.active);
    match Triaged(s.io.payload, s.io.clientId, cfg.hasProcessor, s.active)
    case Reject(m) => hide Inv; InlineKeeps(cfg, s, m);
    case Heartbeat(m) => hide Inv; InlineKeeps(cfg, s, m);
    case Overloaded(m) => hide Inv; InlineKeeps(cfg, s, m);
    case Unhandled => hide Inv; UnhandledKeeps(s);
    case Admit(request) => AdmitKeeps(s, request);
  }

  lemma AdmitKeeps(s: State, request: Json)
    requires Inv(s) && s.io.Holding? && s.active < MAX_CONCURRENT_REQUESTS
    requires WellFormed(request, s.io.clientId) && Derived(s.io.payload, s.io.clientId, request)
    ensures Inv(s.(io := Admitted(s.io.h, s.io.ticket, request)))
  {
    hide Identities, Histories, Streams, WellFormed, Derived;
    assert s.io.h in s.ids && s.io.clientId == s.ids[s.io.h];
    assert StandsFor(s, s.io.h, s.io.ticket, request);
    hide RequestsInHand;
    IoMoves(s, s.(io := Admitted(s.io.h, s.io.ticket, request)));
  }

  // The IO thread moves on with a request it has identified.
  lemma IoMoves(s: State, s': State)
    requires Identities(s) && RequestsInHand(s) && Histories(s) && Streams(s)
    requires s' == s.(io := s'.io, active := s'.active)
    requires s.io.Holding? || s.io.Admitted?
    requires (s'.io.Admitted? || s'.io.Counted?) && s'.io.h == s.io.h && WellFormed(s'.io.request, s.ids[s.io.h])
    requires StandsFor(s, s'.io.h, s'.io.ticket, s'.io.request)
    ensures Identities(s') && RequestsInHand(s') && Histories(s') && Streams(s')
  {
    hide Histories, Streams, Consistent, WellFormed, StandsFor, WorkerInHand;
    assert s.io.h in s.ids && s.io.h in s.history;
    hide RequestsInHand;
    IdentitiesFramed(s, s');
    hide Identities;
    ConnectionsFramed(s, s');
    var mid := s'.(io := Idle);
    assert RequestsInHand(mid) by { hide *; SameGrows(s, mid); RequestsFramed(s, mid); }
    assert StandsFor(mid, s'.io.h, s'.io.ticket, s'.io.request) by {
      StandsStill(s, mid, s'.io.h, s'.io.ticket, s'.io.request);
    }
    RequestsHolding(mid, s');
  }

  lemma StandsStill(s: State, s': State, h: Handle, ticket: nat, request: Json)
    requires StandsFor(s, h, ticket, request) && Grows(s, s')
    ensures StandsFor(s', h, ticket, request)
  {
    hide Derived;
  }

  lemma SpawnRequests(s: State, w: nat)
    requires RequestsInHand(s) && IoEnabled(s, Spawn(w))
    ensures RequestsInHand(s.(workers := s.workers[w := Started(s)], io := Idle))
  {
    var s' := s.(workers := s.workers[w := Started(s)], io := Idle);
    var mid := s.(io := Idle);
    assert WorkerInHand(s', s'.workers[w]);
    hide RequestsInHand, WorkerInHand;
    SameGrows(s, mid);
    SameGrows(mid, s');
    hide Grows;
    RequestsFramed(s, mid);
    OthersKept(mid, s', w);
  }

  lemma SpawnKeeps(cfg: Config, s: State, w: nat)
    requires Inv(s) && IoEnabled(s, Spawn(w))
    ensures Inv(ExecIo(cfg, s, Spawn(w)))
  {
    hide Identities, RequestsInHand, WorkersCounted, Histories, Streams;
    var s' := ExecIo(cfg, s, Spawn(w));
    SpawnCounted(s, w);
    IdentitiesFramed(s, s');
    ConnectionsFramed(s, s');
    SpawnRequests(s, w);
  }

  lemma SpawnCounted(s: State, w: nat)
    requires WorkersCounted(s) && s.io.Counted? && w !in s.workers
    ensures WorkersCounted(s.(workers := s.workers[w := Started(s)], io := Idle))
  {
    hide Started;
    OneMore(s.workers, w, Started(s));
  }

  lemma OneMore<V>(m: map<nat, V>, w: nat, v: V)
    requires w !in m
    ensures |m[w := v]| == |m| + 1
  {
    assert m[w := v].Keys == m.Keys + {w};
  }

  lemma CountKeeps(s: State)
    requires Inv(s) && s.io.Admitted?
    ensures Inv(s.(active := s.active + 1, io := Counted(s.io.h, s.io.ticket, s.io.request)))
  {
    hide Identities, RequestsInHand, WorkersCounted, Histories, Streams, StandsFor, WellFormed;
    var s' := s.(active := s.active + 1, io := Counted(s.io.h, s.io.ticket, s.io.request));
    AdmittedFacts(s);
    CountCounted(s, s');
    IoMoves(s, s');
  }

  lemma CountCounted(s: State, s': State)
    requires WorkersCounted(s) && StopOrdered(s) && s.io.Admitted? && s'.io.Counted?
    requires s' == s.(active := s.active + 1, io := s'.io)
    ensures WorkersCounted(s') && StopOrdered(s')
  {
  }

  lemma AdmittedFacts(s: State)
    requires RequestsInHand(s) && s.io.Admitted?
    ensures s.io.h in s.ids && WellFormed(s.io.request, s.ids[s.io.h])
    ensures StandsFor(s, s.io.h, s.io.ticket, s.io.request)
  {
    hide WellFormed, StandsFor, WorkerInHand;
  }

  lemma ExitKeeps(s: State)
    requires Inv(s) && s.io.Idle?
    ensures Inv(s.(io := Exited, running := false))
  {
    hide Identities, RequestsInHand, Histories, Streams;
    IdentitiesFramed(s, s.(io := Exited, running := false));
    RestFramed(s, s.(io := Exited, running := false));
  }

  lemma IoKeeps(cfg: Config, s: State, step: IoStep)
    requires Inv(s) && IoEnabled(s, step)
    ensures Inv(ExecIo(cfg, s, step))
  {
    hide Inv, Opening, Receiving, Dispatching, Closed;
    match step
    case Open(h, id) => OpenKeeps(s, h, id);
    case Close(h) => CloseKeeps(s, h);
    case Receive(h, payload) => ReceiveKeeps(s, h, payload);
    case Dispatch => DispatchKeeps(cfg, s);
    case Count => CountKeeps(s);
    case Spawn(w) => SpawnKeeps(cfg, s, w);
    case Exit => ExitKeeps(s);
  }

  // ----- request workers -----

  // The subscription manager's answer to a well-formed request from connection `h`: it is never
  // empty, it touches only that client's session, it reports success exactly when it changes that
  // client's set, and then it lists the new one.
  lemma SubscriptionAnswerFacts(s: State, h: Handle, request: Json)
    requires Identities(s) && h in s.ids && WellFormed(request, s.ids[h])
    ensures var a := SubscriptionHandled(s.reg, Parsed(request));
            && a.Answer? && a.reply.Response? && Handlers.Coherent(a.reply)
            && a.reply.id == OrEmpty(StrField(request, ID))
            && (a.reply.success <==> a.change.Some?)
            && (a.change.None? ==> a.r == s.reg && a.reply.events.None?)
            && (a.change.Some? ==>
                  && a.change.value.h == h && h in s.reg.sessions
                  && RequestedEvents(request).Some? && a.change.value.op == OpAsked(request)
                  && a.change.value.listed == Applied(s.reg.sessions[h].subs, a.change.value.op)
                  && a.reply.events == Some(a.change.value.listed)
                  && a.r == Resubscribed(s.reg, h, a.change.value.op))
  {
    hide Identities, SubscriptionHandled, WellFormed;
    IdLeadsHome(s, h);
    AnswerFacts(s.reg, request, s.ids[h], h);
  }

  // A worker moves from one point to the next: only RequestsInHand needs an argument.
  lemma WorkerMoves(s: State, w: nat, pc: WorkerPc)
    requires Inv(s) && w in s.workers
    requires WorkerInHand(s, s.workers[w].(pc := pc))
    ensures Inv(WithPc(s, w, pc))
  {
    hide Identities, RequestsInHand, Histories, Streams;
    var s' := WithPc(s, w, pc);
    assert s'.workers.Keys == s.workers.Keys;
    IdentitiesFramed(s, s');
    ConnectionsFramed(s, s');
    assert WorkerInHand(s', s'.workers[w]);
    hide WorkerInHand;
    SameGrows(s, s');
    hide Grows;
    OthersKept(s, s', w);
  }

  // The subscription manager's reply with the id of the request answers the message behind it.
  lemma ReplyFits(s: State, worker: Worker, reply: Message)
    requires StandsFor(s, worker.origin, worker.ticket, worker.request) && IsSubscription(worker.request)
    requires reply.Response? && reply.id == OrEmpty(StrField(worker.request, ID))
    requires reply.success <==> reply.events.Some?
    ensures Fits(s.requests[worker.ticket].payload, reply)
  {
    hide StrField, IsSubscription, Handlers.Answered;
    DerivedKeepsFields(s.requests[worker.ticket].payload, s.ids[worker.origin], worker.request);
  }

  // So does what the handlers answer.
  lemma AnswerFits(s: State, worker: Worker, sdk: Handlers.Sdk, reply: Message)
    requires StandsFor(s, worker.origin, worker.ticket, worker.request) && !IsSubscription(worker.request)
    requires Handlers.Answered(sdk, Parsed(worker.request)) == Some(reply)
    ensures Fits(s.requests[worker.ticket].payload, reply)
  {
    hide StrField, IsSubscription, Handlers.Answered;
    DerivedKeepsFields(s.requests[worker.ticket].payload, s.ids[worker.origin], worker.request);
    DerivedAnswered(s.requests[worker.ticket].payload, s.ids[worker.origin], worker.request, sdk);
  }

  lemma UnchangedSubscription(s: State, w: nat, reply: Message)
    requires Inv(s) && w in s.workers && s.workers[w].ticket < |s.requests|
    requires reply.Response? && Handlers.Coherent(reply) && reply.events.None?
    requires Fits(s.requests[s.workers[w].ticket].payload, reply)
    ensures Inv(WithPc(s, w, Routing(reply, OrEmpty(StrField(s.workers[w].request, CLIENT_ID)))))
  {
    hide Inv, Identities, Fits, WellFormed, StandsFor, StrField, WorkerInHand;
    InHandFacts(s, w);
    ReplyInHand(s, s.workers[w], reply);
    WorkerMoves(s, w, Routing(reply, OrEmpty(StrField(s.workers[w].request, CLIENT_ID))));
  }

  // The state after connection `h` changed its set, before anything is said about workers.
  lemma ChangeIdentities(s: State, s': State, h: Handle, op: SubOp)
    requires Identities(s) && h in s.reg.sessions
    requires s'.reg == Resubscribed(s.reg, h, op)
    requires s'.ids == s.ids && s'.wire == s.wire && s'.queues == s.queues && s'.history.Keys == s.history.Keys
    ensures Identities(s')
  {
    hide Consistent, Acquired, Released;
    ResubscribedConsistent(s.reg, h, op);
  }

  // The entry for the change `op` makes to the set of `h`.
  function ChangeEntry(s: State, h: Handle, op: SubOp, maker: nat): Entry
    requires h in s.reg.sessions
  {
    Changed(op, Applied(s.reg.sessions[h].subs, op), maker)
  }

  lemma ChangeConnections(s: State, s': State, h: Handle, op: SubOp, maker: nat)
    requires Histories(s) && Streams(s) && h in s.reg.sessions && h in s.history
    requires s'.reg == Resubscribed(s.reg, h, op) && AskedBy(s.requests, ChangeEntry(s, h, op, maker), h)
    requires s'.history == s.history[h := s.history[h] + [ChangeEntry(s, h, op, maker)]]
    requires s'.wire == s.wire && s'.queues == s.queues && s'.requests == s.requests
    ensures Histories(s') && Streams(s')
    ensures WasListed(s'.history[h], Applied(s.reg.sessions[h].subs, op), maker)
  {
    hide Truthful, Bounded, Acquired, Released, AskedFor;
    var entry := ChangeEntry(s, h, op, maker);
    HistoryAppend(s.history[h], entry);
    TruthfulAppend(s.history[h], entry, h);
    AskedAppend(s.requests, s.history[h], entry, h);
    assert s'.history[h][|s.history[h]|] == entry;
  }

  // What Subscribing does, by the answer it gets.
  lemma SubscribingParts(s: State, w: nat)
    requires w in s.workers
    ensures match SubscriptionHandled(s.reg, Parsed(s.workers[w].request))
            case NoAnswer => Subscribing(s, w) == Ending(s, w, Silent)
            case Answer(r, reply, change) =>
              var mid := WithPc(s, w, Routing(reply, OrEmpty(StrField(s.workers[w].request, CLIENT_ID))));
              Subscribing(s, w) ==
              if change.Some? then
                Noted(mid.(reg := r), change.value.h,
                      Changed(change.value.op, change.value.listed, s.workers[w].ticket))
              else mid.(reg := r)
  {
    hide SubscriptionHandled;
  }

  lemma SubscribeKeeps(s: State, w: nat)
    requires Inv(s) && w in s.workers && IsSubscription(s.workers[w].request)
    ensures Inv(Subscribing(s, w))
  {
    hide Inv, SubscriptionHandled, Subscribing, Identities, Applied, StrField;
    var h, request := s.workers[w].origin, s.workers[w].request;
    InHandFacts(s, w);
    SubscriptionAnswerFacts(s, h, request);
    SubscribingParts(s, w);
    var a := SubscriptionHandled(s.reg, Parsed(request));
    if a.change.None? {
      ReplyFits(s, s.workers[w], a.reply);
      UnchangedSubscription(s, w, a.reply);
    } else {
      SubscribeChanges(s, w, a.change.value.op, a.reply);
    }
  }

  lemma InHandFacts(s: State, w: nat)
    requires Inv(s) && w in s.workers
    ensures var worker := s.workers[w];
            && Identities(s) && worker.origin in s.ids && worker.origin in s.history
            && WellFormed(worker.request, s.ids[worker.origin])
            && StandsFor(s, worker.origin, worker.ticket, worker.request)
  {
    hide Identities, Histories, Streams;
    assert WorkerInHand(s, s.workers[w]);
  }

  // The state right after a change: the worker has still to take its reply.
  function AfterChange(s: State, h: Handle, op: SubOp, maker: nat): State
    requires h in s.reg.sessions && h in s.history
  {
    s.(reg := Resubscribed(s.reg, h, op), history := s.history[h := s.history[h] + [ChangeEntry(s, h, op, maker)]])
  }

  // A reply to a subscription request that went through.
  predicate Confirms(s: State, worker: Worker, op: SubOp, reply: Message) {
    && worker.origin in s.reg.sessions && worker.origin in s.history
    && reply.Response? && Handlers.Coherent(reply)
    && reply.success && reply.events == Some(Applied(s.reg.sessions[worker.origin].subs, op))
    && reply.id == OrEmpty(StrField(worker.request, ID)) && IsSubscription(worker.request)
    && RequestedEvents(worker.request).Some? && op == OpAsked(worker.request)
  }

  lemma SubscribeChanges(s: State, w: nat, op: SubOp, reply: Message)
    requires Inv(s) && w in s.workers && Confirms(s, s.workers[w], op, reply)
    ensures var worker := s.workers[w];
            var pc := Routing(reply, OrEmpty(StrField(worker.request, CLIENT_ID)));
            Inv(WithPc(AfterChange(s, worker.origin, op, worker.ticket), w, pc))
  {
    var worker := s.workers[w];
    InHandFacts(s, w);
    ReplyFits(s, worker, reply);
    ChangeAsked(s, worker, op);
    var mid := AfterChange(s, worker.origin, op, worker.ticket);
    ChangeKeeps(s, mid, worker.origin, op, worker.ticket);
    hide Inv, Identities, StandsFor, WellFormed, Fits, AskedBy, WasListed;
    ChangeInHand(s, worker, op, reply);
    hide AfterChange, WorkerInHand, Confirms;
    WorkerMoves(mid, w, Routing(reply, OrEmpty(StrField(worker.request, CLIENT_ID))));
  }

  lemma ChangeInHand(s: State, worker: Worker, op: SubOp, reply: Message)
    requires worker.origin in s.ids && WellFormed(worker.request, s.ids[worker.origin])
    requires StandsFor(s, worker.origin, worker.ticket, worker.request)
    requires Confirms(s, worker, op, reply) && Fits(s.requests[worker.ticket].payload, reply)
    requires var mid := AfterChange(s, worker.origin, op, worker.ticket);
             WasListed(mid.history[worker.origin], Applied(s.reg.sessions[worker.origin].subs, op), worker.ticket)
    ensures var mid := AfterChange(s, worker.origin, op, worker.ticket);
            WorkerInHand(mid, worker.(pc := Routing(reply, OrEmpty(StrField(worker.request, CLIENT_ID)))))
  {
    hide Resubscribed, Applied, WasListed, Fits, WellFormed, Derived, StrField, RequestedEvents, OpAsked;
    ReplyInHand(AfterChange(s, worker.origin, op, worker.ticket), worker, reply);
  }

  lemma ReplyInHand(s: State, worker: Worker, reply: Message)
    requires worker.origin in s.ids && worker.origin in s.history && WellFormed(worker.request, s.ids[worker.origin])
    requires StandsFor(s, worker.origin, worker.ticket, worker.request)
    requires reply.Response? && Handlers.Coherent(reply) && Fits(s.requests[worker.ticket].payload, reply)
    requires reply.events.Some? ==> WasListed(s.history[worker.origin], reply.events.value, worker.ticket)
    ensures WorkerInHand(s, worker.(pc := Routing(reply, OrEmpty(StrField(worker.request, CLIENT_ID)))))
  {
    hide WasListed, Fits;
  }

  lemma ChangeAsked(s: State, worker: Worker, op: SubOp)
    requires StandsFor(s, worker.origin, worker.ticket, worker.request) && worker.origin in s.reg.sessions
    requires IsSubscription(worker.request) && RequestedEvents(worker.request).Some? && op == OpAsked(worker.request)
    ensures AskedBy(s.requests, ChangeEntry(s, worker.origin, op, worker.ticket), worker.origin)
  {
    hide RequestedEvents, StrField;
    DerivedKeepsFields(s.requests[worker.ticket].payload, s.ids[worker.origin], worker.request);
  }

  lemma ChangeGrows(s: State, s': State, h: Handle, entry: Entry)
    requires h in s.history && s'.ids == s.ids && s'.requests == s.requests
    requires s'.history == s.history[h := s.history[h] + [entry]]
    ensures Grows(s, s') && s'.history.Keys == s.history.Keys
  {
  }

  lemma StillRegistered(s: State, s': State, h: Handle)
    requires StopOrdered(s) && h in s.reg.sessions
    requires s' == s.(reg := s'.reg, history := s'.history)
    ensures StopOrdered(s')
  {
  }

  lemma ChangeKeeps(s: State, s': State, h: Handle, op: SubOp, maker: nat)
    requires Inv(s) && h in s.reg.sessions && h in s.history && AskedBy(s.requests, ChangeEntry(s, h, op, maker), h)
    requires s' == s.(
               reg := Resubscribed(s.reg, h, op),
               history := s.history[h := s.history[h] + [ChangeEntry(s, h, op, maker)]])
    ensures Inv(s')
    ensures WasListed(s'.history[h], Applied(s.reg.sessions[h].subs, op), maker)
  {
    hide Identities, RequestsInHand, StopOrdered, Histories, Streams, Resubscribed, Applied, WasListed, Grows,
         AskedBy;
    ChangeGrows(s, s', h, ChangeEntry(s, h, op, maker));
    StillRegistered(s, s', h);
    ChangeIdentities(s, s', h, op);
    ChangeConnections(s, s', h, op, maker);
    RequestsFramed(s, s');
  }

  lemma HandleKeeps(s: State, w: nat, sdk: Handlers.Sdk)
    requires Inv(s) && w in s.workers && !IsSubscription(s.workers[w].request)
    ensures Inv(Handling(s, w, sdk))
  {
    hide Inv, Identities, Handlers.Answered, StandsFor, Fits, IsSubscription, StrField;
    var worker := s.workers[w];
    InHandFacts(s, w);
    Handlers.EveryReplyIsCoherent(sdk, Parsed(worker.request));
    var reply := Handlers.Answered(sdk, Parsed(worker.request)).value;
    AnswerFits(s, worker, sdk, reply);
    TicketGiven(s, worker.origin, worker.ticket, worker.request);
    UnchangedSubscription(s, w, reply);
  }

  lemma TicketGiven(s: State, h: Handle, ticket: nat, request: Json)
    requires StandsFor(s, h, ticket, request)
    ensures ticket < |s.requests|
  {
  }

  lemma EndingKeeps(s: State, w: nat, why: Outcome)
    requires Inv(s) && w in s.workers
    ensures Inv(Ending(s, w, why))
  {
    hide Inv, LosesRequest;
    var worker := s.workers[w];
    var mid := LosesRequest(s, worker.origin, worker.ticket, why);
    LosesKeeps(s, worker.origin, worker.ticket, why);
    NotedOnly(s, worker.origin, worker.ticket, why);
    LeavingInHand(mid, w);
    WorkerMoves(mid, w, Leaving);
  }

  lemma LeavingInHand(s: State, w: nat)
    requires Inv(s) && w in s.workers
    ensures WorkerInHand(s, s.workers[w].(pc := Leaving))
  {
    hide Identities, Histories, Streams;
    assert WorkerInHand(s, s.workers[w]);
  }

  // The id a reply is routed by leads to the connection of its request.
  lemma ReplyGoesHome(s: State, worker: Worker)
    requires Identities(s) && worker.pc.Routing? && WorkerInHand(s, worker)
    ensures var id := worker.pc.clientId;
            id != "" && (id in s.reg.idToHdl ==> s.reg.idToHdl[id] == worker.origin)
  {
    IdLeadsHome(s, worker.origin);
  }

  lemma LockKeeps(s: State, lock: Mutex)
    requires Inv(s)
    ensures Inv(s.(lock := lock))
  {
    hide Identities, RequestsInHand, Histories, Streams;
    IdentitiesFramed(s, s.(lock := lock));
    RestFramed(s, s.(lock := lock));
  }

  lemma RouteKeeps(cfg: Config, s: State, w: nat)
    requires Inv(s) && w in s.workers && s.workers[w].pc.Routing?
    ensures Inv(RoutingReply(cfg, s, w))
  {
    hide Inv, Ending, ReplyFrame;
    var id, lock := s.workers[w].pc.clientId, RoutingReply(cfg, s, w).lock;
    if id == "" {
      EndingKeeps(s, w, ToEverybody);
      LockKeeps(Ending(s, w, ToEverybody), lock);
    } else if id !in s.reg.idToHdl {
      EndingKeeps(s, w, ClientGone);
    } else {
      LockKeeps(s, lock);
    }
  }

  lemma RaiseKeeps(s: State, w: nat)
    requires Inv(s) && w in s.workers
    ensures Inv(Raising(s, w))
  {
    hide Inv, Ending;
    LockKeeps(s, Free);
    EndingKeeps(if Holds(s.lock, w) then s.(lock := Free) else s, w, Raised);
  }

  lemma LeaveRequests(s: State, w: nat)
    requires RequestsInHand(s) && w in s.workers && s.workers[w].pc.Leaving? && s.active > 0
    ensures RequestsInHand(Exiting(s, w))
  {
    assert WorkerInHand(s, s.workers[w]);
    hide RequestsInHand, WorkerInHand;
    SameGrows(s, Exiting(s, w));
    hide Grows;
    OthersKept(s, Exiting(s, w), w);
  }

  lemma LeaveKeeps(s: State, w: nat)
    requires Inv(s) && w in s.workers && s.workers[w].pc.Leaving? && s.active > 0
    ensures Inv(Exiting(s, w))
  {
    hide Identities, Histories, Streams, RequestsInHand;
    var s' := Exiting(s, w);
    assert s'.workers.Keys == s.workers.Keys - {w};
    LeaveRequests(s, w);
    IdentitiesFramed(s, s');
    ConnectionsFramed(s, s');
  }

  lemma WorkKeeps(cfg: Config, s: State, w: nat, step: WorkStep)
    requires Inv(s) && WorkEnabled(s, w, step)
    ensures Inv(ExecWork(cfg, s, w, step))
  {
    hide Inv, Subscribing, Handling, Raising, RoutingReply, Exiting;
    match step
    case ManageSubscription => SubscribeKeeps(s, w);
    case Handle(sdk) => HandleKeeps(s, w, sdk);
    case Raise => RaiseKeeps(s, w);
    case Route => RouteKeeps(cfg, s, w);
    case Leave => LeaveKeeps(s, w);
  }

  // ----- pushes -----

  lemma PushJustified(s: State, f: Frame, h: Handle)
    requires Histories(s) && f.cause.PushOf? && f.msg.Push? && f.msg.event == f.cause.event
    requires Listens(s.reg, h, f.cause.event) && h in s.history
    ensures Justified(s.history[h], Enqueued(f, None), h)
  {
    assert s.reg.sessions[h].subs == Fold(s.history[h]);
  }

  lemma MainKeeps(s: State, pc: PushPc)
    requires Inv(s)
    ensures Inv(s.(push := pc))
  {
    hide Identities, RequestsInHand, Histories, Streams;
    IdentitiesFramed(s, s.(push := pc));
    RestFramed(s, s.(push := pc));
  }

  lemma PushKeeps(cfg: Config, s: State, step: PushStep)
    requires Inv(s) && PushEnabled(s, step)
    ensures Inv(ExecPush(cfg, s, step))
  {
    hide Inv;
    var s' := ExecPush(cfg, s, step);
    LockKeeps(s, s'.lock);
    MainKeeps(s.(lock := s'.lock), s'.push);
  }

  // ----- sends under the mutex -----

  ghost predicate Targeted(lock: Mutex, h: Handle) {
    lock.Held? && (h in lock.left || (lock.next.Some? && lock.next.value.h == h))
  }

  predicate Busy(lock: Mutex) {
    lock.Held? && (lock.left != {} || lock.next.Some?)
  }

  // A check that found room still holds: the frame fits beside the pushes and replies waiting.
  ghost predicate Reserved(s: State) {
    s.lock.Held? && s.lock.next.Some? && s.lock.next.value.room && s.lock.next.value.h in s.queues ==>
      GuardedBytes(s.queues[s.lock.next.value.h]) + s.lock.f.size <= MAX_CLIENT_SEND_QUEUE_BYTES
  }

  // Whoever holds the mutex sends what it should, to whom it should.
  ghost predicate Addressed(s: State) {
    s.lock.Held? ==>
      && GuardedFrame(s.lock.f)
      && match s.lock.owner
         case Callback =>
           && s.lock.f.cause.PushOf? && s.lock.f.msg.Push? && s.lock.f.msg.event == s.lock.f.cause.event
           && forall h :: Targeted(s.lock, h) ==> Listens(s.reg, h, s.lock.f.cause.event)
         case Replier(w) =>
           && w in s.workers
           && (s.lock.next.Some? ==> s.lock.left == {})
           && (forall h :: Targeted(s.lock, h) ==> h == s.workers[w].origin)
           && (Busy(s.lock) ==>
                 && s.workers[w].pc.Routing? && s.lock.f.msg == s.workers[w].pc.reply
                 && s.lock.f.cause == ReplyTo(s.workers[w].origin))
           && (!Busy(s.lock) ==> s.workers[w].pc.Leaving?)
         case Flooder(_) => false
  }

  ghost predicate Orderly(s: State) { Reserved(s) && Addressed(s) }

  // Queueing on one connection.
  lemma SentMayQueue(s: State, h: Handle, f: Frame, a: Option<nat>)
    requires h in s.queues && (h in s.history ==> Justified(s.history[h], Enqueued(f, a), h))
    requires GuardedBytes(s.queues[h]) + f.size <= MAX_CLIENT_SEND_QUEUE_BYTES
    ensures MayQueue(s, Sent(s.queues, h, f), f, a)
  {
    hide Justified, GuardedBytes;
  }

  // A reply in hand goes to the connection its request came from.
  lemma ReplyJustified(s: State, worker: Worker, f: Frame)
    requires worker.pc.Routing? && WorkerInHand(s, worker)
    requires f.msg == worker.pc.reply && f.cause == ReplyTo(worker.origin)
    ensures Justified(s.history[worker.origin], Enqueued(f, Some(worker.ticket)), worker.origin)
  {
  }

  lemma AnsweringKeeps(s: State, w: nat, f: Frame)
    requires Inv(s) && w in s.workers && s.workers[w].pc.Routing? && s.workers[w].origin in s.queues
    requires f.msg == s.workers[w].pc.reply && f.cause == ReplyTo(s.workers[w].origin)
    requires GuardedBytes(s.queues[s.workers[w].origin]) + f.size <= MAX_CLIENT_SEND_QUEUE_BYTES
    ensures Inv(Answering(s, w, s.workers[w].origin, f))
  {
    var worker := s.workers[w];
    var mid := Settled(s, worker.origin, worker.ticket);
    SettledKeeps(s, worker.origin, worker.ticket);
    hide Identities, WorkersCounted, StopOrdered, Histories, Streams, MayQueue, Sent;
    assert WorkerInHand(mid, worker);
    ReplyJustified(mid, worker, f);
    hide Inv, RequestsInHand, WorkerInHand, Justified;
    SentMayQueue(mid, worker.origin, f, Some(worker.ticket));
    var sent := Transmitted(mid, Sent(s.queues, worker.origin, f), f, Some(worker.ticket));
    TransmittedKeeps(mid, Sent(s.queues, worker.origin, f), f, Some(worker.ticket));
    LeavingInHand(sent, w);
    WorkerMoves(sent, w, Leaving);
  }

  // One client of the push loop.
  lemma PushOneKeeps(s: State, h: Handle, f: Frame)
    requires Inv(s) && f.cause.PushOf? && f.msg.Push? && f.msg.event == f.cause.event
    requires Listens(s.reg, h, f.cause.event)
    requires h in s.queues ==> GuardedBytes(s.queues[h]) + f.size <= MAX_CLIENT_SEND_QUEUE_BYTES
    ensures Inv(Transmitted(s, Sent(s.queues, h, f), f, None))
  {
    if h in s.history { PushJustified(s, f, h); }
    hide Inv, Justified, MayQueue;
    if h in s.queues {
      SentMayQueue(s, h, f, None);
    } else {
      NothingMayQueue(s, f, None);
    }
    TransmittedKeeps(s, Sent(s.queues, h, f), f, None);
  }

  lemma NothingMayQueue(s: State, f: Frame, a: Option<nat>)
    ensures MayQueue(s, s.queues, f, a)
  {
  }

  lemma ActKeeps(s: State)
    requires Inv(s) && Orderly(s) && s.lock.Held? && s.lock.next.Some?
    ensures Inv(Acting(s))
  {
    var c, f := s.lock.next.value, s.lock.f;
    assert Targeted(s.lock, c.h);
    match s.lock.owner
    case Callback =>
      if c.room {
        hide Inv;
        PushOneKeeps(s, c.h, f);
      }
    case Replier(w) =>
      hide Inv, Ending, Answering;
      if c.room && c.h in s.queues {
        AnsweringKeeps(s, w, f);
      } else {
        EndingKeeps(s, w, if c.room then ClientGone else Dropped);
      }
  }

  lemma SendKeeps(s: State, step: SendStep)
    requires Inv(s) && Orderly(s) && SendEnabled(s, step)
    ensures Inv(ExecSend(s, step))
  {
    hide Inv, Orderly, Acting, IsFull;
    match step
    case Check(_) => LockKeeps(s, ExecSend(s, step).lock);
    case Act => ActKeeps(s); LockKeeps(Acting(s), ExecSend(s, step).lock);
    case Release => LockKeeps(s, Free); MainKeeps(s.(lock := Free), ExecSend(s, step).push);
  }

  // ----- connections and stopping -----

  lemma DrainConnections(s: State, h: Handle, n: nat)
    requires Histories(s) && Streams(s) && NetEnabled(s, Drain(h, n))
    ensures Histories(ExecNet(s, Drain(h, n))) && Streams(ExecNet(s, Drain(h, n)))
  {
    hide Truthful, Bounded, Fold, FramesOf, AskedFor;
    BoundedDrain(s.queues[h], n);
    assert s.wire[h] + s.queues[h] == (s.wire[h] + s.queues[h][..n]) + s.queues[h][n..];
  }

  lemma NetFramed(s: State, step: NetStep)
    requires Identities(s) && RequestsInHand(s) && Histories(s) && Streams(s) && NetEnabled(s, step)
    ensures var s' := ExecNet(s, step);
            Identities(s') && RequestsInHand(s') && Histories(s') && Streams(s')
  {
    hide Identities, RequestsInHand, Histories, Streams;
    var s' := ExecNet(s, step);
    assert s'.wire.Keys == s.wire.Keys;
    IdentitiesFramed(s, s');
    SameGrows(s, s');
    RequestsFramed(s, s');
    if step.Drain? {
      DrainConnections(s, step.h, step.n);
    } else {
      ConnectionsFramed(s, s');
    }
  }

  lemma NetKeeps(cfg: Config, s: State, step: NetStep)
    requires Inv(s) && NetEnabled(s, step)
    ensures Inv(ExecNet(s, step))
  {
    hide Identities, RequestsInHand, Histories, Streams;
    NetFramed(s, step);
  }

  lemma ClearIdentities(s: State)
    requires Identities(s)
    ensures Identities(s.(reg := EMPTY, stop := Down))
  {
    hide Consistent;
    EmptyConsistent();
  }

  lemma StopFramed(s: State, step: StopStep)
    requires Identities(s) && RequestsInHand(s) && Histories(s) && Streams(s) && StopEnabled(s, step)
    ensures var s' := ExecStop(s, step);
            Identities(s') && RequestsInHand(s') && Histories(s') && Streams(s')
  {
    hide Identities, RequestsInHand, Histories, Streams;
    var s' := ExecStop(s, step);
    if step.Clear? { ClearIdentities(s); } else { IdentitiesFramed(s, s'); }
    RestFramed(s, s');
  }

  lemma StopKeeps(cfg: Config, s: State, step: StopStep)
    requires Inv(s) && StopEnabled(s, step)
    ensures Inv(ExecStop(s, step))
  {
    hide Identities, RequestsInHand, Histories, Streams;
    StopFramed(s, step);
  }

  // ----- all steps -----

  lemma InvInitial()
    ensures Inv(INITIAL)
  {
    EmptyConsistent();
  }

  lemma InvStep(cfg: Config, s: State, step: Step)
    requires Inv(s) && Orderly(s) && Enabled(s, step)
    ensures Inv(Exec(cfg, s, step))
  {
    hide Inv, Orderly, ExecIo, ExecWork, ExecPush, ExecSend, ExecNet, ExecStop;
    hide IoEnabled, WorkEnabled, PushEnabled, SendEnabled, NetEnabled, StopEnabled;
    match step
    case Io(io) => IoKeeps(cfg, s, io);
    case Work(w, work) => WorkKeeps(cfg, s, w, work);
    case Main(push) => PushKeeps(cfg, s, push);
    case Deliver(send) => SendKeeps(s, send);
    case Net(net) => NetKeeps(cfg, s, net);
    case Stop(stop) => StopKeeps(cfg, s, stop);
  }
}
