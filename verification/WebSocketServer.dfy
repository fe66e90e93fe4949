// src/WebSocketServer.cpp as an object: the maps are fields, the sessions are objects shared
// through them, and each handler runs the loops of the source. Every method is tied to the
// function on registries and queues that the step relation of Protocol.dfy is made of.

module WebSocketServer {
  import opened Common
  import opened Messages
  import opened Requests
  import R = Registry
  import N = Network

  class ClientSession {
    const clientId: string
    var handshakeDone: bool
    var subscriptions: set<string>

    constructor (id: string)
      ensures clientId == id && handshakeDone && subscriptions == {}
    {
      clientId := id;
      handshakeDone := true;
      subscriptions := {};
    }

    function Value(): R.Session
      reads this
    {
      R.Session(clientId, handshakeDone, subscriptions)
    }
  }

  // The websocketpp endpoint: one outbound queue per live connection.
  class Endpoint {
    var queues: N.Queues

    constructor ()
      ensures queues == map[]
    {
      queues := map[];
    }

    method Send(h: Handle, f: Frame)
      modifies this
      ensures queues == N.Sent(old(queues), h, f)
      ensures queues == if h in old(queues) then old(queues)[h := old(queues)[h] + [f]] else old(queues)
    {
      if h in queues {
        queues := queues[h := queues[h] + [f]];
      }
    }

    // get_buffered_amount: the payload bytes waiting on one connection.
    method BufferedAmount(h: Handle) returns (bytes: nat)
      requires h in queues
      ensures bytes == N.Bytes(queues[h])
    {
      bytes := 0;
      var q := queues[h];
      for i := 0 to |q|
        invariant bytes == N.Bytes(q[..i])
      {
        assert q[..i + 1][..i] == q[..i];
        bytes := bytes + q[i].size;
      }
      assert q[..|q|] == q;
    }
  }

  class WebSocketServer {
    var running: bool
    var sessions: map<Handle, ClientSession>
    var clientIdToHdl: map<string, Handle>
    var subscriptionCounts: map<string, nat>
    var activeWorkers: nat
    const server: Endpoint
    const sizeOf: Sizer
    const hasProcessor: bool

    // Sessions are not shared between handles.
    ghost predicate Valid()
      reads this
    {
      forall h, k :: h in sessions && k in sessions && h != k ==> sessions[h] != sessions[k]
    }

    function Sessions(): map<Handle, R.Session>
      reads this, sessions.Values
    {
      map h | h in sessions :: sessions[h].Value()
    }

    function Registry(): R.Registry
      reads this, sessions.Values
    {
      R.Registry(Sessions(), clientIdToHdl, subscriptionCounts)
    }

    constructor (sizeOf: Sizer, hasProcessor: bool)
      ensures Valid() && Registry() == R.EMPTY && activeWorkers == 0 && !running
      ensures fresh(server) && server.queues == map[]
      ensures this.sizeOf == sizeOf && this.hasProcessor == hasProcessor
    {
      running := false;
      sessions := map[];
      clientIdToHdl := map[];
      subscriptionCounts := map[];
      activeWorkers := 0;
      server := new Endpoint();
      this.sizeOf := sizeOf;
      this.hasProcessor := hasProcessor;
    }

    method OnValidate() returns (accept: bool)
      ensures accept <==> |Registry().sessions| < MAX_CLIENTS
    {
      assert Sessions().Keys == sessions.Keys;
      accept := !(|sessions| >= MAX_CLIENTS);
    }

    method OnOpen(h: Handle, clientId: string)
      requires Valid()
      modifies this`sessions, this`clientIdToHdl
      ensures Valid()
      ensures Registry() == R.Opened(old(Registry()), h, clientId)
      ensures h in sessions && Sessions() == old(Sessions())[h := R.Session(clientId, true, {})]
      ensures clientIdToHdl == old(clientIdToHdl)[clientId := h]
    {
      ghost var before := Sessions();
      var session := new ClientSession(clientId);
      sessions := sessions[h := session];
      clientIdToHdl := clientIdToHdl[clientId := h];
      assert Sessions() == before[h := R.Session(clientId, true, {})];
    }

    // `--cnt->second == 0` and erase, for one event.
    method ReleaseOne(e: string)
      modifies this`subscriptionCounts
      ensures subscriptionCounts == R.Released(old(subscriptionCounts), {e})
    {
      if e in subscriptionCounts {
        var n := R.Decremented(subscriptionCounts[e]);
        if n == 0 {
          subscriptionCounts := subscriptionCounts - {e};
        } else {
          subscriptionCounts := subscriptionCounts[e := n];
        }
      }
    }

    // The loop over a set of events that gives each of them back.
    method ReleaseAll(events: set<string>)
      modifies this`subscriptionCounts
      ensures subscriptionCounts == R.Released(old(subscriptionCounts), events)
    {
      var left := events;
      while left != {}
        invariant left <= events
        invariant subscriptionCounts == R.Released(old(subscriptionCounts), events - left)
        decreases left
      {
        var e :| e in left;
        ReleasedStep(old(subscriptionCounts), events - left, e);
        ReleaseOne(e);
        assert events - left + {e} == events - (left - {e});
        left := left - {e};
      }
      assert events - left == events;
    }

    static lemma ReleasedStep(counts: map<string, nat>, done: set<string>, e: string)
      requires e !in done
      ensures R.Released(R.Released(counts, done), {e}) == R.Released(counts, done + {e})
    {
    }

    method OnClose(h: Handle)
      requires Valid()
      modifies this`sessions, this`clientIdToHdl, this`subscriptionCounts
      ensures Valid()
      ensures Registry() == R.Closed(old(Registry()), h)
      ensures sessions == old(sessions) - {h}
      ensures clientIdToHdl == if h in old(sessions) then old(clientIdToHdl) - {old(sessions[h].clientId)}
                               else old(clientIdToHdl)
    {
      if h in sessions {
        ghost var before := Sessions();
        var session := sessions[h];
        ReleaseAll(session.subscriptions);
        clientIdToHdl := clientIdToHdl - {session.clientId};
        sessions := sessions - {h};
        assert Sessions() == before - {h};
      }
    }

    method OnFail(h: Handle)
      requires Valid()
      modifies this`sessions, this`clientIdToHdl, this`subscriptionCounts
      ensures Valid()
      ensures Registry() == R.Closed(old(Registry()), h)
      ensures sessions == old(sessions) - {h}
      ensures clientIdToHdl == if h in old(sessions) then old(clientIdToHdl) - {old(sessions[h].clientId)}
                               else old(clientIdToHdl)
    {
      if h in sessions {
        ghost var before := Sessions();
        var session := sessions[h];
        ReleaseAll(session.subscriptions);
        clientIdToHdl := clientIdToHdl - {session.clientId};
        sessions := sessions - {h};
        assert Sessions() == before - {h};
      }
    }

    method SendInline(h: Handle, m: Message)
      modifies server
      ensures server.queues == N.Sent(old(server.queues), h, MakeFrame(sizeOf, Inline, m))
    {
      server.Send(h, MakeFrame(sizeOf, Inline, m));
    }

    static lemma OnlyAnswer(payload: Payload, clientId: string, hasProcessor: bool, active: nat)
      ensures forall m :: AnsweredByItself(payload, hasProcessor, active, m) ==>
                var t := Triaged(payload, clientId, hasProcessor, active);
                (t.Reject? || t.Heartbeat? || t.Overloaded?) && t.reply == m
    {
    }

    // Returns the request handed to a new worker thread, if any; `known` is whether a session
    // was found. A worker is counted exactly when one is started.
    method OnMessage(h: Handle, payload: Payload) returns (known: bool, worker: Option<Json>)
      modifies this`activeWorkers, server
      ensures known <==> h in old(sessions)
      ensures !known ==> worker == None && server.queues == old(server.queues)
      ensures known ==>
                match Triaged(payload, old(sessions[h].clientId), hasProcessor, old(activeWorkers))
                case Admit(request) => worker == Some(request) && server.queues == old(server.queues)
                case Unhandled => worker == None && server.queues == old(server.queues)
                case Reject(m) =>
                  worker == None && server.queues == N.Sent(old(server.queues), h, MakeFrame(sizeOf, Inline, m))
                case Heartbeat(m) =>
                  worker == None && server.queues == N.Sent(old(server.queues), h, MakeFrame(sizeOf, Inline, m))
                case Overloaded(m) =>
                  worker == None && server.queues == N.Sent(old(server.queues), h, MakeFrame(sizeOf, Inline, m))
      ensures known && IsRequest(payload) && hasProcessor ==> (worker.Some? <==> old(activeWorkers) < 64)
      ensures worker.Some? ==>
                && known && IsRequest(payload) && hasProcessor
                && worker == Some(Obj(payload.j.fields["client_id" := Str(old(sessions[h].clientId))]))
      ensures known ==>
                forall m :: AnsweredByItself(payload, hasProcessor, old(activeWorkers), m) ==>
                  server.queues == N.Sent(old(server.queues), h, MakeFrame(sizeOf, Inline, m))
      ensures activeWorkers == old(activeWorkers) + if worker.Some? then 1 else 0
      ensures old(activeWorkers) <= MAX_CONCURRENT_REQUESTS ==> activeWorkers <= MAX_CONCURRENT_REQUESTS
    {
      known, worker := h in sessions, None;
      if !known { return; }
      var clientId := sessions[h].clientId;
      TriageExactly(payload, clientId, hasProcessor, activeWorkers);
      OnlyAnswer(payload, clientId, hasProcessor, activeWorkers);
      if payload.Malformed? {
        SendInline(h, Error("Invalid JSON"));
        return;
      }
      var j := payload.j;
      if !j.Obj? {
        SendInline(h, Error("Invalid request: expected a JSON object"));
        return;
      }
      if TYPE !in j.fields || !j.fields[TYPE].Str? {
        SendInline(h, Error("Missing 'type' field"));
        return;
      }
      if j.fields[TYPE].s == PING {
        var echo := None;
        if ID in j.fields && j.fields[ID].Str? {
          echo := Some(j.fields[ID].s);
        }
        SendInline(h, Pong(echo));
        return;
      }
      if !hasProcessor { return; }
      if activeWorkers >= MAX_CONCURRENT_REQUESTS {
        SendInline(h, Error("Server busy: too many in-flight requests"));
        return;
      }
      j := Obj(j.fields[CLIENT_ID := Str(clientId)]);
      activeWorkers := activeWorkers + 1;
      worker := Some(j);
    }

    // What a worker thread does last.
    method OnWorkerExit()
      requires activeWorkers > 0
      modifies this`activeWorkers
      ensures activeWorkers == old(activeWorkers) - 1
    {
      activeWorkers := activeWorkers - 1;
    }

    method IsSendQueueFull(h: Handle, payloadSize: nat) returns (full: bool)
      ensures full <==> N.IsFull(server.queues, h, payloadSize)
      ensures full <==> h in server.queues && N.Bytes(server.queues[h]) + payloadSize > MAX_CLIENT_SEND_QUEUE_BYTES
    {
      if h !in server.queues { return false; }
      var buffered := server.BufferedAmount(h);
      full := buffered + payloadSize > MAX_CLIENT_SEND_QUEUE_BYTES;
    }

    // The frame has gone to exactly those targets that are connected and have room for it.
    static ghost predicate Reaches(before: N.Queues, after: N.Queues, f: Frame, targets: set<Handle>) {
      && after.Keys == before.Keys
      && forall h :: h in before ==>
           after[h] ==
           if h in targets && N.Bytes(before[h]) + f.size <= MAX_CLIENT_SEND_QUEUE_BYTES then before[h] + [f]
           else before[h]
    }

    static lemma DeliveredReaches(qs: N.Queues, targets: set<Handle>, f: Frame)
      ensures Reaches(qs, N.Delivered(qs, targets, f), f, targets)
    {
      hide N.Bytes;
    }

    function Audience(e: string): set<Handle>
      reads this, sessions.Values
    {
      set h | h in sessions && sessions[h].handshakeDone && e in sessions[h].subscriptions
    }

    function Everybody(): set<Handle>
      reads this, sessions.Values
    {
      set h | h in sessions && sessions[h].handshakeDone
    }

    lemma AudienceListens(e: string)
      ensures N.Listeners(Registry(), e) == Audience(e)
    {
    }

    lemma EverybodyIsHandshaken()
      ensures N.Handshaken(Registry()) == Everybody()
    {
    }

    // The guarded send at the heart of both loops below.
    method SendGuarded(h: Handle, f: Frame)
      modifies server
      ensures server.queues == N.Guarded(old(server.queues), h, f)
      ensures Reaches(old(server.queues), server.queues, f, {h})
    {
      var full := IsSendQueueFull(h, f.size);
      if full { return; }
      server.Send(h, f);
    }

    static lemma DeliveredStep(qs: N.Queues, done: set<Handle>, h: Handle, f: Frame)
      requires h !in done
      ensures N.Guarded(N.Delivered(qs, done, f), h, f) == N.Delivered(qs, done + {h}, f)
    {
    }

    method Broadcast(e: string, f: Frame)
      modifies server
      ensures server.queues == N.Broadcasted(Registry(), old(server.queues), e, f)
      ensures Reaches(old(server.queues), server.queues, f, Audience(e))
    {
      hide Reaches;
      ghost var qs, listeners := server.queues, N.Listeners(Registry(), e);
      DeliveredReaches(qs, listeners, f);
      AudienceListens(e);
      var left := sessions.Keys;
      while left != {}
        invariant left <= sessions.Keys
        invariant server.queues == N.Delivered(qs, listeners - left, f)
        decreases left
      {
        var h :| h in left;
        assert h in listeners <==> sessions[h].handshakeDone && e in sessions[h].subscriptions;
        if sessions[h].handshakeDone && e in sessions[h].subscriptions {
          DeliveredStep(qs, listeners - left, h, f);
          SendGuarded(h, f);
          assert (listeners - left) + {h} == listeners - (left - {h});
        } else {
          assert listeners - left == listeners - (left - {h});
        }
        left := left - {h};
      }
      assert listeners - left == listeners;
    }

    method SendToAllLocked(f: Frame)
      modifies server
      ensures server.queues == N.Delivered(old(server.queues), N.Handshaken(Registry()), f)
      ensures Reaches(old(server.queues), server.queues, f, Everybody())
    {
      hide Reaches;
      ghost var qs, all := server.queues, N.Handshaken(Registry());
      DeliveredReaches(qs, all, f);
      EverybodyIsHandshaken();
      var left := sessions.Keys;
      while left != {}
        invariant left <= sessions.Keys
        invariant server.queues == N.Delivered(qs, all - left, f)
        decreases left
      {
        var h :| h in left;
        if sessions[h].handshakeDone {
          DeliveredStep(qs, all - left, h, f);
          SendGuarded(h, f);
          assert (all - left) + {h} == all - (left - {h});
        } else {
          assert all - left == all - (left - {h});
        }
        left := left - {h};
      }
      assert all - left == all;
    }

    method RouteOutgoing(f: Frame, clientId: string)
      modifies server
      ensures server.queues == N.Routed(Registry(), old(server.queues), clientId, f)
      ensures Reaches(old(server.queues), server.queues, f,
                      if clientId == "" then Everybody()
                      else if clientId in clientIdToHdl then {clientIdToHdl[clientId]}
                      else {})
    {
      if clientId == "" {
        SendToAllLocked(f);
        return;
      }
      if clientId in clientIdToHdl {
        SendGuarded(clientIdToHdl[clientId], f);
      }
    }

    method HasSubscribers(e: string) returns (any: bool)
      ensures any <==> R.HasSubscribers(Registry(), e)
    {
      any := e in subscriptionCounts && subscriptionCounts[e] > 0;
    }

    // insert and count, event by event.
    method SubscribeAll(session: ClientSession, events: set<string>)
      modifies session`subscriptions, this`subscriptionCounts
      ensures session.subscriptions == old(session.subscriptions) + events
      ensures subscriptionCounts == R.Acquired(old(subscriptionCounts), events - old(session.subscriptions))
    {
      var left := events;
      ghost var had := session.subscriptions;
      assert (events - left) - had == {};
      while left != {}
        invariant left <= events
        invariant session.subscriptions == had + (events - left)
        invariant subscriptionCounts == R.Acquired(old(subscriptionCounts), (events - left) - had)
        decreases left
      {
        var e :| e in left;
        ghost var done := events - left;
        if e !in session.subscriptions {
          session.subscriptions := session.subscriptions + {e};
          AcquiredStep(old(subscriptionCounts), done - had, e);
          subscriptionCounts := subscriptionCounts[e := R.CountOf(subscriptionCounts, e) + 1];
          assert (done - had) + {e} == (events - (left - {e})) - had;
        } else {
          assert done - had == (events - (left - {e})) - had;
        }
        left := left - {e};
      }
      assert events - left == events;
    }

    static lemma AcquiredStep(counts: map<string, nat>, done: set<string>, e: string)
      requires e !in done
      ensures var c := R.Acquired(counts, done); c[e := R.CountOf(c, e) + 1] == R.Acquired(counts, done + {e})
    {
    }

    // erase and uncount, event by event.
    method UnsubscribeAll(session: ClientSession, events: set<string>)
      modifies session`subscriptions, this`subscriptionCounts
      ensures session.subscriptions == old(session.subscriptions) - events
      ensures subscriptionCounts == R.Released(old(subscriptionCounts), old(session.subscriptions) * events)
    {
      var left := events;
      ghost var had := session.subscriptions;
      assert had * (events - left) == {};
      while left != {}
        invariant left <= events
        invariant session.subscriptions == had - (events - left)
        invariant subscriptionCounts == R.Released(old(subscriptionCounts), had * (events - left))
        decreases left
      {
        var e :| e in left;
        ghost var done := events - left;
        if e in session.subscriptions {
          session.subscriptions := session.subscriptions - {e};
          ReleasedStep(old(subscriptionCounts), had * done, e);
          ReleaseOne(e);
          assert had * done + {e} == had * (events - (left - {e}));
        } else {
          assert had * done == had * (events - (left - {e}));
        }
        left := left - {e};
      }
      assert events - left == events;
    }

    // The strings of an array, collected one by one.
    static method CollectStrings(items: seq<Json>) returns (events: set<string>)
      ensures events == StringsOf(items)
    {
      events := {};
      for i := 0 to |items|
        invariant events == StringsOf(items[..i])
      {
        if items[i].Str? {
          events := events + {items[i].s};
        }
        assert StringsOf(items[..i + 1]) == StringsOf(items[..i]) + if items[i].Str? then {items[i].s} else {} by {
          StringsOfNext(items, i);
        }
      }
      assert items[..|items|] == items;
    }

    static lemma StringsOfNext(items: seq<Json>, i: nat)
      requires i < |items|
      ensures StringsOf(items[..i + 1]) == StringsOf(items[..i]) + if items[i].Str? then {items[i].s} else {}
    {
      var p, q := items[..i], items[..i + 1];
      forall s | s in StringsOf(q)
        ensures s in StringsOf(p) + if items[i].Str? then {items[i].s} else {}
      {
        var k :| 0 <= k < |q| && q[k].Str? && q[k].s == s;
        if k < i { assert p[k] == q[k]; }
      }
      forall s | s in StringsOf(p) + if items[i].Str? then {items[i].s} else {}
        ensures s in StringsOf(q)
      {
        if s in StringsOf(p) {
          var k :| 0 <= k < |p| && p[k].Str? && p[k].s == s;
          assert q[k] == p[k];
        } else {
          assert q[i] == items[i];
        }
      }
    }

    method HandleSubscriptionRequest(payload: Payload) returns (reply: Option<Message>)
      requires Valid()
      modifies this`subscriptionCounts, sessions.Values
      ensures Valid() && sessions == old(sessions)
      ensures var answer := SubscriptionHandled(old(Registry()), payload);
              && reply == (if answer.Answer? then Some(answer.reply) else None)
              && Registry() == (if answer.Answer? then answer.r else old(Registry()))
      ensures payload.Malformed? || !payload.j.Obj? ==> reply == None && Registry() == old(Registry())
      ensures payload.Parsed? && payload.j.Obj? ==>
                && reply.Some?
                && Confirmed(old(Registry()), Registry(), payload, OrEmpty(StrField(payload.j, CLIENT_ID)), reply.value)
    {
      if payload.Malformed? || !payload.j.Obj? { return None; }
      HandledConfirms(Registry(), payload);
      hide Confirmed;
      var req := payload.j;
      var id := OrEmpty(StrField(req, ID));
      var kind := OrEmpty(StrField(req, TYPE));
      var clientId := OrEmpty(StrField(req, CLIENT_ID));
      var events := {};
      if DATA in req.fields && req.fields[DATA].Obj? && EVENTS in req.fields[DATA].fields {
        var field := req.fields[DATA].fields[EVENTS];
        if !field.Arr? {
          return Some(Failure(id, "Invalid 'events' field; expected an array of strings"));
        }
        events := CollectStrings(field.items);
      }
      if clientId !in clientIdToHdl { return Some(Failure(id, "Unknown client")); }
      var h := clientIdToHdl[clientId];
      if h !in sessions { return Some(Failure(id, "Unknown client")); }
      NotEmpty();
      Resubscribe(h, kind == SUBSCRIBE, events);
      reply := Some(Response(id, true, None, "", Some(sessions[h].subscriptions)));
    }

    static lemma NotEmpty()
      ensures SUBSCRIBE != ""
    {
      assert |SUBSCRIBE| > 0;
    }

    // The part of it that rewrites one session's set and the counters.
    method Resubscribe(h: Handle, subscribe: bool, events: set<string>)
      requires Valid() && h in sessions
      modifies sessions[h], this`subscriptionCounts
      ensures Registry() ==
              R.Resubscribed(old(Registry()), h, if subscribe then R.Subscribe(events) else R.Unsubscribe(events))
      ensures sessions[h].subscriptions ==
              if subscribe then old(sessions[h].subscriptions) + events
              else if events == {} then {}
              else old(sessions[h].subscriptions) - events
    {
      ghost var before := Sessions();
      ghost var r := Registry();
      ghost var op := if subscribe then R.Subscribe(events) else R.Unsubscribe(events);
      var session := sessions[h];
      ghost var subs := session.subscriptions;
      if subscribe {
        SubscribeAll(session, events);
        assert session.subscriptions - subs == events - subs;
      } else if events == {} {
        ReleaseAll(session.subscriptions);
        session.subscriptions := {};
        assert subs - {} == subs;
      } else {
        UnsubscribeAll(session, events);
        assert subs - session.subscriptions == subs * events;
      }
      assert Sessions() == before[h := before[h].(subs := R.Applied(subs, op))];
    }

    // First half of Stop: refuse new work and collect the handles to close.
    method BeginStop() returns (hdls: set<Handle>)
      modifies this`running
      ensures !running
      ensures hdls == if old(running) then Registry().sessions.Keys else {}
    {
      hdls := {};
      if running {
        running := false;
        var left := sessions.Keys;
        while left != {}
          invariant left <= sessions.Keys && hdls == sessions.Keys - left
          decreases left
        {
          var h :| h in left;
          hdls := hdls + {h};
          left := left - {h};
        }
        assert Sessions().Keys == sessions.Keys;
      }
    }

    // Second half, once the IO thread is joined and the wait has seen no active worker.
    method FinishStop()
      requires activeWorkers == 0
      modifies this`sessions, this`clientIdToHdl, this`subscriptionCounts
      ensures Valid() && Registry() == R.EMPTY
    {
      sessions := map[];
      clientIdToHdl := map[];
      subscriptionCounts := map[];
    }
  }
}
