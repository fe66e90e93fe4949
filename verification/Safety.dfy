// What holds in every state the server can reach, whatever the interleaving.

module Safety {
  import opened Common
  import opened Messages
  import opened Registry
  import opened Network
  import opened Requests
  import opened Protocol
  import opened History
  import opened Invariants
  import opened Locking
  import opened Accounts
  import opened Runs
  import Handlers

  // The per-event index agrees with the clients' sets: same counts, no zero entry, exactly the
  // events somebody holds; so whichever session loses an event, its counter is there to lower.
  lemma IndexAlwaysAgrees(cfg: Config, s: State)
    requires Reachable(cfg, s)
    ensures forall e :: CountOf(s.reg.counts, e) == |Subscribers(s.reg.sessions, e)|
    ensures s.reg.counts.Keys == set h, e | h in s.reg.sessions && e in s.reg.sessions[h].subs :: e
    ensures forall h, e :: h in s.reg.sessions && e in s.reg.sessions[h].subs ==>
              e in s.reg.counts && s.reg.counts[e] >= 1
  {
    InvReachable(cfg, s);
    KeysAreTheUnion(s.reg);
    forall h, e | h in s.reg.sessions && e in s.reg.sessions[h].subs
      ensures e in s.reg.counts && s.reg.counts[e] >= 1
    {
      HeldIsCounted(s.reg, h, e);
    }
  }

  // Handle to session and id to handle are inverse to each other, and every session still has
  // the id its connection was given.
  lemma TablesAreInverse(cfg: Config, s: State)
    requires Reachable(cfg, s)
    ensures forall h :: h in s.reg.sessions ==>
              && s.reg.sessions[h].clientId in s.reg.idToHdl
              && s.reg.idToHdl[s.reg.sessions[h].clientId] == h
              && h in s.ids && s.ids[h] == s.reg.sessions[h].clientId
    ensures forall id :: id in s.reg.idToHdl ==>
              s.reg.idToHdl[id] in s.reg.sessions && s.reg.sessions[s.reg.idToHdl[id]].clientId == id
  {
    hide IndexAgrees;
    InvReachable(cfg, s);
  }

  // m_activeWorkers is the number of workers, plus one in the window before the thread starts; it
  // is positive whenever a worker is about to lower it, and check-then-increment cannot overshoot.
  lemma WorkersAreCounted(cfg: Config, s: State)
    requires Reachable(cfg, s)
    ensures s.active == |s.workers| + Starting(s)
    ensures s.active <= MAX_CONCURRENT_REQUESTS
    ensures forall w :: w in s.workers ==> s.active > 0
  {
    hide Identities, RequestsInHand, Histories, Streams;
    InvReachable(cfg, s);
    if w :| w in s.workers {
      assert s.workers.Keys - {w} < s.workers.Keys;
      assert |s.workers.Keys| > 0;
    }
  }

  // Once Stop is past its wait nobody is left to use the tables it clears: no worker exists, the
  // IO thread has ended, neither can take a step until the server is started again, and no worker
  // holds the mutex. A callback may still be sending; then the clearing has to wait for it.
  lemma TeardownIsAlone(cfg: Config, s: State)
    requires Reachable(cfg, s)
    ensures s.stop.Waiting? && s.active == 0 ==> s.workers == map[]
    ensures s.stop.Clearing? || s.stop.Down? ==>
              && s.workers == map[] && s.io.Exited? && s.active == 0 && !s.running
              && (forall step :: Enabled(s, step) ==> !step.Io? && !step.Work?)
              && (s.lock.Held? ==> s.lock.owner.Callback?)
    ensures s.stop.Down? ==> s.reg == EMPTY
  {
    hide Identities, RequestsInHand, Histories, Streams, Reserved;
    InvReachable(cfg, s);
    if s.active == 0 {
      assert s.workers.Keys == {};
    }
  }

  // Stopping a stopped server, which clears the tables as soon as no callback holds the mutex, puts
  // it back exactly where it was.
  lemma StopTwiceIsStopOnce(cfg: Config, s: State)
    requires Reachable(cfg, s) && s.stop.Down?
    ensures var waiting := [Step.Stop(Begin), Step.Stop(Join), Step.Stop(WaitDone)];
            CanRun(cfg, s, waiting) && After(cfg, s, waiting) == s.(stop := Clearing)
    ensures s.lock.Free? ==> StopEnabled(s.(stop := Clearing), Clear) && ExecStop(s.(stop := Clearing), Clear) == s
  {
    TeardownIsAlone(cfg, s);
    var s1 := ExecStop(s, Begin);
    var s2 := ExecStop(s1, Join);
    var w := [Step.Stop(WaitDone)];
    var jw := [Step.Stop(Join), Step.Stop(WaitDone)];
    var waiting := [Step.Stop(Begin), Step.Stop(Join), Step.Stop(WaitDone)];
    assert w[1..] == [] && jw[1..] == w && waiting[1..] == jw;
    assert CanRun(cfg, ExecStop(s2, WaitDone), []) && CanRun(cfg, s2, w) && CanRun(cfg, s1, jw);
    assert After(cfg, s2, w) == s.(stop := Clearing) && After(cfg, s1, jw) == s.(stop := Clearing);
  }

  // A reply is queued only on the connection whose request it answers, with that request's id.
  lemma NoMisdeliveredReply(cfg: Config, s: State, h: Handle, i: nat)
    requires Reachable(cfg, s) && h in s.history && i < |s.history[h]|
    requires s.history[h][i].Enqueued? && s.history[h][i].f.cause.ReplyTo?
    ensures var e := s.history[h][i];
            && e.f.cause.origin == h && e.answers.Some? && e.answers.value < |s.requests|
            && var request := s.requests[e.answers.value];
            && request.h == h && Fits(request.payload, e.f.msg)
            && e.f.msg.Response? && Handlers.Coherent(e.f.msg)
            && request.payload.Parsed? && request.payload.j.Obj?
            && e.f.msg.id == OrEmpty(StrField(request.payload.j, ID))
  {
    InvReachable(cfg, s);
    AccountedReachable(cfg, s);
    assert Justified(s.history[h][..i], s.history[h][i], h);
    hide Inv;
    var e := s.history[h][i];
    AnswerOnRecord(cfg, s, h, i);
    hide Accounted, Justified;
    ResponseFits(s.requests[e.answers.value].payload, e.f.msg);
  }

  lemma ResponseFits(payload: Payload, m: Message)
    requires m.Response? && Fits(payload, m)
    ensures payload.Parsed? && payload.j.Obj? && m.id == OrEmpty(StrField(payload.j, ID))
  {
  }

  // The branches a request cannot take: an empty answer from either handler, the second
  // "Unknown client", and the reply to everybody.
  lemma DeadBranches(cfg: Config, s: State, w: nat, sdk: Handlers.Sdk)
    requires Reachable(cfg, s) && w in s.workers
    ensures SubscriptionHandled(s.reg, Parsed(s.workers[w].request)).Answer?
    ensures Handlers.Answered(sdk, Parsed(s.workers[w].request)).Some?
    ensures s.workers[w].origin in s.ids
    ensures var id := OrEmpty(StrField(s.workers[w].request, CLIENT_ID));
            && id == s.ids[s.workers[w].origin] && id != ""
            && (id in s.reg.idToHdl ==>
                  s.reg.idToHdl[id] == s.workers[w].origin && s.workers[w].origin in s.reg.sessions)
    ensures s.workers[w].pc.Routing? ==> s.workers[w].pc.clientId == s.ids[s.workers[w].origin]
    ensures s.lock.Held? ==> !s.lock.owner.Flooder?
  {
    hide Orderly, WorkersCounted, StopOrdered, Histories, Streams;
    InvReachable(cfg, s);
    NobodyFloods(s);
    assert WorkerInHand(s, s.workers[w]);
    IdLeadsHome(s, s.workers[w].origin);
    SubscriptionAnswerFacts(s, s.workers[w].origin, s.workers[w].request);
    Handlers.EveryReplyIsCoherent(sdk, Parsed(s.workers[w].request));
  }

  lemma NobodyFloods(s: State)
    requires Orderly(s)
    ensures s.lock.Held? ==> !s.lock.owner.Flooder?
  {
    hide Reserved, Listens;
  }

  // A push of `e` is queued on a connection only while the fold of that client's own earlier
  // subscribe and unsubscribe operations contains `e`.
  lemma PushesFollowSubscriptions(cfg: Config, s: State, h: Handle, i: nat)
    requires Reachable(cfg, s) && h in s.history && i < |s.history[h]|
    requires s.history[h][i].Enqueued? && s.history[h][i].f.cause.PushOf?
    ensures s.history[h][i].f.cause.event in Fold(s.history[h][..i])
    ensures s.history[h][i].f.msg.Push? && s.history[h][i].f.msg.event == s.history[h][i].f.cause.event
  {
    InvReachable(cfg, s);
    assert Justified(s.history[h][..i], s.history[h][i], h);
  }

  // Before entry `i` request `ticket` made a change, and `events` is the fold at that change.
  ghost predicate ListsTheFold(entries: seq<Entry>, i: nat, events: set<string>, ticket: nat)
    requires i <= |entries|
  {
    exists j :: 0 <= j < i && entries[j].Changed? && entries[j].maker == ticket && events == Fold(entries[..j + 1])
  }

  // A change was asked for by a request of the client itself and lists exactly the fold up to and
  // including it. A queued reply to a subscription request lists events exactly when it reports
  // success, and a queued reply that lists events lists the fold at the change its own request
  // made. A session holds what its history says.
  lemma RepliesListTheFold(cfg: Config, s: State, h: Handle, i: nat)
    requires Reachable(cfg, s) && h in s.history && i < |s.history[h]|
    ensures var e := s.history[h][i];
            e.Changed? ==> e.listed == Fold(s.history[h][..i + 1]) && AskedBy(s.requests, e, h)
    ensures var e := s.history[h][i];
            e.Enqueued? && e.f.msg.Response? ==>
              && e.answers.Some? && e.answers.value < |s.requests|
              && (AboutEvents(s.requests[e.answers.value].payload) ==> (e.f.msg.success <==> e.f.msg.events.Some?))
              && (e.f.msg.events.Some? ==> ListsTheFold(s.history[h], i, e.f.msg.events.value, e.answers.value))
    ensures h in s.reg.sessions ==> s.reg.sessions[h].subs == Fold(s.history[h])
  {
    hide Inv, Orderly, Accounted, Truthful, AskedFor, AskedBy, Justified, Fold, AboutEvents, Fits;
    InvReachable(cfg, s);
    HistoryFacts(s, h);
    var entries := s.history[h];
    EntryFacts(s.requests, entries, h, i);
    var e := entries[i];
    if e.Enqueued? && e.f.msg.Response? {
      AccountedReachable(cfg, s);
      AnswerOnRecord(cfg, s, h, i);
      if AboutEvents(s.requests[e.answers.value].payload) {
        SuccessLists(s.requests[e.answers.value].payload, e.f.msg);
      }
      if e.f.msg.events.Some? {
        var j :| 0 <= j < |entries[..i]| && entries[..i][j].Changed? && entries[..i][j].listed == e.f.msg.events.value
                 && entries[..i][j].maker == e.answers.value;
        EntryFacts(s.requests, entries, h, j);
      }
    }
  }

  lemma HistoryFacts(s: State, h: Handle)
    requires Inv(s) && h in s.history
    ensures Truthful(s.history[h], h) && AskedFor(s.requests, s.history[h], h)
    ensures h in s.reg.sessions ==> s.reg.sessions[h].subs == Fold(s.history[h])
  {
    hide Identities, RequestsInHand, WorkersCounted, StopOrdered, Streams, Truthful, AskedFor, Fold;
  }

  lemma EntryFacts(requests: seq<Request>, entries: seq<Entry>, h: Handle, i: nat)
    requires Truthful(entries, h) && AskedFor(requests, entries, h) && i < |entries|
    ensures entries[i].Changed? ==> entries[i].listed == Fold(entries[..i + 1]) && AskedBy(requests, entries[i], h)
    ensures var e := entries[i];
            e.Enqueued? && e.f.msg.Response? ==> e.answers.Some?
    ensures var e := entries[i];
            e.Enqueued? && e.f.msg.Response? && e.f.msg.events.Some? ==>
              WasListed(entries[..i], e.f.msg.events.value, e.answers.value)
  {
    hide AskedBy;
    ListedIsFold(entries, h, i);
    assert Justified(entries[..i], entries[i], h);
    hide Truthful, Fold;
  }

  lemma ListedIsFold(entries: seq<Entry>, h: Handle, i: nat)
    requires Truthful(entries, h) && i < |entries|
    ensures entries[i].Changed? ==> entries[i].listed == Fold(entries[..i + 1])
  {
    assert Justified(entries[..i], entries[i], h);
    assert entries[..i + 1][..i] == entries[..i];
  }

  // HasSubscribers answers exactly whether Broadcast would find somebody, so a callback it makes
  // return early would have queued nothing on any connection; only a callback somebody hears goes on.
  lemma TheGateIsInvisible(cfg: Config, s: State, e: string, f: Frame)
    requires Reachable(cfg, s)
    ensures HasSubscribers(s.reg, e) <==> exists h :: Listens(s.reg, h, e)
    ensures !HasSubscribers(s.reg, e) ==> Listeners(s.reg, e) == {} && Broadcasted(s.reg, s.queues, e, f) == s.queues
    ensures PushEnabled(s, Gate(e)) ==>
              var s' := ExecPush(cfg, s, Gate(e));
              s' == s.(push := if exists h :: Listens(s.reg, h, e) then Passed(e) else Quiet)
  {
    hide Orderly;
    InvReachable(cfg, s);
    GateIsExact(s.reg, e);
    if !HasSubscribers(s.reg, e) { SkippedPushIsEmpty(s.reg, s.queues, e, f); }
  }

  // On every connection: what left plus what waits is what was queued, in order; pushes and
  // replies waiting stay within 32 MB, and only unguarded inline frames can add to that.
  lemma QueuesAreBoundedAndOrdered(cfg: Config, s: State, h: Handle)
    requires Reachable(cfg, s) && h in s.queues
    ensures h in s.wire && h in s.history && s.wire[h] + s.queues[h] == FramesOf(s.history[h])
    ensures GuardedBytes(s.queues[h]) <= MAX_CLIENT_SEND_QUEUE_BYTES
    ensures Bytes(s.queues[h]) == GuardedBytes(s.queues[h]) + InlineBytes(s.queues[h])
    ensures Bytes(s.queues[h]) <= MAX_CLIENT_SEND_QUEUE_BYTES + InlineBytes(s.queues[h])
  {
    hide Orderly;
    InvReachable(cfg, s);
    assert Bounded(s.queues[h]);
    BoundedTotals(s.queues[h]);
  }

  // A size check that found room is still right about pushes and replies when the send follows,
  // whatever the IO thread has queued in between.
  lemma RoomFoundIsRoomKept(cfg: Config, s: State)
    requires Reachable(cfg, s) && SendEnabled(s, Act) && s.lock.next.value.room && s.lock.next.value.h in s.queues
    ensures GuardedFrame(s.lock.f)
    ensures GuardedBytes(s.queues[s.lock.next.value.h]) + s.lock.f.size <= MAX_CLIENT_SEND_QUEUE_BYTES
  {
    hide Inv, GuardedBytes;
    InvReachable(cfg, s);
  }

  // A ping is received and a push of `e` takes the mutex, finds room on `h` and is about to send.
  function PingDuringPush(h: Handle, ping: Payload, e: string, data: Json): seq<Step> {
    [Step.Io(Receive(h, ping)), Step.Main(Gate(e)), Step.Main(Send(data)), Step.Deliver(Check(h))]
  }

  // Then the IO thread answers the ping, and the push is sent.
  const PONG_THEN_PUSH: seq<Step> := [Step.Io(Dispatch), Step.Deliver(Act)]

  lemma PushChecked(cfg: Config, s: State, h: Handle, ping: Payload, e: string, data: Json)
    requires Inv(s) && s.io.Idle? && s.push.Quiet? && s.lock.Free? && h in s.queues && Listens(s.reg, h, e)
    requires !IsFull(s.queues, h, cfg.sizeOf(Push(e, data)))
    ensures CanRun(cfg, s, PingDuringPush(h, ping, e, data))
    ensures var s' := After(cfg, s, PingDuringPush(h, ping, e, data));
            && s'.queues == s.queues && s'.io.Holding? && s'.io.h == h && s'.io.payload == ping
            && s'.lock.Held? && s'.lock.owner.Callback? && s'.lock.next == Some(Checked(h, true))
            && s'.lock.f == PushFrame(cfg, e, data)
  {
    hide Inv, IsFull, HasSubscribers, CanRun, After;
    assert HasSubscribers(s.reg, e) by { HeardAtTheGate(s, h, e); }
    var f := PushFrame(cfg, e, data);
    var s1 := s.(io := Holding(h, |s.requests|, s.reg.sessions[h].clientId, ping),
                 requests := s.requests + [Request(h, ping)]);
    var s2 := s1.(push := Passed(e));
    var s3 := s2.(push := Sending, lock := Held(Callback, f, Listeners(s.reg, e), None));
    var s4 := s3.(lock := Held(Callback, f, Listeners(s.reg, e) - {h}, Some(Checked(h, true))));
    assert CanRun(cfg, s4, []) && After(cfg, s4, []) == s4 by { NoSteps(cfg, s4); }
    var c: seq<Step> := [Step.Deliver(Check(h))];
    var b := [Step.Main(Send(data))] + c;
    var a := [Step.Main(Gate(e))] + b;
    OneStep(cfg, s3, Step.Deliver(Check(h)), []);
    assert c + [] == c;
    OneStep(cfg, s2, Step.Main(Send(data)), c);
    OneStep(cfg, s1, Step.Main(Gate(e)), b);
    OneStep(cfg, s, Step.Io(Receive(h, ping)), a);
    assert PingDuringPush(h, ping, e, data) == [Step.Io(Receive(h, ping))] + a;
  }

  lemma HeardAtTheGate(s: State, h: Handle, e: string)
    requires Inv(s) && Listens(s.reg, h, e)
    ensures HasSubscribers(s.reg, e)
  {
    hide RequestsInHand, WorkersCounted, StopOrdered, Histories, Streams;
    GateIsExact(s.reg, e);
  }

  lemma PongThenPushSent(cfg: Config, s: State, h: Handle)
    requires s.io.Holding? && s.io.h == h && h in s.queues && s.io.payload.Parsed? && s.io.payload.j.Obj?
    requires StrField(s.io.payload.j, TYPE) == Some(PING)
    requires s.lock.Held? && s.lock.owner.Callback? && s.lock.next == Some(Checked(h, true))
    ensures CanRun(cfg, s, PONG_THEN_PUSH)
    ensures var s' := After(cfg, s, PONG_THEN_PUSH);
            && h in s'.queues
            && s'.queues[h] ==
               s.queues[h] + [MakeFrame(cfg.sizeOf, Inline, Pong(StrField(s.io.payload.j, ID))), s.lock.f]
  {
    hide CanRun, After, MakeFrame, StrField;
    var m := Pong(StrField(s.io.payload.j, ID));
    var s1 := Inlined(cfg, s, h, s.io.ticket, m);
    InlineShares(cfg, s, h, s.io.ticket, m);
    var s2 := ExecSend(s1, Act);
    NoSteps(cfg, s2);
    var a: seq<Step> := [Step.Deliver(Act)];
    OneStep(cfg, s1, Step.Deliver(Act), []);
    assert a + [] == a;
    OneStep(cfg, s, Step.Io(Dispatch), a);
    assert PONG_THEN_PUSH == [Step.Io(Dispatch)] + a;
  }

  // It may be wrong about the whole queue: the IO thread, which takes no mutex, can answer a ping
  // between a check and its send. From any reachable state at rest, for any subscribed client whose
  // queue has room for a push, this run is possible and queues both frames; so a push of 32 MB to a
  // client with nothing waiting takes its queue past the limit, by the length of the pong.
  lemma InlineComesBetween(cfg: Config, s: State, h: Handle, ping: Payload, e: string, data: Json)
    requires Reachable(cfg, s) && s.io.Idle? && s.push.Quiet? && s.lock.Free?
    requires h in s.queues && Listens(s.reg, h, e) && !IsFull(s.queues, h, cfg.sizeOf(Push(e, data)))
    requires ping.Parsed? && ping.j.Obj? && StrField(ping.j, TYPE) == Some(PING)
    ensures var run := PingDuringPush(h, ping, e, data) + PONG_THEN_PUSH;
            var pong := MakeFrame(cfg.sizeOf, Inline, Pong(StrField(ping.j, ID)));
            && CanRun(cfg, s, run) && Reachable(cfg, After(cfg, s, run))
            && h in After(cfg, s, run).queues
            && var q := After(cfg, s, run).queues[h];
            && q == s.queues[h] + [pong, PushFrame(cfg, e, data)]
            && Bytes(q) == Bytes(s.queues[h]) + pong.size + cfg.sizeOf(Push(e, data))
            && (s.queues[h] == [] && cfg.sizeOf(Push(e, data)) == MAX_CLIENT_SEND_QUEUE_BYTES && pong.size > 0 ==>
                  Bytes(q) > MAX_CLIENT_SEND_QUEUE_BYTES)
  {
    hide Reachable, CanRun, After, Inv, Orderly, StrField, IsFull;
    var first := PingDuringPush(h, ping, e, data);
    var pong, f := MakeFrame(cfg.sizeOf, Inline, Pong(StrField(ping.j, ID))), PushFrame(cfg, e, data);
    InvReachable(cfg, s);
    PushChecked(cfg, s, h, ping, e, data);
    PongThenPushSent(cfg, After(cfg, s, first), h);
    RunOn(cfg, s, first, PONG_THEN_PUSH);
    ReachableOn(cfg, s, first + PONG_THEN_PUSH);
    BytesSplit(s.queues[h], [pong, f]);
    BytesSplit([pong], [f]);
    assert [pong] + [f] == [pong, f];
  }
}
