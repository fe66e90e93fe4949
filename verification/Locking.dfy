// What m_clientsMutex is good for: whoever sends while holding it still has the room its size
// check found, and sends to the right clients, although the IO thread answers inline without
// taking it. With this the invariant holds in every run.

module Locking {
  import opened Common
  import opened Messages
  import opened Registry
  import opened Network
  import opened Requests
  import opened Protocol
  import opened Invariants
  import Handlers

  // Nothing the holder relies on changes: the tables, its worker, or the pushes and replies waiting.
  lemma OrderlyFramed(s: State, s': State)
    requires Orderly(s) && s'.lock == s.lock && s'.reg == s.reg
    requires s.lock.Held? && s.lock.owner.Replier? && s.lock.owner.w in s.workers ==>
               s.lock.owner.w in s'.workers && s'.workers[s.lock.owner.w] == s.workers[s.lock.owner.w]
    requires forall h :: h in s'.queues ==> h in s.queues && GuardedBytes(s'.queues[h]) <= GuardedBytes(s.queues[h])
    ensures Orderly(s')
  {
    hide GuardedBytes;
  }

  lemma FreeIsOrderly(s: State)
    requires s.lock.Free?
    ensures Orderly(s)
  {
  }

  // ----- what the effects leave alone -----

  lemma InlineShares(cfg: Config, s: State, h: Handle, ticket: nat, m: Message)
    ensures var s' := AnsweredInline(cfg, s, h, ticket, m);
            s' == s.(queues := s'.queues, history := s'.history, settledAt := s'.settledAt)
  {
    hide Sent, MakeFrame;
    if h in s.queues {
      hide LosesRequest;
    } else {
      hide Transmitted;
    }
  }

  lemma NothingTransmitted(s: State, f: Frame, a: Option<nat>)
    ensures Transmitted(s, s.queues, f, a) == s
  {
    forall h | h in s.queues
      ensures s.queues[h] != s.queues[h] + [f]
    {
      assert |s.queues[h]| != |s.queues[h] + [f]|;
    }
  }

  lemma AnswerShares(s: State, w: nat, h: Handle, f: Frame)
    requires w in s.workers
    ensures var s' := Answering(s, w, h, f);
            s' == WithPc(s, w, Leaving).(queues := s'.queues, history := s'.history, settledAt := s'.settledAt)
  {
  }

  lemma PushShares(cfg: Config, s: State, step: PushStep)
    requires PushEnabled(s, step)
    ensures var s' := ExecPush(cfg, s, step);
            && s' == s.(push := s'.push, lock := s'.lock)
            && (s'.lock == s.lock || (s.lock.Free? && s'.lock.Held? && s'.lock.next.None?))
  {
    hide HasSubscribers, PushFrame, Listeners;
    match step
    case Gate(_) =>
    case Send(_) =>
    case Abandon =>
  }

  lemma NetShares(s: State, step: NetStep)
    requires NetEnabled(s, step)
    ensures var s' := ExecNet(s, step);
            s' == s.(queues := s'.queues, wire := s'.wire) && s'.queues.Keys <= s.queues.Keys
  {
  }

  lemma StopShares(s: State, step: StopStep)
    requires StopEnabled(s, step)
    ensures var s' := ExecStop(s, step);
            && s' == s.(reg := s'.reg, queues := s'.queues, running := s'.running, io := s'.io, stop := s'.stop)
            && s'.queues.Keys <= s.queues.Keys && s'.reg.sessions.Keys <= s.reg.sessions.Keys
  {
  }

  // ----- the IO thread -----

  // Between a size check and the send it may queue a frame of its own; the room is still there.
  lemma InlineOrderly(cfg: Config, s: State, h: Handle, ticket: nat, m: Message)
    requires Orderly(s)
    ensures Orderly(Inlined(cfg, s, h, ticket, m))
  {
    hide Orderly, GuardedBytes;
    var s' := Inlined(cfg, s, h, ticket, m);
    var f := MakeFrame(cfg.sizeOf, Inline, m);
    if h in s.queues { BoundedAppend(s.queues[h], f); }
    OrderlyFramed(s, s');
  }

  lemma DispatchOrderly(cfg: Config, s: State)
    requires Orderly(s) && s.io.Holding?
    ensures Orderly(Dispatching(cfg, s))
  {
    hide Orderly, Inlined, Triaged, Reserved, Addressed;
    match Triaged(s.io.payload, s.io.clientId, cfg.hasProcessor, s.active)
    case Reject(m) => InlineOrderly(cfg, s, s.io.h, s.io.ticket, m);
    case Heartbeat(m) => InlineOrderly(cfg, s, s.io.h, s.io.ticket, m);
    case Overloaded(m) => InlineOrderly(cfg, s, s.io.h, s.io.ticket, m);
    case Unhandled => UnhandledOrderly(s, s.io.h, s.io.ticket);
    case Admit(request) => OrderlyFramed(s, s.(io := Admitted(s.io.h, s.io.ticket, request)));
  }

  lemma UnhandledOrderly(s: State, h: Handle, ticket: nat)
    requires Orderly(s)
    ensures Orderly(LosesRequest(s, h, ticket, NoProcessor).(io := Idle))
  {
    hide Orderly;
    OrderlyFramed(s, LosesRequest(s, h, ticket, NoProcessor).(io := Idle));
  }

  lemma IoOrderly(cfg: Config, s: State, step: IoStep)
    requires Orderly(s) && IoEnabled(s, step)
    ensures Orderly(ExecIo(cfg, s, step))
  {
    hide Orderly, Dispatching, Opening, Closed, Receiving;
    match step
    case Dispatch => DispatchOrderly(cfg, s);
    case Open(h, id) => TakesNone(s, h, id); FreeIsOrderly(ExecIo(cfg, s, step));
    case Close(_) => FreeIsOrderly(ExecIo(cfg, s, step));
    case Receive(h, payload) => ReceivesNone(s, h, payload); FreeIsOrderly(ExecIo(cfg, s, step));
    case _ => OrderlyFramed(s, ExecIo(cfg, s, step));
  }

  lemma TakesNone(s: State, h: Handle, id: string)
    ensures Opening(s, h, id).lock == s.lock
  {
  }

  lemma ReceivesNone(s: State, h: Handle, payload: Payload)
    ensures Receiving(s, h, payload).lock == s.lock
  {
  }

  // ----- request workers -----

  lemma EndingShares(s: State, w: nat, why: Outcome)
    requires w in s.workers
    ensures var s' := Ending(s, w, why);
            && s'.lock == s.lock && s'.reg == s.reg && s'.queues == s.queues && s'.io == s.io
            && s'.stop == s.stop && s'.workers == s.workers[w := s.workers[w].(pc := Leaving)]
  {
  }

  lemma HandleOrderly(s: State, w: nat, sdk: Handlers.Sdk)
    requires Orderly(s) && w in s.workers && s.workers[w].pc.Ready?
    ensures Orderly(Handling(s, w, sdk))
  {
    EndingShares(s, w, Silent);
    hide Handlers.Answered, Ending, Reserved, Targeted, Listens;
    assert s.lock.Held? && s.lock.owner.Replier? ==> s.lock.owner.w != w;
    hide Orderly;
    OrderlyFramed(s, Handling(s, w, sdk));
  }

  lemma RaiseOrderly(s: State, w: nat)
    requires Orderly(s) && w in s.workers
    ensures Orderly(Raising(s, w))
  {
    hide Orderly;
    if Holds(s.lock, w) {
      EndingShares(s.(lock := Free), w, Raised);
      FreeIsOrderly(Raising(s, w));
    } else {
      EndingShares(s, w, Raised);
      hide Ending;
      OrderlyFramed(s, Raising(s, w));
    }
  }

  lemma RouteOrderly(cfg: Config, s: State, w: nat)
    requires Inv(s) && w in s.workers && s.workers[w].pc.Routing? && s.lock.Free?
    ensures Orderly(RoutingReply(cfg, s, w))
  {
    hide Inv, Orderly, Ending;
    HomeOf(s, w);
    EndingShares(s, w, ClientGone);
    var s' := RoutingReply(cfg, s, w);
    if s'.lock.Free? { FreeIsOrderly(s'); } else { ReplierOrderly(cfg, s', w); }
  }

  // A worker that has found its client and not looked at its queue yet.
  lemma ReplierOrderly(cfg: Config, s: State, w: nat)
    requires w in s.workers && s.workers[w].pc.Routing?
    requires s.lock == Held(Replier(w), ReplyFrame(cfg, s.workers[w]), {s.workers[w].origin}, None)
    ensures Orderly(s)
  {
  }

  lemma HomeOf(s: State, w: nat)
    requires Inv(s) && w in s.workers && s.workers[w].pc.Routing?
    ensures var worker := s.workers[w];
            && worker.pc.clientId != "" && worker.origin in s.history
            && (worker.pc.clientId in s.reg.idToHdl ==> s.reg.idToHdl[worker.pc.clientId] == worker.origin)
  {
    hide Histories, Streams;
    assert WorkerInHand(s, s.workers[w]);
    ReplyGoesHome(s, s.workers[w]);
    hide Identities, RequestsInHand, Fits, WellFormed, Derived;
  }

  lemma LeaveOrderly(s: State, w: nat)
    requires Orderly(s) && WorkEnabled(s, w, Leave)
    ensures Orderly(Exiting(s, w))
  {
    hide Orderly;
    OrderlyFramed(s, Exiting(s, w));
  }

  lemma SubscribeShares(s: State, w: nat)
    requires w in s.workers
    ensures var s' := Subscribing(s, w); s'.lock == s.lock && s'.io == s.io && s'.stop == s.stop
  {
    hide SubscriptionHandled, Subscribing, Ending, StrField;
    SubscribingParts(s, w);
    EndingShares(s, w, Silent);
  }

  lemma WorkShares(cfg: Config, s: State, w: nat, step: WorkStep)
    requires WorkEnabled(s, w, step)
    ensures var s' := ExecWork(cfg, s, w, step);
            && s'.io == s.io && s'.stop == s.stop && (s.lock.Free? || s'.reg == s.reg)
            && (|| s'.lock == s.lock
                || (s'.lock.Free? && step.Raise? && Holds(s.lock, w))
                || (s.lock.Free? && s'.lock.Held? && s'.lock.next.None?))
  {
    hide Subscribing, IsSubscription, Handlers.Answered, Ending, ReplyFrame, Handshaken, StrField, Holds;
    match step
    case ManageSubscription => SubscribeShares(s, w);
    case Handle(sdk) => EndingShares(s, w, Silent);
    case Raise => EndingShares(if Holds(s.lock, w) then s.(lock := Free) else s, w, Raised);
    case Route => EndingShares(s, w, ToEverybody); EndingShares(s, w, ClientGone);
    case Leave =>
  }

  lemma WorkOrderly(cfg: Config, s: State, w: nat, step: WorkStep)
    requires Inv(s) && Orderly(s) && WorkEnabled(s, w, step)
    ensures Orderly(ExecWork(cfg, s, w, step))
  {
    hide Inv, Orderly, Subscribing, Handling, Raising, RoutingReply, Exiting, IsSubscription;
    match step
    case ManageSubscription => SubscribeShares(s, w); FreeIsOrderly(Subscribing(s, w));
    case Handle(sdk) => HandleOrderly(s, w, sdk);
    case Raise => RaiseOrderly(s, w);
    case Route => RouteOrderly(cfg, s, w);
    case Leave => LeaveOrderly(s, w);
  }

  // ----- pushes and sends -----

  lemma PushOrderly(cfg: Config, s: State, step: PushStep)
    requires Orderly(s) && PushEnabled(s, step)
    ensures Orderly(ExecPush(cfg, s, step))
  {
    var s' := ExecPush(cfg, s, step);
    match step
    case Gate(_) => hide Orderly, HasSubscribers; FreeIsOrderly(s');
    case Send(_) => hide HasSubscribers;
    case Abandon => hide Orderly; OrderlyFramed(s, s');
  }

  lemma CheckOrderly(s: State, h: Handle)
    requires Orderly(s) && SendEnabled(s, Check(h))
    ensures Orderly(ExecSend(s, Check(h)))
  {
    var s' := ExecSend(s, Check(h));
    assert Reserved(s') by {
      if h in s.queues && !IsFull(s.queues, h, s.lock.f.size) { RoomIsKept(s.queues, h, s.lock.f.size); }
      hide GuardedBytes, IsFull;
    }
    hide Reserved, IsFull, Listens;
    assert Targeted(s.lock, h);
    assert forall g :: Targeted(s'.lock, g) ==> Targeted(s.lock, g);
    if s.lock.owner.Replier? {
      assert forall g :: g in s.lock.left ==> Targeted(s.lock, g);
      assert s'.lock.left == {};
    }
  }

  lemma ActingShares(s: State)
    requires s.lock.Held? && s.lock.next.Some?
    ensures var s' := Acting(s);
            && s'.reg == s.reg && s'.lock == s.lock && s'.io == s.io && s'.stop == s.stop
            && s'.workers.Keys == s.workers.Keys
            && (s.lock.owner.Callback? ==> s'.workers == s.workers)
            && (s.lock.owner.Replier? && s.lock.owner.w in s.workers ==>
                  s'.workers[s.lock.owner.w] == s.workers[s.lock.owner.w].(pc := Leaving))
  {
    hide IsFull, Sent, Ending, Answering;
    if s.lock.owner.Replier? && s.lock.owner.w in s.workers {
      EndingShares(s, s.lock.owner.w, Dropped);
      EndingShares(s, s.lock.owner.w, ClientGone);
      AnswerShares(s, s.lock.owner.w, s.lock.next.value.h, s.lock.f);
      hide Transmitted;
    }
  }

  lemma ActOrderly(s: State)
    requires Orderly(s) && SendEnabled(s, Act)
    ensures Orderly(ExecSend(s, Act))
  {
    hide Acting, GuardedBytes, Listens;
    ActingShares(s);
    var s' := ExecSend(s, Act);
    assert forall g :: Targeted(s'.lock, g) ==> Targeted(s.lock, g);
  }

  lemma SendOrderly(s: State, step: SendStep)
    requires Orderly(s) && SendEnabled(s, step)
    ensures Orderly(ExecSend(s, step))
  {
    hide Orderly, Acting;
    match step
    case Check(h) => CheckOrderly(s, h);
    case Act => ActOrderly(s);
    case Release => FreeIsOrderly(ExecSend(s, step));
  }

  lemma NetOrderly(s: State, step: NetStep)
    requires Orderly(s) && NetEnabled(s, step)
    ensures Orderly(ExecNet(s, step))
  {
    hide Orderly, GuardedBytes;
    if step.Drain? { BoundedDrain(s.queues[step.h], step.n); }
    OrderlyFramed(s, ExecNet(s, step));
  }

  lemma StopOrderly(s: State, step: StopStep)
    requires Orderly(s) && StopEnabled(s, step)
    ensures Orderly(ExecStop(s, step))
  {
    hide Orderly, GuardedBytes;
    if step.Clear? { FreeIsOrderly(ExecStop(s, step)); } else { OrderlyFramed(s, ExecStop(s, step)); }
  }

  // ----- all steps, all runs -----

  lemma OrderlyStep(cfg: Config, s: State, step: Step)
    requires Inv(s) && Orderly(s) && Enabled(s, step)
    ensures Orderly(Exec(cfg, s, step))
  {
    hide Inv, Orderly, ExecIo, ExecWork, ExecPush, ExecSend, ExecNet, ExecStop;
    hide IoEnabled, WorkEnabled, PushEnabled, SendEnabled, NetEnabled, StopEnabled;
    match step
    case Io(io) => IoOrderly(cfg, s, io);
    case Work(w, work) => WorkOrderly(cfg, s, w, work);
    case Main(push) => PushOrderly(cfg, s, push);
    case Deliver(send) => SendOrderly(s, send);
    case Net(net) => NetOrderly(s, net);
    case Stop(stop) => StopOrderly(s, stop);
  }

  lemma {:induction false} InvAfter(cfg: Config, s: State, steps: seq<Step>)
    requires Inv(s) && Orderly(s) && CanRun(cfg, s, steps)
    ensures Inv(After(cfg, s, steps)) && Orderly(After(cfg, s, steps))
    decreases |steps|
  {
    hide Inv, Orderly, Exec, Enabled;
    if steps == [] {
    } else {
      InvStep(cfg, s, steps[0]);
      OrderlyStep(cfg, s, steps[0]);
      InvAfter(cfg, Exec(cfg, s, steps[0]), steps[1..]);
    }
  }

  lemma InvReachable(cfg: Config, s: State)
    requires Reachable(cfg, s)
    ensures Inv(s) && Orderly(s)
  {
    hide Inv, Orderly, Exec, Enabled;
    var steps :| CanRun(cfg, INITIAL, steps) && After(cfg, INITIAL, steps) == s;
    InvInitial();
    FreeIsOrderly(INITIAL);
    InvAfter(cfg, INITIAL, steps);
  }

  // ----- mutual exclusion -----

  // The tables stay, and the mutex stays as it is.
  predicate Untouched(s: State, s': State) { s'.reg == s.reg && s'.lock == s.lock }

  // The tables stay, and the mutex stays with its holder and its frame.
  predicate Excluded(s: State, s': State)
    requires s.lock.Held?
  {
    && s'.reg == s.reg
    && s'.lock.Held? && s'.lock.owner == s.lock.owner && s'.lock.f == s.lock.f
  }

  // While the mutex is held no step of anybody changes the tables or takes it away: only its
  // holder goes on with its loop, and gives it back at the end or by an exception.
  lemma MutexExcludes(cfg: Config, s: State, step: Step)
    requires s.lock.Held? && Enabled(s, step)
    ensures var s' := Exec(cfg, s, step);
            || Untouched(s, s')
            || (step.Deliver? && !step.send.Release? && Excluded(s, s'))
            || (s'.reg == s.reg && s'.lock.Free?
                && (step == Step.Deliver(Release) || (step.Work? && step.work.Raise? && Holds(s.lock, step.w))))
  {
    hide ExecIo, ExecWork, ExecPush, ExecSend, ExecNet, ExecStop;
    hide IoEnabled, WorkEnabled, PushEnabled, SendEnabled, NetEnabled, StopEnabled;
    match step
    case Io(io) => IoExcluded(cfg, s, io);
    case Work(w, work) => WorkShares(cfg, s, w, work);
    case Main(push) => PushShares(cfg, s, push);
    case Deliver(send) => SendExcluded(s, send);
    case Net(net) => NetShares(s, net);
    case Stop(stop) => StopExcluded(s, stop);
  }

  lemma IoExcluded(cfg: Config, s: State, step: IoStep)
    requires s.lock.Held? && IoEnabled(s, step)
    ensures Untouched(s, ExecIo(cfg, s, step))
  {
    hide Dispatching, Opening, Receiving, Closed;
    if step.Dispatch? { DispatchExcluded(cfg, s); }
  }

  lemma DispatchExcluded(cfg: Config, s: State)
    requires s.io.Holding?
    ensures Untouched(s, Dispatching(cfg, s))
  {
    hide Triaged, Inlined, LosesRequest;
    match Triaged(s.io.payload, s.io.clientId, cfg.hasProcessor, s.active)
    case Reject(m) => InlineTakesNone(cfg, s, s.io.h, s.io.ticket, m);
    case Heartbeat(m) => InlineTakesNone(cfg, s, s.io.h, s.io.ticket, m);
    case Overloaded(m) => InlineTakesNone(cfg, s, s.io.h, s.io.ticket, m);
    case Unhandled => NotedOnly(s, s.io.h, s.io.ticket, NoProcessor);
    case Admit(_) =>
  }

  lemma InlineTakesNone(cfg: Config, s: State, h: Handle, ticket: nat, m: Message)
    ensures Inlined(cfg, s, h, ticket, m).lock == s.lock && Inlined(cfg, s, h, ticket, m).reg == s.reg
  {
    hide AnsweredInline;
    InlineShares(cfg, s, h, ticket, m);
  }

  lemma SendExcluded(s: State, step: SendStep)
    requires SendEnabled(s, step)
    ensures var s' := ExecSend(s, step);
            (!step.Release? && Excluded(s, s')) || (s'.reg == s.reg && s'.lock.Free? && step.Release?)
  {
    hide Acting, IsFull;
    if step.Act? { ActingShares(s); }
  }

  lemma StopExcluded(s: State, step: StopStep)
    requires s.lock.Held? && StopEnabled(s, step)
    ensures Untouched(s, ExecStop(s, step))
  {
  }

  // ----- an uninterrupted loop -----

  // Check and act on each client in this order, and nothing in between.
  function Loop(order: seq<Handle>): seq<Step> {
    if order == [] then [] else [Step.Deliver(Check(order[0])), Step.Deliver(Act)] + Loop(order[1..])
  }

  ghost predicate Lists(order: seq<Handle>, handles: set<Handle>) {
    && (forall i :: 0 <= i < |order| ==> order[i] in handles)
    && (forall h :: h in handles ==> h in order)
    && (forall i, j :: 0 <= i < j < |order| ==> order[i] != order[j])
  }

  lemma ListsRest(order: seq<Handle>, handles: set<Handle>)
    requires order != [] && Lists(order, handles)
    ensures order[0] in handles && Lists(order[1..], handles - {order[0]})
  {
    forall h | h in handles - {order[0]}
      ensures h in order[1..]
    {
      var i :| 0 <= i < |order| && order[i] == h;
      assert order[1..][i - 1] == h;
    }
  }

  lemma OneClient(s: State, h: Handle)
    requires s.lock.Held? && s.lock.owner.Callback? && s.lock.next.None? && h in s.lock.left
    ensures SendEnabled(s, Check(h)) && SendEnabled(ExecSend(s, Check(h)), Act)
    ensures var s' := ExecSend(ExecSend(s, Check(h)), Act);
            && s'.lock == s.lock.(left := s.lock.left - {h}) && s'.queues == Guarded(s.queues, h, s.lock.f)
  {
    hide IsFull;
  }

  // What a push loop does when nobody interferes is what Broadcasted says, in whichever order it
  // visits its clients: the steps are those of the method in WebSocketServer.
  lemma {:induction false} UninterruptedLoop(cfg: Config, s: State, order: seq<Handle>)
    requires s.lock.Held? && s.lock.owner.Callback? && s.lock.next.None? && Lists(order, s.lock.left)
    ensures CanRun(cfg, s, Loop(order))
    ensures var s' := After(cfg, s, Loop(order));
            && s'.queues == Delivered(s.queues, s.lock.left, s.lock.f)
            && s'.lock == s.lock.(left := {})
    decreases |order|
  {
    if order == [] {
      assert s.lock.left == {};
    } else {
      var h := order[0];
      ListsRest(order, s.lock.left);
      OneClient(s, h);
      var s1 := ExecSend(s, Check(h));
      var s2 := ExecSend(s1, Act);
      UninterruptedLoop(cfg, s2, order[1..]);
      DeliveredFirst(s.queues, s.lock.left, h, s.lock.f);
      TwoSteps(cfg, s, h, Loop(order[1..]));
    }
  }

  lemma UninterruptedPush(cfg: Config, s: State, data: Json, order: seq<Handle>)
    requires s.push.Passed? && Lists(order, Listeners(s.reg, s.push.event))
    ensures var s' := Pushing(cfg, s, data);
            && CanRun(cfg, s', Loop(order))
            && After(cfg, s', Loop(order)).queues ==
               Broadcasted(s.reg, s.queues, s.push.event, PushFrame(cfg, s.push.event, data))
  {
    hide Delivered, Listeners, CanRun, After, Lists, PushFrame;
    UninterruptedLoop(cfg, Pushing(cfg, s, data), order);
  }

  // And what a worker does is what Routed says.
  lemma UninterruptedReply(cfg: Config, s: State, w: nat)
    requires w in s.workers && s.workers[w].pc.Routing? && s.lock.Free?
    requires s.workers[w].pc.clientId != "" && s.workers[w].pc.clientId in s.reg.idToHdl
    ensures var id, f := s.workers[w].pc.clientId, ReplyFrame(cfg, s.workers[w]);
            var s1 := RoutingReply(cfg, s, w);
            && SendEnabled(s1, Check(s.reg.idToHdl[id]))
            && var s2 := ExecSend(s1, Check(s.reg.idToHdl[id]));
            && SendEnabled(s2, Act) && ExecSend(s2, Act).queues == Routed(s.reg, s.queues, id, f)
  {
    var h, f := s.reg.idToHdl[s.workers[w].pc.clientId], ReplyFrame(cfg, s.workers[w]);
    var s1 := RoutingReply(cfg, s, w);
    assert h in s1.lock.left;
    var s2 := ExecSend(s1, Check(h));
    EndingShares(s2, w, Dropped);
    EndingShares(s2, w, ClientGone);
    hide Ending, Bytes, ReplyFrame;
  }

  lemma TwoSteps(cfg: Config, s: State, h: Handle, rest: seq<Step>)
    requires SendEnabled(s, Check(h)) && SendEnabled(ExecSend(s, Check(h)), Act)
    requires CanRun(cfg, ExecSend(ExecSend(s, Check(h)), Act), rest)
    ensures CanRun(cfg, s, [Step.Deliver(Check(h)), Step.Deliver(Act)] + rest)
    ensures After(cfg, s, [Step.Deliver(Check(h)), Step.Deliver(Act)] + rest) ==
            After(cfg, ExecSend(ExecSend(s, Check(h)), Act), rest)
  {
    hide ExecSend, SendEnabled;
    var steps := [Step.Deliver(Check(h)), Step.Deliver(Act)] + rest;
    var tail := [Step.Deliver(Act)] + rest;
    assert steps[1..] == tail && tail[1..] == rest;
    assert CanRun(cfg, ExecSend(s, Check(h)), tail);
  }
}
