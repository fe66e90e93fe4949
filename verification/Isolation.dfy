// A slow or dead client does not affect the others, over whole runs: take any run, let one
// client's connection be gone from the start, and every other connection evolves as before.

module Isolation {
  import opened Common
  import opened Messages
  import opened Registry
  import opened Network
  import opened Requests
  import opened Protocol
  import opened Invariants
  import opened Locking
  import Handlers

  // The same mutex, but for what a size check of the slow connection said.
  predicate SameLock(slow: Handle, a: Mutex, b: Mutex) {
    || a == b
    || (&& a.Held? && b.Held? && a.next.Some? && b.next.Some? && a.next.value.h == slow
        && b == a.(next := Some(Checked(slow, b.next.value.room))))
  }

  // Everything but the connections and where requests ended.
  predicate SharedSame(slow: Handle, s: State, t: State) {
    && t.reg == s.reg && t.ids == s.ids && t.running == s.running && t.io == s.io && t.active == s.active
    && t.requests == s.requests && t.workers == s.workers && t.push == s.push && t.stop == s.stop
    && SameLock(slow, s.lock, t.lock)
  }

  // Every other connection has the same queue, the same past and the same history.
  ghost predicate OthersSame(slow: Handle, s: State, t: State) {
    && t.queues == s.queues - {slow}
    && t.wire.Keys == s.wire.Keys && t.history.Keys == s.history.Keys
    && (forall h :: h in s.wire && h != slow ==> t.wire[h] == s.wire[h])
    && (forall h :: h in s.history && h != slow ==> t.history[h] == s.history[h])
  }

  // Equal but for what concerns the connection `slow`.
  ghost predicate Alike(slow: Handle, s: State, t: State) {
    slow in s.ids && SharedSame(slow, s, t) && OthersSame(slow, s, t)
  }

  // Steps that only the slow connection itself takes.
  predicate Own(slow: Handle, step: Step) {
    step.Net? && step.net.h == slow
  }

  // Only the connections matter to OthersSame.
  lemma SameAside(slow: Handle, s: State, t: State, s': State, t': State)
    requires OthersSame(slow, s, t)
    requires s'.queues == s.queues && s'.wire == s.wire && s'.history == s.history
    requires t'.queues == t.queues && t'.wire == t.wire && t'.history == t.history
    ensures OthersSame(slow, s', t')
  {
  }

  // ----- what happens on connections -----

  lemma TransmittedSame(slow: Handle, s: State, t: State, after: Queues, f: Frame, a: Option<nat>)
    requires OthersSame(slow, s, t)
    ensures OthersSame(slow, Transmitted(s, after, f, a), Transmitted(t, after - {slow}, f, a))
    ensures var s' := Transmitted(s, after, f, a); s' == s.(queues := after, history := s'.history)
  {
    var s', t' := Transmitted(s, after, f, a), Transmitted(t, after - {slow}, f, a);
    forall h | h in s.history && h != slow
      ensures t'.history[h] == s'.history[h]
    {
    }
  }

  // Why a request of the slow connection is lost does not matter.
  lemma LossSame(slow: Handle, s: State, t: State, h: Handle, ticket: nat, why: Outcome, reason: Outcome)
    requires OthersSame(slow, s, t) && (h == slow || why == reason)
    ensures OthersSame(slow, LosesRequest(s, h, ticket, why), LosesRequest(t, h, ticket, reason))
  {
  }

  // What one run queues on the slow connection, the other loses.
  lemma QueuedOrLost(slow: Handle, s: State, t: State, f: Frame, ticket: nat, why: Outcome)
    requires OthersSame(slow, s, t) && slow in s.queues
    ensures var after := s.queues[slow := s.queues[slow] + [f]];
            OthersSame(slow, Transmitted(Settled(s, slow, ticket), after, f, Some(ticket)),
                       LosesRequest(t, slow, ticket, why))
  {
    var after := s.queues[slow := s.queues[slow] + [f]];
    forall h | h in s.queues && h != slow
      ensures after[h] != s.queues[h] + [f]
    {
      assert |after[h]| != |s.queues[h] + [f]|;
    }
    assert after - {slow} == t.queues;
  }

  // A frame is queued on `h`, or the request is lost if `h` is the connection that is gone.
  lemma QueueSame(slow: Handle, s: State, t: State, h: Handle, f: Frame, ticket: nat)
    requires OthersSame(slow, s, t) && h in s.queues && h != slow
    ensures h in t.queues
    ensures OthersSame(slow,
                       Transmitted(Settled(s, h, ticket), s.queues[h := s.queues[h] + [f]], f, Some(ticket)),
                       Transmitted(Settled(t, h, ticket), t.queues[h := t.queues[h] + [f]], f, Some(ticket)))
  {
    var after := s.queues[h := s.queues[h] + [f]];
    assert after - {slow} == t.queues[h := t.queues[h] + [f]];
    TransmittedSame(slow, Settled(s, h, ticket), Settled(t, h, ticket), after, f, Some(ticket));
  }

  // The mutex changes hands alike, or a callback moves on.
  lemma LockAlike(slow: Handle, s: State, t: State, a: Mutex, b: Mutex, push: PushPc)
    requires Alike(slow, s, t) && SameLock(slow, a, b)
    ensures Alike(slow, s.(lock := a, push := push), t.(lock := b, push := push))
  {
    hide OthersSame;
    SameAside(slow, s, t, s.(lock := a, push := push), t.(lock := b, push := push));
  }

  // ----- the IO thread -----

  lemma InlinedAlike(cfg: Config, slow: Handle, s: State, t: State, h: Handle, ticket: nat, m: Message)
    requires Alike(slow, s, t)
    ensures Alike(slow, Inlined(cfg, s, h, ticket, m), Inlined(cfg, t, h, ticket, m))
  {
    hide OthersSame, AnsweredInline;
    var x, y := AnsweredInline(cfg, s, h, ticket, m), AnsweredInline(cfg, t, h, ticket, m);
    AnsweredSame(cfg, slow, s, t, h, ticket, m);
    InlineShares(cfg, s, h, ticket, m);
    InlineShares(cfg, t, h, ticket, m);
    SameAside(slow, x, y, x.(io := Idle), y.(io := Idle));
  }

  lemma AnsweredSame(cfg: Config, slow: Handle, s: State, t: State, h: Handle, ticket: nat, m: Message)
    requires OthersSame(slow, s, t)
    ensures OthersSame(slow, AnsweredInline(cfg, s, h, ticket, m), AnsweredInline(cfg, t, h, ticket, m))
  {
    var f := MakeFrame(cfg.sizeOf, Inline, m);
    assert h in t.queues <==> h in s.queues && h != slow;
    hide OthersSame, Transmitted, LosesRequest, Settled, MakeFrame;
    if h !in s.queues {
      LossSame(slow, s, t, h, ticket, ClientGone, ClientGone);
    } else if h == slow {
      QueuedOrLost(slow, s, t, f, ticket, ClientGone);
    } else {
      QueueSame(slow, s, t, h, f, ticket);
    }
  }

  lemma IoPcAlike(slow: Handle, s: State, t: State, pc: IoPc)
    requires Alike(slow, s, t)
    ensures Alike(slow, s.(io := pc), t.(io := pc))
  {
  }

  lemma UnhandledAlike(slow: Handle, s: State, t: State, h: Handle, ticket: nat)
    requires Alike(slow, s, t)
    ensures Alike(slow, LosesRequest(s, h, ticket, NoProcessor).(io := Idle),
                  LosesRequest(t, h, ticket, NoProcessor).(io := Idle))
  {
    LossSame(slow, s, t, h, ticket, NoProcessor, NoProcessor);
  }

  lemma DispatchAlike(cfg: Config, slow: Handle, s: State, t: State)
    requires Alike(slow, s, t) && s.io.Holding?
    ensures Alike(slow, Dispatching(cfg, s), Dispatching(cfg, t))
  {
    assert t.io == s.io && t.active == s.active;
    hide Alike, Inlined, Triaged, LosesRequest;
    var verdict := Triaged(s.io.payload, s.io.clientId, cfg.hasProcessor, s.active);
    match verdict
    case Admit(request) => IoPcAlike(slow, s, t, Admitted(s.io.h, s.io.ticket, request));
    case Unhandled => UnhandledAlike(slow, s, t, s.io.h, s.io.ticket);
    case _ => InlinedAlike(cfg, slow, s, t, s.io.h, s.io.ticket, verdict.reply);
  }

  lemma OpenAlike(slow: Handle, s: State, t: State, h: Handle, id: string)
    requires Alike(slow, s, t) && h !in s.ids
    ensures Alike(slow, Opening(s, h, id), Opening(t, h, id))
  {
    assert (s.queues - {slow})[h := []] == s.queues[h := []] - {slow};
  }

  lemma IoAlike(cfg: Config, slow: Handle, s: State, t: State, step: IoStep)
    requires Alike(slow, s, t) && IoEnabled(s, step)
    ensures IoEnabled(t, step) && Alike(slow, ExecIo(cfg, s, step), ExecIo(cfg, t, step))
  {
    assert IoEnabled(t, step);
    match step
    case Dispatch => hide Alike, Dispatching; DispatchAlike(cfg, slow, s, t);
    case Open(h, id) => hide Alike, Opening; OpenAlike(slow, s, t, h, id);
    case _ =>
  }

  // ----- request workers -----

  lemma PcAlike(slow: Handle, s: State, t: State, w: nat, pc: WorkerPc)
    requires Alike(slow, s, t) && w in s.workers
    ensures w in t.workers && Alike(slow, WithPc(s, w, pc), WithPc(t, w, pc))
  {
  }

  lemma EndingAlike(slow: Handle, s: State, t: State, w: nat, why: Outcome, reason: Outcome)
    requires Alike(slow, s, t) && w in s.workers && (s.workers[w].origin == slow || why == reason)
    ensures w in t.workers && Alike(slow, Ending(s, w, why), Ending(t, w, reason))
  {
    LossSame(slow, s, t, s.workers[w].origin, s.workers[w].ticket, why, reason);
  }

  lemma ChangeAlike(slow: Handle, s: State, t: State, r: Registry, h: Handle, entry: Entry)
    requires Alike(slow, s, t)
    ensures Alike(slow, Noted(s.(reg := r), h, entry), Noted(t.(reg := r), h, entry))
  {
  }

  lemma SubscribeAlike(slow: Handle, s: State, t: State, w: nat)
    requires Alike(slow, s, t) && w in s.workers
    ensures w in t.workers && Alike(slow, Subscribing(s, w), Subscribing(t, w))
  {
    hide SubscriptionHandled, Subscribing, Ending, Noted;
    assert w in t.workers && t.workers[w] == s.workers[w] && t.reg == s.reg;
    SubscribingParts(s, w);
    SubscribingParts(t, w);
    match SubscriptionHandled(s.reg, Parsed(s.workers[w].request))
    case NoAnswer => hide Alike; EndingAlike(slow, s, t, w, Silent, Silent);
    case Answer(r, reply, change) =>
      var pc := Routing(reply, OrEmpty(StrField(s.workers[w].request, CLIENT_ID)));
      PcAlike(slow, s, t, w, pc);
      if change.Some? {
        hide Alike, WithPc;
        var entry := Changed(change.value.op, change.value.listed, s.workers[w].ticket);
        ChangeAlike(slow, WithPc(s, w, pc), WithPc(t, w, pc), r, change.value.h, entry);
      } else {
        hide WithPc;
        SameAside(slow, WithPc(s, w, pc), WithPc(t, w, pc), WithPc(s, w, pc).(reg := r), WithPc(t, w, pc).(reg := r));
      }
  }

  lemma HandleAlike(slow: Handle, s: State, t: State, w: nat, sdk: Handlers.Sdk)
    requires Alike(slow, s, t) && w in s.workers
    ensures w in t.workers && Alike(slow, Handling(s, w, sdk), Handling(t, w, sdk))
  {
    assert w in t.workers && t.workers[w] == s.workers[w];
    hide Alike, Ending, WithPc, Handlers.Answered;
    var reply := Handlers.Answered(sdk, Parsed(s.workers[w].request));
    if reply.None? {
      EndingAlike(slow, s, t, w, Silent, Silent);
    } else {
      PcAlike(slow, s, t, w, Routing(reply.value, OrEmpty(StrField(s.workers[w].request, CLIENT_ID))));
    }
  }

  lemma RouteAlike(cfg: Config, slow: Handle, s: State, t: State, w: nat)
    requires Alike(slow, s, t) && w in s.workers && s.workers[w].pc.Routing? && s.lock.Free?
    ensures w in t.workers && t.workers[w].pc.Routing? && t.lock.Free?
    ensures Alike(slow, RoutingReply(cfg, s, w), RoutingReply(cfg, t, w))
  {
    assert t.workers == s.workers && t.reg == s.reg && t.lock == s.lock && t.push == s.push;
    EndingShares(s, w, ToEverybody);
    EndingAlike(slow, s, t, w, ToEverybody, ToEverybody);
    EndingAlike(slow, s, t, w, ClientGone, ClientGone);
    var a := RoutingReply(cfg, s, w).lock;
    EndingFields(s, w, ToEverybody);
    EndingFields(t, w, ToEverybody);
    hide Alike, Ending, ReplyFrame;
    if s.workers[w].pc.clientId == "" {
      LockAlike(slow, Ending(s, w, ToEverybody), Ending(t, w, ToEverybody), a, a, s.push);
    } else if s.workers[w].pc.clientId in s.reg.idToHdl {
      LockAlike(slow, s, t, a, a, s.push);
    }
  }

  lemma EndingFields(s: State, w: nat, why: Outcome)
    requires w in s.workers
    ensures var s' := Ending(s, w, why);
            s' == WithPc(s, w, Leaving).(history := s'.history, settledAt := s'.settledAt)
  {
  }

  lemma RaiseAlike(slow: Handle, s: State, t: State, w: nat)
    requires Alike(slow, s, t) && w in s.workers
    ensures w in t.workers && Alike(slow, Raising(s, w), Raising(t, w))
  {
    assert Holds(s.lock, w) <==> Holds(t.lock, w);
    var x := if Holds(s.lock, w) then s.(lock := Free) else s;
    var y := if Holds(t.lock, w) then t.(lock := Free) else t;
    assert Alike(slow, x, y);
    hide Alike, Ending;
    EndingAlike(slow, x, y, w, Raised, Raised);
  }

  lemma LeaveAlike(slow: Handle, s: State, t: State, w: nat)
    requires Alike(slow, s, t) && w in s.workers && s.workers[w].pc.Leaving? && s.active > 0
    ensures w in t.workers && t.workers[w].pc.Leaving? && t.active > 0 && Alike(slow, Exiting(s, w), Exiting(t, w))
  {
  }

  lemma WorkAlike(cfg: Config, slow: Handle, s: State, t: State, w: nat, step: WorkStep)
    requires Alike(slow, s, t) && WorkEnabled(s, w, step)
    ensures WorkEnabled(t, w, step) && Alike(slow, ExecWork(cfg, s, w, step), ExecWork(cfg, t, w, step))
  {
    assert t.workers == s.workers && t.active == s.active && (s.lock.Free? ==> t.lock.Free?);
    assert Holds(s.lock, w) <==> Holds(t.lock, w);
    hide Alike, Subscribing, Handling, Raising, RoutingReply, Exiting, IsSubscription, Holds;
    match step
    case ManageSubscription => SubscribeAlike(slow, s, t, w);
    case Handle(sdk) => HandleAlike(slow, s, t, w, sdk);
    case Raise => RaiseAlike(slow, s, t, w);
    case Route => RouteAlike(cfg, slow, s, t, w);
    case Leave => LeaveAlike(slow, s, t, w);
  }

  // ----- pushes and sends -----

  lemma PushAlike(cfg: Config, slow: Handle, s: State, t: State, step: PushStep)
    requires Alike(slow, s, t) && PushEnabled(s, step)
    ensures PushEnabled(t, step) && Alike(slow, ExecPush(cfg, s, step), ExecPush(cfg, t, step))
  {
    hide OthersSame, HasSubscribers, Listeners, PushFrame;
    assert t.reg == s.reg && t.push == s.push && SameLock(slow, s.lock, t.lock);
    hide Alike;
    match step
    case Gate(e) => if HasSubscribers(s.reg, e) { LockAlike(slow, s, t, s.lock, t.lock, Passed(e)); }
    case Send(data) =>
      var lock := ExecPush(cfg, s, step).lock;
      LockAlike(slow, s, t, lock, lock, Sending);
    case Abandon => LockAlike(slow, s, t, s.lock, t.lock, Quiet);
  }

  lemma FullElsewhere(slow: Handle, qs: Queues, h: Handle, size: nat)
    ensures h != slow ==> (IsFull(qs - {slow}, h, size) <==> IsFull(qs, h, size))
  {
    hide Bytes;
  }

  lemma CheckAlike(slow: Handle, s: State, t: State, h: Handle)
    requires Alike(slow, s, t) && SendEnabled(s, Check(h))
    ensures SendEnabled(t, Check(h)) && Alike(slow, ExecSend(s, Check(h)), ExecSend(t, Check(h)))
  {
    assert t.lock == s.lock && t.push == s.push && t.queues == s.queues - {slow};
    hide Alike, IsFull;
    FullElsewhere(slow, s.queues, h, s.lock.f.size);
    LockAlike(slow, s, t, ExecSend(s, Check(h)).lock, ExecSend(t, Check(h)).lock, s.push);
  }

  lemma SentSame(slow: Handle, qs: Queues, h: Handle, f: Frame)
    ensures Sent(qs - {slow}, h, f) == Sent(qs, h, f) - {slow}
  {
  }

  // One client of the push loop; on the slow one the runs may differ.
  lemma PushOneAlike(slow: Handle, s: State, t: State, h: Handle, f: Frame, room: bool, found: bool)
    requires Alike(slow, s, t) && (h == slow || room == found)
    ensures Alike(slow, if room then Transmitted(s, Sent(s.queues, h, f), f, None) else s,
                  if found then Transmitted(t, Sent(t.queues, h, f), f, None) else t)
  {
    SentSame(slow, s.queues, h, f);
    TransmittedSame(slow, s, t, Sent(s.queues, h, f), f, None);
    if h == slow {
      assert Sent(t.queues, h, f) == t.queues && Sent(s.queues, h, f) - {slow} == t.queues;
      NothingTransmitted(t, f, None);
    }
    hide Transmitted, Sent;
  }

  // A worker queues its reply in both runs, or in one of them if its own client is the slow one.
  lemma AnswerAlike(slow: Handle, s: State, t: State, w: nat, f: Frame, reason: Outcome)
    requires Alike(slow, s, t) && w in s.workers && s.workers[w].origin in s.queues
    ensures w in t.workers
    ensures s.workers[w].origin != slow ==>
              && s.workers[w].origin in t.queues
              && Alike(slow, Answering(s, w, s.workers[w].origin, f), Answering(t, w, s.workers[w].origin, f))
    ensures s.workers[w].origin == slow ==> Alike(slow, Answering(s, w, slow, f), Ending(t, w, reason))
  {
    hide OthersSame, Answering, Ending;
    var worker := s.workers[w];
    var h := worker.origin;
    assert t.workers == s.workers;
    AnswerShares(s, w, h, f);
    if h != slow {
      QueueSame(slow, s, t, h, f, worker.ticket);
      AnswerShares(t, w, h, f);
      AnsweredOthers(slow, s, t, w, f);
    } else {
      QueuedOrLost(slow, s, t, f, worker.ticket, reason);
      LostOthers(slow, s, t, w, f, reason);
      EndingShares(t, w, reason);
      EndingFields(t, w, reason);
    }
  }

  lemma AnsweredOthers(slow: Handle, s: State, t: State, w: nat, f: Frame)
    requires w in s.workers && t.workers == s.workers
    requires s.workers[w].origin in s.queues && s.workers[w].origin in t.queues
    requires var h, ticket := s.workers[w].origin, s.workers[w].ticket;
             OthersSame(slow,
                        Transmitted(Settled(s, h, ticket), s.queues[h := s.queues[h] + [f]], f, Some(ticket)),
                        Transmitted(Settled(t, h, ticket), t.queues[h := t.queues[h] + [f]], f, Some(ticket)))
    ensures OthersSame(slow, Answering(s, w, s.workers[w].origin, f), Answering(t, w, s.workers[w].origin, f))
  {
    hide OthersSame, Transmitted, Settled;
    var h, ticket := s.workers[w].origin, s.workers[w].ticket;
    SameAside(slow,
              Transmitted(Settled(s, h, ticket), s.queues[h := s.queues[h] + [f]], f, Some(ticket)),
              Transmitted(Settled(t, h, ticket), t.queues[h := t.queues[h] + [f]], f, Some(ticket)),
              Answering(s, w, h, f), Answering(t, w, h, f));
  }

  lemma LostOthers(slow: Handle, s: State, t: State, w: nat, f: Frame, reason: Outcome)
    requires w in s.workers && t.workers == s.workers && s.workers[w].origin == slow && slow in s.queues
    requires var ticket := s.workers[w].ticket;
             OthersSame(slow,
                        Transmitted(Settled(s, slow, ticket), s.queues[slow := s.queues[slow] + [f]], f, Some(ticket)),
                        LosesRequest(t, slow, ticket, reason))
    ensures OthersSame(slow, Answering(s, w, slow, f), Ending(t, w, reason))
  {
    hide OthersSame, Transmitted, Settled, LosesRequest;
    var ticket := s.workers[w].ticket;
    SameAside(slow,
              Transmitted(Settled(s, slow, ticket), s.queues[slow := s.queues[slow] + [f]], f, Some(ticket)),
              LosesRequest(t, slow, ticket, reason), Answering(s, w, slow, f), Ending(t, w, reason));
  }

  lemma ActAlike(slow: Handle, s: State, t: State)
    requires Orderly(s) && Alike(slow, s, t) && s.lock.Held? && s.lock.next.Some?
    ensures t.lock.Held? && t.lock.next.Some? && Alike(slow, Acting(s), Acting(t))
  {
    var c, d, f := s.lock.next.value, t.lock.next.value, s.lock.f;
    assert d.h == c.h && t.lock.f == f && t.lock.owner == s.lock.owner && (c.h != slow ==> d == c);
    assert t.workers == s.workers && t.queues == s.queues - {slow};
    assert Targeted(s.lock, c.h);
    match s.lock.owner
    case Callback =>
      hide Orderly, Alike;
      PushOneAlike(slow, s, t, c.h, f, c.room, d.room);
    case Replier(w) =>
      assert c.h == s.workers[w].origin && w in s.workers;
      hide Orderly, Alike, Answering, Ending;
      var why := if c.room then ClientGone else Dropped;
      var reason := if d.room then ClientGone else Dropped;
      if c.room && c.h in s.queues {
        AnswerAlike(slow, s, t, w, f, reason);
      } else {
        EndingAlike(slow, s, t, w, why, reason);
      }
  }

  lemma SendAlike(slow: Handle, s: State, t: State, step: SendStep)
    requires Orderly(s) && Alike(slow, s, t) && SendEnabled(s, step)
    ensures SendEnabled(t, step) && Alike(slow, ExecSend(s, step), ExecSend(t, step))
  {
    assert t.push == s.push && SameLock(slow, s.lock, t.lock);
    match step
    case Check(h) => hide Orderly, Alike; CheckAlike(slow, s, t, h);
    case Act =>
      ActAlike(slow, s, t);
      assert Acting(t).push == Acting(s).push;
      hide Orderly, Alike, Acting;
      LockAlike(slow, Acting(s), Acting(t), ExecSend(s, step).lock, ExecSend(t, step).lock, Acting(s).push);
    case Release =>
      hide Orderly, Alike;
      LockAlike(slow, s, t, Free, Free, ExecSend(s, step).push);
  }

  // ----- connections and stopping -----

  lemma NetAlike(slow: Handle, s: State, t: State, step: NetStep)
    requires Alike(slow, s, t) && NetEnabled(s, step)
    ensures step.h == slow ==> Alike(slow, ExecNet(s, step), t)
    ensures step.h != slow ==> NetEnabled(t, step) && Alike(slow, ExecNet(s, step), ExecNet(t, step))
  {
    if step.h == slow {
      assert ExecNet(s, step).queues - {slow} == s.queues - {slow};
    } else {
      assert ExecNet(s, step).queues - {slow} == ExecNet(t, step).queues;
    }
  }

  lemma StopAlike(slow: Handle, s: State, t: State, step: StopStep)
    requires Alike(slow, s, t) && StopEnabled(s, step)
    ensures StopEnabled(t, step) && Alike(slow, ExecStop(s, step), ExecStop(t, step))
  {
    assert ExecStop(s, step).queues - {slow} == ExecStop(t, step).queues;
  }

  lemma StepAlike(cfg: Config, slow: Handle, s: State, t: State, step: Step)
    requires Orderly(s) && Alike(slow, s, t) && Enabled(s, step)
    ensures Own(slow, step) ==> Alike(slow, Exec(cfg, s, step), t)
    ensures !Own(slow, step) ==> Enabled(t, step) && Alike(slow, Exec(cfg, s, step), Exec(cfg, t, step))
  {
    hide Orderly, Alike, ExecIo, ExecWork, ExecPush, ExecSend, ExecNet, ExecStop;
    hide IoEnabled, WorkEnabled, PushEnabled, SendEnabled, StopEnabled;
    match step
    case Io(io) => IoAlike(cfg, slow, s, t, io);
    case Work(w, work) => WorkAlike(cfg, slow, s, t, w, work);
    case Main(push) => PushAlike(cfg, slow, s, t, push);
    case Deliver(send) => SendAlike(slow, s, t, send);
    case Net(net) => NetAlike(slow, s, t, net);
    case Stop(stop) => StopAlike(slow, s, t, stop);
  }

  // ----- whole runs -----

  function Without(slow: Handle, steps: seq<Step>): seq<Step> {
    if steps == [] then []
    else (if Own(slow, steps[0]) then [] else [steps[0]]) + Without(slow, steps[1..])
  }

  lemma {:induction false} RunAlike(cfg: Config, slow: Handle, s: State, t: State, steps: seq<Step>)
    requires Inv(s) && Orderly(s) && Alike(slow, s, t) && CanRun(cfg, s, steps)
    ensures CanRun(cfg, t, Without(slow, steps))
    ensures Alike(slow, After(cfg, s, steps), After(cfg, t, Without(slow, steps)))
    decreases |steps|
  {
    hide Inv, Orderly, Alike, Exec, Enabled, Own;
    if steps == [] {
    } else {
      var rest := Without(slow, steps[1..]);
      StepAlike(cfg, slow, s, t, steps[0]);
      InvStep(cfg, s, steps[0]);
      OrderlyStep(cfg, s, steps[0]);
      if Own(slow, steps[0]) {
        RunAlike(cfg, slow, Exec(cfg, s, steps[0]), t, steps[1..]);
        assert Without(slow, steps) == rest;
      } else {
        RunAlike(cfg, slow, Exec(cfg, s, steps[0]), Exec(cfg, t, steps[0]), steps[1..]);
        assert Without(slow, steps) == [steps[0]] + rest;
        assert Without(slow, steps)[0] == steps[0] && Without(slow, steps)[1..] == rest;
      }
    }
  }

  // From any reachable state, the same run with the slow client's connection gone from the start
  // is possible, and leaves every other connection with the same queue, the same frames sent and
  // the same history.
  lemma SlowClientIsInvisible(cfg: Config, slow: Handle, s: State, steps: seq<Step>)
    requires Reachable(cfg, s) && slow in s.ids && CanRun(cfg, s, steps)
    ensures var t := s.(queues := s.queues - {slow});
            && CanRun(cfg, t, Without(slow, steps))
            && var s', t' := After(cfg, s, steps), After(cfg, t, Without(slow, steps));
            && t'.queues == s'.queues - {slow} && t'.reg == s'.reg
            && (forall h :: h in s'.history && h != slow ==> h in t'.history && t'.history[h] == s'.history[h])
            && (forall h :: h in s'.wire && h != slow ==> h in t'.wire && t'.wire[h] == s'.wire[h])
  {
    hide Inv, Orderly, Exec, Enabled;
    var t := s.(queues := s.queues - {slow});
    assert Alike(slow, s, t);
    InvReachable(cfg, s);
    RunAlike(cfg, slow, s, t, steps);
  }
}
