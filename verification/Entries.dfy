// What a step writes down: at most one entry per connection, and each kind of entry only by the
// step it stands for.

module Entries {
  import opened Common
  import opened Messages
  import opened Registry
  import opened Network
  import opened Requests
  import opened Protocol
  import opened Invariants
  import opened Locking
  import opened Accounts
  import opened Runs
  import Handlers

  // The holder of the mutex sends to `h`, or does not, as its check said.
  predicate ActsOn(s: State, step: Step, h: Handle) {
    step == Step.Deliver(Act) && s.lock.Held? && s.lock.next.Some? && s.lock.next.value.h == h
  }

  // The mutex is held to send the reply to request `k`.
  predicate RepliesTo(s: State, k: nat) {
    && s.lock.Held? && s.lock.owner.Replier? && s.lock.owner.w in s.workers
    && var worker := s.workers[s.lock.owner.w];
    && worker.ticket == k && worker.pc.Routing? && s.lock.f.msg == worker.pc.reply
  }

  // Worker `w` begins with its request by asking the subscription manager, which makes a change.
  predicate MakesChange(s: State, w: nat) {
    && w in s.workers && s.workers[w].pc.Ready?
    && var a := SubscriptionHandled(s.reg, Parsed(s.workers[w].request));
    && a.Answer? && a.change.Some?
  }

  // The IO thread answers `k`, a request it has just received.
  predicate Triages(s: State, step: Step, k: nat) {
    step == Step.Io(Dispatch) && s.io.Holding? && s.io.ticket == k
  }

  predicate Raises(s: State, step: Step, k: nat) {
    step.Work? && step.work.Raise? && step.w in s.workers && s.workers[step.w].ticket == k
  }

  predicate LossExplained(cfg: Config, s: State, step: Step, h: Handle, k: nat, why: Outcome) {
    match why
    case ClientGone => h !in s.queues || h !in s.reg.sessions
    case Dropped => ActsOn(s, step, h) && RepliesTo(s, k) && !s.lock.next.value.room
    case Raised => Raises(s, step, k)
    case NoProcessor => Triages(s, step, k) && !cfg.hasProcessor && IsRequest(s.io.payload)
    case _ => false
  }

  // `step`, taken in `s`, is what adds entry `e` to the history of `h`.
  predicate Explains(cfg: Config, s: State, step: Step, h: Handle, e: Entry) {
    match e
    case Changed(_, _, maker) =>
      step.Work? && step.work.ManageSubscription? && MakesChange(s, step.w) && s.workers[step.w].ticket == maker
    case Lost(k, why) => LossExplained(cfg, s, step, h, k, why)
    case Enqueued(f, answers) =>
      if answers.Some? && f.cause.Inline? then
        && Triages(s, step, answers.value) && s.io.h == h && h in s.queues && (f.msg.Error? || f.msg.Pong?)
        && AnsweredByItself(s.io.payload, cfg.hasProcessor, s.active, f.msg)
      else
        && ActsOn(s, step, h) && s.lock.next.value.room && h in s.queues && f == s.lock.f
        && (if answers.Some? then RepliesTo(s, answers.value) else s.lock.owner.Callback?)
  }

  ghost predicate Adds(cfg: Config, s: State, step: Step, h: Handle, after: seq<Entry>)
    requires h in s.history
  {
    after == s.history[h] || exists e :: Explains(cfg, s, step, h, e) && after == s.history[h] + [e]
  }

  ghost predicate WrittenBy(cfg: Config, s: State, step: Step, history: map<Handle, seq<Entry>>) {
    && (forall h :: h in s.history ==> h in history)
    && forall h :: h in history ==> if h in s.history then Adds(cfg, s, step, h, history[h]) else history[h] == []
  }

  lemma Unwritten(cfg: Config, s: State, step: Step)
    ensures WrittenBy(cfg, s, step, s.history)
  {
    hide Explains;
  }

  lemma Written(cfg: Config, s: State, step: Step, h: Handle, e: Entry)
    requires h in s.history && Explains(cfg, s, step, h, e)
    ensures WrittenBy(cfg, s, step, s.history[h := s.history[h] + [e]])
  {
    hide Explains;
  }

  // ----- the IO thread -----

  lemma InlinedWritten(cfg: Config, s: State, m: Message)
    requires s.io.Holding? && s.io.h in s.history && (m.Error? || m.Pong?)
    requires AnsweredByItself(s.io.payload, cfg.hasProcessor, s.active, m)
    ensures WrittenBy(cfg, s, Step.Io(Dispatch), Inlined(cfg, s, s.io.h, s.io.ticket, m).history)
  {
    hide WrittenBy, Inlined, RepliesTo, AnsweredByItself;
    var h, ticket := s.io.h, s.io.ticket;
    InlineEffect(cfg, s, h, ticket, m);
    Written(cfg, s, Step.Io(Dispatch), h, InlineEntry(cfg, s, h, ticket, m));
  }

  lemma DispatchWritten(cfg: Config, s: State)
    requires Inv(s) && s.io.Holding?
    ensures WrittenBy(cfg, s, Step.Io(Dispatch), Dispatching(cfg, s).history)
  {
    hide Inv, WrittenBy, Triaged, Inlined, LosesRequest, Fits, Derived, WellFormed, MakesChange, RepliesTo,
         AnsweredByItself, IsRequest;
    HoldingFacts(s);
    TriageExactly(s.io.payload, s.io.clientId, cfg.hasProcessor, s.active);
    AdmittedNamesItsClient(s.io.payload, s.io.clientId, cfg.hasProcessor, s.active);
    match Triaged(s.io.payload, s.io.clientId, cfg.hasProcessor, s.active)
    case Reject(m) => InlinedWritten(cfg, s, m);
    case Heartbeat(m) => InlinedWritten(cfg, s, m);
    case Overloaded(m) => InlinedWritten(cfg, s, m);
    case Unhandled =>
      LossEffect(s, s.io.h, s.io.ticket, NoProcessor);
      Written(cfg, s, Step.Io(Dispatch), s.io.h, Lost(s.io.ticket, NoProcessor));
    case Admit(request) => Unwritten(cfg, s, Step.Io(Dispatch));
  }

  lemma OpenWritten(cfg: Config, s: State, h: Handle, id: string)
    requires h !in s.history
    ensures WrittenBy(cfg, s, Step.Io(Open(h, id)), Opening(s, h, id).history)
  {
    hide Explains;
  }

  lemma IoWritten(cfg: Config, s: State, step: IoStep)
    requires Inv(s) && IoEnabled(s, step)
    ensures WrittenBy(cfg, s, Step.Io(step), ExecIo(cfg, s, step).history)
  {
    hide Inv, WrittenBy, Opening, Dispatching, Closed;
    match step
    case Open(h, id) => FreshHandle(s, h, id); OpenWritten(cfg, s, h, id);
    case Dispatch => DispatchWritten(cfg, s);
    case _ => Unwritten(cfg, s, Step.Io(step));
  }

  // ----- request workers -----

  lemma SubscribeWritten(cfg: Config, s: State, w: nat)
    requires Inv(s) && w in s.workers && s.workers[w].pc.Ready?
    ensures WrittenBy(cfg, s, Step.Work(w, ManageSubscription), Subscribing(s, w).history)
  {
    hide Inv, WrittenBy, SubscriptionHandled, Subscribing, Ending, StrField;
    NeverSilent(s, w);
    SubscribingParts(s, w);
    var a, step := SubscriptionHandled(s.reg, Parsed(s.workers[w].request)), Step.Work(w, ManageSubscription);
    Unwritten(cfg, s, step);
    if a.change.Some? && a.change.value.h in s.history {
      var c := a.change.value;
      Written(cfg, s, step, c.h, Changed(c.op, c.listed, s.workers[w].ticket));
    }
  }

  lemma EndingWritten(cfg: Config, s: State, w: nat, why: Outcome, step: Step, mid: State)
    requires w in s.workers && s.workers[w].origin in s.history && mid == s.(lock := mid.lock)
    requires LossExplained(cfg, s, step, s.workers[w].origin, s.workers[w].ticket, why)
    ensures WrittenBy(cfg, s, step, Ending(mid, w, why).history)
  {
    hide WrittenBy, LossExplained, LosesRequest;
    var worker := s.workers[w];
    LossEffect(mid, worker.origin, worker.ticket, why);
    Written(cfg, s, step, worker.origin, Lost(worker.ticket, why));
  }

  lemma RouteWritten(cfg: Config, s: State, w: nat)
    requires Inv(s) && w in s.workers && s.workers[w].pc.Routing?
    ensures WrittenBy(cfg, s, Step.Work(w, Route), RoutingReply(cfg, s, w).history)
  {
    hide Inv, WrittenBy, Ending, ReplyFrame;
    WorkerFacts(s, w);
    GoneFromTables(s, w);
    Unwritten(cfg, s, Step.Work(w, Route));
    if s.workers[w].pc.clientId !in s.reg.idToHdl { EndingWritten(cfg, s, w, ClientGone, Step.Work(w, Route), s); }
  }

  // A reply whose client id leads nowhere belongs to a connection without a session.
  lemma GoneFromTables(s: State, w: nat)
    requires Inv(s) && w in s.workers && s.workers[w].pc.Routing?
    ensures s.workers[w].pc.clientId !in s.reg.idToHdl ==> s.workers[w].origin !in s.reg.sessions
  {
    hide Histories, Streams;
    assert WorkerInHand(s, s.workers[w]);
    IdLeadsHome(s, s.workers[w].origin);
    hide Identities, RequestsInHand, Fits, WellFormed, Derived;
  }

  lemma WorkWritten(cfg: Config, s: State, w: nat, step: WorkStep)
    requires Inv(s) && WorkEnabled(s, w, step)
    ensures WrittenBy(cfg, s, Step.Work(w, step), ExecWork(cfg, s, w, step).history)
  {
    hide Inv, WrittenBy, Subscribing, RoutingReply, Ending, Handlers.Answered, IsSubscription, Holds, MakesChange;
    match step
    case ManageSubscription => SubscribeWritten(cfg, s, w);
    case Handle(sdk) =>
      NeverSilent(s, w);
      Handlers.EveryReplyIsCoherent(sdk, Parsed(s.workers[w].request));
      Unwritten(cfg, s, Step.Work(w, step));
    case Raise =>
      WorkerFacts(s, w);
      EndingWritten(cfg, s, w, Raised, Step.Work(w, step), if Holds(s.lock, w) then s.(lock := Free) else s);
    case Route => RouteWritten(cfg, s, w);
    case Leave => Unwritten(cfg, s, Step.Work(w, step));
  }

  // ----- sends under the mutex -----

  // One client of the push loop.
  lemma PushOneWritten(cfg: Config, s: State)
    requires s.lock.Held? && s.lock.owner.Callback? && s.lock.next.Some? && s.lock.f.cause.PushOf?
    requires s.queues.Keys <= s.history.Keys
    ensures WrittenBy(cfg, s, Step.Deliver(Act), Acting(s).history)
  {
    hide WrittenBy, RepliesTo;
    var c, f, step := s.lock.next.value, s.lock.f, Step.Deliver(Act);
    Unwritten(cfg, s, step);
    if c.room && c.h in s.queues {
      QueueEffect(s, c.h, f, None);
      Written(cfg, s, step, c.h, Enqueued(f, None));
    } else if c.room {
      NothingTransmitted(s, f, None);
    }
    hide Transmitted;
  }

  lemma ReplyWritten(cfg: Config, s: State, w: nat)
    requires s.lock.Held? && s.lock.owner == Replier(w) && s.lock.next.Some? && w in s.workers
    requires var worker := s.workers[w];
             && worker.origin == s.lock.next.value.h && worker.origin in s.history && RepliesTo(s, worker.ticket)
    requires s.lock.f.cause.ReplyTo?
    ensures WrittenBy(cfg, s, Step.Deliver(Act), Acting(s).history)
  {
    hide WrittenBy, Ending, RepliesTo;
    var c, f, step, worker := s.lock.next.value, s.lock.f, Step.Deliver(Act), s.workers[w];
    if !c.room {
      EndingWritten(cfg, s, w, Dropped, step, s);
    } else if c.h !in s.queues {
      EndingWritten(cfg, s, w, ClientGone, step, s);
    } else {
      QueueEffect(Settled(s, worker.origin, worker.ticket), c.h, f, Some(worker.ticket));
      Written(cfg, s, step, c.h, Enqueued(f, Some(worker.ticket)));
    }
    hide Transmitted;
  }

  lemma ActWritten(cfg: Config, s: State)
    requires Inv(s) && Orderly(s) && s.lock.Held? && s.lock.next.Some?
    ensures WrittenBy(cfg, s, Step.Deliver(Act), Acting(s).history)
  {
    assert Targeted(s.lock, s.lock.next.value.h);
    KnownConnections(s);
    match s.lock.owner
    case Callback => hide Inv, Reserved, WrittenBy, Acting, Listens; PushOneWritten(cfg, s);
    case Replier(w) =>
      hide WrittenBy, Acting, Listens, Reserved;
      WorkerFacts(s, w);
      hide Inv;
      ReplyWritten(cfg, s, w);
  }

  lemma KnownConnections(s: State)
    requires Inv(s)
    ensures s.queues.Keys <= s.history.Keys
  {
    hide Consistent, RequestsInHand, WorkersCounted, StopOrdered, Histories, Streams;
  }

  lemma SendWritten(cfg: Config, s: State, step: SendStep)
    requires Inv(s) && Orderly(s) && SendEnabled(s, step)
    ensures WrittenBy(cfg, s, Step.Deliver(step), ExecSend(s, step).history)
  {
    hide Inv, Orderly, WrittenBy, Acting, IsFull;
    if step.Act? { ActWritten(cfg, s); } else { Unwritten(cfg, s, Step.Deliver(step)); }
  }

  // ----- all steps -----

  lemma StepWrites(cfg: Config, s: State, step: Step)
    requires Inv(s) && Orderly(s) && Enabled(s, step)
    ensures WrittenBy(cfg, s, step, Exec(cfg, s, step).history)
  {
    hide Inv, Orderly, WrittenBy, ExecIo, ExecWork, ExecPush, ExecSend, ExecNet, ExecStop;
    hide IoEnabled, WorkEnabled, PushEnabled, SendEnabled, NetEnabled, StopEnabled;
    Unwritten(cfg, s, step);
    match step
    case Io(io) => IoWritten(cfg, s, io);
    case Work(w, work) => WorkWritten(cfg, s, w, work);
    case Main(push) => PushShares(cfg, s, push);
    case Deliver(send) => SendWritten(cfg, s, send);
    case Net(net) => NetShares(s, net);
    case Stop(stop) => StopShares(s, stop);
  }

  // ----- how workers go on -----

  predicate ListsEvents(m: Message) { m.Response? && m.events.Some? }

  // A request nobody has begun with was so before, or its worker has just been started; a reply on its
  // way was so before, or is the answer its worker has just got.
  ghost predicate GoesOn(s: State, s': State, step: Step) {
    forall w :: w in s'.workers ==>
      && (s'.workers[w].pc.Ready? ==>
            || (w in s.workers && s'.workers[w] == s.workers[w] && !(step.Work? && step.w == w))
            || (step == Step.Io(Spawn(w)) && s.io.Counted? && s'.workers[w] == Started(s)))
      && (s'.workers[w].pc.Routing? ==>
            && w in s.workers && s'.workers[w].ticket == s.workers[w].ticket
            && (s'.workers[w] == s.workers[w]
                || (&& step.Work? && step.w == w && s.workers[w].pc.Ready?
                    && (step.work.ManageSubscription? && MakesChange(s, w) ==> ListsEvents(s'.workers[w].pc.reply)))))
  }

  lemma DispatchesNone(cfg: Config, s: State)
    requires s.io.Holding?
    ensures Dispatching(cfg, s).workers == s.workers
  {
    hide Triaged, AnsweredInline, LosesRequest;
    match Triaged(s.io.payload, s.io.clientId, cfg.hasProcessor, s.active)
    case Reject(m) => InlineShares(cfg, s, s.io.h, s.io.ticket, m);
    case Heartbeat(m) => InlineShares(cfg, s, s.io.h, s.io.ticket, m);
    case Overloaded(m) => InlineShares(cfg, s, s.io.h, s.io.ticket, m);
    case Unhandled => NotedOnly(s, s.io.h, s.io.ticket, NoProcessor);
    case Admit(_) =>
  }

  lemma IoGoesOn(cfg: Config, s: State, step: IoStep)
    requires IoEnabled(s, step)
    ensures GoesOn(s, ExecIo(cfg, s, step), Step.Io(step))
  {
    hide Dispatching, Closed, MakesChange, ListsEvents;
    if step.Dispatch? { DispatchesNone(cfg, s); }
  }

  // Worker `w` gets its answer, or is done.
  lemma WorkerGoesOn(s: State, s': State, w: nat, work: WorkStep)
    requires w in s.workers && w in s'.workers && s'.workers == s.workers[w := s.workers[w].(pc := s'.workers[w].pc)]
    requires !s'.workers[w].pc.Ready? && (s'.workers[w].pc.Routing? ==> s.workers[w].pc.Ready?)
    requires s'.workers[w].pc.Routing? && work.ManageSubscription? && MakesChange(s, w) ==>
               ListsEvents(s'.workers[w].pc.reply)
    ensures GoesOn(s, s', Step.Work(w, work))
  {
    hide MakesChange, ListsEvents;
  }

  lemma SubscribeGoesOn(s: State, w: nat)
    requires Inv(s) && w in s.workers && s.workers[w].pc.Ready?
    ensures GoesOn(s, Subscribing(s, w), Step.Work(w, ManageSubscription))
  {
    hide Inv, SubscriptionHandled, Subscribing, Ending, StrField, Identities, WellFormed, StandsFor;
    hide Applied, OpAsked, RequestedEvents, Resubscribed, GoesOn;
    InHandFacts(s, w);
    SubscriptionAnswerFacts(s, s.workers[w].origin, s.workers[w].request);
    SubscribingParts(s, w);
    WorkerGoesOn(s, Subscribing(s, w), w, ManageSubscription);
  }

  lemma EndingGoesOn(s: State, s': State, w: nat, why: Outcome, work: WorkStep)
    requires w in s.workers && s'.workers == s.workers
    ensures GoesOn(s, Ending(s', w, why), Step.Work(w, work))
  {
    hide Ending, MakesChange, ListsEvents, GoesOn;
    EndingShares(s', w, why);
    WorkerGoesOn(s, Ending(s', w, why), w, work);
  }

  lemma AnswerGoesOn(s: State, w: nat, sdk: Handlers.Sdk)
    requires w in s.workers && s.workers[w].pc.Ready?
    ensures Handlers.Answered(sdk, Parsed(s.workers[w].request)).Some? ==>
              GoesOn(s, Handling(s, w, sdk), Step.Work(w, Handle(sdk)))
  {
    hide Handlers.Answered, Ending, MakesChange, ListsEvents, GoesOn, StrField;
    var reply := Handlers.Answered(sdk, Parsed(s.workers[w].request));
    if reply.Some? { WorkerGoesOn(s, Handling(s, w, sdk), w, Handle(sdk)); }
  }

  lemma WorkGoesOn(cfg: Config, s: State, w: nat, step: WorkStep)
    requires Inv(s) && WorkEnabled(s, w, step)
    ensures GoesOn(s, ExecWork(cfg, s, w, step), Step.Work(w, step))
  {
    hide Inv, Subscribing, IsSubscription, Handlers.Answered, Ending, ReplyFrame, Handshaken, StrField, Holds;
    hide MakesChange, ListsEvents, GoesOn;
    match step
    case ManageSubscription => SubscribeGoesOn(s, w);
    case Handle(sdk) =>
      EndingGoesOn(s, s, w, Silent, step);
      AnswerGoesOn(s, w, sdk);
    case Raise => EndingGoesOn(s, if Holds(s.lock, w) then s.(lock := Free) else s, w, Raised, step);
    case Route => RouteGoesOn(cfg, s, w);
    case Leave => LeaveGoesOn(s, w);
  }

  lemma RouteGoesOn(cfg: Config, s: State, w: nat)
    requires w in s.workers && s.workers[w].pc.Routing?
    ensures GoesOn(s, RoutingReply(cfg, s, w), Step.Work(w, Route))
  {
    hide Ending, ReplyFrame, MakesChange, ListsEvents;
    EndingShares(s, w, ToEverybody);
    EndingShares(s, w, ClientGone);
  }

  lemma LeaveGoesOn(s: State, w: nat)
    requires w in s.workers && s.workers[w].pc.Leaving? && s.active > 0
    ensures GoesOn(s, Exiting(s, w), Step.Work(w, Leave))
  {
    hide MakesChange, ListsEvents;
  }

  lemma SendGoesOn(s: State, step: SendStep)
    requires SendEnabled(s, step)
    ensures GoesOn(s, ExecSend(s, step), Step.Deliver(step))
  {
    hide Ending, Answering, IsFull, MakesChange, ListsEvents, Sent;
    if step.Act? {
      ActingShares(s);
      if s.lock.owner.Replier? && s.lock.owner.w in s.workers {
        EndingShares(s, s.lock.owner.w, Dropped);
        EndingShares(s, s.lock.owner.w, ClientGone);
        AnswerShares(s, s.lock.owner.w, s.lock.next.value.h, s.lock.f);
      }
    }
    hide Transmitted;
  }

  lemma StepGoesOn(cfg: Config, s: State, step: Step)
    requires Inv(s) && Enabled(s, step)
    ensures GoesOn(s, Exec(cfg, s, step), step)
  {
    hide Inv, ExecIo, ExecWork, ExecPush, ExecSend, ExecNet, ExecStop, MakesChange, ListsEvents;
    hide IoEnabled, WorkEnabled, PushEnabled, SendEnabled, NetEnabled, StopEnabled;
    match step
    case Io(io) => IoGoesOn(cfg, s, io);
    case Work(w, work) => WorkGoesOn(cfg, s, w, work);
    case Main(push) => PushShares(cfg, s, push);
    case Deliver(send) => SendGoesOn(s, send);
    case Net(net) => NetShares(s, net);
    case Stop(stop) => StopShares(s, stop);
  }

  // ----- whole runs -----

  // In every run, every entry of every history was written by the step it stands for.
  lemma {:induction false} EntryExplained(cfg: Config, steps: seq<Step>, n: nat, h: Handle, j: nat)
    requires CanRun(cfg, INITIAL, steps) && n <= |steps|
    requires var s := At(cfg, INITIAL, steps, n); h in s.history && j < |s.history[h]|
    ensures exists i: nat ::
              i < n && Explains(cfg, At(cfg, INITIAL, steps, i), steps[i], h, At(cfg, INITIAL, steps, n).history[h][j])
    decreases n
  {
    hide Inv, Orderly, Exec, Enabled, CanRun, Explains, Reachable;
    if n == 0 {
    } else {
      var s, step := At(cfg, INITIAL, steps, n - 1), steps[n - 1];
      AtStep(cfg, INITIAL, steps, n - 1);
      InitialReachable(cfg);
      ReachableAt(cfg, INITIAL, steps, n - 1);
      InvReachable(cfg, s);
      StepWrites(cfg, s, step);
      assert h in s.history;
      if j < |s.history[h]| { EntryExplained(cfg, steps, n - 1, h, j); }
    }
  }
}
