// Every request is accounted for: at any moment it is in the hands of exactly one thread or has
// ended exactly once, on the connection it came from, with a frame that answers it or unanswered
// for a reason.

module Accounts {
  import opened Common
  import opened Messages
  import opened Registry
  import opened Network
  import opened Requests
  import opened Protocol
  import opened Invariants
  import opened Locking
  import Handlers

  // The request that ended with an entry, if one did.
  function TicketOf(e: Entry): Option<nat> {
    match e
    case Enqueued(_, answers) => answers
    case Changed(_, _, _) => None
    case Lost(ticket, _) => Some(ticket)
  }

  function IoTicket(io: IoPc): set<nat> {
    if io.Holding? || io.Admitted? || io.Counted? then {io.ticket} else {}
  }

  function Pending(workers: map<nat, Worker>): set<nat> {
    set w | w in workers && !workers[w].pc.Leaving? :: workers[w].ticket
  }

  // The requests some thread still has to answer.
  function InHand(s: State): set<nat> { IoTicket(s.io) + Pending(s.workers) }

  ghost predicate OneWorkerEach(workers: map<nat, Worker>) {
    forall v, w :: v in workers && w in workers && v != w && !workers[v].pc.Leaving? && !workers[w].pc.Leaving? ==>
      workers[v].ticket != workers[w].ticket
  }

  // `e` is a proper end for request `k`.
  ghost predicate EndsAs(cfg: Config, e: Entry, k: nat, payload: Payload) {
    match e
    case Enqueued(f, answers) => answers == Some(k) && Fits(payload, f.msg)
    case Changed(_, _, _) => false
    case Lost(ticket, why) =>
      ticket == k && (why.ClientGone? || why.Dropped? || why.Raised? || (why.NoProcessor? && !cfg.hasProcessor))
  }

  ghost predicate Ended(cfg: Config, s: State, k: nat) {
    && k in s.settledAt && k < |s.requests|
    && s.requests[k].h in s.history && s.settledAt[k] < |s.history[s.requests[k].h]|
    && EndsAs(cfg, s.history[s.requests[k].h][s.settledAt[k]], k, s.requests[k].payload)
  }

  // Every entry that ends a request is the one on record for it.
  ghost predicate OnRecord(s: State) {
    forall h, i :: h in s.history && 0 <= i < |s.history[h]| && TicketOf(s.history[h][i]).Some? ==>
      var k := TicketOf(s.history[h][i]).value;
      k in s.settledAt && s.settledAt[k] == i && k < |s.requests| && s.requests[k].h == h
  }

  ghost predicate OneHolder(s: State) {
    OneWorkerEach(s.workers) && IoTicket(s.io) !! Pending(s.workers)
  }

  ghost predicate Accounted(cfg: Config, s: State) {
    && OneHolder(s) && InHand(s) !! s.settledAt.Keys
    && (forall k: nat :: k in InHand(s) || k in s.settledAt <==> k < |s.requests|)
    && (forall k :: k in s.settledAt ==> Ended(cfg, s, k))
    && OnRecord(s)
  }

  // A frame queued as an answer answers a request of its own connection.
  lemma AnswerOnRecord(cfg: Config, s: State, h: Handle, i: nat)
    requires Accounted(cfg, s) && h in s.history && i < |s.history[h]|
    requires s.history[h][i].Enqueued? && s.history[h][i].answers.Some?
    ensures var k := s.history[h][i].answers.value;
            k < |s.requests| && s.requests[k].h == h && Fits(s.requests[k].payload, s.history[h][i].f.msg)
  {
    hide OneHolder, InHand, Fits;
    var e := s.history[h][i];
    assert TicketOf(e) == e.answers;
    assert Ended(cfg, s, e.answers.value);
  }

  // ----- steps that end no request -----

  // Histories grow only by entries that end nothing.
  ghost predicate QuietGrowth(a: map<Handle, seq<Entry>>, b: map<Handle, seq<Entry>>) {
    && (forall h :: h in a ==> h in b && a[h] <= b[h])
    && (forall h, i :: h in b && 0 <= i < |b[h]| && TicketOf(b[h][i]).Some? ==> h in a && i < |a[h]|)
  }

  lemma AccountedFramed(cfg: Config, s: State, s': State)
    requires Accounted(cfg, s) && s'.requests == s.requests && s'.settledAt == s.settledAt
    requires QuietGrowth(s.history, s'.history)
    requires InHand(s') == InHand(s) && OneHolder(s')
    ensures Accounted(cfg, s')
  {
    hide OneHolder, InHand, TicketOf, EndsAs;
    forall k | k in s'.settledAt
      ensures Ended(cfg, s', k)
    {
      assert Ended(cfg, s, k);
    }
    forall h, i | h in s'.history && 0 <= i < |s'.history[h]| && TicketOf(s'.history[h][i]).Some?
      ensures var k := TicketOf(s'.history[h][i]).value;
              k in s'.settledAt && s'.settledAt[k] == i && k < |s'.requests| && s'.requests[k].h == h
    {
      assert s'.history[h][i] == s.history[h][i];
    }
  }

  // Nothing that matters here changes.
  lemma AccountedSame(cfg: Config, s: State, s': State)
    requires Accounted(cfg, s) && s'.requests == s.requests && s'.settledAt == s.settledAt
    requires s'.history == s.history && s'.workers == s.workers && IoTicket(s'.io) == IoTicket(s.io)
    ensures Accounted(cfg, s')
  {
    hide Accounted;
    assert QuietGrowth(s.history, s'.history);
    assert InHand(s') == InHand(s) && OneHolder(s') by { Same(cfg, s, s'); }
    hide QuietGrowth;
    AccountedFramed(cfg, s, s');
  }

  lemma Same(cfg: Config, s: State, s': State)
    requires Accounted(cfg, s) && s'.workers == s.workers && IoTicket(s'.io) == IoTicket(s.io)
    ensures InHand(s') == InHand(s) && OneHolder(s')
  {
    hide Ended, OnRecord, OneWorkerEach;
  }

  // ----- one more request -----

  lemma ReceiveAccounted(cfg: Config, s: State, h: Handle, payload: Payload)
    requires Accounted(cfg, s) && s.io.Idle?
    ensures Accounted(cfg, Receiving(s, h, payload))
  {
    var s' := Receiving(s, h, payload);
    if h in s.reg.sessions {
      var n := |s.requests|;
      assert n !in Pending(s.workers) && n !in s.settledAt;
      assert InHand(s') == InHand(s) + {n};
      forall k | k in s'.settledAt
        ensures Ended(cfg, s', k)
      {
        assert Ended(cfg, s, k);
        assert s'.requests[k] == s.requests[k];
      }
      hide OneWorkerEach, Pending, EndsAs;
      assert OnRecord(s');
    }
  }

  // ----- one request less -----

  lemma AccountedEnd(cfg: Config, s: State, s': State, h: Handle, k: nat, e: Entry)
    requires Accounted(cfg, s) && k in InHand(s) && s.requests[k].h == h && h in s.history
    requires EndsAs(cfg, e, k, s.requests[k].payload)
    requires s'.requests == s.requests && s'.settledAt == s.settledAt[k := |s.history[h]|]
    requires s'.history == s.history[h := s.history[h] + [e]]
    requires InHand(s') == InHand(s) - {k} && OneHolder(s')
    ensures Accounted(cfg, s')
  {
    hide OneHolder, InHand;
    assert k !in s.settledAt && TicketOf(e) == Some(k);
    forall j | j in s'.settledAt
      ensures Ended(cfg, s', j)
    {
      if j != k { assert Ended(cfg, s, j); }
    }
    hide EndsAs, Ended;
    forall g, i | g in s'.history && 0 <= i < |s'.history[g]| && TicketOf(s'.history[g][i]).Some?
      ensures var j := TicketOf(s'.history[g][i]).value;
              j in s'.settledAt && s'.settledAt[j] == i && j < |s'.requests| && s'.requests[j].h == g
    {
      if g == h && i == |s.history[h]| {
        assert s'.history[g][i] == e;
      } else {
        assert s'.history[g][i] == s.history[g][i];
      }
    }
  }

  lemma IoDone(cfg: Config, s: State, s': State)
    requires Accounted(cfg, s) && s'.workers == s.workers
    requires (s.io.Holding? || s.io.Admitted? || s.io.Counted?) && s'.io.Idle?
    ensures s.io.ticket in InHand(s) && InHand(s') == InHand(s) - {s.io.ticket} && OneHolder(s')
  {
    hide Ended, OnRecord, OneWorkerEach;
  }

  lemma WorkerDone(cfg: Config, s: State, s': State, w: nat)
    requires Accounted(cfg, s) && s'.io == s.io && w in s.workers && !s.workers[w].pc.Leaving?
    requires s'.workers == s.workers[w := s.workers[w].(pc := Leaving)]
    ensures s.workers[w].ticket in InHand(s) && InHand(s') == InHand(s) - {s.workers[w].ticket} && OneHolder(s')
  {
    hide Ended, OnRecord;
    var t := s.workers[w].ticket;
    assert Pending(s'.workers) == Pending(s.workers) - {t} by {
      assert forall v :: v in s.workers && v != w && !s.workers[v].pc.Leaving? ==> s.workers[v].ticket != t;
      forall j | j in Pending(s.workers) && j != t
        ensures j in Pending(s'.workers)
      {
        var v :| v in s.workers && !s.workers[v].pc.Leaving? && s.workers[v].ticket == j;
        assert s'.workers[v] == s.workers[v];
      }
    }
  }

  // What a loss does to the histories.
  lemma LossEffect(s: State, h: Handle, ticket: nat, why: Outcome)
    requires h in s.history
    ensures var s' := LosesRequest(s, h, ticket, why);
            && s'.history == s.history[h := s.history[h] + [Lost(ticket, why)]]
            && s'.settledAt == s.settledAt[ticket := |s.history[h]|]
            && s'.requests == s.requests && s'.workers == s.workers && s'.io == s.io
  {
  }

  // And a frame queued on one connection.
  lemma QueueEffect(s: State, h: Handle, f: Frame, a: Option<nat>)
    requires h in s.history && h in s.queues
    ensures Transmitted(s, s.queues[h := s.queues[h] + [f]], f, a).history ==
            s.history[h := s.history[h] + [Enqueued(f, a)]]
  {
    var after := s.queues[h := s.queues[h] + [f]];
    forall g | g in s.queues && g != h
      ensures after[g] != s.queues[g] + [f]
    {
      assert |after[g]| != |s.queues[g] + [f]|;
    }
  }

  // What an inline answer leaves on record.
  function InlineEntry(cfg: Config, s: State, h: Handle, ticket: nat, m: Message): Entry {
    if h in s.queues then Enqueued(MakeFrame(cfg.sizeOf, Inline, m), Some(ticket)) else Lost(ticket, ClientGone)
  }

  // An inline answer, or its loss, is the only thing that happens.
  lemma InlineEffect(cfg: Config, s: State, h: Handle, ticket: nat, m: Message)
    requires h in s.history
    ensures var s' := Inlined(cfg, s, h, ticket, m);
            && s'.history == s.history[h := s.history[h] + [InlineEntry(cfg, s, h, ticket, m)]]
            && s'.settledAt == s.settledAt[ticket := |s.history[h]|]
            && s'.requests == s.requests && s'.workers == s.workers && s'.io.Idle?
  {
    if h in s.queues {
      QueueEffect(Settled(s, h, ticket), h, MakeFrame(cfg.sizeOf, Inline, m), Some(ticket));
      hide Transmitted;
    } else {
      LossEffect(s, h, ticket, ClientGone);
      hide LosesRequest;
    }
  }

  lemma InlineAccounted(cfg: Config, s: State, m: Message)
    requires Accounted(cfg, s) && s.io.Holding? && s.io.h in s.history
    requires s.io.ticket < |s.requests| && s.requests[s.io.ticket] == Request(s.io.h, s.io.payload)
    requires Fits(s.io.payload, m)
    ensures Accounted(cfg, Inlined(cfg, s, s.io.h, s.io.ticket, m))
  {
    hide Accounted, Fits, InHand, Inlined;
    var h, ticket, s' := s.io.h, s.io.ticket, Inlined(cfg, s, s.io.h, s.io.ticket, m);
    InlineEffect(cfg, s, h, ticket, m);
    IoDone(cfg, s, s');
    AccountedEnd(cfg, s, s', h, ticket, InlineEntry(cfg, s, h, ticket, m));
  }

  lemma UnhandledAccounted(cfg: Config, s: State)
    requires Accounted(cfg, s) && s.io.Holding? && s.io.h in s.history && !cfg.hasProcessor
    requires s.io.ticket < |s.requests| && s.requests[s.io.ticket].h == s.io.h
    ensures Accounted(cfg, LosesRequest(s, s.io.h, s.io.ticket, NoProcessor).(io := Idle))
  {
    hide LosesRequest, Accounted, InHand;
    var s' := LosesRequest(s, s.io.h, s.io.ticket, NoProcessor).(io := Idle);
    LossEffect(s, s.io.h, s.io.ticket, NoProcessor);
    IoDone(cfg, s, s');
    AccountedEnd(cfg, s, s', s.io.h, s.io.ticket, Lost(s.io.ticket, NoProcessor));
  }

  lemma HoldingFacts(s: State)
    requires Inv(s) && s.io.Holding?
    ensures s.io.h in s.history && s.io.h in s.ids && s.io.ticket < |s.requests|
    ensures s.requests[s.io.ticket] == Request(s.io.h, s.io.payload)
  {
    hide Consistent, Histories, Streams;
  }

  lemma DispatchAccounted(cfg: Config, s: State)
    requires Inv(s) && Accounted(cfg, s) && s.io.Holding?
    ensures Accounted(cfg, Dispatching(cfg, s))
  {
    hide Inv, Accounted, Triaged, Inlined, LosesRequest, Fits, Derived, WellFormed;
    HoldingFacts(s);
    AdmittedNamesItsClient(s.io.payload, s.io.clientId, cfg.hasProcessor, s.active);
    match Triaged(s.io.payload, s.io.clientId, cfg.hasProcessor, s.active)
    case Reject(m) => InlineAccounted(cfg, s, m);
    case Heartbeat(m) => InlineAccounted(cfg, s, m);
    case Overloaded(m) => InlineAccounted(cfg, s, m);
    case Unhandled => UnhandledAccounted(cfg, s);
    case Admit(request) => AccountedSame(cfg, s, s.(io := Admitted(s.io.h, s.io.ticket, request)));
  }

  lemma EndingAccounted(cfg: Config, s: State, w: nat, why: Outcome)
    requires Accounted(cfg, s) && w in s.workers && !s.workers[w].pc.Leaving?
    requires s.workers[w].ticket < |s.requests| && s.requests[s.workers[w].ticket].h == s.workers[w].origin
    requires s.workers[w].origin in s.history && (why.ClientGone? || why.Dropped? || why.Raised?)
    ensures Accounted(cfg, Ending(s, w, why))
  {
    hide LosesRequest, Accounted, InHand;
    var worker, s' := s.workers[w], Ending(s, w, why);
    LossEffect(s, worker.origin, worker.ticket, why);
    WorkerDone(cfg, s, s', w);
    AccountedEnd(cfg, s, s', worker.origin, worker.ticket, Lost(worker.ticket, why));
  }

  lemma WorkerFacts(s: State, w: nat)
    requires Inv(s) && w in s.workers
    ensures var worker := s.workers[w];
            && worker.origin in s.history && worker.ticket < |s.requests|
            && s.requests[worker.ticket].h == worker.origin
            && (worker.pc.Routing? ==>
                  Fits(s.requests[worker.ticket].payload, worker.pc.reply) && worker.pc.clientId != ""
                  && (worker.pc.clientId in s.reg.idToHdl ==> s.reg.idToHdl[worker.pc.clientId] == worker.origin))
  {
    hide Histories, Streams;
    assert WorkerInHand(s, s.workers[w]);
    if s.workers[w].pc.Routing? { ReplyGoesHome(s, s.workers[w]); }
    hide Identities, RequestsInHand, Fits, WellFormed, Derived;
  }

  // Taking the mutex ends nothing, unless the client is gone.
  lemma RouteAccounted(cfg: Config, s: State, w: nat)
    requires Inv(s) && Accounted(cfg, s) && w in s.workers && s.workers[w].pc.Routing?
    ensures Accounted(cfg, RoutingReply(cfg, s, w))
  {
    hide Inv, Accounted, Ending, Fits, ReplyFrame;
    WorkerFacts(s, w);
    if s.workers[w].pc.clientId !in s.reg.idToHdl {
      EndingAccounted(cfg, s, w, ClientGone);
    } else {
      AccountedSame(cfg, s, RoutingReply(cfg, s, w));
    }
  }

  lemma RaiseAccounted(cfg: Config, s: State, w: nat)
    requires Inv(s) && Accounted(cfg, s) && w in s.workers && !s.workers[w].pc.Leaving?
    ensures Accounted(cfg, Raising(s, w))
  {
    hide Inv, Accounted, Ending, Fits;
    WorkerFacts(s, w);
    AccountedSame(cfg, s, s.(lock := Free));
    EndingAccounted(cfg, if Holds(s.lock, w) then s.(lock := Free) else s, w, Raised);
  }

  // The frame a worker queues on its own connection ends its request.
  lemma ReplyAccounted(cfg: Config, s: State, w: nat, f: Frame)
    requires Accounted(cfg, s) && w in s.workers && s.workers[w].pc.Routing? && f.msg == s.workers[w].pc.reply
    requires var worker := s.workers[w];
             && worker.ticket < |s.requests| && s.requests[worker.ticket].h == worker.origin
             && worker.origin in s.history && worker.origin in s.queues
             && Fits(s.requests[worker.ticket].payload, worker.pc.reply)
    ensures Accounted(cfg, Answering(s, w, s.workers[w].origin, f))
  {
    var worker := s.workers[w];
    var s' := Answering(s, w, worker.origin, f);
    QueueEffect(Settled(s, worker.origin, worker.ticket), worker.origin, f, Some(worker.ticket));
    hide Transmitted;
    WorkerDone(cfg, s, s', w);
    hide Accounted, InHand, Fits;
    AccountedEnd(cfg, s, s', worker.origin, worker.ticket, Enqueued(f, Some(worker.ticket)));
  }

  lemma ActAccounted(cfg: Config, s: State)
    requires Inv(s) && Orderly(s) && Accounted(cfg, s) && s.lock.Held? && s.lock.next.Some?
    ensures Accounted(cfg, Acting(s))
  {
    var c, f := s.lock.next.value, s.lock.f;
    assert Targeted(s.lock, c.h);
    match s.lock.owner
    case Callback =>
      hide Inv, Orderly;
      if c.room { PushedAccounted(cfg, s, Sent(s.queues, c.h, f), f); }
    case Replier(w) =>
      WorkerFacts(s, w);
      hide Inv, Accounted, Ending, Answering, Fits, Listens, Reserved;
      if c.room && c.h in s.queues {
        ReplyAccounted(cfg, s, w, f);
      } else {
        EndingAccounted(cfg, s, w, if c.room then ClientGone else Dropped);
      }
  }

  // ----- the other steps -----

  // A worker goes on with the request it has.
  lemma WorkerGoesOn(cfg: Config, s: State, w: nat, pc: WorkerPc)
    requires Accounted(cfg, s) && w in s.workers && !s.workers[w].pc.Leaving? && !pc.Leaving?
    ensures Accounted(cfg, WithPc(s, w, pc))
  {
    var s' := WithPc(s, w, pc);
    SamePending(s.workers, w, pc);
    assert QuietGrowth(s.history, s'.history);
    hide Ended, OnRecord, QuietGrowth, Pending;
    assert OneHolder(s') && InHand(s') == InHand(s);
    hide Accounted, InHand, OneHolder;
    AccountedFramed(cfg, s, s');
  }

  lemma SamePending(workers: map<nat, Worker>, w: nat, pc: WorkerPc)
    requires w in workers && !workers[w].pc.Leaving? && !pc.Leaving?
    ensures Pending(workers[w := workers[w].(pc := pc)]) == Pending(workers)
  {
    var workers' := workers[w := workers[w].(pc := pc)];
    forall v | v in workers && !workers[v].pc.Leaving?
      ensures workers[v].ticket in Pending(workers')
    {
      assert workers'[v].ticket == workers[v].ticket;
    }
  }

  lemma SubscribeEffect(s: State, w: nat)
    requires w in s.workers
    ensures var s', a := Subscribing(s, w), SubscriptionHandled(s.reg, Parsed(s.workers[w].request));
            a.Answer? ==>
              && s'.workers ==
                 WithPc(s, w, Routing(a.reply, OrEmpty(StrField(s.workers[w].request, CLIENT_ID)))).workers
              && s'.io == s.io && s'.requests == s.requests && s'.settledAt == s.settledAt
              && QuietGrowth(s.history, s'.history)
  {
    var a := SubscriptionHandled(s.reg, Parsed(s.workers[w].request));
    hide SubscriptionHandled, StrField, Ending;
    if a.Answer? {
      if a.change.Some? && a.change.value.h in s.history {
        var c := a.change.value;
        QuietAppend(s.history, c.h, Changed(c.op, c.listed, s.workers[w].ticket));
      }
      assert QuietGrowth(s.history, s.history);
      hide QuietGrowth;
    }
  }

  lemma QuietAppend(history: map<Handle, seq<Entry>>, h: Handle, e: Entry)
    requires h in history && TicketOf(e).None?
    ensures QuietGrowth(history, history[h := history[h] + [e]])
  {
  }

  lemma SubscribeAccounted(cfg: Config, s: State, w: nat)
    requires Inv(s) && Accounted(cfg, s) && w in s.workers && s.workers[w].pc.Ready?
    ensures Accounted(cfg, Subscribing(s, w))
  {
    hide Inv, Accounted, SubscriptionHandled, Subscribing, QuietGrowth, InHand, OneHolder;
    NeverSilent(s, w);
    SubscribeEffect(s, w);
    var a, s' := SubscriptionHandled(s.reg, Parsed(s.workers[w].request)), Subscribing(s, w);
    var mid := WithPc(s, w, Routing(a.reply, OrEmpty(StrField(s.workers[w].request, CLIENT_ID))));
    WorkerGoesOn(cfg, s, w, Routing(a.reply, OrEmpty(StrField(s.workers[w].request, CLIENT_ID))));
    Same(cfg, mid, s');
    AccountedFramed(cfg, mid, s');
  }

  lemma NeverSilent(s: State, w: nat)
    requires Inv(s) && w in s.workers
    ensures SubscriptionHandled(s.reg, Parsed(s.workers[w].request)).Answer?
    ensures s.workers[w].request.Obj?
  {
    hide Identities, Histories, Streams;
    assert WorkerInHand(s, s.workers[w]);
  }

  lemma HandleAccounted(cfg: Config, s: State, w: nat, sdk: Handlers.Sdk)
    requires Inv(s) && Accounted(cfg, s) && w in s.workers && s.workers[w].pc.Ready?
    ensures Accounted(cfg, Handling(s, w, sdk))
  {
    hide Inv, Accounted, Handlers.Answered;
    Handlers.EveryReplyIsCoherent(sdk, Parsed(s.workers[w].request));
    WorkerGoesOn(cfg, s, w, Handling(s, w, sdk).workers[w].pc);
  }

  lemma LeaveAccounted(cfg: Config, s: State, w: nat)
    requires Accounted(cfg, s) && w in s.workers && s.workers[w].pc.Leaving? && s.active > 0
    ensures Accounted(cfg, Exiting(s, w))
  {
    var s' := Exiting(s, w);
    assert Pending(s'.workers) == Pending(s.workers) by {
      forall v | v in s.workers && !s.workers[v].pc.Leaving?
        ensures s.workers[v].ticket in Pending(s'.workers)
      {
        assert s'.workers[v] == s.workers[v];
      }
    }
    assert QuietGrowth(s.history, s'.history);
    hide Ended, OnRecord, QuietGrowth, Pending;
    assert OneHolder(s') && InHand(s') == InHand(s);
    hide Accounted, InHand, OneHolder;
    AccountedFramed(cfg, s, s');
  }

  lemma SpawnAccounted(cfg: Config, s: State, w: nat)
    requires Accounted(cfg, s) && s.io.Counted? && w !in s.workers
    ensures Accounted(cfg, s.(workers := s.workers[w := Started(s)], io := Idle))
  {
    var s' := s.(workers := s.workers[w := Started(s)], io := Idle);
    assert Pending(s'.workers) == Pending(s.workers) + {s.io.ticket} by {
      assert s'.workers[w].ticket == s.io.ticket;
      forall v | v in s.workers && !s.workers[v].pc.Leaving?
        ensures s.workers[v].ticket in Pending(s'.workers)
      {
        assert s'.workers[v] == s.workers[v];
      }
    }
    assert forall v :: v in s.workers && !s.workers[v].pc.Leaving? ==> s.workers[v].ticket in Pending(s.workers);
    assert QuietGrowth(s.history, s'.history);
    hide Ended, OnRecord, QuietGrowth, Pending;
    assert OneHolder(s') && InHand(s') == InHand(s);
    hide Accounted, InHand, OneHolder;
    AccountedFramed(cfg, s, s');
  }

  lemma OpenAccounted(cfg: Config, s: State, h: Handle, id: string)
    requires Accounted(cfg, s) && h !in s.history
    ensures Accounted(cfg, Opening(s, h, id))
  {
    var s' := Opening(s, h, id);
    assert QuietGrowth(s.history, s'.history);
    hide QuietGrowth;
    Same(cfg, s, s');
    hide Accounted, InHand, OneHolder;
    AccountedFramed(cfg, s, s');
  }

  lemma PushedAccounted(cfg: Config, s: State, after: Queues, f: Frame)
    requires Accounted(cfg, s)
    ensures Accounted(cfg, Transmitted(s, after, f, None))
  {
    hide Accounted;
    var s' := Transmitted(s, after, f, None);
    assert QuietGrowth(s.history, s'.history);
    hide QuietGrowth, Transmitted;
    Same(cfg, s, s');
    hide InHand, OneHolder;
    AccountedFramed(cfg, s, s');
  }

  // ----- all steps, all runs -----

  lemma FreshHandle(s: State, h: Handle, id: string)
    requires Inv(s) && IoEnabled(s, Open(h, id))
    ensures h !in s.history
  {
    hide Consistent, RequestsInHand, Histories, Streams;
  }

  lemma CountAccounted(cfg: Config, s: State)
    requires Accounted(cfg, s) && s.io.Admitted?
    ensures Accounted(cfg, ExecIo(cfg, s, Count))
  {
    hide Accounted;
    AccountedSame(cfg, s, ExecIo(cfg, s, Count));
  }

  lemma ExitAccounted(cfg: Config, s: State)
    requires Accounted(cfg, s) && s.io.Idle?
    ensures Accounted(cfg, ExecIo(cfg, s, Exit))
  {
    hide Accounted;
    AccountedSame(cfg, s, ExecIo(cfg, s, Exit));
  }

  lemma IoAccounted(cfg: Config, s: State, step: IoStep)
    requires Inv(s) && Accounted(cfg, s) && IoEnabled(s, step)
    ensures Accounted(cfg, ExecIo(cfg, s, step))
  {
    hide Inv, Accounted, Opening, Receiving, Dispatching, Closed, IoTicket;
    match step
    case Open(h, id) => FreshHandle(s, h, id); OpenAccounted(cfg, s, h, id);
    case Receive(h, payload) => ReceiveAccounted(cfg, s, h, payload);
    case Dispatch => DispatchAccounted(cfg, s);
    case Spawn(w) => SpawnAccounted(cfg, s, w);
    case Close(h) => AccountedSame(cfg, s, s.(reg := Closed(s.reg, h)));
    case Count => CountAccounted(cfg, s);
    case Exit => ExitAccounted(cfg, s);
  }

  lemma WorkAccounted(cfg: Config, s: State, w: nat, step: WorkStep)
    requires Inv(s) && Accounted(cfg, s) && WorkEnabled(s, w, step)
    ensures Accounted(cfg, ExecWork(cfg, s, w, step))
  {
    hide Inv, Accounted, Subscribing, Handling, Raising, RoutingReply, Exiting;
    match step
    case ManageSubscription => SubscribeAccounted(cfg, s, w);
    case Handle(sdk) => HandleAccounted(cfg, s, w, sdk);
    case Raise => RaiseAccounted(cfg, s, w);
    case Route => RouteAccounted(cfg, s, w);
    case Leave => LeaveAccounted(cfg, s, w);
  }

  lemma PushAccounted(cfg: Config, s: State, step: PushStep)
    requires Accounted(cfg, s) && PushEnabled(s, step)
    ensures Accounted(cfg, ExecPush(cfg, s, step))
  {
    hide Accounted;
    AccountedSame(cfg, s, ExecPush(cfg, s, step));
  }

  lemma SendAccounted(cfg: Config, s: State, step: SendStep)
    requires Inv(s) && Orderly(s) && Accounted(cfg, s) && SendEnabled(s, step)
    ensures Accounted(cfg, ExecSend(s, step))
  {
    hide Inv, Orderly, Accounted, Acting, IsFull;
    if step.Act? {
      ActAccounted(cfg, s);
      AccountedSame(cfg, Acting(s), ExecSend(s, step));
    } else {
      AccountedSame(cfg, s, ExecSend(s, step));
    }
  }

  lemma NetAccounted(cfg: Config, s: State, step: NetStep)
    requires Accounted(cfg, s) && NetEnabled(s, step)
    ensures Accounted(cfg, ExecNet(s, step))
  {
    hide Accounted;
    AccountedSame(cfg, s, ExecNet(s, step));
  }

  lemma StopAccounted(cfg: Config, s: State, step: StopStep)
    requires Accounted(cfg, s) && StopEnabled(s, step)
    ensures Accounted(cfg, ExecStop(s, step))
  {
    hide Accounted;
    AccountedSame(cfg, s, ExecStop(s, step));
  }

  lemma AccountedStep(cfg: Config, s: State, step: Step)
    requires Inv(s) && Orderly(s) && Accounted(cfg, s) && Enabled(s, step)
    ensures Accounted(cfg, Exec(cfg, s, step))
  {
    hide Inv, Orderly, Accounted, ExecIo, ExecWork, ExecPush, ExecSend, ExecNet, ExecStop;
    hide IoEnabled, WorkEnabled, PushEnabled, SendEnabled, NetEnabled, StopEnabled;
    match step
    case Io(io) => IoAccounted(cfg, s, io);
    case Work(w, work) => WorkAccounted(cfg, s, w, work);
    case Main(push) => PushAccounted(cfg, s, push);
    case Deliver(send) => SendAccounted(cfg, s, send);
    case Net(net) => NetAccounted(cfg, s, net);
    case Stop(stop) => StopAccounted(cfg, s, stop);
  }

  lemma {:induction false} AccountedAfter(cfg: Config, s: State, steps: seq<Step>)
    requires Inv(s) && Orderly(s) && Accounted(cfg, s) && CanRun(cfg, s, steps)
    ensures Accounted(cfg, After(cfg, s, steps))
    decreases |steps|
  {
    hide Inv, Orderly, Accounted, Exec, Enabled;
    if steps == [] {
    } else {
      InvStep(cfg, s, steps[0]);
      OrderlyStep(cfg, s, steps[0]);
      AccountedStep(cfg, s, steps[0]);
      AccountedAfter(cfg, Exec(cfg, s, steps[0]), steps[1..]);
    }
  }

  lemma InitialAccounted(cfg: Config)
    ensures Accounted(cfg, INITIAL)
  {
  }

  lemma AccountedReachable(cfg: Config, s: State)
    requires Reachable(cfg, s)
    ensures Accounted(cfg, s)
  {
    hide Inv, Orderly, Accounted, Exec, Enabled;
    var steps :| CanRun(cfg, INITIAL, steps) && After(cfg, INITIAL, steps) == s;
    InvInitial();
    FreeIsOrderly(INITIAL);
    InitialAccounted(cfg);
    AccountedAfter(cfg, INITIAL, steps);
  }
}
